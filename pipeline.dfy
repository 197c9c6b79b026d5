/**
  The `torrenter(query, path)` function: ask for a query when none is given, decide
  whether it is a direct link or a search, search and rank, let the user pick a result,
  resolve the pick to a link, pass a web link through the anti-bot fetch, download, and
  report. Every collaborator (the prompts, the URL test, the indexer, the fetcher, the
  downloader) is a parameter; what the function does with them is recorded as a trace
  of events: the prompts and the calls to the indexer, the fetcher and the downloader
  in the order they are made, and the messages it reports. The exact-URL test is a
  pure predicate, and its calls are not traced.
 */
module Pipeline {
  import opened Wrappers
  import opened Records
  import opened Classify
  import opened Ranking
  import opened Labelling

  /** What the downloader resolves with: the folder and the paths of the saved files. */
  datatype Downloads = Downloads(path: string, files: seq<string>)

  /** A query typed at the prompt: its validation accepts only a non-empty answer. */
  type Typed = s: string | s != "" witness "?"

  /** The answer of the query prompt. */
  datatype QueryAnswer = QueryCancelled | Entered(text: Typed)

  /** The answer of the selection prompt: cancelled, or the position of the chosen
      entry among the choices. */
  datatype Selection = SelectCancelled | Picked(index: nat)

  /** The collaborators. `isExactUrl` is the exact-URL test, `askQuery` the query
      prompt, `search` the indexer's search, `select` the selection prompt given its
      choices and initial position, `lookup` the indexer's resolution of a result's
      site page to a link, `bypass` the anti-bot fetch (its response body) and
      `download` the downloader. A rejection carries its reason. */
  datatype Env = Env(
    isExactUrl: string -> bool,
    askQuery: QueryAnswer,
    search: string -> Result<seq<Candidate>, string>,
    select: (seq<Choice>, nat) -> Selection,
    lookup: Value -> Result<Value, string>,
    bypass: Value -> Result<string, string>,
    download: (Value, string) -> Result<Downloads, string>)

  /** The calls made and the messages reported, in order. */
  datatype Event =
    | PromptQuery
    | Search(query: string)
    | Found(count: nat)
    | PromptSelect(choices: seq<Choice>, initial: nat)
    | LookupSite(site: Value)
    | BypassFetch(url: Value)
    | Download(link: Value, path: string)
    | ReportSaved(path: string)
    | ReportFile(file: string)
    | ReportFatal(error: Error)
    | ReportAborted

  /** How a run ends: resolved with the downloads, a fatal error reported and
      `undefined` returned, or the process exited after a cancelled prompt. */
  datatype Outcome = Done(downloads: Downloads) | Failed(error: Error) | Exited

  datatype Report = Report(outcome: Outcome, trace: seq<Event>)

  /** Where the search block leaves a run: with the link to deliver and the events so
      far, or already ended. */
  datatype Picking = Next(link: Value, trace: seq<Event>) | Halt(report: Report)

  const DefaultPath: string := "downloads"
  const InitialChoice: nat := 0

  /** `r` preceded by the events `pre`. */
  function After(pre: seq<Event>, r: Report): Report {
    Report(r.outcome, pre + r.trace)
  }

  /** The catch block: the error is reported and the run ends. */
  function Fatal(pre: seq<Event>, e: Error): Report {
    Report(Failed(e), pre + [ReportFatal(e)])
  }

  /** The list of saved files, one line each. */
  function Listing(files: seq<string>): (l: seq<Event>)
    ensures |l| == |files|
    ensures forall i :: 0 <= i < |files| ==> l[i] == ReportFile(files[i])
  {
    seq(|files|, i requires 0 <= i < |files| => ReportFile(files[i]))
  }

  /** Download `link` into `path`, then report the folder and every saved file. */
  function Fetch(env: Env, link: Value, path: string): Report {
    match env.download(link, path)
    case Failure(reason) => Fatal([Download(link, path)], Rejected(reason))
    case Success(d) => Report(Done(d), [Download(link, path), ReportSaved(d.path)] + Listing(d.files))
  }

  /** A link the exact-URL test accepts, once converted to a string, is a web page: its
      body, fetched past the anti-bot check, is what gets downloaded. */
  function Deliver(env: Env, link: Value, path: string): Report {
    if env.isExactUrl(Render(link)) then
      match env.bypass(link)
      case Failure(reason) => Fatal([BypassFetch(link)], Rejected(reason))
      case Success(body) => After([BypassFetch(link)], Fetch(env, Str(body), path))
    else Fetch(env, link, path)
  }

  /** The link of the chosen result: its own `link` when truthy; otherwise, when its
      `site` is truthy, the link the indexer resolves the site to; otherwise its `link`
      as it is. */
  function Resolve(env: Env, picked: Record, pre: seq<Event>): Picking {
    var link := Get(picked, "link");
    var site := Get(picked, "site");
    if !Truthy(link) && Truthy(site) then
      match env.lookup(site)
      case Failure(reason) => Halt(Fatal(pre + [LookupSite(site)], Rejected(reason)))
      case Success(found) => Next(found, pre + [LookupSite(site)])
    else Next(link, pre)
  }

  /** Label the ranked results, let the user choose one, then resolve it. An answer
      that is not one of the choices (there is none when the search found nothing)
      leaves `answers.torrent` undefined, and reading its `link` throws. Labelling
      leaves `link` and `site` as they were, so they are read from the ranked result
      itself. */
  function Choose(env: Env, torrents: seq<Candidate>, pre: seq<Event>): Picking {
    match Choices(torrents)
    case Failure(e) => Halt(Fatal(pre, e))
    case Success(choices) =>
      var shown := pre + [PromptSelect(choices, InitialChoice)];
      match env.select(choices, InitialChoice)
      case SelectCancelled => Halt(Report(Exited, shown + [ReportAborted]))
      case Picked(i) =>
        if i < |torrents| then Resolve(env, torrents[i], shown)
        else Halt(Fatal(shown, TypeError("link")))
  }

  /** Search, rank by score, resolution and seeders, and choose. */
  function PickLink(env: Env, query: string): Picking {
    match env.search(query)
    case Failure(reason) => Halt(Fatal([Search(query)], Rejected(reason)))
    case Success(data) => Choose(env, Rank(data, KeyOf), [Search(query), Found(|data|)])
  }

  /** A direct query is itself the link; anything else is searched for. */
  function Dispatch(env: Env, query: string, path: string): Report {
    if IsDirect(query, env.isExactUrl) then Deliver(env, Str(query), path)
    else
      match PickLink(env, query)
      case Halt(r) => r
      case Next(link, pre) => After(pre, Deliver(env, link, path))
  }

  /** The `path` parameter's default. */
  function Folder(path: Option<string>): string {
    if path.Some? then path.value else DefaultPath
  }

  /** `!query`: no query, or the empty one. */
  predicate Missing(query: Option<string>) {
    query.None? || query.value == ""
  }

  /** A whole run. A missing or empty query is asked for; cancelling that prompt (or
      the selection prompt) reports the abort and exits the process. */
  function Run(env: Env, query: Option<string>, path: Option<string>): Report {
    if Missing(query) then
      match env.askQuery
      case QueryCancelled => Report(Exited, [PromptQuery, ReportAborted])
      case Entered(q) => After([PromptQuery], Dispatch(env, q, Folder(path)))
    else Dispatch(env, query.value, Folder(path))
  }

  /** The events before dispatch: the query prompt, when it is shown. */
  function Asked(query: Option<string>): seq<Event> {
    if Missing(query) then [PromptQuery] else []
  }

  /** Once the query is known, the run is the prompt, if one was shown, followed by
      the dispatch of that query. */
  lemma RunDispatches(env: Env, query: Option<string>, path: Option<string>, q: string)
    requires Missing(query) ==> env.askQuery.Entered? && env.askQuery.text == q
    requires !Missing(query) ==> q == query.value
    ensures Run(env, query, path) == After(Asked(query), Dispatch(env, q, Folder(path)))
  {
    if !Missing(query) {
      assert [] + Dispatch(env, q, Folder(path)).trace == Dispatch(env, q, Folder(path)).trace;
    }
  }

  /** A run whose search block ends it. */
  lemma RunHalts(env: Env, query: Option<string>, path: Option<string>, q: string, r: Report)
    requires Missing(query) ==> env.askQuery.Entered? && env.askQuery.text == q
    requires !Missing(query) ==> q == query.value
    requires !IsDirect(q, env.isExactUrl) && PickLink(env, q) == Halt(r)
    ensures Run(env, query, path) == After(Asked(query), r)
  {
    RunDispatches(env, query, path, q);
  }

  /** A run that reaches the delivery of `link`, after the events `pre` of the search
      block (none for a direct query). */
  lemma RunDelivers(env: Env, query: Option<string>, path: Option<string>, q: string, link: Value, pre: seq<Event>)
    requires Missing(query) ==> env.askQuery.Entered? && env.askQuery.text == q
    requires !Missing(query) ==> q == query.value
    requires IsDirect(q, env.isExactUrl) ==> link == Str(q) && pre == []
    requires !IsDirect(q, env.isExactUrl) ==> PickLink(env, q) == Next(link, pre)
    ensures Run(env, query, path) == After(Asked(query) + pre, Deliver(env, link, Folder(path)))
  {
    RunDispatches(env, query, path, q);
    var d := Deliver(env, link, Folder(path));
    if IsDirect(q, env.isExactUrl) {
      assert Asked(query) + [] == Asked(query);
    } else {
      assert Asked(query) + (pre + d.trace) == Asked(query) + pre + d.trace;
    }
  }

  /** The `if (!isTorrent)` block: search, rank, label the results in place, ask, and
      read the chosen object's `link` and `site` after labelling. */
  method Pick(env: Env, q: string) returns (p: Picking)
    ensures p == PickLink(env, q)
  {
    var trace := [Search(q)];
    var data := env.search(q);
    if data.Failure? {
      return Halt(Report(Failed(Rejected(data.error)), trace + [ReportFatal(Rejected(data.error))]));
    }
    var torrents := Rank(data.value, KeyOf);
    trace := trace + [Found(|data.value|)];
    assert trace == [Search(q), Found(|data.value|)];
    var items, choices := BuildChoices(torrents);
    if choices.Failure? {
      return Halt(Report(Failed(choices.error), trace + [ReportFatal(choices.error)]));
    }
    trace := trace + [PromptSelect(choices.value, InitialChoice)];
    var answer := env.select(choices.value, InitialChoice);
    if answer.SelectCancelled? {
      return Halt(Report(Exited, trace + [ReportAborted]));
    }
    if answer.index >= |items| {
      return Halt(Report(Failed(TypeError("link")), trace + [ReportFatal(TypeError("link"))]));
    }
    var picked := items[answer.index].props;
    LabelledKeeps(torrents[answer.index], choices.value[answer.index], "link");
    LabelledKeeps(torrents[answer.index], choices.value[answer.index], "site");
    var link := Get(picked, "link");
    var site := Get(picked, "site");
    if !Truthy(link) && Truthy(site) {
      trace := trace + [LookupSite(site)];
      var found := env.lookup(site);
      if found.Failure? {
        return Halt(Report(Failed(Rejected(found.error)), trace + [ReportFatal(Rejected(found.error))]));
      }
      link := found.value;
    }
    p := Next(link, trace);
  }

  /** From the URL test on the link to the end: the anti-bot fetch when it is a web
      link, then the download. */
  method Finish(env: Env, link: Value, folder: string) returns (outcome: Outcome, trace: seq<Event>)
    ensures Report(outcome, trace) == Deliver(env, link, folder)
  {
    if env.isExactUrl(Render(link)) {
      var body := env.bypass(link);
      if body.Failure? {
        return Failed(Rejected(body.error)), [BypassFetch(link), ReportFatal(Rejected(body.error))];
      }
      var rest;
      outcome, rest := Save(env, Str(body.value), folder);
      trace := [BypassFetch(link)] + rest;
    } else {
      outcome, trace := Save(env, link, folder);
    }
  }

  /** The download, then the report of the folder and of every saved file. */
  method Save(env: Env, target: Value, folder: string) returns (outcome: Outcome, trace: seq<Event>)
    ensures Report(outcome, trace) == Fetch(env, target, folder)
  {
    trace := [Download(target, folder)];
    var downloads := env.download(target, folder);
    if downloads.Failure? {
      return Failed(Rejected(downloads.error)), trace + [ReportFatal(Rejected(downloads.error))];
    }
    var d := downloads.value;
    trace := trace + [ReportSaved(d.path)];
    ghost var saved := trace;
    var k := 0;
    while k < |d.files|
      invariant 0 <= k <= |d.files|
      invariant trace == saved + Listing(d.files[..k])
    {
      ListingGrows(d.files, k);
      trace := trace + [ReportFile(d.files[k])];
      k := k + 1;
    }
    assert d.files[..k] == d.files;
    outcome := Done(d);
  }

  /** Listing one more file adds its line at the end. */
  lemma ListingGrows(files: seq<string>, k: nat)
    requires k < |files|
    ensures Listing(files[..k + 1]) == Listing(files[..k]) + [ReportFile(files[k])]
  {
  }

  /** The function itself: ask for a missing query, classify it, run the search block
      unless it is direct, then deliver `link`. */
  method Torrenter(env: Env, query: Option<string>, path: Option<string>) returns (outcome: Outcome, trace: seq<Event>)
    ensures Report(outcome, trace) == Run(env, query, path)
  {
    var folder := if path.Some? then path.value else DefaultPath;
    trace := [];
    var q: string;
    if query.None? || query.value == "" {
      trace := trace + [PromptQuery];
      match env.askQuery
      case QueryCancelled =>
        return Exited, [PromptQuery, ReportAborted];
      case Entered(typed) =>
        q := typed;
    } else {
      q := query.value;
    }

    var isTorrent := false;
    var link: Value := Undefined;
    if StartsWith(q, MagnetPrefix) {
      isTorrent := true;
      link := Str(q);
    } else if env.isExactUrl(q) {
      isTorrent := true;
      link := Str(q);
    }

    assert trace == Asked(query);
    if !isTorrent {
      var p := Pick(env, q);
      if p.Halt? {
        RunHalts(env, query, path, q, p.report);
        return p.report.outcome, trace + p.report.trace;
      }
      link := p.link;
      trace := trace + p.trace;
    }
    RunDelivers(env, query, path, q, link, trace[|Asked(query)|..]);

    var rest;
    outcome, rest := Finish(env, link, folder);
    trace := trace + rest;
  }
}
