/**
  What a run of `torrenter` guarantees, whatever its collaborators do: it moves through
  its stages in order, shows no prompt twice, calls the indexer's search, its site
  lookup, the anti-bot fetch and the downloader at most once each, and the way it ends
  matches what it reported. Then, per kind of query, which calls it makes.
 */
module Properties {
  import opened Wrappers
  import opened Records
  import opened Classify
  import opened Ranking
  import opened Labelling
  import opened Pipeline

  /** The stage of a run an event belongs to. */
  function Phase(e: Event): nat {
    match e
    case PromptQuery => 0
    case Search(_) => 1
    case Found(_) => 2
    case PromptSelect(_, _) => 3
    case LookupSite(_) => 4
    case BypassFetch(_) => 5
    case Download(_, _) => 6
    case ReportSaved(_) => 7
    case ReportFile(_) => 8
    case ReportFatal(_) => 9
    case ReportAborted => 9
  }

  /** Stages only move forward; only the list of saved files repeats a stage. */
  ghost predicate Ordered(t: seq<Event>) {
    forall i, j :: 0 <= i < j < |t| ==> Phase(t[i]) < Phase(t[j]) || (t[i].ReportFile? && t[j].ReportFile?)
  }

  ghost predicate From(t: seq<Event>, n: nat) {
    forall i :: 0 <= i < |t| ==> n <= Phase(t[i])
  }

  ghost predicate Before(t: seq<Event>, n: nat) {
    forall i :: 0 <= i < |t| ==> Phase(t[i]) < n
  }

  /** The end of a run agrees with its trace: a failure is reported last and nothing was
      saved; an exit follows the abort message and nothing was downloaded; success is
      exactly what the downloader returned for the one download call, followed by the
      folder and the list of files, with no error or abort reported. */
  ghost predicate Consistent(env: Env, r: Report) {
    var t := r.trace;
    match r.outcome
    case Failed(e) =>
      && |t| > 0 && t[|t| - 1] == ReportFatal(e)
      && forall i :: 0 <= i < |t| ==> !t[i].ReportSaved?
    case Exited =>
      && |t| > 0 && t[|t| - 1] == ReportAborted
      && forall i :: 0 <= i < |t| ==> !t[i].Download?
    case Done(d) =>
      && |t| >= |d.files| + 2
      && t[|t| - |d.files| - 2].Download?
      && env.download(t[|t| - |d.files| - 2].link, t[|t| - |d.files| - 2].path) == Success(d)
      && t[|t| - |d.files| - 1] == ReportSaved(d.path)
      && t[|t| - |d.files|..] == Listing(d.files)
      && forall i :: 0 <= i < |t| ==> !t[i].ReportFatal? && !t[i].ReportAborted?
  }

  ghost predicate WellFormed(env: Env, r: Report, n: nat) {
    Ordered(r.trace) && From(r.trace, n) && Consistent(env, r)
  }

  lemma OrderedConcat(a: seq<Event>, b: seq<Event>, n: nat)
    requires Ordered(a) && Before(a, n)
    requires Ordered(b) && From(b, n)
    ensures Ordered(a + b)
  {
    forall i, j | 0 <= i < j < |a + b|
      ensures Phase((a + b)[i]) < Phase((a + b)[j]) || ((a + b)[i].ReportFile? && (a + b)[j].ReportFile?)
    {
      if j < |a| {
        assert (a + b)[i] == a[i] && (a + b)[j] == a[j];
      } else if i < |a| {
        assert (a + b)[i] == a[i] && (a + b)[j] == b[j - |a|];
      } else {
        assert (a + b)[i] == b[i - |a|] && (a + b)[j] == b[j - |a|];
      }
    }
  }

  lemma AfterConsistent(env: Env, pre: seq<Event>, r: Report)
    requires Before(pre, 6) && Consistent(env, r)
    ensures Consistent(env, After(pre, r))
  {
    var t := pre + r.trace;
    match r.outcome
    case Failed(e) =>
      assert forall i :: |pre| <= i < |t| ==> t[i] == r.trace[i - |pre|];
    case Exited =>
      assert forall i :: |pre| <= i < |t| ==> t[i] == r.trace[i - |pre|];
    case Done(d) =>
      var k := |r.trace| - |d.files| - 2;
      assert t[|t| - |d.files| - 2] == r.trace[k];
      assert t[|t| - |d.files| - 1] == r.trace[k + 1];
      assert t[|t| - |d.files|..] == r.trace[k + 2..];
      assert forall i :: |pre| <= i < |t| ==> t[i] == r.trace[i - |pre|];
  }

  /** Events that come before stage `n` keep a well-formed report well-formed when
      put in front of it. */
  lemma AfterWellFormed(env: Env, pre: seq<Event>, r: Report, m: nat, n: nat)
    requires n <= 6 && m <= n
    requires Ordered(pre) && Before(pre, n) && From(pre, m)
    requires WellFormed(env, r, n)
    ensures WellFormed(env, After(pre, r), m)
  {
    OrderedConcat(pre, r.trace, n);
    AfterConsistent(env, pre, r);
    var t := pre + r.trace;
    assert forall i :: |pre| <= i < |t| ==> t[i] == r.trace[i - |pre|];
  }

  lemma FatalWellFormed(env: Env, pre: seq<Event>, e: Error, m: nat)
    requires Ordered(pre) && Before(pre, 7) && From(pre, m) && m <= 9
    ensures WellFormed(env, Fatal(pre, e), m)
  {
    OrderedConcat(pre, [ReportFatal(e)], 9);
  }

  lemma FetchWellFormed(env: Env, link: Value, path: string)
    ensures WellFormed(env, Fetch(env, link, path), 6)
    ensures Fetch(env, link, path).trace[0] == Download(link, path)
  {
    match env.download(link, path)
    case Failure(reason) =>
      FatalWellFormed(env, [Download(link, path)], Rejected(reason), 6);
    case Success(d) =>
      var t := [Download(link, path), ReportSaved(d.path)] + Listing(d.files);
      OrderedConcat([Download(link, path), ReportSaved(d.path)], Listing(d.files), 8);
      assert t[2..] == Listing(d.files);
  }

  lemma DeliverWellFormed(env: Env, link: Value, path: string)
    ensures WellFormed(env, Deliver(env, link, path), 5)
  {
    FetchWellFormed(env, link, path);
    if env.isExactUrl(Render(link)) {
      match env.bypass(link)
      case Failure(reason) =>
        FatalWellFormed(env, [BypassFetch(link)], Rejected(reason), 5);
      case Success(body) =>
        FetchWellFormed(env, Str(body), path);
        AfterWellFormed(env, [BypassFetch(link)], Fetch(env, Str(body), path), 5, 6);
    }
  }

  /** The downloader is called once, first, with the link it is given. */
  lemma FetchDownloadsOnce(env: Env, target: Value, path: string)
    ensures Fetch(env, target, path).trace[0] == Download(target, path)
    ensures forall j :: 0 < j < |Fetch(env, target, path).trace| ==> !Fetch(env, target, path).trace[j].Download?
  {
    FetchWellFormed(env, target, path);
    var t := Fetch(env, target, path).trace;
    forall j | 0 < j < |t|
      ensures !t[j].Download?
    {
      assert Phase(t[0]) < Phase(t[j]);
    }
  }

  /** A link the exact-URL test accepts is fetched past the anti-bot check first. A
      rejected fetch is fatal. Otherwise the downloader is called once, with the
      fetched body as it is (never the link itself, and the body is not tested
      again). A link the test refuses goes to the downloader unchanged. */
  lemma DeliverBypasses(env: Env, link: Value, path: string)
    ensures var t := Deliver(env, link, path).trace;
      env.isExactUrl(Render(link)) ==> |t| >= 2 && t[0] == BypassFetch(link)
    ensures var t := Deliver(env, link, path).trace;
      env.isExactUrl(Render(link)) && env.bypass(link).Success? ==>
        && t[1] == Download(Str(env.bypass(link).value), path)
        && forall j :: 0 <= j < |t| && j != 1 ==> !t[j].Download?
    ensures env.isExactUrl(Render(link)) && env.bypass(link).Failure? ==>
      Deliver(env, link, path) == Report(Failed(Rejected(env.bypass(link).error)), [BypassFetch(link)] + [ReportFatal(Rejected(env.bypass(link).error))])
    ensures var t := Deliver(env, link, path).trace;
      !env.isExactUrl(Render(link)) ==>
        && t[0] == Download(link, path)
        && forall j :: 0 < j < |t| ==> !t[j].Download?
  {
    if env.isExactUrl(Render(link)) {
      match env.bypass(link)
      case Failure(reason) =>
      case Success(body) =>
        var fetched := Fetch(env, Str(body), path).trace;
        FetchDownloadsOnce(env, Str(body), path);
        FetchWellFormed(env, Str(body), path);
        assert Deliver(env, link, path).trace == [BypassFetch(link)] + fetched;
        forall j | 1 < j < 1 + |fetched|
          ensures ([BypassFetch(link)] + fetched)[j] == fetched[j - 1]
        {
        }
    } else {
      FetchDownloadsOnce(env, link, path);
    }
  }

  /** Where the search block leaves a run: either ended, well-formed, or with events
      from the search up to the lookup only. */
  ghost predicate PickedWell(env: Env, p: Picking) {
    match p
    case Halt(r) => WellFormed(env, r, 1)
    case Next(_, pre) => Ordered(pre) && Before(pre, 5) && From(pre, 1)
  }

  lemma ResolveWellFormed(env: Env, picked: Record, pre: seq<Event>)
    requires Ordered(pre) && Before(pre, 4) && From(pre, 1)
    ensures PickedWell(env, Resolve(env, picked, pre))
  {
    var site := Get(picked, "site");
    OrderedConcat(pre, [LookupSite(site)], 4);
    if !Truthy(Get(picked, "link")) && Truthy(site) {
      match env.lookup(site)
      case Failure(reason) =>
        FatalWellFormed(env, pre + [LookupSite(site)], Rejected(reason), 1);
      case Success(found) =>
    }
  }

  lemma SelectWellFormed(env: Env, torrents: seq<Candidate>, shown: seq<Event>, choices: seq<Choice>)
    requires Ordered(shown) && Before(shown, 4) && From(shown, 1)
    ensures PickedWell(env, match env.select(choices, InitialChoice)
      case SelectCancelled => Halt(Report(Exited, shown + [ReportAborted]))
      case Picked(i) =>
        if i < |torrents| then Resolve(env, torrents[i], shown)
        else Halt(Fatal(shown, TypeError("link"))))
  {
    match env.select(choices, InitialChoice)
    case SelectCancelled =>
      OrderedConcat(shown, [ReportAborted], 9);
    case Picked(i) =>
      if i < |torrents| {
        ResolveWellFormed(env, torrents[i], shown);
      } else {
        FatalWellFormed(env, shown, TypeError("link"), 1);
      }
  }

  lemma ChooseWellFormed(env: Env, torrents: seq<Candidate>, pre: seq<Event>)
    requires Ordered(pre) && Before(pre, 3) && From(pre, 1)
    ensures PickedWell(env, Choose(env, torrents, pre))
  {
    match Choices(torrents)
    case Failure(e) =>
      FatalWellFormed(env, pre, e, 1);
    case Success(choices) =>
      OrderedConcat(pre, [PromptSelect(choices, InitialChoice)], 3);
      SelectWellFormed(env, torrents, pre + [PromptSelect(choices, InitialChoice)], choices);
  }

  /** A rejected search ends the search block with the rejection. */
  lemma PickLinkRejects(env: Env, q: string, reason: string)
    requires env.search(q) == Failure(reason)
    ensures PickLink(env, q) == Halt(Report(Failed(Rejected(reason)), [Search(q)] + [ReportFatal(Rejected(reason))]))
  {
  }

  /** A successful search hands the ranked results to the selection step. */
  lemma PickLinkChooses(env: Env, q: string, data: seq<Candidate>)
    requires env.search(q) == Success(data)
    ensures PickLink(env, q) == Choose(env, Rank(data, KeyOf), [Search(q), Found(|data|)])
  {
  }

  lemma PickLinkWellFormed(env: Env, query: string)
    ensures PickedWell(env, PickLink(env, query))
  {
    match env.search(query)
    case Failure(reason) =>
      RejectedWellFormed(env, query, reason);
    case Success(data) =>
      PickLinkChooses(env, query, data);
      SearchedInOrder(query, |data|);
      ChooseWellFormed(env, Rank(data, KeyOf), [Search(query), Found(|data|)]);
  }

  /** A rejected search ends a well-formed run. */
  lemma RejectedWellFormed(env: Env, query: string, reason: string)
    ensures WellFormed(env, Fatal([Search(query)], Rejected(reason)), 1)
  {
    FatalWellFormed(env, [Search(query)], Rejected(reason), 1);
  }

  /** The search and its count of results are the first two stages. */
  lemma SearchedInOrder(query: string, n: nat)
    ensures Ordered([Search(query), Found(n)])
    ensures Before([Search(query), Found(n)], 3) && From([Search(query), Found(n)], 1)
  {
  }

  lemma DispatchWellFormed(env: Env, query: string, path: string)
    ensures WellFormed(env, Dispatch(env, query, path), 1)
  {
    DeliverWellFormed(env, Str(query), path);
    if !IsDirect(query, env.isExactUrl) {
      PickLinkWellFormed(env, query);
      match PickLink(env, query)
      case Halt(r) =>
      case Next(link, pre) =>
        DeliverWellFormed(env, link, path);
        AfterWellFormed(env, pre, Deliver(env, link, path), 1, 5);
    }
  }

  /** Every run moves through its stages in order and ends as its trace says. */
  lemma RunWellFormed(env: Env, query: Option<string>, path: Option<string>)
    ensures Ordered(Run(env, query, path).trace)
    ensures Consistent(env, Run(env, query, path))
  {
    if Missing(query) {
      match env.askQuery
      case QueryCancelled =>
      case Entered(q) =>
        DispatchWellFormed(env, q, Folder(path));
        AfterWellFormed(env, [PromptQuery], Dispatch(env, q, Folder(path)), 0, 1);
    } else {
      DispatchWellFormed(env, query.value, Folder(path));
    }
  }

  /** Each prompt is shown at most once in a run, and the indexer's search, its site
      lookup, the anti-bot fetch and the downloader are each called at most once. The
      exact-URL test is not traced. */
  lemma RunCallsOnce(env: Env, query: Option<string>, path: Option<string>)
    ensures var t := Run(env, query, path).trace;
      forall i, j :: 0 <= i < j < |t| ==>
        && !(t[i].PromptQuery? && t[j].PromptQuery?)
        && !(t[i].Search? && t[j].Search?)
        && !(t[i].PromptSelect? && t[j].PromptSelect?)
        && !(t[i].LookupSite? && t[j].LookupSite?)
        && !(t[i].BypassFetch? && t[j].BypassFetch?)
        && !(t[i].Download? && t[j].Download?)
  {
    RunWellFormed(env, query, path);
  }

  /** A report that is ordered, consistent and successful holds exactly one download
      call, and the downloads are what that call returned. */
  lemma DoneOnce(env: Env, r: Report)
    requires Ordered(r.trace) && Consistent(env, r) && r.outcome.Done?
    ensures exists i :: 0 <= i < |r.trace| && r.trace[i].Download?
              && env.download(r.trace[i].link, r.trace[i].path) == Success(r.outcome.downloads)
              && forall j :: 0 <= j < |r.trace| && j != i ==> !r.trace[j].Download?
  {
    var t := r.trace;
    var k := |t| - |r.outcome.downloads.files| - 2;
    forall j | 0 <= j < |t| && j != k
      ensures !t[j].Download?
    {
      if j < k {
        assert Phase(t[j]) < Phase(t[k]);
      } else {
        assert Phase(t[k]) < Phase(t[j]);
      }
    }
  }

  /** A run that succeeds downloaded exactly once, and resolved with what the
      downloader returned for that call. */
  lemma DoneDownloadedOnce(env: Env, query: Option<string>, path: Option<string>)
    requires Run(env, query, path).outcome.Done?
    ensures var t := Run(env, query, path).trace;
      exists i :: 0 <= i < |t| && t[i].Download?
        && env.download(t[i].link, t[i].path) == Success(Run(env, query, path).outcome.downloads)
        && forall j :: 0 <= j < |t| && j != i ==> !t[j].Download?
  {
    RunWellFormed(env, query, path);
    DoneOnce(env, Run(env, query, path));
  }

  /** The query prompt is shown exactly when the query is missing or empty, and it is
      then the first thing the run does. */
  lemma PromptIffMissing(env: Env, query: Option<string>, path: Option<string>)
    ensures var t := Run(env, query, path).trace;
      (exists i :: 0 <= i < |t| && t[i] == PromptQuery) <==> Missing(query)
    ensures Missing(query) ==> Run(env, query, path).trace[0] == PromptQuery
    ensures Missing(query) && env.askQuery.QueryCancelled? ==> Run(env, query, path).outcome == Exited
  {
    var t := Run(env, query, path).trace;
    if !Missing(query) {
      DispatchWellFormed(env, query.value, Folder(path));
      assert forall i :: 0 <= i < |t| ==> Phase(t[i]) >= 1;
    } else {
      assert t[0] == PromptQuery;
    }
  }

  /** A magnet link is never searched for, so no selection prompt is shown; unless the
      URL test also accepts it, it is handed to the downloader exactly as typed. */
  lemma MagnetQuery(env: Env, q: string, path: string)
    requires StartsWith(q, MagnetPrefix)
    ensures var t := Dispatch(env, q, path).trace;
      forall i :: 0 <= i < |t| ==> !t[i].Search? && !t[i].PromptSelect?
    ensures !env.isExactUrl(q) ==> Dispatch(env, q, path).trace[0] == Download(Str(q), path)
  {
    assert IsDirect(q, env.isExactUrl);
    assert Dispatch(env, q, path) == Deliver(env, Str(q), path);
    DeliverWellFormed(env, Str(q), path);
    if !env.isExactUrl(q) {
      assert Render(Str(q)) == q;
      assert Deliver(env, Str(q), path) == Fetch(env, Str(q), path);
      FetchWellFormed(env, Str(q), path);
    }
  }

  /** A web link is not searched for: the first call fetches it past the anti-bot
      check, and when that fetch fails the run fails without downloading. */
  lemma UrlQuery(env: Env, q: string, path: string)
    requires !StartsWith(q, MagnetPrefix) && env.isExactUrl(q)
    ensures var t := Dispatch(env, q, path).trace;
      t[0] == BypassFetch(Str(q)) && forall i :: 0 <= i < |t| ==> !t[i].Search?
    ensures env.bypass(Str(q)).Failure? ==>
              var r := Dispatch(env, q, path);
              r.outcome == Failed(Rejected(env.bypass(Str(q)).error)) && forall i :: 0 <= i < |r.trace| ==> !r.trace[i].Download?
  {
    DeliverWellFormed(env, Str(q), path);
  }

  /** The events the search block records, whether it ends the run or not. */
  function Events(p: Picking): seq<Event> {
    if p.Halt? then p.report.trace else p.trace
  }

  lemma ResolvePrefix(env: Env, picked: Record, pre: seq<Event>)
    ensures |Events(Resolve(env, picked, pre))| >= |pre|
    ensures Events(Resolve(env, picked, pre))[..|pre|] == pre
  {
    var site := Get(picked, "site");
    if !Truthy(Get(picked, "link")) && Truthy(site) {
      assert (pre + [LookupSite(site)])[..|pre|] == pre;
      match env.lookup(site)
      case Failure(reason) =>
        assert (pre + [LookupSite(site)] + [ReportFatal(Rejected(reason))])[..|pre|] == pre;
      case Success(_) =>
    }
  }

  /** Choosing only adds events after those recorded so far; once the results are
      labelled, the first one it adds is the selection prompt. */
  lemma ChoosePrefix(env: Env, torrents: seq<Candidate>, pre: seq<Event>)
    ensures |Events(Choose(env, torrents, pre))| > |pre|
    ensures Events(Choose(env, torrents, pre))[..|pre|] == pre
    ensures Choices(torrents).Success? ==>
              Events(Choose(env, torrents, pre))[|pre|] == PromptSelect(Choices(torrents).value, InitialChoice)
  {
    match Choices(torrents)
    case Failure(e) =>
      assert (pre + [ReportFatal(e)])[..|pre|] == pre;
    case Success(choices) =>
      var shown := pre + [PromptSelect(choices, InitialChoice)];
      match env.select(choices, InitialChoice)
      case SelectCancelled =>
        assert (shown + [ReportAborted])[..|pre| + 1] == shown;
      case Picked(i) =>
        if i < |torrents| {
          ResolvePrefix(env, torrents[i], shown);
          assert Events(Choose(env, torrents, pre))[..|pre| + 1] == shown;
        } else {
          assert (shown + [ReportFatal(TypeError("link"))])[..|pre| + 1] == shown;
        }
  }

  /** The search block starts with the search and, when it succeeds, the count of
      results. */
  lemma PickLinkStarts(env: Env, q: string)
    ensures |Events(PickLink(env, q))| >= 2 && Events(PickLink(env, q))[0] == Search(q)
    ensures env.search(q).Success? ==>
              |Events(PickLink(env, q))| >= 3 && Events(PickLink(env, q))[1] == Found(|env.search(q).value|)
  {
    match env.search(q)
    case Failure(reason) =>
      PickLinkRejects(env, q, reason);
      assert Events(PickLink(env, q)) == [Search(q)] + [ReportFatal(Rejected(reason))];
    case Success(data) =>
      PickLinkChooses(env, q, data);
      ChooseAfterSearch(env, Rank(data, KeyOf), q, |data|);
  }

  /** Selection after a search keeps the search and its count of results first. */
  lemma ChooseAfterSearch(env: Env, torrents: seq<Candidate>, q: string, n: nat)
    ensures |Events(Choose(env, torrents, [Search(q), Found(n)]))| >= 3
    ensures Events(Choose(env, torrents, [Search(q), Found(n)]))[0] == Search(q)
    ensures Events(Choose(env, torrents, [Search(q), Found(n)]))[1] == Found(n)
  {
    var pre := [Search(q), Found(n)];
    ChoosePrefix(env, torrents, pre);
    assert Events(Choose(env, torrents, pre))[..2][0] == Search(q);
    assert Events(Choose(env, torrents, pre))[..2][1] == Found(n);
  }

  /** The events of the search block begin the trace of a searched query. */
  lemma DispatchStarts(env: Env, q: string, path: string)
    requires !IsDirect(q, env.isExactUrl)
    ensures |Events(PickLink(env, q))| <= |Dispatch(env, q, path).trace|
    ensures Dispatch(env, q, path).trace[..|Events(PickLink(env, q))|] == Events(PickLink(env, q))
  {
    match PickLink(env, q)
    case Halt(r) =>
    case Next(link, pre) =>
      assert (pre + Deliver(env, link, path).trace)[..|pre|] == pre;
  }

  /** A search block that ends the run is the whole run of a searched query. */
  lemma DispatchHalts(env: Env, q: string, path: string)
    requires !IsDirect(q, env.isExactUrl) && PickLink(env, q).Halt?
    ensures Dispatch(env, q, path) == PickLink(env, q).report
  {
  }

  /** A searched query runs the search block and then, unless that ended the run,
      delivers the link it resolved. */
  lemma DispatchOfPick(env: Env, q: string, path: string)
    requires !IsDirect(q, env.isExactUrl)
    ensures PickLink(env, q).Halt? ==> Dispatch(env, q, path) == PickLink(env, q).report
    ensures PickLink(env, q).Next? ==>
              Dispatch(env, q, path) == After(PickLink(env, q).trace, Deliver(env, PickLink(env, q).link, path))
  {
  }

  /** Any other query is searched for first, and the count of results found follows. */
  lemma KeywordQuery(env: Env, q: string, path: string)
    requires !IsDirect(q, env.isExactUrl)
    ensures |Dispatch(env, q, path).trace| >= 2 && Dispatch(env, q, path).trace[0] == Search(q)
    ensures env.search(q).Success? ==> Dispatch(env, q, path).trace[1] == Found(|env.search(q).value|)
  {
    PickLinkStarts(env, q);
    DispatchStarts(env, q, path);
    var e := Events(PickLink(env, q));
    assert Dispatch(env, q, path).trace[..|e|][0] == Search(q);
    if env.search(q).Success? {
      assert Dispatch(env, q, path).trace[..|e|][1] == Found(|env.search(q).value|);
    }
  }

  /** A rejected search is reported and ends the run. */
  lemma SearchRejected(env: Env, q: string, path: string, reason: string)
    requires !IsDirect(q, env.isExactUrl) && env.search(q) == Failure(reason)
    ensures Dispatch(env, q, path) == Report(Failed(Rejected(reason)), [Search(q), ReportFatal(Rejected(reason))])
  {
    DispatchOfPick(env, q, path);
  }

  /** The selection prompt is the third event of a search whose results are labelled
      without error. */
  lemma PromptFollowsSearch(env: Env, q: string, path: string, data: seq<Candidate>, choices: seq<Choice>)
    requires !IsDirect(q, env.isExactUrl) && env.search(q) == Success(data)
    requires Choices(Rank(data, KeyOf)) == Success(choices)
    ensures |Dispatch(env, q, path).trace| > 2
    ensures Dispatch(env, q, path).trace[2] == PromptSelect(choices, InitialChoice)
  {
    PickLinkChooses(env, q, data);
    ChoosePrefix(env, Rank(data, KeyOf), [Search(q), Found(|data|)]);
    DispatchStarts(env, q, path);
    assert Dispatch(env, q, path).trace[..|Events(PickLink(env, q))|][2] == PromptSelect(choices, InitialChoice);
  }

  /** The selection prompt lists every result, labelled, in ranked order, and starts on
      the first, which is at least as good as every result found. */
  lemma ChoicesFollowRanking(data: seq<Candidate>, ranked: seq<Candidate>, choices: seq<Choice>)
    requires ranked == Rank(data, KeyOf)
    requires Choices(ranked) == Success(choices)
    ensures |choices| == |data|
    ensures forall j :: 0 <= j < |ranked| ==> ChoiceOf(ranked[j]) == Success(choices[j])
    ensures data != [] ==> forall j :: 0 <= j < |data| ==> AtLeast(KeyOf(ranked[InitialChoice]), KeyOf(data[j]))
  {
    ChoicesSpec(ranked);
    if data != [] {
      TopRanked(data, KeyOf);
    }
  }

  /** Labelling that throws ends the selection step with the TypeError on `length`. */
  lemma ChooseThrows(env: Env, torrents: seq<Candidate>, pre: seq<Event>)
    requires Choices(torrents).Failure?
    ensures Choose(env, torrents, pre) == Halt(Report(Failed(TypeError("length")), pre + [ReportFatal(TypeError("length"))]))
  {
    ChoicesError(torrents);
  }

  /** When labelling a result throws, the run fails with that TypeError before the
      selection prompt is shown. */
  lemma LabellingThrows(env: Env, q: string, path: string, data: seq<Candidate>)
    requires !IsDirect(q, env.isExactUrl) && env.search(q) == Success(data)
    requires Choices(Rank(data, KeyOf)).Failure?
    ensures Dispatch(env, q, path) == Report(Failed(TypeError("length")), [Search(q), Found(|data|)] + [ReportFatal(TypeError("length"))])
  {
    SearchThenThrow(env, q, data);
    DispatchHalts(env, q, path);
  }

  lemma SearchThenThrow(env: Env, q: string, data: seq<Candidate>)
    requires env.search(q) == Success(data)
    requires Choices(Rank(data, KeyOf)).Failure?
    ensures PickLink(env, q) == Halt(Report(Failed(TypeError("length")), [Search(q), Found(|data|)] + [ReportFatal(TypeError("length"))]))
  {
    PickLinkChooses(env, q, data);
    ChooseThrows(env, Rank(data, KeyOf), [Search(q), Found(|data|)]);
  }

  /** A search that finds nothing still calls the selection prompt, with no choices.
      Whatever the prompt answers, the run never downloads: it exits on a cancel, and
      any other answer selects no result, so reading its `link` throws. */
  lemma NoResults(env: Env, q: string, path: string)
    requires !IsDirect(q, env.isExactUrl) && env.search(q) == Success([])
    ensures var pre := [Search(q), Found(0), PromptSelect([], InitialChoice)];
      Dispatch(env, q, path) ==
        if env.select([], InitialChoice).SelectCancelled? then Report(Exited, pre + [ReportAborted])
        else Fatal(pre, TypeError("link"))
  {
    assert Rank<Candidate>([], KeyOf) == [];
    PickLinkChooses(env, q, []);
    DispatchOfPick(env, q, path);
  }

  /** Some event of `t` is a call to the indexer's site lookup. */
  ghost predicate LooksUp(t: seq<Event>) {
    exists j :: 0 <= j < |t| && t[j].LookupSite?
  }

  /** The chosen result is resolved through the indexer exactly when its `link` is
      falsy and its `site` truthy. */
  lemma ResolveLooksUp(env: Env, picked: Record, pre: seq<Event>)
    requires Before(pre, 4)
    ensures var e := Events(Resolve(env, picked, pre));
      LooksUp(e) <==> !Truthy(Get(picked, "link")) && Truthy(Get(picked, "site"))
  {
    var e := Events(Resolve(env, picked, pre));
    var site := Get(picked, "site");
    if !Truthy(Get(picked, "link")) && Truthy(site) {
      assert e[|pre|] == LookupSite(site);
    } else {
      assert e == pre;
      assert forall j :: 0 <= j < |e| ==> Phase(e[j]) < 4;
    }
  }

  /** Delivery never consults the indexer. */
  lemma DeliverNoLookup(env: Env, link: Value, path: string)
    ensures !LooksUp(Deliver(env, link, path).trace)
  {
    DeliverWellFormed(env, link, path);
    NoLookupAfter(Deliver(env, link, path).trace);
  }

  lemma NoLookupAfter(t: seq<Event>)
    requires From(t, 5)
    ensures !LooksUp(t)
  {
    forall j | 0 <= j < |t|
      ensures !t[j].LookupSite?
    {
      assert Phase(t[j]) >= 5;
    }
  }

  /** A run looks a site up exactly when its search block does. */
  lemma DispatchLooksUp(env: Env, q: string, path: string)
    requires !IsDirect(q, env.isExactUrl)
    ensures LooksUp(Dispatch(env, q, path).trace) <==> LooksUp(Events(PickLink(env, q)))
  {
    var p := PickLink(env, q);
    DispatchOfPick(env, q, path);
    if p.Next? {
      var d := Deliver(env, p.link, path).trace;
      assert Dispatch(env, q, path).trace == p.trace + d;
      assert Events(p) == p.trace;
      DeliverNoLookup(env, p.link, path);
      LookupInPrefix(p.trace, d);
    }
  }

  /** Events with no lookup among them, appended to a trace, add no lookup to it. */
  lemma LookupInPrefix(pre: seq<Event>, d: seq<Event>)
    requires !LooksUp(d)
    ensures LooksUp(pre + d) <==> LooksUp(pre)
  {
    var t := pre + d;
    forall j | 0 <= j < |t| && t[j].LookupSite?
      ensures j < |pre| && pre[j].LookupSite?
    {
    }
    forall j | 0 <= j < |pre| && pre[j].LookupSite?
      ensures t[j].LookupSite?
    {
      assert t[j] == pre[j];
    }
  }

  /** The choice made at the selection prompt, `i`, among labelled search results. */
  ghost predicate Chosen(env: Env, q: string, data: seq<Candidate>, choices: seq<Choice>, i: nat) {
    && !IsDirect(q, env.isExactUrl)
    && env.search(q) == Success(data)
    && Choices(Rank(data, KeyOf)) == Success(choices)
    && env.select(choices, InitialChoice) == Picked(i)
    && i < |data|
  }

  /** Picking entry `i` of the labelled results resolves that result. */
  lemma ChoosePicks(env: Env, torrents: seq<Candidate>, pre: seq<Event>, choices: seq<Choice>, i: nat)
    requires Choices(torrents) == Success(choices)
    requires env.select(choices, InitialChoice) == Picked(i) && i < |torrents|
    ensures Choose(env, torrents, pre) == Resolve(env, torrents[i], pre + [PromptSelect(choices, InitialChoice)])
  {
  }

  lemma ChosenResolves(env: Env, q: string, data: seq<Candidate>, choices: seq<Choice>, i: nat)
    requires Chosen(env, q, data, choices, i)
    ensures PickLink(env, q) == Resolve(env, Rank(data, KeyOf)[i], [Search(q), Found(|data|)] + [PromptSelect(choices, InitialChoice)])
  {
    var ranked := Rank(data, KeyOf);
    PickLinkChooses(env, q, data);
    ChoosePicks(env, ranked, [Search(q), Found(|data|)], choices, i);
  }

  /** The run looks the chosen result's site up exactly when its `link` is falsy and
      its `site` truthy. */
  lemma LookupIff(env: Env, q: string, path: string, data: seq<Candidate>, choices: seq<Choice>, i: nat)
    requires Chosen(env, q, data, choices, i)
    ensures var picked := Rank(data, KeyOf)[i];
      var t := Dispatch(env, q, path).trace;
      LooksUp(t) <==> !Truthy(Get(picked, "link")) && Truthy(Get(picked, "site"))
  {
    ChosenResolves(env, q, data, choices, i);
    ResolveLooksUp(env, Rank(data, KeyOf)[i], [Search(q), Found(|data|)] + [PromptSelect(choices, InitialChoice)]);
    DispatchLooksUp(env, q, path);
  }

  /** A chosen result whose `link` is truthy is delivered from that link. */
  lemma LinkPreferred(env: Env, q: string, path: string, data: seq<Candidate>, choices: seq<Choice>, i: nat)
    requires Chosen(env, q, data, choices, i)
    requires Truthy(Get(Rank(data, KeyOf)[i], "link"))
    ensures Dispatch(env, q, path) ==
              After([Search(q), Found(|data|)] + [PromptSelect(choices, InitialChoice)], Deliver(env, Get(Rank(data, KeyOf)[i], "link"), path))
  {
    ChosenResolves(env, q, data, choices, i);
    DispatchOfPick(env, q, path);
  }

  /** A result with a falsy `link` and a truthy `site` is resolved by the indexer. */
  lemma ResolveSite(env: Env, picked: Record, pre: seq<Event>)
    requires !Truthy(Get(picked, "link")) && Truthy(Get(picked, "site"))
    ensures var site := Get(picked, "site");
      Resolve(env, picked, pre) ==
        match env.lookup(site)
        case Failure(reason) => Halt(Fatal(pre + [LookupSite(site)], Rejected(reason)))
        case Success(found) => Next(found, pre + [LookupSite(site)])
  {
  }

  /** A chosen result with a falsy `link` and a truthy `site` is delivered from the link
      the indexer resolves the site to; a rejected lookup is reported and ends the run
      before any download. */
  lemma SiteLookedUp(env: Env, q: string, path: string, data: seq<Candidate>, choices: seq<Choice>, i: nat)
    requires Chosen(env, q, data, choices, i)
    requires !Truthy(Get(Rank(data, KeyOf)[i], "link")) && Truthy(Get(Rank(data, KeyOf)[i], "site"))
    ensures var site := Get(Rank(data, KeyOf)[i], "site");
      var pre := [Search(q), Found(|data|)] + [PromptSelect(choices, InitialChoice)] + [LookupSite(site)];
      Dispatch(env, q, path) ==
        match env.lookup(site)
        case Failure(reason) => Fatal(pre, Rejected(reason))
        case Success(found) => After(pre, Deliver(env, found, path))
  {
    var picked := Rank(data, KeyOf)[i];
    ChosenResolves(env, q, data, choices, i);
    ResolveSite(env, picked, [Search(q), Found(|data|)] + [PromptSelect(choices, InitialChoice)]);
    DispatchOfPick(env, q, path);
  }
}
