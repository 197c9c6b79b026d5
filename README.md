# torrenter, modelled in Dafny

`torrenter(query, path = "downloads")` is the whole program: it takes a query from the
command line or asks for one, and decides whether the query is already something to
download (a magnet link or an exact URL) or keywords to search for. Search results
from the torrent indexer are ranked by score, resolution and seeders. Each result is
labelled in place with a title, a `key: value` description and a `value`, and the user
picks one at a prompt. The chosen result is resolved to a link, through the indexer's
per-site lookup when it has no link of its own. A link that is a web page is fetched
past the anti-bot check, the result is handed to the downloader, and the run reports
the folder and the saved files. Everything runs inside one `try`, whose `catch`
reports the error as fatal.

The model has seven modules, one file each:

- `Wrappers` has `Option` and `Result`.
- `Records` holds the JavaScript objects the pipeline handles:
  - properties in insertion order;
  - property read and assignment;
  - truthiness and template-literal rendering.
- `Classify` decides whether a query is direct.
- `Ranking` is lodash's `orderBy` on the three keys, as a stable insertion sort. It is
  proved sorted, a permutation of its input, and stable.
- `Labelling` labels the choices:
  - title and link shortening;
  - the description lines;
  - the `Item` class, whose `Label` method adds `description`, `value` and `title` to
    the result object in place;
  - `BuildChoices`, the loop of the `torrents.map` call.
- `Pipeline` is the orchestration, written two ways:
  - as functions, `Run` down to `Resolve`;
  - as imperative methods (`Torrenter`, `Pick`, `Finish`, `Save`), each proved equal
    to its function.
- `Properties` states what every run guarantees, and what happens for each kind of
  query.

Collaborators are fields of an `Env` value:
- the two prompts;
- the exact-URL test;
- the indexer's search and its site lookup;
- the anti-bot fetch;
- the downloader.

A run yields an `Outcome` and a trace of `Event`s. The outcome is `Done` with the
downloads, `Failed` with the error the catch block reports, or `Exited` after a
cancelled prompt. The trace lists the prompts and the calls to the indexer, the
anti-bot fetch and the downloader in the order they are made, and the messages
reported. The exact-URL test is a pure predicate whose calls are not traced: it is
applied to the query (torrenter.js:50) and again to the link (torrenter.js:109).

In these cases the code does something one might not expect, and the model does the
same:
- A result whose `link` property exists but is `undefined` or `null` makes the
  description throw when it reads `.length`. The run then fails before the selection
  prompt, even when the result has a `site` the lookup could resolve.
- A search that finds nothing is not reported as "no results". The selection prompt
  is still called, with no choices. The model lets the prompt answer anything there:
  a cancel exits, and any other answer selects no result, so reading
  `answers.torrent.link` throws.
- A lookup result is delivered as it is, usable or not. A result whose `link` and
  `site` are both falsy is delivered with its `link` value, e.g. `undefined`.
- Cancelling the query prompt, not only the selection prompt, exits the process.

## Model

| member | source | states |
|---|---|---|
| Classify.IsDirect | torrenter.js:47-53 | A query starting with `magnet:?` is direct. Any other query is direct exactly when the exact-URL test accepts it. What each kind of query then does is stated by Properties.MagnetQuery, Properties.UrlQuery and Properties.KeywordQuery. |
| Classify.StartsWith | torrenter.js:47 | `query.startsWith("magnet:?")`. Classify.IsDirect and Classify.MagnetIsDirect state the classification in its terms. |
| Classify.MagnetIsDirect | torrenter.js:47-49 | The magnet prefix followed by anything is direct, whatever the URL test answers. |
| Ranking.KeyOf | torrenter.js:61-65 | The iteratees `score`, `resolution`, `seeders` of a search result. Ranking by them is stated by Ranking.RankSorted and Ranking.ScoreExample. |
| Ranking.AtLeast | torrenter.js:61-65 | The order of three `desc` keys compared in turn. Ranking.RankSorted and Ranking.TopRanked state the ranking in its terms. |
| Ranking.Rank | torrenter.js:61-65 | The ranked list has as many entries as the input, and the same entries counted with multiplicity. |
| Ranking.RankSorted | torrenter.js:61-65 | The ranked list is non-increasing in score, then resolution, then seeders. |
| Ranking.RankPermutes | torrenter.js:61-65 | Ranking drops or duplicates no result: same multiset, and the same members in both directions. |
| Ranking.RankStable | torrenter.js:61-65 | For every value of the three keys, results carrying it keep their relative input order. |
| Ranking.RankSortedIsIdentity | torrenter.js:61-65 | An already ranked list is returned unchanged. |
| Ranking.RankIdempotent | torrenter.js:61-65 | Ranking twice equals ranking once. |
| Ranking.TopRanked | torrenter.js:61-65 | The first ranked entry is at least as large as every input entry. The selection prompt starts on it. |
| Ranking.Insert | torrenter.js:61-65 | Inserting adds exactly the one entry. The new first entry is either the inserted one or the old first. |
| Ranking.InsertSorted | torrenter.js:61-65 | Inserting into a ranked list keeps it ranked. |
| Ranking.FilterInsert | torrenter.js:61-65 | In a ranked list, an inserted entry lands in front of the entries it ties with, as if it had been put first. |
| Ranking.ThreeRanked | torrenter.js:61-65 | Whatever the entries, three scored 5, 9 and 7 are ranked second, third, first, whatever their other two keys. |
| Ranking.ScoreExample | torrenter.js:61-65 | Search results scored 5, 9 and 7 are ranked second, third, first, whatever their resolution and seeders. |
| Records.Lookup | torrenter.js:76-83 | Reading an own property: `None` when the object lacks the key. Its meaning is stated by Records.LookupSpec and Records.LookupAt. |
| Records.Get | torrenter.js:102-106 | A property read, `undefined` for a missing key. Records.SetFrame and Labelling.LabelledKeeps state which reads an assignment or the labelling leaves alone. |
| Records.Truthy | torrenter.js:102 | JavaScript truthiness of a property value (`!x`). Its use in choosing the link is stated by Properties.ResolveLooksUp, Properties.LinkPreferred and Properties.SiteLookedUp. |
| Records.Render | torrenter.js:77-83 | A value in a template literal or converted by the URL test. Stated through Labelling.Line for the description lines. |
| Records.LookupSpec | torrenter.js:76-78 | A key reads as missing exactly when no property carries it. A present key reads as the value of a property with that key. |
| Records.LookupAt | torrenter.js:76-78 | With distinct keys, each listed property is what its key reads as. |
| Records.Set | torrenter.js:75-91 | After `r[k] = v`, `k` reads as `v`. A new key is appended after all existing properties. |
| Records.SetFrame | torrenter.js:75-91 | Assigning one property leaves every other key reading as before. |
| Records.SetInPlace | torrenter.js:75-91 | Assigning an existing property keeps every key and position, and changes no other property. |
| Records.SetKeepsDistinct | torrenter.js:75-91 | An assignment keeps the object's keys distinct. |
| Labelling.Abbreviate | torrenter.js:78-81 | The result is at most `max` long. It equals the input exactly when the input fits. A longer input keeps its first `keep` characters, followed by `...`. |
| Labelling.TitleText | torrenter.js:89-91 | A title is at most 75 characters and equals the file name exactly when that fits. A longer name shows its first 70 characters and `...`, 73 in all. |
| Labelling.Title | torrenter.js:88-91 | Throws a TypeError on `length` exactly when the file name is `undefined` or `null`. A string is shortened as above; a number is kept as it is. |
| Labelling.Line | torrenter.js:77-83 | A line throws exactly for a `link` that is `undefined` or `null`. A `link` string over 60 characters shows 55 and `...`. Every other property shows as `key: value`. |
| Labelling.DescribeLines | torrenter.js:76-86 | A description that throws throws the TypeError on `length`. |
| Labelling.DescribeLinesSpec | torrenter.js:76-86 | One line per property, in key order. The description succeeds exactly when every line does. |
| Labelling.Join | torrenter.js:85 | `join("\n")` of the description lines. Labelling.JoinSnoc states its contents and Labelling.JoinLength its length; Labelling.ChoiceOfSpec states that the description is this join. |
| Labelling.JoinLength | torrenter.js:85 | The joined text is as long as its lines together plus one separator between each two neighbours. |
| Labelling.JoinSnoc | torrenter.js:85 | Joining one more line appends the separator and that line to the text joined so far. So each line appears whole, in order, with one separator between neighbours and none at either end. |
| Labelling.DescriptionThrows | torrenter.js:76-83 | With distinct keys, the description throws exactly when the object has an own `link` that is `undefined` or `null`. |
| Labelling.ChoiceOf | torrenter.js:74-92 | Labelling a result can only throw the TypeError on `length`. |
| Labelling.ChoiceOfSpec | torrenter.js:74-92 | Labelling throws exactly when a description line throws or `fileName` is `undefined` or `null`. Otherwise the choice holds the joined description and the title of `fileName`. |
| Labelling.Labelled | torrenter.js:75-91 | The labelled object shows exactly the given choice, and its `value` is the object itself. |
| Labelling.LabelledKeeps | torrenter.js:75-91 | Labelling leaves every property other than `description`, `value` and `title` reading as before. This includes `link` and `site`, the two read after the prompt. |
| Labelling.LabelledKeepsDistinct | torrenter.js:75-91 | Labelling keeps the object's keys distinct. |
| Labelling.Choices | torrenter.js:74-93 | The `torrents.map` labelling as a value. Stated by Labelling.ChoicesSpec, Labelling.ChoicesLabels, Labelling.ChoicesError, Labelling.ChoicesAll and Labelling.BuildChoices. |
| Labelling.ChoicesSpec | torrenter.js:74-93 | The map succeeds exactly when every result labels without error. It then gives one choice per result, in order. |
| Labelling.ChoicesLabels | torrenter.js:74-93 | A map that succeeds yields one choice per result, each the label of that result, in order. |
| Labelling.ChoicesError | torrenter.js:74-93 | A failing map fails with the TypeError on `length`. |
| Labelling.ChoicesFailAt | torrenter.js:74-93 | One result that throws makes the whole map throw. |
| Labelling.ChoicesAll | torrenter.js:74-93 | When every result labels as given, the map yields exactly those labels, in order. |
| Labelling.Item.Label | torrenter.js:74-92 | Fails exactly when the result's labelling throws, with the same error. On success the object becomes its labelled form. A description error leaves it untouched. A title error leaves `description` and `value` already assigned. |
| Labelling.BuildChoices | torrenter.js:74-93 | Returns the map's result. On success there is one item per result, each now the labelled result, showing exactly its choice. |
| Pipeline.Listing | torrenter.js:116-118 | One file line per saved file, in the downloader's order. Properties.RunWellFormed states that a successful run ends with this list, right after the folder. |
| Pipeline.Run | torrenter.js:25-53 | A whole run: the query prompt when the query is missing, then `Dispatch`. Stated by Pipeline.Torrenter, Properties.RunWellFormed, Properties.RunCallsOnce, Properties.DoneDownloadedOnce and Properties.PromptIffMissing. |
| Pipeline.Dispatch | torrenter.js:47-58 | A direct query is delivered; any other is searched for. Stated by Properties.DispatchWellFormed, Properties.MagnetQuery, Properties.UrlQuery and Properties.KeywordQuery. |
| Pipeline.PickLink | torrenter.js:55-66 | The search block up to the chosen link. Stated by Pipeline.Pick, Properties.PickLinkWellFormed, Properties.PickLinkStarts and Properties.SearchRejected. |
| Pipeline.Choose | torrenter.js:66-100 | Labelling, the selection prompt and the chosen result. Stated by Properties.ChooseWellFormed, Properties.ChoosePrefix, Properties.ChooseThrows and Properties.NoResults. |
| Pipeline.Resolve | torrenter.js:102-106 | The chosen result's link, looked up by site when needed. Stated by Properties.ResolveWellFormed, Properties.ResolveLooksUp and Properties.LookupIff. |
| Pipeline.Deliver | torrenter.js:109-113 | The anti-bot fetch of an exact URL, then the download. Stated by Pipeline.Finish, Properties.DeliverBypasses and Properties.DeliverWellFormed. |
| Pipeline.Fetch | torrenter.js:114-119 | The download and its report. Stated by Pipeline.Save, Properties.FetchWellFormed and Properties.FetchDownloadsOnce. |
| Pipeline.Fatal | torrenter.js:120-122 | The `catch` block: the error is reported last and the run ends. Properties.RunWellFormed states that every failure is reported last with nothing saved. Properties.SearchRejected, Properties.LabellingThrows and Properties.SiteLookedUp state which errors reach it. |
| Pipeline.Folder | torrenter.js:25 | The `path` parameter, `"downloads"` when omitted. Pipeline.RunDelivers states that the delivery uses this folder. |
| Pipeline.Missing | torrenter.js:30 | `!query`: no query, or the empty one. Properties.PromptIffMissing states that the query prompt is shown exactly then. |
| Pipeline.RunDispatches | torrenter.js:30-53 | Once the query is known, typed or given, the run is the query prompt (if shown) followed by the dispatch of that query. |
| Pipeline.RunHalts | torrenter.js:25-107 | When the search block ends the run, the run is the query prompt (if shown) followed by that ending. |
| Pipeline.RunDelivers | torrenter.js:25-122 | Otherwise the run is the query prompt (if shown), the search block's events, then the delivery of the link it found. |
| Pipeline.Pick | torrenter.js:55-107 | The search block, with the results labelled in place, ends exactly as `PickLink` says. |
| Pipeline.Save | torrenter.js:114-119 | Downloading and reporting the folder and each file ends exactly as `Fetch` says. |
| Pipeline.Finish | torrenter.js:109-122 | The URL test, the anti-bot fetch, the download and the report end exactly as `Deliver` says. |
| Pipeline.Torrenter | torrenter.js:25-123 | The whole function ends with the outcome and trace of `Run`. |
| Properties.FetchWellFormed | torrenter.js:114-122 | A download is the first event of its part of the trace. What follows is ordered and ends as it reports: the saved folder and files, or the fatal error. |
| Properties.FetchDownloadsOnce | torrenter.js:114-119 | The downloader is called once, first, with exactly the link it is given. |
| Properties.DeliverBypasses | torrenter.js:109-114 | An exact URL is fetched past the anti-bot check first. A rejected fetch is fatal. Otherwise the downloader is called once, with the fetched body, never with the URL, and the body is not tested again. Any other link reaches the downloader unchanged. |
| Properties.DeliverWellFormed | torrenter.js:109-122 | Delivery starts no earlier than the anti-bot fetch, is ordered, and ends consistently with its trace. |
| Properties.ResolveWellFormed | torrenter.js:102-106 | Resolving the chosen result either ends the run well-formed or continues, ordered, before the anti-bot stage. |
| Properties.ChooseWellFormed | torrenter.js:66-106 | The same holds from the labelling of the ranked results onward. |
| Properties.PickLinkWellFormed | torrenter.js:55-106 | The same holds for the whole search block, from the search onward. |
| Properties.DispatchWellFormed | torrenter.js:47-122 | Dispatching a query gives an ordered trace that starts no earlier than the search and ends consistently. |
| Properties.RunWellFormed | torrenter.js:25-123 | Every run moves through its stages in order. A failure is reported last with nothing saved. An exit follows the abort message with nothing downloaded. Success is what the one download call returned, followed by the folder and the file list. |
| Properties.RunCallsOnce | torrenter.js:25-123 | No prompt is shown twice in one run, and the indexer's search, its site lookup, the anti-bot fetch and the downloader are each called at most once. |
| Properties.DoneOnce | torrenter.js:114-119 | In an ordered report that ends in success, exactly one event is a download, and that call returned the outcome's downloads. |
| Properties.DoneDownloadedOnce | torrenter.js:114-119 | A successful run called the downloader exactly once and returns what that call resolved with. |
| Properties.PromptIffMissing | torrenter.js:20-45 | The query prompt is shown exactly when the query is missing or empty, and then first. Cancelling it exits. |
| Properties.MagnetQuery | torrenter.js:47-49 | A magnet query is never searched for and shows no selection prompt. Unless the URL test accepts it, it is downloaded exactly as typed. |
| Properties.UrlQuery | torrenter.js:50-52 | An exact URL is not searched for, and is first fetched past the anti-bot check. A failed fetch fails the run without a download. |
| Properties.PickLinkChooses | torrenter.js:58-66 | Unfolding step: a successful search hands the ranked results, after the search and its count, to the selection step. Used by the scenario lemmas below. |
| Properties.PickLinkRejects | torrenter.js:58 | Unfolding step: a rejected search ends the search block with the rejection reported as fatal. |
| Properties.PickLinkStarts | torrenter.js:55-60 | The search block starts with the search. When the search succeeds, the count of results follows. |
| Properties.ChoosePrefix | torrenter.js:66-106 | The selection step keeps the events before it. When labelling succeeds, the next event is the prompt with exactly those choices. |
| Properties.DispatchStarts | torrenter.js:55-122 | A searched query's trace starts with the events of its search block. |
| Properties.DispatchHalts | torrenter.js:55-107 | Unfolding step: a search block that ends the run is the whole run of a searched query. |
| Properties.DispatchOfPick | torrenter.js:55-122 | Unfolding step: a searched query is the search block, then, unless that ended the run, the delivery of the link it resolved. |
| Properties.KeywordQuery | torrenter.js:55-66 | Any other query is searched for first. When the search succeeds, the count of results follows. |
| Properties.SearchRejected | torrenter.js:58 | A rejected search is reported as fatal and ends the run. |
| Properties.PromptFollowsSearch | torrenter.js:66-100 | When the results label without error, the selection prompt is the third event and lists exactly those choices. |
| Properties.ChoicesFollowRanking | torrenter.js:61-94 | The prompt lists one choice per result, each the label of the ranked result at that position. The initial entry is at least as good as every result. |
| Properties.ChooseThrows | torrenter.js:74-93 | When labelling throws, the selection step ends the run with the TypeError on `length` after the earlier events. |
| Properties.SearchThenThrow | torrenter.js:58-93 | When labelling the ranked results throws, the search block is the search, the count and the fatal TypeError on `length`. |
| Properties.LabellingThrows | torrenter.js:74-92 | When labelling a result throws, the run fails with the TypeError on `length` right after the count of results. |
| Properties.NoResults | torrenter.js:58-106 | An empty search still calls the selection prompt, with no choices, and never downloads. It exits on a cancel; any other answer selects no result, and reading `link` fails. |
| Properties.ChoosePicks | torrenter.js:68-106 | Unfolding step: picking entry `i` of the labelled results resolves the `i`-th ranked result. |
| Properties.ChosenResolves | torrenter.js:68-106 | Picking entry `i` resolves the `i`-th ranked result, after the search, the count and the prompt. |
| Properties.ResolveLooksUp | torrenter.js:102-106 | The site lookup is called exactly when the chosen `link` is falsy and `site` truthy. |
| Properties.ResolveSite | torrenter.js:102-103 | Unfolding step: a falsy `link` with a truthy `site` yields the lookup's link, or reports its rejection as fatal. |
| Properties.DeliverNoLookup | torrenter.js:109-122 | Delivery never calls the site lookup. |
| Properties.DispatchLooksUp | torrenter.js:102-122 | A searched query's run looks a site up exactly when its search block does. |
| Properties.LookupIff | torrenter.js:102-106 | A run looks a site up exactly when the chosen result's `link` is falsy and its `site` truthy. |
| Properties.LinkPreferred | torrenter.js:104-106 | A chosen result with a truthy `link` is delivered from that link, with no lookup. |
| Properties.SiteLookedUp | torrenter.js:102-103 | A chosen result with a falsy `link` and a truthy `site` is delivered from the link the lookup returns. A rejected lookup ends the run as fatal before any download. |

## Left out

- The update notifier, the start-up banner and the command-line entry point (torrenter.js:11-14, 125-167) do not affect the pipeline.
- Console output is recorded as events, not as text. Left out are the colours, the signale log levels, the blank line before the search message, and the ANSI codes `colors.yellow` wraps the description in.
- The prompts library is reduced to its answers. The query prompt's validation loop becomes an answer that is either a non-empty string or a cancel. The selection prompt answers with a position.
- `process.exit()` in `onCancel` becomes the `Exited` outcome. The process's exit code is not modelled.
- The URL pattern of `url-regex` is not part of this model; the exact-URL test is a parameter.
- Neither are the internals of `torrent-indexer` (search and site lookup), `cloudscraper` or `./download`. Each is a parameter that resolves with a value or rejects with a reason.
- Pipeline.Env: the anti-bot fetch is taken to resolve with an object whose `body` is a string (torrenter.js:110), so `bypass` returns that string. A response without `body` would make the link `undefined`, and a `null` one would throw a TypeError; neither is modelled.
- Pipeline.Env: the downloader is taken to resolve with an object that has both `path` and `files` (torrenter.js:114-118). A result without `files` would report the folder and then fail, leaving "File saved" before the fatal report; this is not modelled. Properties.RunWellFormed's "nothing saved on failure" relies on this assumption.
- Pipeline.Env: each saved file is reduced to its `path`, the only field the listing prints (torrenter.js:117).
- How the `prompts` library handles a select prompt with an empty choice list is not modelled. The model lets it answer anything, as for any other list. The library itself may fail before showing the prompt; the run would then still fail without a download, but with another error and no selection prompt in the trace.
- Pipeline.Run: the query is taken to be a string or absent. The function is also exported as a module (torrenter.js:166), so a caller could pass any value. A truthy non-string would make `query.startsWith` throw into the catch block; this is not modelled.
- `async`/`await` is sequential; a rejected promise is a `Failure`. Hanging calls are not modelled.
- Result property values are strings, integers, `undefined` and `null`. Booleans, floating-point numbers, arrays and nested objects are left out. Strings are sequences of characters, not UTF-16 code units.
- `Object.keys` lists properties in insertion order; its rule of listing integer-like keys first is not modelled.
- Ranking.Rank: assumes `score`, `resolution` and `seeders` are integers on every result. lodash's ordering of missing or mixed-type keys is not modelled.
- `data.length` assumes the indexer returns an array. The implicit global `data` (torrenter.js:58) is treated as a local.
- Labelling.ChoiceOf: its own contract only names the error it can throw; the full characterisation is Labelling.ChoiceOfSpec.
- Labelling.DescribeLines: its own contract only names the error it can throw; the full characterisation is Labelling.DescribeLinesSpec.
- Records.Set: its own contract does not say that other keys are untouched; Records.SetFrame states that.
- Labelling.Labelled: its own contract does not say that other properties are untouched; Labelling.LabelledKeeps states that.
