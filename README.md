# Evaluation dashboard front end — verified model

This project models the logic of a React dashboard that monitors a remote
evaluation of a language model's answers across subject domains:

- **Results snapshot** (`Stats`): the per-domain records fetched from
  `/api/analysis`, the three key figures shown at the top of the page (total
  questions, overall accuracy, fastest domain) and the five chart series
  (accuracy, response time, correct versus incorrect, question share, and
  response time against accuracy).
- **Dashboard control state** (`Dashboard`): the page's `stats` and `status`
  state, the snapshot fetch, the command `POST`s of the five control buttons
  and the reset button's post-then-refetch.
- **Live log** (`LiveLog`): the append-only list of lines the WebSocket box
  shows, fed by the open, message and close events.
- **Routing** (`Routing`): the hash-to-page table with its home-page default
  and the route state updated on `hashchange`.
- **Assistant tips** (`Assistant`): the tip index advanced modulo five on
  every timer tick.

Network replies, `JSON.parse` results and timer ticks are parameters of the
model: a call that throws (in `fetch`, `res.json()` or `JSON.parse`) is
`None`, a call that succeeds is `Some` of what it returned, except for the
frames listed below that parse and still throw. Numbers that the
page treats as floating point (`accuracy`, `avgResponseTime`) are `real`;
counts are `nat`. Every `reduce` of the page is a left fold and is modelled
by recursion on the prefix, so entries are folded in the page's order.
`Math.round(x)` is `Floor(x + 0.5)`, which is exactly JavaScript's rounding
(halves go up).

Behaviour of the code that the model keeps as it is:

- The live log recognises only the string status `"done"`. Any other parsed
  frame, whatever its status (`"paused"`, `"reset"`, `"foo"`), becomes a
  result line; a missing field prints as `undefined`. Nothing clears the log.
- A frame that fails to parse is only reported on the console: it adds no line.
  The same holds for a frame that parses to `null`, and for a frame whose
  status is not the string `"done"` and whose `domain`, `question`, `answer`
  or `responseTime` has no string form (an object whose own `toString` is not
  a function): both throw inside the same handler and are passed to the model
  as parse failures. A field that is never printed (`status`, or any field of
  a `"done"` frame) does not throw, whatever its value.
- `overallAccuracy` guards only on an empty snapshot, so a non-empty snapshot
  whose counts are all 0 or missing divides 0 by 0 (see Findings).
- The question-share chart takes the raw `count`, so a missing count is a
  missing slice there, while the correct-versus-incorrect series and the
  key figures read it as 0.

## Model

Definitional functions without a contract of their own (`Stats.TotalQuestions`,
`Stats.WeightedSum`, `Stats.Better`, `LiveLog.LineFor`, `LiveLog.Replay`,
`Assistant.Advance`, `Dashboard.StatusAfter`) model the source expressions
directly and are covered by the rows of the lemmas and methods about them.

| member | source | states |
|---|---|---|
| `Stats.TotalQuestionsAppend` | src/pages/Project.jsx:95-98 | the total of a snapshot split in two is the sum of the two totals |
| `Stats.TotalQuestionsZero` | src/pages/Project.jsx:95-98 | the total is 0 exactly when every entry's count is missing or 0 |
| `Stats.CountAtMostTotal` | src/pages/Project.jsx:95-98 | no entry counts more questions than the total |
| `Stats.OverallAccuracy` | src/pages/Project.jsx:100-108 | the page's value is undefined (NaN) exactly for a non-empty snapshot whose total is 0; it is 0 for the empty snapshot |
| `Stats.WeightedSumOfZeroCounts` | src/pages/Project.jsx:102-106 | when the total is 0 the weighted sum is 0 too, so the undefined case is 0 / 0 |
| `Stats.ZeroCountSnapshotHasNoAccuracy` | src/pages/Project.jsx:100-108 | a one-domain snapshot with count 0 has no overall accuracy |
| `Stats.OverallAccuracyGuarded` | src/pages/Project.jsx:100-108 | the corrected overall accuracy is 0 whenever no question was counted |
| `Stats.GuardedAgreesWhereDefined` | src/pages/Project.jsx:100-108 | the corrected value equals the page's wherever the page's is defined |
| `Stats.WeightedSumBounds` | src/pages/Project.jsx:102-106 | with every accuracy in [lo, hi], the weighted sum lies between lo and hi times the total |
| `Stats.WeightedMeanWithin` | src/pages/Project.jsx:100-108 | the overall accuracy is a weighted mean: it lies within the range of the entries' accuracies, so in [0, 1] when they are |
| `Stats.FastestDomain` | src/pages/Project.jsx:110-117 | absent exactly for the empty snapshot; otherwise an entry of the snapshot whose average time is at most every entry's |
| `Stats.FastestDomainFirstMinimum` | src/pages/Project.jsx:112-116 | ties go to the earliest entry: every entry before the chosen one is strictly slower |
| `Stats.Round` | src/pages/Project.jsx:155 | the rounded value is the integer nearest to x, halves rounded up |
| `Stats.Domains` | src/pages/Project.jsx:124 | one label per entry, the entries' domains in snapshot order |
| `Stats.AccuracyData` | src/pages/Project.jsx:122-134 | labels are the domains, and the i-th value is the i-th entry's accuracy, one per entry |
| `Stats.TimeData` | src/pages/Project.jsx:136-150 | labels are the domains, and the i-th value is the i-th entry's average time, one per entry |
| `Stats.CorrectWrongData` | src/pages/Project.jsx:152-174 | per entry, correct is the rounded accuracy times the count and correct plus incorrect is the count |
| `Stats.CorrectWithinCount` | src/pages/Project.jsx:152-157 | with an accuracy in [0, 1], both bars of an entry lie between 0 and its count |
| `Stats.CorrectWrongTotal` | src/pages/Project.jsx:152-157 | all correct plus all incorrect bars add up to the total number of questions |
| `Stats.DomainShareData` | src/pages/Project.jsx:176-188 | labels are the domains, and the i-th slice is the i-th entry's raw count, missing where the record has none |
| `Stats.DomainShareTotal` | src/pages/Project.jsx:176-188 | the slices add up to the total number of questions |
| `Stats.ScatterData` | src/pages/Project.jsx:190-199 | one data set per entry, labelled by its domain, with the point (average time, accuracy) |
| `Stats.FastestIsLeftmostPoint` | src/pages/Project.jsx:190-199 | the fastest domain's time is at most every scatter point's x |
| `Stats.TwoDomainSnapshot` | src/pages/Project.jsx:95-157 | for History (10, 0.8, 120) and Security (5, 0.6, 90): 15 questions, accuracy 11/15, Security fastest, bars 8/2 and 3/2 |
| `Dashboard.CommandPath` | src/pages/Project.jsx:217-222 | every button posts under /api/evaluations/ |
| `Dashboard.CommandPathInjective` | src/pages/Project.jsx:217-222 | the five buttons post to five different endpoints |
| `Dashboard.ProjectPage.constructor` | src/pages/Project.jsx:72-73 | the page starts with an empty snapshot and an empty status |
| `Dashboard.Mount` | src/pages/Project.jsx:88-90 | mounting the page sends one GET; its snapshot is the fetched one, or still empty if the fetch fails, and the status is still empty |
| `Dashboard.ProjectPage.FetchStats` | src/pages/Project.jsx:78-86 | one GET; success replaces the snapshot wholesale, failure leaves it; the status is untouched |
| `Dashboard.ProjectPage.Post` | src/pages/Project.jsx:204-215 | one POST; the status becomes the acknowledgement's status field, or exactly "Error: backend unreachable." on failure; the acknowledgement is returned; the snapshot is untouched |
| `Dashboard.ProjectPage.OnReset` | src/pages/Project.jsx:221-224 | the reset POST and then the GET, in that order; after a successful refetch the snapshot is the refetched one whatever the command's outcome |
| `Dashboard.ProjectPage.OnCommand` | src/pages/Project.jsx:217-224 | quick, start, pause and resume only post their command; reset also refetches |
| `Dashboard.ResetTwice` | src/pages/Project.jsx:221-224 | two resets with successful refetches leave the second refetched snapshot and four requests in order |
| `LiveLog.ResultLine` | src/components/WebSocketBox.jsx:29-34 | a result line starts with the book mark, which tells it apart from the fixed lines |
| `LiveLog.ClassifyFrame` | src/components/WebSocketBox.jsx:22-39 | a parse failure adds no line; the finish line exactly for the string status "done"; the result line for every other parsed frame; never a connection line |
| `LiveLog.ReplayConcat` | src/components/WebSocketBox.jsx:18-43 | the log of two runs of events is the first run's log followed by the second's, so lines keep event order |
| `LiveLog.AppendOnly` | src/components/WebSocketBox.jsx:18-43 | earlier lines are never removed or reordered by later events |
| `LiveLog.ReplayLength` | src/components/WebSocketBox.jsx:18-43 | n events leave at most n lines |
| `LiveLog.MalformedThenResult` | src/components/WebSocketBox.jsx:22-39 | an unparsable frame and then a result frame leave exactly the one result line |
| `LiveLog.LogBox.constructor` | src/components/WebSocketBox.jsx:7 | the log starts empty |
| `LiveLog.LogBox.OnOpen` | src/components/WebSocketBox.jsx:18-20 | appends exactly the connection line, keeping the log the replay of its events |
| `LiveLog.LogBox.OnMessage` | src/components/WebSocketBox.jsx:22-39 | leaves the log for a parse failure, appends the finish line for status "done" and the result line otherwise |
| `LiveLog.LogBox.OnClose` | src/components/WebSocketBox.jsx:41-43 | appends exactly the disconnection line |
| `Routing.Resolve` | src/App.jsx:12-26 | every hash resolves; the CV page exactly for "#cv", the project page exactly for "#project", the home page for every other hash ("", "#", "#home" included) |
| `Routing.Router.constructor` | src/App.jsx:10 | the route starts as the current hash |
| `Routing.Router.OnHashChange` | src/App.jsx:20-22 | after a hash change the route is the new hash |
| `Routing.Router.CurrentPage` | src/App.jsx:26 | the home page is shown for every route other than "#cv" and "#project" |
| `Assistant.Next` | src/components/Assistant.jsx:17 | the next index is one more, wrapping from the last tip to the first, and always a tip's index |
| `Assistant.AdvanceIsModular` | src/components/Assistant.jsx:15-18 | n ticks from a valid index give (index + n) mod 5 |
| `Assistant.FiveTicksReturn` | src/components/Assistant.jsx:17 | five ticks return the index to its start |
| `Assistant.TipRotator.constructor` | src/components/Assistant.jsx:13 | the index starts at 0, a valid index |
| `Assistant.TipRotator.Tick` | src/components/Assistant.jsx:16-18 | a tick advances the index and it stays below 5 |
| `Assistant.TipRotator.CurrentTip` | src/components/Assistant.jsx:26 | the displayed tip is one of the five tips |

## Findings

| source | as written | input that shows it | evidently intended | confidence | as-written member | corrected member |
|---|---|---|---|---|---|---|
| src/pages/Project.jsx:100-108 | `overallAccuracy` returns 0 only for an empty snapshot and otherwise divides by `totalQuestions` | `[{domain: "History", count: 0, accuracy: 0.8, avgResponseTime: 120}]` gives 0 / 0, shown as "NaN%" | 0 whenever no question was counted | medium, not executed | `Stats.ZeroCountSnapshotHasNoAccuracy` | `Stats.OverallAccuracyGuarded` |

## Left out

- Chart.js registration, colours, line tension, the dataset captions and the chart widgets themselves: the series are plain sequences of labels and numbers.
- The choice of API and WebSocket endpoint from the page's host name: deployment detail.
- Display formatting of the key figures (`* 100`, `toFixed(1)`, `Math.round` of the fastest time): string presentation.
- Floating point: accuracies and times are exact reals, so NaN propagation and rounding error are not modelled; records whose `accuracy` or `avgResponseTime` is missing or not a number, and fetch replies that are not a list of records, are not modelled.
- Asynchrony: each handler runs to completion at once, so the interleaving of overlapping requests (a double click on a button) is not modelled.
- A command acknowledgement whose `status` is not a string (a number, an object) is not modelled; its status field is a string or missing. An acknowledgement that parses to `null` is passed as a failure, since reading its `status` throws inside the same `try`.
- The WebSocket object, `JSON.parse`, `fetch` and `console.error` themselves: their outcomes are parameters.
- The auto-scroll of the log box and the effect cleanup that closes the socket on unmount: DOM and lifecycle plumbing (a close caused by the cleanup is just another `OnClose`).
- `setInterval`, `clearInterval` and the `hashchange` listener registration: only the callbacks are modelled.
- `Routing.Resolve`: a JavaScript object lookup would also find inherited keys such as "constructor", but a location hash is empty or begins with "#", so no such key can be met.
- The Home and CV pages: static markup.
