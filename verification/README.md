# Ingestion core of pg-go-docker-prometheus-gcp, modelled in Dafny

The Go program polls two sources. It pages through a GitHub repository's issue
list. It also runs one Stack Overflow search per technology tag. The results go
into two Postgres tables, and two Prometheus counters record the API calls.
This project models the three pure pieces inside that plumbing:

- **Issue paging** (`getGitHubIssues`, main.go:49-62). The go-github client
  becomes a function `ListByRepo` from (owner, repo, page) to a page of raw
  issues plus the next page number, or to an error.
  - The first request uses page 0, the zero value of `opt.Page`.
  - The loop appends each page's issues and stops at `NextPage == 0`.
  - Each later request asks for the previous response's `NextPage`.
- **Issue mapping** (main.go:64-74). Each raw issue becomes one `GithubIssue`.
  - Nil pointer fields read as go-github's `GetX()` defaults: "", 0 and the
    zero time.
  - Every row is stamped with the `repo` argument.
- **Question extraction** (`getSOQuestions`, main.go:96-157). The decoded
  response is a `Json` value: null, bool, number, string, array or object.
  - Every `panic` that can fire becomes a distinct `ExtractError`. So does
    every single-value type assertion that would fail.
  - The `json.Unmarshal` panic at main.go:128-130 has no case. It can only
    follow a successful MarshalJSON, and Unmarshal always accepts that
    output.
  - `title` is required.
  - `body` defaults to "No Body".
  - `closed_date` leaves the zero time when absent.
  - Every element of `answers` must carry a non-null string `body`. The source
    assigns the sentinel "No answers yet" only on a branch that panics right
    after, so that sentinel can never be observed.

The API-call counters are a `Counters` value. Each fetcher takes one and
returns it incremented by one on success. On failure the run aborts before the
increment. Go's zero `time.Time` is `Timestamps.Zero`, which is
0001-01-01T00:00:00Z as Unix seconds.

Three behaviours of the code that are easy to misread:
- A missing answer body is fatal. It is not a default.
- `closed_date` is checked by `MarshalJSON`, which fails for a year outside
  0..9999. That failure aborts the run too.
- A Stack Overflow body that does not decode is not reported by the source.
  It leaves the result map nil, so the `items` assertion panics.

Every field read goes through one shared lookup, `JsonDoc.Field`. It is Go's
`v, ok := m[k]; ok && v != nil`: a missing key and a key bound to null both
read as absent. It is a definition, so it has no row in the table below.

Modules: `Wrappers` (Option, Result, first-failure traversal), `Timestamps`,
`JsonDoc`, `Metrics`, `GitHub`, `StackOverflow`.

## Model

| member | source | states |
|---|---|---|
| Wrappers.MapResults | main.go:99-155 | a range loop whose body may abort succeeds iff every element succeeds; it then yields one result per element, in order; otherwise it fails with the error of the first failing element |
| JsonDoc.TopLevel | main.go:96-97 | a document that did not decode, or whose top level is not an object, reads as the empty map, so every field lookup finds nothing; an object document answers every lookup exactly as its own fields do |
| GitHub.Paginate | main.go:49-62 | a successful run begins with the first requested page's issues; a failed run names a page it actually requested, and that request did fail with the reported reason; the lemmas PaginateFollowsChain, PaginateIsChain and PaginateFailsAtLastRequest characterise it fully |
| GitHub.PaginateFollowsChain | main.go:49-62 | paging from the first page of a chain of successful requests (each asking for the previous response's nonzero NextPage, the last answering NextPage 0) ends and returns the concatenation of those pages' issues in request order |
| GitHub.PaginateIsChain | main.go:49-62 | conversely, a successful paging run made exactly the requests of such a chain and returned their issues concatenated in request order |
| GitHub.PaginateFailsAtLastRequest | main.go:53-56 | a failed paging run reports the page and error of its last request, which failed, and every earlier request succeeded |
| GitHub.MapIssues | main.go:64-74 | one row per raw issue, same order, carrying the issue's title, number and timestamps (or their nil defaults) and the repo argument |
| GitHub.MapIssuesAppend | main.go:57-74 | mapping the accumulated pages equals mapping each page and concatenating |
| GitHub.FetchAllPages | main.go:49-62 | the imperative paging loop returns exactly what the paging definition returns, including the error of a failed request |
| GitHub.ExtractIssueDetails | main.go:64-74 | the imperative extraction loop produces exactly the mapped rows |
| GitHub.GetGitHubIssues | main.go:38-78 | succeeds iff paging succeeds; the rows are the mapped issues, all stamped with repo; the GitHub counter rises by exactly one and the other counter is unchanged; a failure carries the paging error |
| GitHub.ScenarioGolangGo | main.go:49-74 | for golang/go with two pages, both pages' issues come back in page order and every row's repo is "go" |
| StackOverflow.ExtractTitle | main.go:108-113 | a missing or null title fails with TitleMissing; a present non-string title fails with TitleNotString; success happens iff the title is a string, and yields that string |
| StackOverflow.ExtractBody | main.go:115-121 | a missing or null body gives exactly "No Body"; a present body succeeds iff it is a string, and yields it unchanged; otherwise BodyNotString |
| StackOverflow.ExtractClosedAt | main.go:123-134 | a missing or null closed_date gives the zero time; a present one succeeds iff it is a number of seconds whose year marshals, and yields that instant; a non-number fails with ClosedDateNotNumber and an out-of-range year with ClosedDateNotMarshalable |
| StackOverflow.ExtractAnswer | main.go:140-148 | an answer succeeds iff it is an object with a non-null string body, and yields that body; a non-object fails with AnswerNotObject, an object without a body with AnswerBodyMissing, and a non-string body with AnswerBodyNotString |
| StackOverflow.ExtractAnswers | main.go:136-152 | missing or null answers give the empty list; an array succeeds iff every element has a string body, and yields those bodies one per element in order; a failing array reports the error of its first failing answer; a non-array fails with AnswersNotArray |
| StackOverflow.ExtractQuestion | main.go:101-154 | a non-object item fails; a missing title fails with TitleMissing; success happens iff title, body, closed date and answers all extract, and the question holds exactly those values, the technology argument and the zero creation time; a failure reports the first failing field in the order title, body, closed date, answers |
| StackOverflow.ExtractQuestions | main.go:99-155 | succeeds iff every item extracts; then one question per item in input order, each with the technology argument and zero creation time; otherwise the error of the first failing item |
| StackOverflow.GetSOQuestions | main.go:91-157 | a transport error fails; a document without an items array fails with ItemsNotArray; a document with an items array succeeds iff every item extracts, and otherwise fails with the first failing item's error; on success the questions are those extracted from items, the Stack Overflow counter rises by exactly one and the GitHub counter is unchanged |
| StackOverflow.ExtractedIsProducible | main.go:104-134 | every extracted question carries the run's technology, the zero creation time and a closing time that marshals |
| StackOverflow.ExtractQuestionRoundTrip | main.go:101-154 | rendering such a question as an item and extracting it gives the same question back |
| StackOverflow.ExtractQuestionsRoundTrip | main.go:99-155 | rendering a list of such questions as items and extracting them gives the same list back, in order |
| StackOverflow.GetSOQuestionsRoundTrip | main.go:96-157 | a response whose items render such questions yields exactly those questions and one counted call |
| StackOverflow.MissingTitleAbortsRun | main.go:100-113 | one item without a title anywhere in items makes the whole extraction fail |
| StackOverflow.AnswerWithoutBodyAbortsQuestion | main.go:136-148 | one answer without a string body makes its question fail |
| StackOverflow.ScenarioGoQuestion | main.go:96-157 | for tag "Go", one item titled "foo" with no body and one answer "bar" gives one question: title "foo", body "No Body", technology "Go", answers ["bar"]; starting from the initial counters, the Stack Overflow counter goes from 0 to 1 |

## Left out

- HTTP GET, OAuth token setup, the go-github client and JSON stream decoding are foreign I/O. They appear only as the abstract `ListByRepo` function and the `Response` value.
- `time.Now()` and the query URL built with `Sprintf` are a clock and string formatting. The question fetcher starts from the response.
- Postgres: opening and pinging connections, dropping and recreating tables, and the inserts are database I/O.
- Reading config.json, the Prometheus registry, the `/metrics` endpoint and the goroutine HTTP server with its placeholder handlers are I/O and concurrency.
- The orchestration loops over the hard-coded repository map and tag list are glue, and Go's map iteration order is unspecified. The per-call counter contracts imply that N successful calls add N.
- StackOverflow.ExtractClosedAt: JSON numbers are integers here. The float64 value, its truncation to int64 and the MarshalJSON/Unmarshal round trip become "integer seconds whose UTC year lies in 0..9999". The process time zone is assumed to be UTC, so the year bounds are not shifted by a local offset.
- GitHub.GetGitHubIssues: requires the pages to end within a ghost `fuel` bound. A client whose `NextPage` values cycle forever makes the Go loop run forever, and that case is not modelled.
- Go's 64-bit `int` for issue numbers and page numbers is unbounded here. Page numbers are natural numbers, as GitHub returns them.
- Only the instant of a `time.Time` is modelled. Its location is not.
