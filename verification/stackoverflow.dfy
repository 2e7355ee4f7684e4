/** The question fetcher: one search request per technology tag, whose decoded
    document's `items` are normalised field by field into `SOQuestion` rows. */
module StackOverflow {
  import opened Wrappers
  import opened Timestamps
  import opened JsonDoc
  import opened Metrics

  datatype SOAnswer = SOAnswer(body: string)

  /** The row shape stored into `so_posts`, plus the answers read alongside. */
  datatype SOQuestion = SOQuestion(
    title: string,
    body: string,
    answers: seq<SOAnswer>,
    createdAt: Time,
    closedAt: Time,
    technology: string)

  /** Why a run aborts: one case per `panic` and per failing single-value
      type assertion of the extraction, in the order the source meets them. */
  datatype ExtractError =
    | RequestFailed             // the GET itself returned an error
    | ItemsNotArray             // `items` is missing, null or not an array
    | ItemNotObject             // an element of `items` is not an object
    | TitleMissing              // the required title is missing or null
    | TitleNotString            // the title is not a string
    | BodyNotString             // a present body is not a string
    | ClosedDateNotNumber       // a present closed date is not a number
    | ClosedDateNotMarshalable  // the closed date's year lies outside 0..9999
    | AnswersNotArray           // present answers are not an array
    | AnswerNotObject           // an answer is not an object
    | AnswerBodyMissing         // an answer's body is missing or null
    | AnswerBodyNotString       // an answer's body is not a string

  /** The body given to a question that has none. */
  const NoBody: string := "No Body"

  /** The outcome of the HTTP GET: a transport error, or a body that either
      decoded into a JSON document (`Some`) or did not (`None`; the source
      ignores the decode error). */
  datatype Response = TransportError | Received(decoded: Option<Json>)

  /** `title` is required: missing or null aborts, a non-string aborts. */
  function ExtractTitle(q: map<string, Json>): (r: Result<string, ExtractError>)
    ensures Field(q, "title").None? <==> r == Failure(TitleMissing)
    ensures r.Success? <==> Field(q, "title").Some? && Field(q, "title").value.String?
    ensures r.Success? ==> r.value == Field(q, "title").value.str
    ensures Field(q, "title").Some? && !Field(q, "title").value.String? ==> r == Failure(TitleNotString)
  {
    match Field(q, "title")
    case None => Failure(TitleMissing)
    case Some(String(s)) => Success(s)
    case Some(_) => Failure(TitleNotString)
  }

  /** `body` is optional: missing or null gives "No Body", a string is kept
      unchanged, anything else aborts. */
  function ExtractBody(q: map<string, Json>): (r: Result<string, ExtractError>)
    ensures Field(q, "body").None? ==> r == Success(NoBody)
    ensures Field(q, "body").Some? ==>
      && (r.Success? <==> Field(q, "body").value.String?)
      && (r.Success? ==> r.value == Field(q, "body").value.str)
    ensures r.Failure? ==> r.error == BodyNotString
  {
    match Field(q, "body")
    case None => Success(NoBody)
    case Some(String(s)) => Success(s)
    case Some(_) => Failure(BodyNotString)
  }

  /** `closed_date` is optional: missing or null leaves the zero time; a
      number of epoch seconds becomes that instant, provided the time can be
      marshalled; anything else aborts. */
  function ExtractClosedAt(q: map<string, Json>): (r: Result<Time, ExtractError>)
    ensures Field(q, "closed_date").None? ==> r == Success(Zero)
    ensures Field(q, "closed_date").Some? ==>
      && (r.Success? <==> Field(q, "closed_date").value.Number?
                          && Marshalable(Field(q, "closed_date").value.n))
      && (r.Success? ==> r.value == Time(Field(q, "closed_date").value.n))
    ensures Field(q, "closed_date").Some? && !Field(q, "closed_date").value.Number? ==>
      r == Failure(ClosedDateNotNumber)
    ensures Field(q, "closed_date").Some? && Field(q, "closed_date").value.Number?
            && !Marshalable(Field(q, "closed_date").value.n) ==>
      r == Failure(ClosedDateNotMarshalable)
  {
    match Field(q, "closed_date")
    case None => Success(Zero)
    case Some(Number(n)) =>
      if Marshalable(n) then Success(Time(n)) else Failure(ClosedDateNotMarshalable)
    case Some(_) => Failure(ClosedDateNotNumber)
  }

  /** An answer element that carries a non-null string body. */
  predicate HasBody(ans: Json) {
    ans.Object? && Field(ans.fields, "body").Some? && Field(ans.fields, "body").value.String?
  }

  /** One element of `answers`: it must be an object with a non-null string
      `body`. The source's "No answers yet" sentinel is assigned only on the
      branch that panics right after, so it can never be observed. */
  function ExtractAnswer(ans: Json): (r: Result<SOAnswer, ExtractError>)
    ensures r.Success? <==> HasBody(ans)
    ensures r.Success? ==> r.value.body == Field(ans.fields, "body").value.str
    ensures ans.Object? && Field(ans.fields, "body").None? ==> r == Failure(AnswerBodyMissing)
    ensures !ans.Object? ==> r == Failure(AnswerNotObject)
    ensures ans.Object? && Field(ans.fields, "body").Some? && !Field(ans.fields, "body").value.String? ==>
      r == Failure(AnswerBodyNotString)
  {
    match ans
    case Object(fields) =>
      (match Field(fields, "body")
       case None => Failure(AnswerBodyMissing)
       case Some(String(s)) => Success(SOAnswer(s))
       case Some(_) => Failure(AnswerBodyNotString))
    case _ => Failure(AnswerNotObject)
  }

  /** `answers` is optional: missing or null gives no answers; an array gives
      its answers' bodies in order, unless one of them lacks a body; anything
      else aborts. */
  function ExtractAnswers(q: map<string, Json>): (r: Result<seq<SOAnswer>, ExtractError>)
    ensures Field(q, "answers").None? ==> r == Success([])
    ensures r.Success? && Field(q, "answers").Some? ==>
      && Field(q, "answers").value.Array?
      && var elems := Field(q, "answers").value.elems;
      && |r.value| == |elems|
      && forall i :: 0 <= i < |elems| ==>
           elems[i].Object? && Field(elems[i].fields, "body") == Some(String(r.value[i].body))
    ensures Field(q, "answers").Some? && Field(q, "answers").value.Array? ==>
      (r.Success? <==> forall i :: 0 <= i < |Field(q, "answers").value.elems| ==>
                         HasBody(Field(q, "answers").value.elems[i]))
    ensures Field(q, "answers").Some? && !Field(q, "answers").value.Array? ==> r == Failure(AnswersNotArray)
    ensures r.Failure? && Field(q, "answers").Some? && Field(q, "answers").value.Array? ==>
      var elems := Field(q, "answers").value.elems;
      exists i :: 0 <= i < |elems| && ExtractAnswer(elems[i]) == Failure(r.error)
        && forall j :: 0 <= j < i ==> ExtractAnswer(elems[j]).Success?
  {
    match Field(q, "answers")
    case None => Success([])
    case Some(Array(elems)) => MapResults(ExtractAnswer, elems)
    case Some(_) => Failure(AnswersNotArray)
  }

  /** One element of `items` as a question, checking its fields in the
      source's order: title, body, closed date, answers. */
  function ExtractQuestion(item: Json, technology: string): (r: Result<SOQuestion, ExtractError>)
    ensures !item.Object? ==> r == Failure(ItemNotObject)
    ensures item.Object? && Field(item.fields, "title").None? ==> r == Failure(TitleMissing)
    ensures r.Success? ==>
      && item.Object?
      && ExtractTitle(item.fields) == Success(r.value.title)
      && ExtractBody(item.fields) == Success(r.value.body)
      && ExtractClosedAt(item.fields) == Success(r.value.closedAt)
      && ExtractAnswers(item.fields) == Success(r.value.answers)
    ensures r.Success? ==> r.value.technology == technology && r.value.createdAt == Zero
    ensures item.Object? && ExtractTitle(item.fields).Failure? ==>
      r == Failure(ExtractTitle(item.fields).error)
    ensures item.Object? && ExtractTitle(item.fields).Success? && ExtractBody(item.fields).Failure? ==>
      r == Failure(ExtractBody(item.fields).error)
    ensures item.Object? && ExtractTitle(item.fields).Success? && ExtractBody(item.fields).Success?
            && ExtractClosedAt(item.fields).Failure? ==>
      r == Failure(ExtractClosedAt(item.fields).error)
    ensures item.Object? && ExtractTitle(item.fields).Success? && ExtractBody(item.fields).Success?
            && ExtractClosedAt(item.fields).Success? && ExtractAnswers(item.fields).Failure? ==>
      r == Failure(ExtractAnswers(item.fields).error)
    ensures item.Object? ==>
      (r.Success? <==> && ExtractTitle(item.fields).Success?
                       && ExtractBody(item.fields).Success?
                       && ExtractClosedAt(item.fields).Success?
                       && ExtractAnswers(item.fields).Success?)
  {
    match item
    case Object(q) =>
      var title :- ExtractTitle(q);
      var body :- ExtractBody(q);
      var closedAt :- ExtractClosedAt(q);
      var answers :- ExtractAnswers(q);
      Success(SOQuestion(title, body, answers, Zero, closedAt, technology))
    case _ => Failure(ItemNotObject)
  }

  /** The loop over `items`: one question per item, in order, stopping at the
      first item whose extraction aborts. */
  function ExtractQuestions(items: seq<Json>, technology: string): (r: Result<seq<SOQuestion>, ExtractError>)
    ensures r.Success? <==> forall i :: 0 <= i < |items| ==> ExtractQuestion(items[i], technology).Success?
    ensures r.Success? ==> |r.value| == |items|
    ensures r.Success? ==> forall i :: 0 <= i < |items| ==> ExtractQuestion(items[i], technology) == Success(r.value[i])
    ensures r.Success? ==> forall i :: 0 <= i < |r.value| ==>
      r.value[i].technology == technology && r.value[i].createdAt == Zero
    ensures r.Failure? ==>
      exists i :: 0 <= i < |items| && ExtractQuestion(items[i], technology) == Failure(r.error)
        && forall j :: 0 <= j < i ==> ExtractQuestion(items[j], technology).Success?
  {
    MapResults((item: Json) => ExtractQuestion(item, technology), items)
  }

  /** `getSOQuestions(technology)` after the GET: read `items` from the decoded
      document, extract every question, and count one Stack Overflow API call.
      Any failure aborts before the counter is touched. */
  function GetSOQuestions(response: Response, technology: string, counters: Counters)
    : (r: Result<(seq<SOQuestion>, Counters), ExtractError>)
    ensures response.TransportError? ==> r == Failure(RequestFailed)
    ensures response.Received? && !(Field(TopLevel(response.decoded), "items").Some?
                                     && Field(TopLevel(response.decoded), "items").value.Array?)
            ==> r == Failure(ItemsNotArray)
    ensures r.Success? ==>
      && response.Received?
      && Field(TopLevel(response.decoded), "items").Some?
      && Field(TopLevel(response.decoded), "items").value.Array?
      && ExtractQuestions(Field(TopLevel(response.decoded), "items").value.elems, technology) == Success(r.value.0)
    ensures r.Success? ==> r.value.1.stackoverflowApiCalls == counters.stackoverflowApiCalls + 1
    ensures r.Success? ==> r.value.1.githubApiCalls == counters.githubApiCalls
    ensures response.Received? && Field(TopLevel(response.decoded), "items").Some?
            && Field(TopLevel(response.decoded), "items").value.Array? ==>
      var items := Field(TopLevel(response.decoded), "items").value.elems;
      && (r.Success? <==> ExtractQuestions(items, technology).Success?)
      && (r.Failure? ==> r.error == ExtractQuestions(items, technology).error)
  {
    match response
    case TransportError => Failure(RequestFailed)
    case Received(decoded) =>
      match Field(TopLevel(decoded), "items")
      case Some(Array(items)) =>
        var questions :- ExtractQuestions(items, technology);
        Success((questions, counters.IncStackOverflow()))
      case _ => Failure(ItemsNotArray)
  }

  /** A question rendered back as an element of `items`, every field present:
      the inverse direction of `ExtractQuestion`. */
  function QuestionItem(q: SOQuestion): Json {
    Object(map[
      "title" := String(q.title),
      "body" := String(q.body),
      "closed_date" := Number(q.closedAt.unixSeconds),
      "answers" := Array(AnswerItems(q.answers))])
  }

  function AnswerItems(answers: seq<SOAnswer>): (items: seq<Json>)
    ensures |items| == |answers|
  {
    seq(|answers|, i requires 0 <= i < |answers| => Object(map["body" := String(answers[i].body)]))
  }

  function QuestionItems(qs: seq<SOQuestion>): (items: seq<Json>)
    ensures |items| == |qs|
  {
    seq(|qs|, i requires 0 <= i < |qs| => QuestionItem(qs[i]))
  }

  /** The questions a run can produce: stamped with the run's technology,
      never given a creation time, and closed (if at all) at a time that
      marshals. */
  predicate Producible(q: SOQuestion, technology: string) {
    q.technology == technology && q.createdAt == Zero && Marshalable(q.closedAt.unixSeconds)
  }

  /** Every question the extraction yields is producible. */
  lemma ExtractedIsProducible(item: Json, technology: string)
    requires ExtractQuestion(item, technology).Success?
    ensures Producible(ExtractQuestion(item, technology).value, technology)
  {
  }

  /** Rendering a producible question and extracting it again gives it back. */
  lemma ExtractQuestionRoundTrip(q: SOQuestion, technology: string)
    requires Producible(q, technology)
    ensures ExtractQuestion(QuestionItem(q), technology) == Success(q)
  {
    var fields := QuestionItem(q).fields;
    assert Field(fields, "title") == Some(String(q.title));
    assert Field(fields, "body") == Some(String(q.body));
    assert Field(fields, "closed_date") == Some(Number(q.closedAt.unixSeconds));
    var elems := AnswerItems(q.answers);
    assert Field(fields, "answers") == Some(Array(elems));
    var answers := ExtractAnswers(fields);
    assert forall i :: 0 <= i < |elems| ==> HasBody(elems[i]);
    assert answers.value == q.answers;
  }

  /** Rendering producible questions as `items` and extracting them again
      gives back the same questions in the same order. */
  lemma ExtractQuestionsRoundTrip(qs: seq<SOQuestion>, technology: string)
    requires forall i :: 0 <= i < |qs| ==> Producible(qs[i], technology)
    ensures ExtractQuestions(QuestionItems(qs), technology) == Success(qs)
  {
    var items := QuestionItems(qs);
    forall i | 0 <= i < |items|
      ensures ExtractQuestion(items[i], technology) == Success(qs[i])
    {
      ExtractQuestionRoundTrip(qs[i], technology);
    }
    assert ExtractQuestions(items, technology).value == qs;
  }

  /** A full response whose `items` render producible questions yields those
      questions and counts exactly one call. */
  lemma GetSOQuestionsRoundTrip(qs: seq<SOQuestion>, technology: string, counters: Counters)
    requires forall i :: 0 <= i < |qs| ==> Producible(qs[i], technology)
    ensures GetSOQuestions(Received(Some(Object(map["items" := Array(QuestionItems(qs))]))), technology, counters)
         == Success((qs, counters.IncStackOverflow()))
  {
    ExtractQuestionsRoundTrip(qs, technology);
  }

  /** An item without a title anywhere in `items` aborts the whole run. */
  lemma MissingTitleAbortsRun(items: seq<Json>, k: nat, technology: string)
    requires k < |items| && items[k].Object? && Field(items[k].fields, "title").None?
    ensures ExtractQuestions(items, technology).Failure?
  {
  }

  /** An answer without a string body anywhere aborts its question. */
  lemma AnswerWithoutBodyAbortsQuestion(item: Json, technology: string, k: nat)
    requires item.Object?
    requires Field(item.fields, "answers").Some? && Field(item.fields, "answers").value.Array?
    requires k < |Field(item.fields, "answers").value.elems|
    requires !HasBody(Field(item.fields, "answers").value.elems[k])
    ensures ExtractQuestion(item, technology).Failure?
  {
  }

  /** Tag "Go", one item titled "foo" with no body and one answer "bar": one
      question titled "foo" with body "No Body", technology "Go" and the one
      answer "bar". */
  lemma ScenarioGoQuestion(counters: Counters)
    ensures
      var answer := Object(map["body" := String("bar")]);
      var item := Object(map["title" := String("foo"), "answers" := Array([answer])]);
      var doc := Object(map["items" := Array([item])]);
      && GetSOQuestions(Received(Some(doc)), "Go", Initial).Success?
      && GetSOQuestions(Received(Some(doc)), "Go", Initial).value.1 == Counters(0, 1)
    ensures
      var answer := Object(map["body" := String("bar")]);
      var item := Object(map["title" := String("foo"), "answers" := Array([answer])]);
      var doc := Object(map["items" := Array([item])]);
      GetSOQuestions(Received(Some(doc)), "Go", counters)
        == Success(([SOQuestion("foo", NoBody, [SOAnswer("bar")], Zero, Zero, "Go")], counters.IncStackOverflow()))
  {
    var answer := Object(map["body" := String("bar")]);
    var item := Object(map["title" := String("foo"), "answers" := Array([answer])]);
    assert Field(item.fields, "body").None?;
    assert Field(item.fields, "closed_date").None?;
    assert Field(item.fields, "answers") == Some(Array([answer]));
    assert Field(answer.fields, "body") == Some(String("bar"));
    assert ExtractAnswer(answer) == Success(SOAnswer("bar"));
    assert ExtractAnswers(item.fields).value == [SOAnswer("bar")];
    assert ExtractQuestions([item], "Go").value == [SOQuestion("foo", NoBody, [SOAnswer("bar")], Zero, Zero, "Go")];
  }
}
