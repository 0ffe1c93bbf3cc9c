/**
 * The response validator of the assignment check: each required element names a
 * check on the `/query` response (how many sub-queries, which words the answer
 * uses, whether sources came back); the score counts the checks that hold. The
 * final assessment turns the number of successful queries into a rubric verdict.
 * The HTTP round-trip that produces a response is an input.
 */
module AssignmentValidation {
  import opened Wrappers
  import opened PyStr
  import opened Schemas

  /** The JSON body of a `/query` response; a missing key is `None`. */
  datatype ApiResponse = ApiResponse(
    answer: Option<string>,
    subQueries: Option<seq<string>>,
    sources: Option<seq<Source>>)

  /** What `test_query` returns: the response of a 200 reply, or the error text. */
  datatype QueryOutcome = Succeeded(response: ApiResponse, processingTime: real) | Errored(error: string)

  datatype Validation = Validation(score: nat, details: seq<string>)

  /** `response.get('answer', '').lower()` */
  function AnswerText(r: ApiResponse): string {
    Lower(r.answer.GetOr(""))
  }

  /** `len(response.get('sub_queries', []))` */
  function SubQueryCount(r: ApiResponse): nat {
    |r.subQueries.GetOr([])|
  }

  /** `len(response.get('sources', []))` */
  function SourceCount(r: ApiResponse): nat {
    |r.sources.GetOr([])|
  }

  /** `any(word in answer for word in words)` */
  predicate AnyWord(answer: string, words: seq<string>) {
    exists i :: 0 <= i < |words| && Contains(answer, words[i])
  }

  /** The names the `checks` table holds. */
  const CheckNames := ["single_retrieval", "direct_answer", "query_decomposition", "multi_step",
                       "calculation", "multiple_searches", "comparison", "ranking", "percentage",
                       "segment_data", "multi_company", "ai_analysis"]

  /** The `checks` table: the verdict of a named check, `None` for a name not in it. */
  function Check(name: string, r: ApiResponse): (verdict: Option<bool>)
    ensures verdict.Some? <==> name in CheckNames
  {
    var answer := AnswerText(r);
    var n := SubQueryCount(r);
    if name == "single_retrieval" then Some(n <= 1)
    else if name == "direct_answer" then Some(!Contains(answer, "unable") && !Contains(answer, "sorry"))
    else if name == "query_decomposition" then Some(n > 1)
    else if name == "multi_step" then Some(n >= 2)
    else if name == "calculation" then Some(AnyWord(answer, ["%", "percent", "billion", "growth", "increase"]))
    else if name == "multiple_searches" then Some(n >= 3)
    else if name == "comparison" then Some(AnyWord(answer, ["highest", "compare", "vs", "better", "more"]))
    else if name == "ranking" then Some(AnyWord(answer, ["highest", "lowest", "first", "best"]))
    else if name == "percentage" then Some(Contains(answer, "%") || Contains(answer, "percent"))
    else if name == "segment_data" then Some(AnyWord(answer, ["cloud", "segment", "division"]))
    else if name == "multi_company" then Some(SourceCount(r) > 0)
    else if name == "ai_analysis" then Some(AnyWord(answer, ["ai", "artificial", "intelligence", "openai"]))
    else None
  }

  /** `element in checks and checks[element]` */
  predicate Passes(name: string, r: ApiResponse) {
    Check(name, r) == Some(true)
  }

  /** One line of `details`: a check mark or a cross, then the element's name. */
  function Detail(name: string, r: ApiResponse): string {
    (if Passes(name, r) then "\U{2705} " else "\U{274C} ") + name
  }

  /** The number of elements of `xs` that satisfy `p`. */
  function CountWhere<T>(xs: seq<T>, p: T -> bool): nat {
    if |xs| == 0 then 0
    else CountWhere(xs[..|xs| - 1], p) + (if p(xs[|xs| - 1]) then 1 else 0)
  }

  /** `name => Passes(name, r)`, named so that every use denotes the same function. */
  function PassesFor(r: ApiResponse): string -> bool {
    name => Passes(name, r)
  }

  /** The number of required elements whose check holds. */
  function Score(r: ApiResponse, required: seq<string>): nat {
    CountWhere(required, PassesFor(r))
  }

  function Details(r: ApiResponse, required: seq<string>): seq<string> {
    if |required| == 0 then []
    else Details(r, required[..|required| - 1]) + [Detail(required[|required| - 1], r)]
  }

  /** What `validate_response(result, required_elements)` returns. */
  function Validated(result: QueryOutcome, required: seq<string>): (v: Validation)
    ensures result.Errored? ==> v == Validation(0, [])
    ensures result.Succeeded? ==> |v.details| == |required| && v.score <= |required|
  {
    match result
    case Errored(_) => Validation(0, [])
    case Succeeded(r, _) =>
      ValidationShape(r, required);
      Validation(Score(r, required), Details(r, required))
  }

  /** `validate_response` */
  method ValidateResponse(result: QueryOutcome, required: seq<string>) returns (validation: Validation)
    ensures validation == Validated(result, required)
  {
    validation := Validation(0, []);
    if result.Errored? {
      return;
    }
    var response := result.response;
    var i := 0;
    while i < |required|
      invariant 0 <= i <= |required|
      invariant validation == Validation(Score(response, required[..i]), Details(response, required[..i]))
    {
      assert required[..i + 1][..i] == required[..i];
      var element := required[i];
      assert PassesFor(response)(element) == Passes(element, response);
      var check := Check(element, response);
      if check.Some? && check.value {
        validation := validation.(score := validation.score + 1,
                                  details := validation.details + ["\U{2705} " + element]);
      } else {
        validation := validation.(details := validation.details + ["\U{274C} " + element]);
      }
      i := i + 1;
    }
    assert required[..|required|] == required;
  }

  /**
   * One detail per required element, in order, marked by whether its check holds;
   * the score counts the marked ones, so it lies between 0 and the number of
   * elements, reaching either end exactly when all or none pass.
   */
  lemma {:induction false} ValidationShape(r: ApiResponse, required: seq<string>)
    ensures |Details(r, required)| == |required|
    ensures forall i :: 0 <= i < |required| ==> Details(r, required)[i] == Detail(required[i], r)
    ensures Score(r, required) <= |required|
    ensures Score(r, required) == |required| <==> forall i :: 0 <= i < |required| ==> Passes(required[i], r)
    ensures Score(r, required) == 0 <==> forall i :: 0 <= i < |required| ==> !Passes(required[i], r)
  {
    DetailsShape(r, required);
    ScoreBounds(r, required);
  }

  lemma {:induction false} DetailsShape(r: ApiResponse, required: seq<string>)
    ensures |Details(r, required)| == |required|
    ensures forall i :: 0 <= i < |required| ==> Details(r, required)[i] == Detail(required[i], r)
  {
    if |required| > 0 {
      var init := required[..|required| - 1];
      DetailsShape(r, init);
      assert Details(r, required) == Details(r, init) + [Detail(required[|required| - 1], r)];
      assert forall i :: 0 <= i < |init| ==> init[i] == required[i];
    }
  }

  lemma ScoreBounds(r: ApiResponse, required: seq<string>)
    ensures Score(r, required) <= |required|
    ensures Score(r, required) == |required| <==> forall i :: 0 <= i < |required| ==> Passes(required[i], r)
    ensures Score(r, required) == 0 <==> forall i :: 0 <= i < |required| ==> !Passes(required[i], r)
  {
    CountWhereBounds(required, PassesFor(r));
  }

  /** The count lies between 0 and |xs|, reaching either end exactly when all or none satisfy `p`. */
  lemma {:induction false} CountWhereBounds<T>(xs: seq<T>, p: T -> bool)
    ensures CountWhere(xs, p) <= |xs|
    ensures CountWhere(xs, p) == |xs| <==> forall i :: 0 <= i < |xs| ==> p(xs[i])
    ensures CountWhere(xs, p) == 0 <==> forall i :: 0 <= i < |xs| ==> !p(xs[i])
  {
    if |xs| > 0 {
      var init := xs[..|xs| - 1];
      CountWhereBounds(init, p);
      assert forall i :: 0 <= i < |init| ==> init[i] == xs[i];
    }
  }

  /** An unsuccessful query scores nothing and has no details. */
  lemma UnsuccessfulScoresZero(error: string, required: seq<string>)
    ensures Validated(Errored(error), required) == Validation(0, [])
  {
  }

  /** A name outside the checks table is reported as failed. */
  lemma UnknownElementFails(r: ApiResponse, required: seq<string>, i: nat)
    requires i < |required| && Check(required[i], r).None?
    ensures |Details(r, required)| == |required| && Details(r, required)[i] == "\U{274C} " + required[i]
  {
    ValidationShape(r, required);
  }

  /**
   * How the checks relate: one retrieval and decomposition are complementary;
   * three searches imply several steps, which imply decomposition; a percentage
   * counts as a calculation; a direct answer is one without "unable" or "sorry".
   */
  lemma ChecksRelated(r: ApiResponse)
    ensures Check("single_retrieval", r).value == !Check("query_decomposition", r).value
    ensures Check("multiple_searches", r).value ==> Check("multi_step", r).value
    ensures Check("multi_step", r).value ==> Check("query_decomposition", r).value
    ensures Check("percentage", r).value ==> Check("calculation", r).value
    ensures Check("direct_answer", r).value <==>
              !Contains(AnswerText(r), "unable") && !Contains(AnswerText(r), "sorry")
  {
    var answer := AnswerText(r);
    var calculationWords := ["%", "percent", "billion", "growth", "increase"];
    if Contains(answer, "%") {
      assert Contains(answer, calculationWords[0]);
    } else if Contains(answer, "percent") {
      assert Contains(answer, calculationWords[1]);
    }
  }

  // ---------------------------------------------------------------
  // print_assignment_assessment
  // ---------------------------------------------------------------

  /** One entry of the results list `validate_assignment` collects. */
  datatype Entry = Entry(category: string, success: bool, validation: Validation)

  datatype Status = Met | PartiallyMet | NotMet

  /** The verdicts `print_assignment_assessment` prints. */
  datatype Assessment = Assessment(
    successful: nat,
    total: nat,
    ragExcellent: bool,
    agentExcellent: bool,
    accuracy: real,
    accuracyExcellent: bool,
    overall: real,
    status: Status)

  /** `sum(1 for r in results if r['success'])` */
  function Successes(results: seq<Entry>): (n: nat)
    ensures n <= |results|
  {
    if |results| == 0 then 0
    else Successes(results[..|results| - 1]) + (if results[|results| - 1].success then 1 else 0)
  }

  /**
   * The rubric verdicts; an empty results list divides by zero in the source, so
   * it is excluded.
   */
  function Assess(results: seq<Entry>): (a: Assessment)
    requires |results| > 0
    ensures a.total == |results| && a.successful <= a.total
    ensures a.ragExcellent <==> a.successful >= 4
  {
    var s := Successes(results);
    var t := |results|;
    var accuracy := (s as real / t as real) * 100.0;
    var overall := s as real / t as real;
    Assessment(
      s, t,
      s >= 4,
      exists i :: 0 <= i < |results| && results[i].validation.score >= 2,
      accuracy, accuracy >= 80.0,
      overall,
      if overall >= 0.8 then Met else if overall >= 0.6 then PartiallyMet else NotMet)
  }

  /**
   * The thresholds in whole numbers: met when at least four in five queries
   * succeeded, partially met from three in five; query accuracy is excellent
   * exactly when the status is met, and the overall score lies in [0, 1].
   */
  lemma AssessThresholds(results: seq<Entry>)
    requires |results| > 0
    ensures var a := Assess(results);
      && 0.0 <= a.overall <= 1.0
      && (a.status == Met <==> 5 * a.successful >= 4 * a.total)
      && (a.status == PartiallyMet <==> 3 * a.total <= 5 * a.successful < 4 * a.total)
      && (a.status == NotMet <==> 5 * a.successful < 3 * a.total)
      && (a.accuracyExcellent <==> a.status == Met)
  {
    var s := Successes(results) as real;
    var t := |results| as real;
    RatioAtLeast(s, t, 0.8);
    RatioAtLeast(s, t, 0.6);
    RatioAtLeast(s, t, 1.0);
  }

  /** For a positive denominator, `s / t >= c` exactly when `s >= c * t`, and `s / t <= c` when `s <= c * t`. */
  lemma RatioAtLeast(s: real, t: real, c: real)
    requires t > 0.0
    ensures s / t >= c <==> s >= c * t
    ensures s / t <= c <==> s <= c * t
  {
    var o := s / t;
    assert o * t == s;
    if o >= c {
      assert (o - c) * t >= 0.0;
    } else {
      assert (c - o) * t > 0.0;
    }
    if o <= c {
      assert (c - o) * t >= 0.0;
    } else {
      assert (o - c) * t > 0.0;
    }
  }
}
