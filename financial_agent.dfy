/**
 * The question-answering agent: a fixed graph of four nodes over a shared state
 * record. `classify_query` labels the question "simple" or "complex"; a complex
 * question is split into sub-queries by `decompose_query`; `execute_searches` runs
 * one vector search per query; `synthesize_answer` asks the language model for a
 * JSON answer and falls back through a chain of cruder answers when the reply does
 * not parse. `process_query` runs the graph and turns the final state into a
 * `QueryResponse`.
 *
 * The language model, `json.loads`, the two regular expressions of the fallback
 * chain and the embedder+index behind the store are inputs (`Oracles`): each is a
 * function of what it is given, so a repeated prompt gets the same reply.
 */
module FinancialAgent {
  import opened Wrappers
  import opened PyStr
  import opened PyDict
  import opened Json
  import opened Schemas
  import opened VectorStore

  // ---------------------------------------------------------------
  // State, prompts and oracles
  // ---------------------------------------------------------------

  /**
   * A state slot that `json.loads` can fill. `Typed` holds a value of the declared
   * type (`str`, `List[str]`); `Untyped` holds any other JSON value, which the
   * state accepts but `QueryResponse` rejects.
   */
  datatype Slot<T> = Typed(value: T) | Untyped(raw: Json)

  /** A JSON value stored where a `str` is declared. */
  function StringSlot(v: Json): (s: Slot<string>)
    ensures s.Typed? <==> v.JString?
    ensures s.Typed? ==> v == JString(s.value)
    ensures s.Untyped? ==> s.raw == v
  {
    if v.JString? then Typed(v.s) else Untyped(v)
  }

  /** A JSON value stored where a `List[str]` is declared. */
  function ListSlot(v: Json): (s: Slot<seq<string>>)
    ensures s.Typed? <==> AsStrings(v).Some?
    ensures s.Typed? ==> v.JArray? && |s.value| == |v.items| &&
                         forall i :: 0 <= i < |v.items| ==> v.items[i] == JString(s.value[i])
  {
    match AsStrings(v)
    case Some(xs) => Typed(xs)
    case None => Untyped(v)
  }

  /** One projected search result, as `execute_searches` records it for synthesis. */
  datatype SearchRow = SearchRow(
    content: string,
    score: Score,
    company: string,
    year: string,
    section: Option<string>,
    page: Option<int>)

  function Row(h: Hit): SearchRow {
    SearchRow(h.chunk.content, h.score, h.chunk.metadata.company, h.chunk.metadata.year,
              h.chunk.section, h.chunk.pageNumber)
  }

  /** The fields of the graph's state record, as a value. */
  datatype StateView = StateView(
    query: string,
    queryType: string,
    subQueries: Slot<seq<string>>,
    searchResults: Dict<string, seq<SearchRow>>,
    finalAnswer: Slot<string>,
    reasoning: Slot<string>,
    sources: seq<Source>,
    error: Option<string>)

  /**
   * How a node, or the whole graph, ends: with the updated state, or with an
   * exception that no node catches, carrying its text.
   */
  datatype Run = Completed(state: StateView) | Aborted(message: string)

  /** The state `process_query` starts the graph with. */
  function Initial(query: string): StateView {
    StateView(query, "", Typed([]), [], Typed(""), Typed(""), [], None)
  }

  /** The state record the nodes update in place. */
  class AgentState {
    var query: string
    var queryType: string
    var subQueries: Slot<seq<string>>
    var searchResults: Dict<string, seq<SearchRow>>
    var finalAnswer: Slot<string>
    var reasoning: Slot<string>
    var sources: seq<Source>
    var error: Option<string>

    constructor (query: string)
      ensures View() == Initial(query)
    {
      this.query := query;
      queryType := "";
      subQueries := Typed([]);
      searchResults := [];
      finalAnswer := Typed("");
      reasoning := Typed("");
      sources := [];
      error := None;
    }

    function View(): StateView
      reads this
    {
      StateView(query, queryType, subQueries, searchResults, finalAnswer, reasoning, sources, error)
    }
  }

  /** What each prompt is built from; the template text around it is fixed. */
  datatype Prompt =
    | ClassifyPrompt(query: string)
    | DecomposePrompt(query: string)
    | SynthesisPrompt(query: string, context: string)

  /** The model's reply text, or the text of the exception `invoke` raised. */
  datatype Reply = Replied(content: string) | Failed(message: string)

  datatype Oracles = Oracles(
    llm: Prompt -> Reply,
    loads: string -> Result<Json, string>,
    /** `re.search(r'\{[^{}]*"answer"[^{}]*"reasoning"[^{}]*\}', s, re.DOTALL).group()` */
    strictMatch: string -> Option<string>,
    /** `re.search(r'\{.*?\}', s, re.DOTALL).group()` */
    looseMatch: string -> Option<string>,
    /** The embedder and FAISS index behind `vector_store.search`. */
    faiss: string -> Ranking,
    /** The text of the validation error `QueryResponse` raises on an untyped slot. */
    rejection: string)

  // ---------------------------------------------------------------
  // The fixed answer and reasoning texts of `_synthesize_answer` and `process_query`
  // ---------------------------------------------------------------

  const SynthesisErrorPrefix := "Synthesis error: "
  const DecompositionErrorPrefix := "Decomposition error: "
  const ClassificationErrorPrefix := "Classification error: "
  const QueryErrorPrefix := "Error processing query: "
  const JsonFence := "```json"
  const Fence := "```"
  const JsonReasoning := "Analysis based on search results"
  const NoJsonAnswer := "Unable to determine answer from available data"
  const PartialReasoning := "Extracted from partial JSON"
  const NoPartialAnswer := "Unable to extract answer"
  const RawReasoning := "Direct LLM response (JSON parsing failed)"
  const NoTextAnswer := "Unable to generate answer from search results"
  const NoResponseReasoning := "No valid response received"
  const SnippetIntro := "Based on available data: "
  const SnippetReasoning := "Generated from search results due to synthesis failure"
  const NoInfoAnswer := "Unable to find relevant information in the search results"
  const NoResultsReasoning := "No search results available for analysis"
  const FailureAnswer := "Unable to synthesize answer due to processing error"
  const ErrorReasoning := "Processing failed due to system error"

  // ---------------------------------------------------------------
  // Graph routing
  // ---------------------------------------------------------------

  datatype Node = ClassifyNode | DecomposeNode | SearchNode | SynthesizeNode | EndNode

  /**
   * The compiled graph's edges. From `classify_query` the edge is chosen by the
   * label `_should_decompose` returns; a label outside the mapping has no edge.
   */
  function Successor(n: Node, route: string): Option<Node> {
    match n
    case ClassifyNode =>
      if route == "simple" then Some(SearchNode)
      else if route == "complex" then Some(DecomposeNode)
      else None
    case DecomposeNode => Some(SearchNode)
    case SearchNode => Some(SynthesizeNode)
    case SynthesizeNode => Some(EndNode)
    case EndNode => None
  }

  function Rank(n: Node): nat {
    match n
    case ClassifyNode => 4
    case DecomposeNode => 3
    case SearchNode => 2
    case SynthesizeNode => 1
    case EndNode => 0
  }

  /** The nodes visited from `n` on, following the edges until END or a missing edge. */
  function Walk(n: Node, route: string): seq<Node>
    decreases Rank(n)
  {
    if n == EndNode then [EndNode]
    else match Successor(n, route)
      case None => [n]
      case Some(m) => [n] + Walk(m, route)
  }

  /**
   * Entry is `classify_query`; "simple" goes straight to the searches, "complex"
   * through decomposition; both pass synthesis and end.
   */
  lemma RoutingFixed(route: string)
    requires route == "simple" || route == "complex"
    ensures route == "simple" ==> Walk(ClassifyNode, route) == [ClassifyNode, SearchNode, SynthesizeNode, EndNode]
    ensures route == "complex" ==>
      Walk(ClassifyNode, route) == [ClassifyNode, DecomposeNode, SearchNode, SynthesizeNode, EndNode]
  {
    assert Walk(EndNode, route) == [EndNode];
    assert Walk(SynthesizeNode, route) == [SynthesizeNode, EndNode];
    assert Walk(SearchNode, route) == [SearchNode, SynthesizeNode, EndNode];
  }

  // ---------------------------------------------------------------
  // classify_query
  // ---------------------------------------------------------------

  /** The label a classification reply yields; any failure or other text is "complex". */
  function Label(r: Reply): (route: string)
    ensures route == "simple" || route == "complex"
    ensures route == "simple" <==> r.Replied? && Lower(Strip(r.content)) == "simple"
  {
    match r
    case Failed(_) => "complex"
    case Replied(c) =>
      var t := Lower(Strip(c));
      if t == "simple" || t == "complex" then t else "complex"
  }

  /** `_classify_query` as a transformer of the state. */
  function Classified(env: Oracles, v: StateView): (w: StateView)
    ensures w.queryType == "simple" || w.queryType == "complex"
    ensures w.(queryType := v.queryType, error := v.error) == v
    ensures w.error != v.error ==> w.error.Some? && StartsWith(w.error.value, ClassificationErrorPrefix)
    ensures w.queryType == Label(env.llm(ClassifyPrompt(v.query)))
    ensures env.llm(ClassifyPrompt(v.query)).Failed? ==>
              w.error == Some(ClassificationErrorPrefix + env.llm(ClassifyPrompt(v.query)).message)
    ensures env.llm(ClassifyPrompt(v.query)).Replied? ==> w.error == v.error
  {
    var r := env.llm(ClassifyPrompt(v.query));
    assert r.Failed? ==> (ClassificationErrorPrefix + r.message)[..|ClassificationErrorPrefix|] == ClassificationErrorPrefix;
    v.(queryType := Label(r),
       error := if r.Failed? then Some(ClassificationErrorPrefix + r.message) else v.error)
  }

  // ---------------------------------------------------------------
  // decompose_query
  // ---------------------------------------------------------------

  /** Every "```json", then every "```", removed, then stripped. */
  function Unfence(s: string): string {
    Strip(ReplaceAll(ReplaceAll(s, JsonFence, ""), Fence, ""))
  }

  /** No fence survives `Unfence`. */
  lemma UnfenceFree(s: string)
    ensures !Contains(Unfence(s), Fence)
  {
    var t := ReplaceAll(ReplaceAll(s, JsonFence, ""), Fence, "");
    FenceFree(ReplaceAll(s, JsonFence, ""));
    if Contains(Strip(t), Fence) {
      StripContains(t, Fence);
    }
  }

  /** The text `_decompose_query` hands to `json.loads`. */
  function DecompositionText(raw: string): string {
    var s := Strip(raw);
    if StartsWith(s, JsonFence) then Unfence(s) else s
  }

  /** A fenced reply reaches `json.loads` with no fence left in it. */
  lemma DecompositionUnfenced(raw: string)
    requires StartsWith(Strip(raw), JsonFence)
    ensures !Contains(DecompositionText(raw), Fence)
  {
    UnfenceFree(Strip(raw));
  }

  /** The sub-queries a decomposition yields, and the text of the exception when it failed. */
  datatype Decomposition = Decomposition(subQueries: Slot<seq<string>>, failure: Option<string>)

  /**
   * `_decompose_query`: a failed call, a parse error, or a parsed value without
   * `len` (number, bool, null) falls back to `[query]`; any parsed str, list or
   * dict is stored as it is, an empty list or a non-list included.
   */
  function Decompose(query: string, r: Reply, loads: string -> Result<Json, string>): (d: Decomposition)
    ensures d.failure.Some? ==> d.subQueries == Typed([query])
    ensures d.failure.None? <==>
      r.Replied? && loads(DecompositionText(r.content)).Ok? && HasLen(loads(DecompositionText(r.content)).value)
    ensures d.failure.None? ==> d.subQueries == ListSlot(loads(DecompositionText(r.content)).value)
  {
    match r
    case Failed(m) => Decomposition(Typed([query]), Some(m))
    case Replied(c) =>
      match loads(DecompositionText(c))
      case Err(m) => Decomposition(Typed([query]), Some(m))
      case Ok(v) =>
        if !HasLen(v) then Decomposition(Typed([query]), Some(NoLenMessage(v)))
        else Decomposition(ListSlot(v), None)
  }

  /** `_decompose_query` as a transformer of the state. */
  function Decomposed(env: Oracles, v: StateView): (w: StateView)
    ensures w.(subQueries := v.subQueries, error := v.error) == v
    ensures w.error != v.error ==>
              && w.error.Some? && StartsWith(w.error.value, DecompositionErrorPrefix)
              && w.subQueries == Typed([v.query])
    ensures var d := Decompose(v.query, env.llm(DecomposePrompt(v.query)), env.loads);
            && w.subQueries == d.subQueries
            && (d.failure.Some? ==> w.error == Some(DecompositionErrorPrefix + d.failure.value))
            && (d.failure.None? ==> w.error == v.error)
  {
    var d := Decompose(v.query, env.llm(DecomposePrompt(v.query)), env.loads);
    assert d.failure.Some? ==> (DecompositionErrorPrefix + d.failure.value)[..|DecompositionErrorPrefix|] == DecompositionErrorPrefix;
    v.(subQueries := d.subQueries,
       error := if d.failure.Some? then Some(DecompositionErrorPrefix + d.failure.value) else v.error)
  }

  // ---------------------------------------------------------------
  // execute_searches
  // ---------------------------------------------------------------

  /** The hits of `search(q, k=5)`; a search that raised contributes none. */
  function HitsOf(env: Oracles, index: Option<FlatIndex>, chunks: seq<DocumentChunk>, q: string): seq<Hit> {
    match SearchResult(index, chunks, env.faiss(q), 5, NoFilters)
    case Ok(hits) => hits
    case Err(_) => []
  }

  function Rows(hits: seq<Hit>): (rs: seq<SearchRow>)
    ensures |rs| == |hits|
    ensures forall i :: 0 <= i < |hits| ==> rs[i] == Row(hits[i])
  {
    if |hits| == 0 then [] else Rows(hits[..|hits| - 1]) + [Row(hits[|hits| - 1])]
  }

  function Sources(hits: seq<Hit>): (ss: seq<Source>)
    ensures |ss| == |hits|
    ensures forall i :: 0 <= i < |hits| ==> ss[i] == ChunkToSource(hits[i].chunk, hits[i].score)
  {
    if |hits| == 0 then []
    else Sources(hits[..|hits| - 1]) + [ChunkToSource(hits[|hits| - 1].chunk, hits[|hits| - 1].score)]
  }

  function RowsFor(env: Oracles, index: Option<FlatIndex>, chunks: seq<DocumentChunk>, q: string): seq<SearchRow> {
    Rows(HitsOf(env, index, chunks, q))
  }

  /** `q => RowsFor(...)`, named so that every use denotes the same function. */
  function RowsOf(env: Oracles, index: Option<FlatIndex>, chunks: seq<DocumentChunk>): string -> seq<SearchRow> {
    q => RowsFor(env, index, chunks, q)
  }

  /** `f(x)` for every `x` in turn, concatenated. */
  function FlatMap<T, U>(xs: seq<T>, f: T -> seq<U>): seq<U> {
    if |xs| == 0 then [] else FlatMap(xs[..|xs| - 1], f) + f(xs[|xs| - 1])
  }

  lemma {:induction false} FlatMapAppend<T, U>(xs: seq<T>, ys: seq<T>, f: T -> seq<U>)
    ensures FlatMap(xs + ys, f) == FlatMap(xs, f) + FlatMap(ys, f)
    decreases |ys|
  {
    if |ys| == 0 {
      assert xs + ys == xs;
    } else {
      var init := ys[..|ys| - 1];
      var all := xs + ys;
      assert all[..|all| - 1] == xs + init && all[|all| - 1] == ys[|ys| - 1];
      FlatMapAppend(xs, init, f);
    }
  }

  /** `q => Sources(HitsOf(...))`, named so that every use denotes the same function. */
  function SourcesOf(env: Oracles, index: Option<FlatIndex>, chunks: seq<DocumentChunk>): string -> seq<Source> {
    q => Sources(HitsOf(env, index, chunks, q))
  }

  /** The citations of every query's hits, query after query. */
  function AllSources(env: Oracles, index: Option<FlatIndex>, chunks: seq<DocumentChunk>, qs: seq<string>): seq<Source> {
    FlatMap(qs, SourcesOf(env, index, chunks))
  }

  /** The number of hits over all queries, a repeated query once per occurrence. */
  function TotalHits(env: Oracles, index: Option<FlatIndex>, chunks: seq<DocumentChunk>, qs: seq<string>): nat {
    if |qs| == 0 then 0
    else TotalHits(env, index, chunks, qs[..|qs| - 1]) + |HitsOf(env, index, chunks, qs[|qs| - 1])|
  }

  /** The queries `_execute_searches` runs, or an untyped `sub_queries`. */
  function SearchQueries(v: StateView): Slot<seq<string>> {
    if v.queryType == "simple" then Typed([v.query]) else v.subQueries
  }

  /**
   * `_execute_searches` as a transformer of the state. Storing an unhashable
   * element of an untyped `sub_queries` as a key raises a TypeError that escapes
   * the loop's `except` (which stores the same key again).
   */
  function Searched(env: Oracles, index: Option<FlatIndex>, chunks: seq<DocumentChunk>, v: StateView): (r: Run)
    ensures r.Aborted? <==> SearchQueries(v).Untyped? && UnhashableElement(SearchQueries(v).raw).Some?
    ensures r.Completed? ==>
      r.state.(subQueries := v.subQueries, searchResults := v.searchResults, sources := v.sources) == v
    ensures r.Completed? ==> r.state.subQueries == v.subQueries || r.state.subQueries == SearchQueries(v)
  {
    match SearchQueries(v)
    case Typed(queries) =>
      Completed(v.(subQueries := Typed(queries),
                   searchResults := Collect(queries, RowsOf(env, index, chunks)),
                   sources := AllSources(env, index, chunks, queries)))
    case Untyped(raw) =>
      match UnhashableElement(raw)
      case Some(m) => Aborted(m)
      case None => Completed(v.(searchResults := [], sources := []))
  }

  /** One citation per hit, duplicates included. */
  lemma {:induction false} AllSourcesCount(env: Oracles, index: Option<FlatIndex>, chunks: seq<DocumentChunk>, qs: seq<string>)
    ensures |AllSources(env, index, chunks, qs)| == TotalHits(env, index, chunks, qs)
  {
    if |qs| > 0 {
      AllSourcesCount(env, index, chunks, qs[..|qs| - 1]);
      assert SourcesOf(env, index, chunks)(qs[|qs| - 1]) == Sources(HitsOf(env, index, chunks, qs[|qs| - 1]));
    }
  }

  /** The citations of a longer query list extend those of its prefix, in query order. */
  lemma AllSourcesAppend(env: Oracles, index: Option<FlatIndex>, chunks: seq<DocumentChunk>,
                          qs: seq<string>, rs: seq<string>)
    ensures AllSources(env, index, chunks, qs + rs)
         == AllSources(env, index, chunks, qs) + AllSources(env, index, chunks, rs)
  {
    FlatMapAppend(qs, rs, SourcesOf(env, index, chunks));
  }

  /** One more query: its rows are stored under it and its citations appended. */
  lemma SearchStep(env: Oracles, index: Option<FlatIndex>, chunks: seq<DocumentChunk>, qs: seq<string>, i: nat)
    requires i < |qs|
    ensures Collect(qs[..i + 1], RowsOf(env, index, chunks))
         == Put(Collect(qs[..i], RowsOf(env, index, chunks)), qs[i], Rows(HitsOf(env, index, chunks, qs[i])))
    ensures AllSources(env, index, chunks, qs[..i + 1])
         == AllSources(env, index, chunks, qs[..i]) + Sources(HitsOf(env, index, chunks, qs[i]))
  {
    assert qs[..i + 1][..i] == qs[..i];
    assert RowsOf(env, index, chunks)(qs[i]) == Rows(HitsOf(env, index, chunks, qs[i]));
    assert SourcesOf(env, index, chunks)(qs[i]) == Sources(HitsOf(env, index, chunks, qs[i]));
  }

  /**
   * After the searches: the simple path searched exactly the question; the map has
   * one key per distinct query, each holding that query's rows (`[]` when its search
   * raised); and there is one citation per hit.
   */
  lemma SearchedFacts(env: Oracles, index: Option<FlatIndex>, chunks: seq<DocumentChunk>, v: StateView)
    requires SearchQueries(v).Typed?
    ensures var w := Searched(env, index, chunks, v).state;
      && (v.queryType == "simple" ==> w.subQueries == Typed([v.query]))
      && (v.queryType != "simple" ==> w.subQueries == v.subQueries)
      && DistinctKeys(w.searchResults)
      && (forall q :: q in Keys(w.searchResults) <==> q in w.subQueries.value)
      && (forall q :: q in w.subQueries.value ==> Get(w.searchResults, q) == Some(RowsFor(env, index, chunks, q)))
      && (forall q :: q in w.subQueries.value && SearchResult(index, chunks, env.faiss(q), 5, NoFilters).Err? ==>
            Get(w.searchResults, q) == Some([]))
      && |w.sources| == TotalHits(env, index, chunks, w.subQueries.value)
  {
    var queries := SearchQueries(v).value;
    CollectKeys(queries, RowsOf(env, index, chunks));
    forall q | q in queries
      ensures Get(Collect(queries, RowsOf(env, index, chunks)), q) == Some(RowsFor(env, index, chunks, q))
    {
      CollectGet(queries, RowsOf(env, index, chunks), q);
    }
    AllSourcesCount(env, index, chunks, queries);
  }

  // ---------------------------------------------------------------
  // synthesize_answer: the context
  // ---------------------------------------------------------------

  /** `f"Result {i+1}: {content[:500]}..."` */
  function ResultLine(i: nat, row: SearchRow): string {
    "Result " + NatToString(i + 1) + ": " + Prefix(row.content, 500) + "..."
  }

  function ResultLines(rows: seq<SearchRow>): seq<string> {
    if |rows| == 0 then []
    else ResultLines(rows[..|rows| - 1]) + [ResultLine(|rows| - 1, rows[|rows| - 1])]
  }

  /** The lines one query contributes: a header, at most three results, a blank line. */
  function QueryBlock(q: string, rows: seq<SearchRow>): seq<string> {
    ["Search: " + q] + ResultLines(Take(rows, 3)) + [""]
  }

  function ContextParts(sr: Dict<string, seq<SearchRow>>): seq<string> {
    if |sr| == 0 then []
    else ContextParts(sr[..|sr| - 1]) + QueryBlock(sr[|sr| - 1].0, sr[|sr| - 1].1)
  }

  /** The search context of the synthesis prompt. */
  function Context(sr: Dict<string, seq<SearchRow>>): string {
    Join(ContextParts(sr), "\n")
  }

  lemma {:induction false} ResultLinesShape(rows: seq<SearchRow>)
    ensures |ResultLines(rows)| == |rows|
    ensures forall i :: 0 <= i < |rows| ==> ResultLines(rows)[i] == ResultLine(i, rows[i])
  {
    if |rows| > 0 {
      ResultLinesShape(rows[..|rows| - 1]);
    }
  }

  /** A query's block numbers its first min(3, n) results, each quoting at most 500 characters. */
  lemma QueryBlockShape(q: string, rows: seq<SearchRow>)
    ensures var b := QueryBlock(q, rows);
      && |b| == 2 + Min(3, |rows|)
      && b[0] == "Search: " + q && b[|b| - 1] == ""
      && forall i :: 0 <= i < Min(3, |rows|) ==>
           b[i + 1] == ResultLine(i, rows[i]) && |Prefix(rows[i].content, 500)| <= 500
  {
    ResultLinesShape(Take(rows, 3));
  }

  lemma ContextPartsStep(sr: Dict<string, seq<SearchRow>>, i: nat)
    requires i < |sr|
    ensures ContextParts(sr[..i + 1]) == ContextParts(sr[..i]) + QueryBlock(sr[i].0, sr[i].1)
  {
    assert sr[..i + 1][..i] == sr[..i];
  }

  lemma AppendBlock<T>(prior: seq<T>, header: T, lines: seq<T>, trailer: T)
    ensures prior + [header] + lines + [trailer] == prior + ([header] + lines + [trailer])
  {
  }

  /** At most five context lines per query. */
  lemma {:induction false} ContextPartsBound(sr: Dict<string, seq<SearchRow>>)
    ensures 2 * |sr| <= |ContextParts(sr)| <= 5 * |sr|
  {
    if |sr| > 0 {
      ContextPartsBound(sr[..|sr| - 1]);
      QueryBlockShape(sr[|sr| - 1].0, sr[|sr| - 1].1);
    }
  }

  // ---------------------------------------------------------------
  // synthesize_answer: cleaning the reply
  // ---------------------------------------------------------------

  /** The reply text after the fence removal of `_synthesize_answer`. */
  function CleanReply(raw: string): string {
    var s := Strip(raw);
    if StartsWith(s, JsonFence) then Unfence(s)
    else if StartsWith(s, Fence) then Strip(ReplaceAll(s, Fence, ""))
    else s
  }

  /**
   * A cleaned reply never starts with "```", so the second fence-removal step of
   * `_synthesize_answer` never applies.
   */
  lemma CleanReplyUnfenced(raw: string)
    ensures !StartsWith(CleanReply(raw), Fence)
  {
    var s := Strip(raw);
    var c := CleanReply(raw);
    if StartsWith(s, JsonFence) {
      UnfenceFree(s);
      if StartsWith(c, Fence) { StartsWithContains(c, Fence); }
    } else if StartsWith(s, Fence) {
      var t := ReplaceAll(s, Fence, "");
      FenceFree(s);
      if StartsWith(c, Fence) {
        StartsWithContains(c, Fence);
        StripContains(t, Fence);
      }
    }
  }

  /** A cleaned reply is already stripped. */
  lemma CleanReplyStripped(raw: string)
    ensures Strip(CleanReply(raw)) == CleanReply(raw)
  {
    var s := Strip(raw);
    StripIdempotent(raw);
    if StartsWith(s, JsonFence) {
      StripIdempotent(ReplaceAll(ReplaceAll(s, JsonFence, ""), Fence, ""));
    } else if StartsWith(s, Fence) {
      StripIdempotent(ReplaceAll(s, Fence, ""));
    }
  }

  // ---------------------------------------------------------------
  // synthesize_answer: the fallback chain
  // ---------------------------------------------------------------

  /** Which assignment of `final_answer` and `reasoning` was made. */
  datatype Branch = FromJson | FromPartialJson | FromRawText | NoUsableText | FromSnippet | NoResults | ProcessingFailure

  /** The two assignments, and the text of the outer exception when one was caught. */
  datatype Synthesis = Synthesis(answer: Slot<string>, reasoning: Slot<string>, failure: Option<string>, branch: Branch)

  /** `result.get(key, default)` on a parsed dict. */
  function FieldOr(fields: map<string, Json>, key: string, default: string): Slot<string> {
    if key in fields then StringSlot(fields[key]) else Typed(default)
  }

  /** The outer `except`: fixed answer, the error text as reasoning. */
  function Failure(message: string): Synthesis {
    Synthesis(Typed(FailureAnswer), Typed(message), Some(message), ProcessingFailure)
  }

  /** The strict pattern's match, else the loose one's. */
  function Matched(env: Oracles, content: string): Option<string> {
    if env.strictMatch(content).Some? then env.strictMatch(content) else env.looseMatch(content)
  }

  /** `search_results and any(results for results in search_results.values())` */
  predicate AnyResults(sr: Dict<string, seq<SearchRow>>) {
    exists i :: 0 <= i < |sr| && sr[i].1 != []
  }

  /** The first query at index `from` or later, in insertion order, whose result list is non-empty. */
  function FirstNonEmpty(sr: Dict<string, seq<SearchRow>>, from: nat): (r: Option<(string, seq<SearchRow>)>)
    requires from <= |sr|
    ensures r.Some? ==> r.value.1 != []
    decreases |sr| - from
  {
    if from == |sr| then None
    else if sr[from].1 != [] then Some(sr[from])
    else FirstNonEmpty(sr, from + 1)
  }

  /** The snippet of the search-context fallback. */
  function Sample(sr: Dict<string, seq<SearchRow>>): string {
    match FirstNonEmpty(sr, 0)
    case Some(entry) => "From search '" + entry.0 + "': " + Prefix(entry.1[0].content, 200) + "... "
    case None => ""
  }

  /** Fallback 2: the raw reply when it has more than ten characters. */
  function RawText(content: string): Synthesis {
    if content != "" && |Strip(content)| > 10 then
      Synthesis(Typed(Prefix(Strip(content), 500)), Typed(RawReasoning), None, FromRawText)
    else
      Synthesis(Typed(NoTextAnswer), Typed(NoResponseReasoning), None, NoUsableText)
  }

  /** The chain after the reply failed to parse. */
  function Fallback(env: Oracles, sr: Dict<string, seq<SearchRow>>, content: string): (s: Synthesis)
    ensures s.failure.None? && s.branch != FromJson && s.branch != ProcessingFailure
    ensures s.branch != FromPartialJson ==> s.answer.Typed? && s.reasoning.Typed?
    ensures s.branch == FromSnippet || s.branch == NoResults <==> Matched(env, content).None?
  {
    match Matched(env, content)
    case Some(m) =>
      (match env.loads(m)
       case Ok(v) =>
         if v.JObject? then
           Synthesis(FieldOr(v.fields, "answer", NoPartialAnswer),
                     FieldOr(v.fields, "reasoning", PartialReasoning), None, FromPartialJson)
         else RawText(content)
       case Err(_) => RawText(content))
    case None =>
      if AnyResults(sr) then
        Synthesis(Typed(SnippetIntro + Sample(sr)),
                  Typed(SnippetReasoning), None, FromSnippet)
      else
        Synthesis(Typed(NoInfoAnswer),
                  Typed(NoResultsReasoning), None, NoResults)
  }

  /** What the cleaned reply text leads to. */
  function Parsed(env: Oracles, sr: Dict<string, seq<SearchRow>>, content: string): (s: Synthesis)
    ensures s.failure.Some? <==> s.branch == ProcessingFailure
    ensures s.branch == FromJson <==> env.loads(content).Ok? && env.loads(content).value.JObject?
    ensures s.failure.Some? ==> s.answer == Typed(FailureAnswer) && StartsWith(s.failure.value, SynthesisErrorPrefix)
  {
    match env.loads(content)
    case Ok(v) =>
      if v.JObject? then
        Synthesis(FieldOr(v.fields, "answer", NoJsonAnswer),
                  FieldOr(v.fields, "reasoning", JsonReasoning), None, FromJson)
      else
        assert (SynthesisErrorPrefix + NoGetMessage(v))[..|SynthesisErrorPrefix|] == SynthesisErrorPrefix;
        Failure(SynthesisErrorPrefix + NoGetMessage(v))
    case Err(_) => Fallback(env, sr, content)
  }

  /** What a synthesis reply leads to. */
  function Outcome(env: Oracles, sr: Dict<string, seq<SearchRow>>, reply: Reply): (s: Synthesis)
    ensures s.failure.Some? <==> s.branch == ProcessingFailure
    ensures s.failure.Some? ==> s.answer == Typed(FailureAnswer) && StartsWith(s.failure.value, SynthesisErrorPrefix)
    ensures reply.Failed? ==> s.branch == ProcessingFailure
  {
    match reply
    case Failed(m) =>
      assert (SynthesisErrorPrefix + m)[..|SynthesisErrorPrefix|] == SynthesisErrorPrefix;
      Failure(SynthesisErrorPrefix + m)
    case Replied(raw) => Parsed(env, sr, CleanReply(raw))
  }

  /** `error` is set by a synthesis failure only when it was None or "". */
  function SetError(e: Option<string>, message: string): Option<string> {
    if e.None? || e.value == "" then Some(message) else e
  }

  /** `_synthesize_answer` as a transformer of the state. */
  function Synthesized(env: Oracles, v: StateView): (w: StateView)
    ensures w.(finalAnswer := v.finalAnswer, reasoning := v.reasoning, error := v.error) == v
    ensures v.error.Some? && v.error.value != "" ==> w.error == v.error
  {
    var s := Outcome(env, v.searchResults, env.llm(SynthesisPrompt(v.query, Context(v.searchResults))));
    v.(finalAnswer := s.answer,
       reasoning := s.reasoning,
       error := if s.failure.Some? then SetError(v.error, s.failure.value) else v.error)
  }

  /**
   * `FirstNonEmpty` finds a non-empty list exactly when there is one at `from` or
   * later, and finds the first.
   */
  lemma {:induction false} FirstNonEmptyIsFirst(sr: Dict<string, seq<SearchRow>>, from: nat)
    requires from <= |sr|
    ensures FirstNonEmpty(sr, from).Some? <==> exists i :: from <= i < |sr| && sr[i].1 != []
    ensures FirstNonEmpty(sr, from).Some? ==>
      exists i :: from <= i < |sr| && FirstNonEmpty(sr, from).value == sr[i] && forall j :: from <= j < i ==> sr[j].1 == []
    decreases |sr| - from
  {
    if from < |sr| && sr[from].1 == [] {
      FirstNonEmptyIsFirst(sr, from + 1);
      if FirstNonEmpty(sr, from).Some? {
        var i :| from + 1 <= i < |sr| && FirstNonEmpty(sr, from).value == sr[i] && forall j :: from + 1 <= j < i ==> sr[j].1 == [];
        assert forall j :: from <= j < i ==> sr[j].1 == [];
      }
    }
  }

  /**
   * With no regex match, the search-context fallback quotes the first query whose
   * list is non-empty.
   */
  lemma SnippetFallback(env: Oracles, sr: Dict<string, seq<SearchRow>>, content: string, i: nat)
    requires Matched(env, content).None?
    requires i < |sr| && sr[i].1 != [] && forall j :: 0 <= j < i ==> sr[j].1 == []
    ensures Fallback(env, sr, content).answer ==
      Typed(SnippetIntro + "From search '" + sr[i].0 + "': " + Prefix(sr[i].1[0].content, 200) + "... ")
    ensures Fallback(env, sr, content).branch == FromSnippet
  {
    FirstNonEmptyIsFirst(sr, 0);
    assert AnyResults(sr);
    var k :| 0 <= k < |sr| && FirstNonEmpty(sr, 0).value == sr[k] && forall j :: 0 <= j < k ==> sr[j].1 == [];
    assert k == i;
    var a, q, p := SnippetIntro, sr[i].0, Prefix(sr[i].1[0].content, 200);
    var sample := "From search '" + q + "': " + p + "... ";
    assert Sample(sr) == sample;
    assert a + sample == a + "From search '" + q + "': " + p + "... ";
  }

  /** With no regex match and no results at all, the fixed message is used. */
  lemma NoResultsFallback(env: Oracles, sr: Dict<string, seq<SearchRow>>, content: string)
    requires Matched(env, content).None?
    requires forall j :: 0 <= j < |sr| ==> sr[j].1 == []
    ensures Fallback(env, sr, content) ==
      Synthesis(Typed(NoInfoAnswer),
                Typed(NoResultsReasoning), None, NoResults)
  {
  }

  /**
   * The raw-text answer of fallback 2 is a prefix of the reply text, of 11 to 500
   * characters.
   */
  lemma RawTextPrefix(content: string)
    requires Strip(content) == content
    requires RawText(content).branch == FromRawText
    ensures RawText(content).answer.Typed?
    ensures StartsWith(content, RawText(content).answer.value)
    ensures 10 < |RawText(content).answer.value| <= 500
  {
  }

  /**
   * The raw-text answer is reached only when a regex matched but the match did not
   * parse to a dict; it is a prefix of the cleaned reply, of 11 to 500 characters.
   */
  lemma RawTextFallback(env: Oracles, sr: Dict<string, seq<SearchRow>>, raw: string)
    requires Outcome(env, sr, Replied(raw)).branch == FromRawText
    ensures var content := CleanReply(raw);
      var answer := Outcome(env, sr, Replied(raw)).answer;
      && env.loads(content).Err?
      && Matched(env, content).Some?
      && !(env.loads(Matched(env, content).value).Ok? && env.loads(Matched(env, content).value).value.JObject?)
      && answer.Typed? && StartsWith(content, answer.value) && 10 < |answer.value| <= 500
  {
    var content := CleanReply(raw);
    CleanReplyStripped(raw);
    assert Outcome(env, sr, Replied(raw)) == Parsed(env, sr, content);
    ParsedBranches(env, sr, content);
    assert Parsed(env, sr, content) == RawText(content);
    RawTextPrefix(content);
  }

  /**
   * Which branch the cleaned reply takes: the outer handler exactly when it parses
   * to a non-dict; the snippet exactly when it does not parse, no pattern matches
   * and some list is non-empty; raw text only after a match that is not a dict;
   * only the two `.get` branches can store a non-string.
   */
  lemma ParsedBranches(env: Oracles, sr: Dict<string, seq<SearchRow>>, content: string)
    ensures var s := Parsed(env, sr, content);
      && (s.failure.Some? <==> s.branch == ProcessingFailure)
      && (s.branch == ProcessingFailure <==> env.loads(content).Ok? && !env.loads(content).value.JObject?)
      && (s.branch == ProcessingFailure ==> s == Failure(SynthesisErrorPrefix + NoGetMessage(env.loads(content).value)))
      && (s.branch == FromSnippet <==> env.loads(content).Err? && Matched(env, content).None? && AnyResults(sr))
      && (s.branch == FromRawText ==>
            && env.loads(content).Err? && Matched(env, content).Some?
            && !(env.loads(Matched(env, content).value).Ok? && env.loads(Matched(env, content).value).value.JObject?)
            && s == RawText(content))
      && (s.branch != FromJson && s.branch != FromPartialJson ==> s.answer.Typed? && s.reasoning.Typed?)
  {
    var s := Parsed(env, sr, content);
    match env.loads(content)
    case Ok(v) =>
      if v.JObject? {
        assert s.branch == FromJson && s.failure.None?;
      } else {
        assert s == Failure(SynthesisErrorPrefix + NoGetMessage(v));
      }
    case Err(_) =>
      assert s == Fallback(env, sr, content);
      match Matched(env, content)
      case Some(m) =>
        if env.loads(m).Ok? && env.loads(m).value.JObject? {
          assert s.branch == FromPartialJson && s.failure.None?;
        } else {
          assert s == RawText(content);
        }
      case None =>
        if AnyResults(sr) {
          assert s.branch == FromSnippet && s.failure.None? && s.answer.Typed? && s.reasoning.Typed?;
        } else {
          assert s.branch == NoResults && s.failure.None? && s.answer.Typed? && s.reasoning.Typed?;
        }
  }

  /** A failed call reaches the outer handler; a reply goes through the parse chain. */
  lemma OutcomeBranches(env: Oracles, sr: Dict<string, seq<SearchRow>>, reply: Reply)
    ensures reply.Failed? ==> Outcome(env, sr, reply) == Failure(SynthesisErrorPrefix + reply.message)
    ensures reply.Failed? ==> Outcome(env, sr, reply).branch == ProcessingFailure
    ensures reply.Replied? ==> Outcome(env, sr, reply) == Parsed(env, sr, CleanReply(reply.content))
  {
  }

  /** A synthesis failure keeps an earlier non-empty error, and fills it in otherwise. */
  lemma SynthesisError(env: Oracles, v: StateView)
    ensures var s := Outcome(env, v.searchResults, env.llm(SynthesisPrompt(v.query, Context(v.searchResults))));
      && (v.error.Some? && v.error.value != "" ==> Synthesized(env, v).error == v.error)
      && (s.failure.None? ==> Synthesized(env, v).error == v.error)
      && (s.failure.Some? && (v.error.None? || v.error == Some("")) ==>
            Synthesized(env, v).error == s.failure && StartsWith(s.failure.value, SynthesisErrorPrefix))
  {
    var reply := env.llm(SynthesisPrompt(v.query, Context(v.searchResults)));
    var s := Outcome(env, v.searchResults, reply);
    if reply.Replied? {
      ParsedBranches(env, v.searchResults, CleanReply(reply.content));
    }
    if s.failure.Some? {
      var m := if reply.Failed? then reply.message else NoGetMessage(env.loads(CleanReply(reply.content)).value);
      assert s.failure.value == SynthesisErrorPrefix + m;
      assert (SynthesisErrorPrefix + m)[..|SynthesisErrorPrefix|] == SynthesisErrorPrefix;
    }
  }

  // ---------------------------------------------------------------
  // process_query
  // ---------------------------------------------------------------

  /** `graph.invoke`: classify, decompose when the label routes there, search, synthesize. */
  function Invoke(env: Oracles, index: Option<FlatIndex>, chunks: seq<DocumentChunk>, v: StateView): (r: Run)
    ensures r.Completed? ==> r.state.query == v.query
    ensures r.Completed? ==> r.state.queryType == "simple" || r.state.queryType == "complex"
  {
    SearchThenSynthesize(env, index, chunks, Routed(env, v))
  }

  /** Classification, then decomposition when the label's edge leads there. */
  function Routed(env: Oracles, v: StateView): StateView {
    var v1 := Classified(env, v);
    if Successor(ClassifyNode, v1.queryType) == Some(DecomposeNode) then Decomposed(env, v1) else v1
  }

  /** The two nodes every route ends with; the synthesis runs unless the searches raised. */
  function SearchThenSynthesize(env: Oracles, index: Option<FlatIndex>, chunks: seq<DocumentChunk>, v: StateView): Run {
    match Searched(env, index, chunks, v)
    case Completed(w) => Completed(Synthesized(env, w))
    case Aborted(m) => Aborted(m)
  }

  /** The nodes run in turn by `step`; an exception skips the rest. */
  function RunNodes(step: (Node, StateView) -> Run, nodes: seq<Node>, r: Run): Run {
    if |nodes| == 0 || r.Aborted? then r
    else RunNodes(step, nodes[1..], step(nodes[0], r.state))
  }

  lemma RunNodesCons(step: (Node, StateView) -> Run, n: Node, rest: seq<Node>, v: StateView)
    ensures RunNodes(step, [n] + rest, Completed(v)) == RunNodes(step, rest, step(n, v))
  {
    assert ([n] + rest)[1..] == rest;
  }

  /** Searching, synthesizing and ending: the synthesis runs unless the searches raised. */
  lemma RunTail(step: (Node, StateView) -> Run, v: StateView)
    ensures RunNodes(step, [SearchNode, SynthesizeNode, EndNode], Completed(v)) ==
            match step(SearchNode, v)
            case Completed(w) => RunNodes(step, [EndNode], step(SynthesizeNode, w))
            case Aborted(m) => Aborted(m)
  {
    RunNodesCons(step, SearchNode, [SynthesizeNode, EndNode], v);
    var s := step(SearchNode, v);
    if s.Completed? {
      RunNodesCons(step, SynthesizeNode, [EndNode], s.state);
    }
  }

  /**
   * `step` is the graph's node table: it runs each node as that node's function
   * does (`_classify_query`, `_decompose_query`, `_execute_searches`,
   * `_synthesize_answer`; END leaves the state alone).
   */
  ghost predicate RunsNodes(env: Oracles, index: Option<FlatIndex>, chunks: seq<DocumentChunk>, step: (Node, StateView) -> Run) {
    && (forall u :: step(ClassifyNode, u) == Completed(Classified(env, u)))
    && (forall u :: step(DecomposeNode, u) == Completed(Decomposed(env, u)))
    && (forall u :: step(SearchNode, u) == Searched(env, index, chunks, u))
    && (forall u :: step(SynthesizeNode, u) == Completed(Synthesized(env, u)))
    && (forall u :: step(EndNode, u) == Completed(u))
  }

  /**
   * `Invoke` runs exactly the nodes of the compiled graph's walk: from the entry
   * point along the edges, with the route the classify node's label picks.
   */
  lemma InvokeFollowsEdges(env: Oracles, index: Option<FlatIndex>, chunks: seq<DocumentChunk>,
                           step: (Node, StateView) -> Run, v: StateView)
    requires RunsNodes(env, index, chunks, step)
    ensures Invoke(env, index, chunks, v) ==
            RunNodes(step, Walk(ClassifyNode, Classified(env, v).queryType), Completed(v))
  {
    WalkToSearch(env, index, chunks, step, v);
    SearchToEnd(env, index, chunks, step, Routed(env, v));
  }

  /** The walk's first nodes leave the state as `Routed` does, before the search node. */
  lemma WalkToSearch(env: Oracles, index: Option<FlatIndex>, chunks: seq<DocumentChunk>,
                     step: (Node, StateView) -> Run, v: StateView)
    requires RunsNodes(env, index, chunks, step)
    ensures RunNodes(step, Walk(ClassifyNode, Classified(env, v).queryType), Completed(v)) ==
            RunNodes(step, [SearchNode, SynthesizeNode, EndNode], Completed(Routed(env, v)))
  {
    var v1 := Classified(env, v);
    var route := v1.queryType;
    assert step(ClassifyNode, v) == Completed(v1);
    assert (Successor(ClassifyNode, route) == Some(DecomposeNode)) == (route == "complex");
    var v2 := Routed(env, v);
    assert route == "complex" ==> step(DecomposeNode, v1) == Completed(v2);
    WalkPrefix(step, route, v, v1, v2);
  }

  /** The two routes, for any node table that classifies `v` into `v1` and decomposes `v1` into `v2`. */
  lemma WalkPrefix(step: (Node, StateView) -> Run, route: string, v: StateView, v1: StateView, v2: StateView)
    requires route == "simple" || route == "complex"
    requires step(ClassifyNode, v) == Completed(v1)
    requires route == "complex" ==> step(DecomposeNode, v1) == Completed(v2)
    requires route == "simple" ==> v2 == v1
    ensures RunNodes(step, Walk(ClassifyNode, route), Completed(v)) ==
            RunNodes(step, [SearchNode, SynthesizeNode, EndNode], Completed(v2))
  {
    RoutingFixed(route);
    var tail := [SearchNode, SynthesizeNode, EndNode];
    if route == "complex" {
      RunNodesCons(step, ClassifyNode, [DecomposeNode] + tail, v);
      RunNodesCons(step, DecomposeNode, tail, v1);
    } else {
      RunNodesCons(step, ClassifyNode, tail, v);
    }
  }

  /** From the search node to END the walk does what `SearchThenSynthesize` does. */
  lemma SearchToEnd(env: Oracles, index: Option<FlatIndex>, chunks: seq<DocumentChunk>,
                    step: (Node, StateView) -> Run, v: StateView)
    requires RunsNodes(env, index, chunks, step)
    ensures RunNodes(step, [SearchNode, SynthesizeNode, EndNode], Completed(v)) ==
            SearchThenSynthesize(env, index, chunks, v)
  {
    RunTail(step, v);
    var s := Searched(env, index, chunks, v);
    assert step(SearchNode, v) == s;
    if s.Completed? {
      RunNodesCons(step, EndNode, [], Synthesized(env, s.state));
    }
  }

  function ErrorResponse(query: string, message: string): QueryResponse {
    QueryResponse(query, QueryErrorPrefix + message, ErrorReasoning, [query], [], None)
  }

  /** Building `QueryResponse` from the final state; it rejects any untyped slot. */
  function Respond(env: Oracles, query: string, v: StateView): (r: QueryResponse)
    ensures r.query == query
    ensures r == ErrorResponse(query, env.rejection) <==>
              !(v.subQueries.Typed? && v.finalAnswer.Typed? && v.reasoning.Typed?) ||
              (v.finalAnswer.value == QueryErrorPrefix + env.rejection && v.reasoning.value == ErrorReasoning &&
               v.subQueries.value == [query] && v.sources == [])
  {
    if v.subQueries.Typed? && v.finalAnswer.Typed? && v.reasoning.Typed? then
      QueryResponse(query, v.finalAnswer.value, v.reasoning.value, v.subQueries.value, v.sources, None)
    else ErrorResponse(query, env.rejection)
  }

  /** What `process_query(query)` returns; an exception out of the graph becomes the error response. */
  function Answer(env: Oracles, index: Option<FlatIndex>, chunks: seq<DocumentChunk>, query: string): (r: QueryResponse)
    ensures r.query == query
    ensures Invoke(env, index, chunks, Initial(query)).Aborted? ==>
              r == ErrorResponse(query, Invoke(env, index, chunks, Initial(query)).message)
  {
    match Invoke(env, index, chunks, Initial(query))
    case Completed(w) => Respond(env, query, w)
    case Aborted(m) => ErrorResponse(query, m)
  }

  /**
   * The response's sub-queries are the question alone, unless the question was
   * complex and its decomposition parsed to a list of strings; a simple question
   * is searched as it is.
   */
  lemma AnswerSubQueries(env: Oracles, index: Option<FlatIndex>, chunks: seq<DocumentChunk>, query: string)
    ensures var r := Answer(env, index, chunks, query);
      var route := Label(env.llm(ClassifyPrompt(query)));
      var d := Decompose(query, env.llm(DecomposePrompt(query)), env.loads);
      && r.query == query
      && (route == "simple" ==> r.subQueries == [query])
      && (r.subQueries == [query] || (route == "complex" && d.failure.None? && d.subQueries == Typed(r.subQueries)))
  {
  }

  /**
   * The response cites every hit of every sub-query, in sub-query order, or it is
   * an error response, which cites nothing.
   */
  lemma AnswerSources(env: Oracles, index: Option<FlatIndex>, chunks: seq<DocumentChunk>, query: string)
    ensures var r := Answer(env, index, chunks, query);
      || (r.sources == AllSources(env, index, chunks, r.subQueries)
          && |r.sources| == TotalHits(env, index, chunks, r.subQueries))
      || exists m :: r == ErrorResponse(query, m)
  {
    var r := Answer(env, index, chunks, query);
    match Invoke(env, index, chunks, Initial(query))
    case Aborted(m) =>
      assert r == ErrorResponse(query, m);
    case Completed(w) =>
      if r != ErrorResponse(query, env.rejection) {
        AllSourcesCount(env, index, chunks, r.subQueries);
      }
  }

  /**
   * A complex question whose decomposition parsed to a str, a dict or a list
   * holding a non-string gets an error response: the TypeError of the first list
   * or dict in the list when there is one, the validation rejection otherwise.
   */
  lemma UntypedSubQueries(env: Oracles, index: Option<FlatIndex>, chunks: seq<DocumentChunk>, query: string)
    requires Label(env.llm(ClassifyPrompt(query))) == "complex"
    requires Decompose(query, env.llm(DecomposePrompt(query)), env.loads).subQueries.Untyped?
    ensures var raw := Decompose(query, env.llm(DecomposePrompt(query)), env.loads).subQueries.raw;
      && HasLen(raw) && AsStrings(raw).None?
      && Answer(env, index, chunks, query) ==
           ErrorResponse(query, if UnhashableElement(raw).Some? then UnhashableElement(raw).value else env.rejection)
  {
  }

  /**
   * An untyped `sub_queries` at the end of the graph, or an exception out of it,
   * comes only from a complex question whose decomposition parsed to such a value.
   */
  lemma UntypedOnlyFromDecomposition(env: Oracles, index: Option<FlatIndex>, chunks: seq<DocumentChunk>, query: string)
    requires Invoke(env, index, chunks, Initial(query)).Aborted? ||
             Invoke(env, index, chunks, Initial(query)).state.subQueries.Untyped?
    ensures Label(env.llm(ClassifyPrompt(query))) == "complex"
    ensures Decompose(query, env.llm(DecomposePrompt(query)), env.loads).subQueries.Untyped?
  {
  }

  // ---------------------------------------------------------------
  // The agent
  // ---------------------------------------------------------------

  class FinancialAgent {
    const store: FAISSVectorStore
    const env: Oracles

    constructor (store: FAISSVectorStore, env: Oracles)
      ensures this.store == store && this.env == env
    {
      this.store := store;
      this.env := env;
    }

    /** `_classify_query` */
    method ClassifyQuery(state: AgentState)
      modifies state
      ensures state.View() == Classified(env, old(state.View()))
    {
      var response := env.llm(ClassifyPrompt(state.query));
      match response
      case Replied(content) =>
        var queryType := Lower(Strip(content));
        if queryType != "simple" && queryType != "complex" {
          queryType := "complex";
        }
        state.queryType := queryType;
      case Failed(e) =>
        state.queryType := "complex";
        state.error := Some(ClassificationErrorPrefix + e);
    }

    /** `_decompose_query` */
    method DecomposeQuery(state: AgentState)
      modifies state
      ensures state.View() == Decomposed(env, old(state.View()))
    {
      var query := state.query;
      var response := env.llm(DecomposePrompt(query));
      ghost var d := Decompose(query, response, env.loads);
      if response.Failed? {
        assert d == Decomposition(Typed([query]), Some(response.message));
        state.subQueries := Typed([query]);
        state.error := Some(DecompositionErrorPrefix + response.message);
        return;
      }
      var content := Strip(response.content);
      if StartsWith(content, JsonFence) {
        content := Strip(ReplaceAll(ReplaceAll(content, JsonFence, ""), Fence, ""));
      }
      assert content == DecompositionText(response.content);
      var parsed := env.loads(content);
      match parsed
      case Err(e) =>
        assert d == Decomposition(Typed([query]), Some(e));
        state.subQueries := Typed([query]);
        state.error := Some(DecompositionErrorPrefix + e);
      case Ok(subQueries) =>
        state.subQueries := ListSlot(subQueries);
        if !HasLen(subQueries) {
          assert d == Decomposition(Typed([query]), Some(NoLenMessage(subQueries)));
          state.subQueries := Typed([query]);
          state.error := Some(DecompositionErrorPrefix + NoLenMessage(subQueries));
        } else {
          assert d == Decomposition(ListSlot(subQueries), None);
        }
    }

    /** `_execute_searches`; `raised` is the text of an exception that escapes it. */
    method ExecuteSearches(state: AgentState) returns (raised: Option<string>)
      modifies state
      ensures Searched(env, store.index, store.chunksMetadata, old(state.View())) ==
              if raised.Some? then Aborted(raised.value) else Completed(state.View())
    {
      raised := None;
      ghost var v := state.View();
      var queries: seq<string>;
      if state.queryType == "simple" {
        queries := [state.query];
        state.subQueries := Typed([state.query]);
      } else if state.subQueries.Typed? {
        queries := state.subQueries.value;
      } else {
        raised := UnhashableElement(state.subQueries.raw);
        if raised.None? {
          state.searchResults := [];
          state.sources := [];
        }
        return;
      }
      assert SearchQueries(v) == Typed(queries);
      var searchResults, allSources := RunSearches(queries);
      state.searchResults := searchResults;
      state.sources := allSources;
      assert state.View() == v.(subQueries := Typed(queries), searchResults := searchResults, sources := allSources);
    }

    /** The loop of `_execute_searches`: one search per query, failures recorded as `[]`. */
    method RunSearches(queries: seq<string>) returns (searchResults: Dict<string, seq<SearchRow>>, allSources: seq<Source>)
      ensures searchResults == Collect(queries, RowsOf(env, store.index, store.chunksMetadata))
      ensures allSources == AllSources(env, store.index, store.chunksMetadata, queries)
    {
      var index, chunks := store.index, store.chunksMetadata;
      searchResults := [];
      allSources := [];
      var i := 0;
      while i < |queries|
        invariant 0 <= i <= |queries|
        invariant searchResults == Collect(queries[..i], RowsOf(env, index, chunks))
        invariant allSources == AllSources(env, index, chunks, queries[..i])
      {
        var query := queries[i];
        SearchStep(env, index, chunks, queries, i);
        var results := store.Search(query, 5, NoFilters, env.faiss);
        match results {
          case Ok(hits) =>
            var searchData, sources := Project(hits);
            searchResults := Put(searchResults, query, searchData);
            allSources := allSources + sources;
          case Err(_) =>
            searchResults := Put(searchResults, query, []);
        }
        i := i + 1;
      }
      assert queries[..|queries|] == queries;
    }

    /** The inner loop of `_execute_searches`: a row and a citation per hit. */
    static method Project(hits: seq<Hit>) returns (searchData: seq<SearchRow>, sources: seq<Source>)
      ensures searchData == Rows(hits)
      ensures sources == Sources(hits)
    {
      searchData := [];
      sources := [];
      var j := 0;
      while j < |hits|
        invariant 0 <= j <= |hits|
        invariant searchData == Rows(hits[..j])
        invariant sources == Sources(hits[..j])
      {
        assert hits[..j + 1][..j] == hits[..j];
        var source := ChunkToSource(hits[j].chunk, hits[j].score);
        searchData := searchData + [Row(hits[j])];
        sources := sources + [source];
        j := j + 1;
      }
      assert hits[..|hits|] == hits;
    }

    /** The context loop of `_synthesize_answer`. */
    static method BuildContext(searchResults: Dict<string, seq<SearchRow>>) returns (context: string)
      ensures context == Context(searchResults)
    {
      var contextParts: seq<string> := [];
      var i := 0;
      while i < |searchResults|
        invariant 0 <= i <= |searchResults|
        invariant contextParts == ContextParts(searchResults[..i])
      {
        var query := searchResults[i].0;
        var top := Take(searchResults[i].1, 3);
        ghost var prior := contextParts;
        contextParts := AppendResults(contextParts + ["Search: " + query], top);
        contextParts := contextParts + [""];
        AppendBlock(prior, "Search: " + query, ResultLines(top), "");
        assert contextParts == prior + QueryBlock(query, searchResults[i].1);
        ContextPartsStep(searchResults, i);
        i := i + 1;
      }
      assert searchResults[..|searchResults|] == searchResults;
      context := Join(contextParts, "\n");
    }

    /** The inner context loop: one numbered line per result, appended in order. */
    static method AppendResults(parts: seq<string>, top: seq<SearchRow>) returns (contextParts: seq<string>)
      ensures contextParts == parts + ResultLines(top)
    {
      contextParts := parts;
      var j := 0;
      while j < |top|
        invariant 0 <= j <= |top|
        invariant contextParts == parts + ResultLines(top[..j])
      {
        assert top[..j + 1][..j] == top[..j];
        contextParts := contextParts + [ResultLine(j, top[j])];
        j := j + 1;
      }
      assert top[..|top|] == top;
    }

    /** The loop of fallback 3: the first non-empty result list, quoted. */
    static method SampleContent(searchResults: Dict<string, seq<SearchRow>>) returns (sample: string)
      ensures sample == Sample(searchResults)
    {
      sample := "";
      var i := 0;
      while i < |searchResults|
        invariant 0 <= i <= |searchResults|
        invariant FirstNonEmpty(searchResults, i) == FirstNonEmpty(searchResults, 0)
      {
        var (query, results) := searchResults[i];
        if results != [] {
          var line := "From search '" + query + "': " + Prefix(results[0].content, 200) + "... ";
          assert FirstNonEmpty(searchResults, 0) == Some((query, results));
          assert Sample(searchResults) == line;
          assert sample + line == line;
          sample := sample + line;
          return;
        }
        i := i + 1;
      }
    }

    /** The body of the `try` of `_synthesize_answer`, given the model's reply. */
    static method AnswerFrom(env: Oracles, searchResults: Dict<string, seq<SearchRow>>, response: Reply)
      returns (s: Synthesis)
      ensures s == Outcome(env, searchResults, response)
    {
      if response.Failed? {
        return Failure(SynthesisErrorPrefix + response.message);
      }
      var content := CleanReply(response.content);
      // the second fence-removal step never applies: CleanReplyUnfenced
      var parsed := env.loads(content);
      if parsed.Ok? {
        var result := parsed.value;
        if !result.JObject? {
          return Failure(SynthesisErrorPrefix + NoGetMessage(result));
        }
        return Synthesis(FieldOr(result.fields, "answer", NoJsonAnswer),
                         FieldOr(result.fields, "reasoning", JsonReasoning), None, FromJson);
      }
      s := FallbackFrom(env, searchResults, content);
    }

    /** The `except json.JSONDecodeError` branch of `_synthesize_answer`. */
    static method FallbackFrom(env: Oracles, searchResults: Dict<string, seq<SearchRow>>, content: string)
      returns (s: Synthesis)
      ensures s == Fallback(env, searchResults, content)
    {
      var jsonMatch := env.strictMatch(content);
      if jsonMatch.None? {
        jsonMatch := env.looseMatch(content);
      }
      if jsonMatch.Some? {
        var partial := env.loads(jsonMatch.value);
        if partial.Ok? && partial.value.JObject? {
          s := Synthesis(FieldOr(partial.value.fields, "answer", NoPartialAnswer),
                         FieldOr(partial.value.fields, "reasoning", PartialReasoning), None, FromPartialJson);
        } else if content != "" && |Strip(content)| > 10 {
          s := Synthesis(Typed(Prefix(Strip(content), 500)), Typed(RawReasoning),
                         None, FromRawText);
        } else {
          s := Synthesis(Typed(NoTextAnswer), Typed(NoResponseReasoning),
                         None, NoUsableText);
        }
      } else if AnyResults(searchResults) {
        var sample := SampleContent(searchResults);
        s := Synthesis(Typed(SnippetIntro + sample),
                       Typed(SnippetReasoning), None, FromSnippet);
      } else {
        s := Synthesis(Typed(NoInfoAnswer),
                       Typed(NoResultsReasoning), None, NoResults);
      }
    }

    /** `_synthesize_answer` */
    method SynthesizeAnswer(state: AgentState)
      modifies state
      ensures state.View() == Synthesized(env, old(state.View()))
    {
      ghost var v := state.View();
      var context := BuildContext(state.searchResults);
      var response := env.llm(SynthesisPrompt(state.query, context));
      var s := AnswerFrom(env, state.searchResults, response);
      ghost var w := Synthesized(env, v);
      assert w == v.(finalAnswer := s.answer, reasoning := s.reasoning,
                     error := if s.failure.Some? then SetError(v.error, s.failure.value) else v.error);
      state.finalAnswer := s.answer;
      state.reasoning := s.reasoning;
      if s.failure.Some? && (state.error.None? || state.error.value == "") {
        state.error := s.failure;
      }
    }

    /** `graph.invoke(initial_state)`: the nodes in the order the edges give. */
    method RunGraph(state: AgentState) returns (raised: Option<string>)
      modifies state
      ensures Invoke(env, store.index, store.chunksMetadata, old(state.View())) ==
              if raised.Some? then Aborted(raised.value) else Completed(state.View())
    {
      ghost var v := state.View();
      ClassifyQuery(state);
      if Successor(ClassifyNode, state.queryType) == Some(DecomposeNode) {
        DecomposeQuery(state);
      }
      ghost var v2 := state.View();
      raised := ExecuteSearches(state);
      if raised.Some? {
        return;
      }
      ghost var w := state.View();
      SynthesizeAnswer(state);
      assert state.View() == Synthesized(env, w);
    }

    /** `process_query`: run the graph on a fresh state and build the response. */
    method ProcessQuery(query: string) returns (r: QueryResponse)
      ensures r == Answer(env, store.index, store.chunksMetadata, query)
    {
      var state := new AgentState(query);
      var raised := RunGraph(state);
      if raised.Some? {
        return ErrorResponse(query, raised.value);
      }
      if state.subQueries.Typed? && state.finalAnswer.Typed? && state.reasoning.Typed? {
        r := QueryResponse(query, state.finalAnswer.value, state.reasoning.value, state.subQueries.value, state.sources, None);
      } else {
        r := ErrorResponse(query, env.rejection);
      }
    }
  }
}
