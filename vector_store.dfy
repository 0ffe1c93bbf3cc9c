/**
 * The FAISS-backed chunk store: the bookkeeping that `FAISSVectorStore` keeps on top
 * of an inner-product index. FAISS and the sentence embedder are not modelled; what
 * the store needs from them is an input:
 *  - the width of the embeddings it is asked to add (or the exception encoding raised);
 *  - for a query, the index's ranking of its stored vectors as (score, idx) rows,
 *    best first, `idx` possibly -1 (or the exception embedding/searching raised),
 *    and the exception `index.search` raises when asked for no rows at all;
 *  - the exception `index.add` raises for vectors of the wrong width.
 */
module VectorStore {
  import opened Wrappers
  import opened PyStr
  import opened PyDict
  import opened Schemas

  /** What the store reads of its `faiss.IndexFlatIP`: the width `d` and `ntotal`. */
  datatype FlatIndex = FlatIndex(d: nat, ntotal: nat)

  /** One row of `index.search`. */
  datatype Candidate = Candidate(score: Score, idx: int)

  /**
   * The embedder and FAISS, asked about one query: either the rows `index.search`
   * returns for a positive count, with the error it raises for a count of zero or
   * less, or the exception embedding the query raised.
   */
  datatype Ranking = Ranked(candidates: seq<Candidate>, refusal: string) | Raised(message: string)

  /** A retrieved chunk with its similarity score. */
  datatype Hit = Hit(chunk: DocumentChunk, score: Score)

  /** The optional `company_filter`, `year_filter`, `section_filter` of `search`. */
  datatype Filters = Filters(company: Option<string>, year: Option<string>, section: Option<string>)

  const NoFilters := Filters(None, None, None)

  /** What `_load_index` finds on disk: whether each file exists and what reading it gives. */
  datatype IndexFiles = IndexFiles(
    indexExists: bool,
    metadataExists: bool,
    indexRead: Result<FlatIndex, string>,
    metadataRead: Result<seq<DocumentChunk>, string>)

  /** Python truthiness of an optional string filter: None and "" impose nothing. */
  predicate Truthy(f: Option<string>) {
    f.Some? && f.value != ""
  }

  /** The three filters of `search`, company then year then section. */
  predicate Matches(c: DocumentChunk, f: Filters) {
    && (Truthy(f.company) ==> c.metadata.company == f.company.value)
    && (Truthy(f.year) ==> c.metadata.year == f.year.value)
    && (Truthy(f.section) ==> c.section == Some(f.section.value))
  }

  function Min(a: nat, b: nat): nat {
    if a <= b then a else b
  }

  /** How many neighbours `search` requests: `min(k * 3, ntotal)`. */
  function FetchCount(k: nat, ntotal: nat): nat {
    Min(3 * k, ntotal)
  }

  /** `index.add` refuses vectors whose width is not the existing index's `d`. */
  predicate WidthMismatch(index: Option<FlatIndex>, width: nat) {
    index.Some? && index.value.d != width
  }

  /** Is row `c` a stored chunk that passes the filters? */
  predicate Accepts(chunks: seq<DocumentChunk>, c: Candidate, f: Filters) {
    0 <= c.idx < |chunks| && Matches(chunks[c.idx], f)
  }

  /** The candidate rows that survive the bounds check and the filters, in row order. */
  function Accepted(chunks: seq<DocumentChunk>, cands: seq<Candidate>, f: Filters): (hits: seq<Hit>)
    ensures |hits| <= |cands|
    ensures forall h :: h in hits ==> h.chunk in chunks && Matches(h.chunk, f)
  {
    if |cands| == 0 then []
    else
      var last := cands[|cands| - 1];
      Accepted(chunks, cands[..|cands| - 1], f)
        + (if Accepts(chunks, last, f) then [Hit(chunks[last.idx], last.score)] else [])
  }

  /** The outcome of `search(query, k, filters)` on a store in the given state. */
  function SearchResult(index: Option<FlatIndex>, chunks: seq<DocumentChunk>, ranking: Ranking,
                        k: int, f: Filters): (r: Result<seq<Hit>, string>)
    ensures index.None? || index.value.ntotal == 0 ==> r == Ok([])
    ensures r.Err? <==> index.Some? && index.value.ntotal > 0 && (ranking.Raised? || k <= 0)
    ensures r.Ok? && r.value != [] ==> |r.value| <= k
    ensures index.Some? && index.value.ntotal > 0 && ranking.Ranked? && k > 0 ==>
              r == Ok(Take(Accepted(chunks, Take(ranking.candidates, FetchCount(k, index.value.ntotal)), f), k))
  {
    if index.None? || index.value.ntotal == 0 then Ok([])
    else match ranking
      case Raised(msg) => Err(msg)
      case Ranked(cands, refusal) =>
        if k <= 0 then Err(refusal)
        else Ok(Take(Accepted(chunks, Take(cands, FetchCount(k, index.value.ntotal)), f), k))
  }

  /** `chunk_to_source`: a citation carrying a bounded excerpt of the chunk. */
  function ChunkToSource(c: DocumentChunk, score: Score): (s: Source)
    ensures s.company == c.metadata.company && s.year == c.metadata.year
    ensures s.page == c.pageNumber && s.section == c.section
    ensures s.chunkId == Some(c.chunkId) && s.similarityScore == Some(score)
    ensures |c.content| <= 200 ==> s.excerpt == c.content
    ensures |c.content| > 200 ==> |s.excerpt| == 203 && StartsWith(c.content, s.excerpt[..200])
                                  && s.excerpt[200..] == "..."
  {
    var excerpt := if |c.content| > 200 then c.content[..200] + "..." else c.content;
    Source(c.metadata.company, c.metadata.year, excerpt, c.pageNumber, c.section,
           Some(c.chunkId), Some(score))
  }

  function CompanySet(chunks: seq<DocumentChunk>): set<string> {
    set i | 0 <= i < |chunks| :: chunks[i].metadata.company
  }

  function YearSet(chunks: seq<DocumentChunk>): set<string> {
    set i | 0 <= i < |chunks| :: chunks[i].metadata.year
  }

  /** The truthy sections: `None` and `""` are not collected. */
  function SectionSet(chunks: seq<DocumentChunk>): set<string> {
    set i | 0 <= i < |chunks| && Truthy(chunks[i].section) :: chunks[i].section.value
  }

  /** The keys of `get_stats` that only a store with an index reports. */
  datatype StatsDetails = StatsDetails(sections: seq<string>, embeddingDimension: Option<nat>, modelName: string)

  /** The result of `get_stats`. */
  datatype Stats = Stats(totalChunks: nat, companies: seq<string>, years: seq<string>, details: Option<StatsDetails>)

  class FAISSVectorStore {
    const modelName: string
    var index: Option<FlatIndex>
    var chunksMetadata: seq<DocumentChunk>
    var dimension: Option<nat>

    /**
     * What every operation keeps: a store without an index holds no chunks, and a
     * store with one records that index's width as its dimension. Nothing ties
     * `ntotal` to the number of chunks: a loaded pair is not compared.
     */
    ghost predicate Valid()
      reads this
    {
      && (index.None? ==> chunksMetadata == [])
      && (index.Some? ==> dimension == Some(index.value.d))
    }

    /** One stored chunk per vector. */
    ghost predicate Consistent()
      reads this
    {
      index.Some? ==> index.value.ntotal == |chunksMetadata|
    }

    constructor (modelName: string, files: IndexFiles)
      ensures Valid()
      ensures this.modelName == modelName
      ensures !(files.indexExists && files.metadataExists) ==>
                index == None && chunksMetadata == [] && dimension == None
      ensures files.indexExists && files.metadataExists ==>
                match (files.indexRead, files.metadataRead)
                case (Ok(ix), Ok(cs)) => index == Some(ix) && chunksMetadata == cs && dimension == Some(ix.d)
                case (Ok(ix), Err(_)) => index == None && chunksMetadata == [] && dimension == Some(ix.d)
                case (Err(_), _) => index == None && chunksMetadata == [] && dimension == None
    {
      this.modelName := modelName;
      index := None;
      chunksMetadata := [];
      dimension := None;
      new;
      LoadIndex(files);
    }

    /**
     * `_load_index`: nothing happens unless both files exist; a failure at any
     * step resets the index and the chunks (the dimension read from a good index
     * file survives a bad metadata file).
     */
    method LoadIndex(files: IndexFiles)
      requires Valid()
      modifies this
      ensures Valid()
      ensures !(files.indexExists && files.metadataExists) ==>
                index == old(index) && chunksMetadata == old(chunksMetadata) && dimension == old(dimension)
      ensures files.indexExists && files.metadataExists ==>
                match (files.indexRead, files.metadataRead)
                case (Ok(ix), Ok(cs)) => index == Some(ix) && chunksMetadata == cs && dimension == Some(ix.d)
                case (Ok(ix), Err(_)) => index == None && chunksMetadata == [] && dimension == Some(ix.d)
                case (Err(_), _) => index == None && chunksMetadata == [] && dimension == old(dimension)
    {
      if !(files.indexExists && files.metadataExists) {
        return;
      }
      match files.indexRead {
        case Err(_) =>
          index := None;
          chunksMetadata := [];
        case Ok(ix) =>
          index := Some(ix);
          dimension := Some(ix.d);
          match files.metadataRead {
            case Err(_) =>
              index := None;
              chunksMetadata := [];
            case Ok(cs) =>
              chunksMetadata := cs;
          }
      }
    }

    /**
     * `add_documents`: an empty batch changes nothing; otherwise the index is
     * created at the embeddings' width if there is none, the vectors are appended
     * and the chunks are appended to the metadata in order. An exception from the
     * embedder, or from `index.add` when the vectors are not as wide as an existing
     * index (`widthError`), propagates and leaves the store as it was.
     */
    method AddDocuments(chunks: seq<DocumentChunk>, embedded: Result<nat, string>, widthError: string)
      returns (raised: Option<string>)
      requires Valid()
      modifies this
      ensures Valid()
      ensures old(Consistent()) ==> Consistent()
      ensures raised.Some? <==> chunks != [] && (embedded.Err? || WidthMismatch(old(index), embedded.value))
      ensures chunks != [] && embedded.Err? ==> raised == Some(embedded.error)
      ensures chunks != [] && embedded.Ok? && WidthMismatch(old(index), embedded.value) ==> raised == Some(widthError)
      ensures raised.Some? || chunks == [] ==>
                index == old(index) && chunksMetadata == old(chunksMetadata) && dimension == old(dimension)
      ensures raised.None? && chunks != [] ==>
                && chunksMetadata == old(chunksMetadata) + chunks
                && index.Some?
                && index.value.ntotal == (if old(index).None? then 0 else old(index).value.ntotal) + |chunks|
                && (old(index).None? ==> index.value.d == embedded.value && dimension == Some(embedded.value))
                && (old(index).Some? ==> index.value.d == old(index).value.d && dimension == old(dimension))
    {
      raised := None;
      if chunks == [] {
        return;
      }
      match embedded {
        case Err(msg) =>
          raised := Some(msg);
        case Ok(width) =>
          if WidthMismatch(index, width) {
            raised := Some(widthError);
            return;
          }
          if index.None? {
            index := Some(FlatIndex(width, 0));
            dimension := Some(width);
          }
          index := Some(index.value.(ntotal := index.value.ntotal + |chunks|));
          chunksMetadata := chunksMetadata + chunks;
      }
    }

    /**
     * `search(query, k, ...)`: nothing on an empty or absent index; otherwise the
     * first k rows, among the min(3k, ntotal) requested, that name a stored chunk
     * and pass the truthy filters.
     */
    method Search(query: string, k: int, f: Filters, faiss: string -> Ranking) returns (r: Result<seq<Hit>, string>)
      ensures r == SearchResult(index, chunksMetadata, faiss(query), k, f)
    {
      if index.None? || index.value.ntotal == 0 {
        return Ok([]);
      }
      var ranking := faiss(query);
      if ranking.Raised? {
        return Err(ranking.message);
      }
      if k <= 0 {
        return Err(ranking.refusal);
      }
      var rows := Take(ranking.candidates, FetchCount(k, index.value.ntotal));
      var results: seq<Hit> := [];
      var i := 0;
      while i < |rows|
        invariant 0 <= i <= |rows|
        invariant results == Accepted(chunksMetadata, rows[..i], f)
      {
        var c := rows[i];
        assert rows[..i + 1][..i] == rows[..i];
        if 0 <= c.idx && c.idx < |chunksMetadata| {
          var chunk := chunksMetadata[c.idx];
          if Matches(chunk, f) {
            results := results + [Hit(chunk, c.score)];
          }
        }
        i := i + 1;
      }
      assert rows[..|rows|] == rows;
      return Ok(Take(results, k));
    }

    /** `search_multiple_queries`: one search per query; an exception propagates. */
    method SearchMultipleQueries(queries: seq<string>, k: int, faiss: string -> Ranking)
      returns (r: Result<Dict<string, seq<Hit>>, string>)
      ensures r == SearchAll(index, chunksMetadata, queries, k, faiss)
    {
      var results: Dict<string, seq<Hit>> := [];
      var i := 0;
      while i < |queries|
        invariant 0 <= i <= |queries|
        invariant SearchAll(index, chunksMetadata, queries[..i], k, faiss) == Ok(results)
      {
        assert queries[..i + 1][..i] == queries[..i];
        var one := Search(queries[i], k, NoFilters, faiss);
        if one.Err? {
          SearchAllStopsAtError(index, chunksMetadata, queries, i, k, faiss);
          return Err(one.error);
        }
        results := Put(results, queries[i], one.value);
        i := i + 1;
      }
      assert queries[..|queries|] == queries;
      return Ok(results);
    }

    /** `get_stats` */
    method GetStats() returns (s: Stats)
      requires Valid()
      ensures index.None? ==> s == Stats(0, [], [], None)
      ensures index.Some? ==>
                && s.totalChunks == index.value.ntotal
                && StrictlySorted(s.companies)
                && (forall x :: x in s.companies <==> x in CompanySet(chunksMetadata))
                && StrictlySorted(s.years)
                && (forall x :: x in s.years <==> x in YearSet(chunksMetadata))
                && s.details.Some?
                && StrictlySorted(s.details.value.sections)
                && (forall x :: x in s.details.value.sections <==> x in SectionSet(chunksMetadata))
                && s.details.value.embeddingDimension == dimension
                && s.details.value.modelName == modelName
    {
      if index.None? {
        return Stats(0, [], [], None);
      }
      var companies: set<string> := {};
      var years: set<string> := {};
      var sections: set<string> := {};
      var i := 0;
      while i < |chunksMetadata|
        invariant 0 <= i <= |chunksMetadata|
        invariant companies == CompanySet(chunksMetadata[..i])
        invariant years == YearSet(chunksMetadata[..i])
        invariant sections == SectionSet(chunksMetadata[..i])
      {
        var c := chunksMetadata[i];
        StatsStep(chunksMetadata, i);
        companies := companies + {c.metadata.company};
        years := years + {c.metadata.year};
        if c.section.Some? && c.section.value != "" {
          sections := sections + {c.section.value};
        }
        i := i + 1;
      }
      assert chunksMetadata[..|chunksMetadata|] == chunksMetadata;
      var sortedCompanies := SortedList(companies);
      var sortedYears := SortedList(years);
      var sortedSections := SortedList(sections);
      return Stats(index.value.ntotal, sortedCompanies, sortedYears,
                   Some(StatsDetails(sortedSections, dimension, modelName)));
    }
  }

  /** The outcome of `search_multiple_queries`: later duplicates overwrite, an error stops. */
  function SearchAll(index: Option<FlatIndex>, chunks: seq<DocumentChunk>, queries: seq<string>,
                     k: int, faiss: string -> Ranking): (r: Result<Dict<string, seq<Hit>>, string>)
    ensures r.Err? <==> exists i :: 0 <= i < |queries| && SearchResult(index, chunks, faiss(queries[i]), k, NoFilters).Err?
  {
    if |queries| == 0 then Ok([])
    else
      var q := queries[|queries| - 1];
      assert forall i :: 0 <= i < |queries| - 1 ==> queries[..|queries| - 1][i] == queries[i];
      match SearchAll(index, chunks, queries[..|queries| - 1], k, faiss)
      case Err(e) => Err(e)
      case Ok(d) =>
        match SearchResult(index, chunks, faiss(q), k, NoFilters)
        case Err(e) => Err(e)
        case Ok(hits) => Ok(Put(d, q, hits))
  }

  lemma {:induction false} SearchAllStopsAtError(index: Option<FlatIndex>, chunks: seq<DocumentChunk>,
                                                 queries: seq<string>, i: nat, k: int, faiss: string -> Ranking)
    requires i < |queries|
    requires SearchAll(index, chunks, queries[..i], k, faiss).Ok?
    requires SearchResult(index, chunks, faiss(queries[i]), k, NoFilters).Err?
    ensures SearchAll(index, chunks, queries, k, faiss) == Err(SearchResult(index, chunks, faiss(queries[i]), k, NoFilters).error)
    decreases |queries|
  {
    assert queries[..i + 1][..i] == queries[..i];
    if i + 1 < |queries| {
      var init := queries[..|queries| - 1];
      assert init[..i] == queries[..i];
      assert init[i] == queries[i];
      SearchAllStopsAtError(index, chunks, init, i, k, faiss);
    } else {
      assert queries[..|queries| - 1] == queries[..i];
    }
  }

  /**
   * A run that raised nothing has one key per distinct query, and each maps to that
   * query's own search results (a repeated query is searched again, to the same effect).
   */
  lemma {:induction false} SearchAllValues(index: Option<FlatIndex>, chunks: seq<DocumentChunk>,
                                           queries: seq<string>, k: int, faiss: string -> Ranking)
    requires SearchAll(index, chunks, queries, k, faiss).Ok?
    ensures var d := SearchAll(index, chunks, queries, k, faiss).value;
            && (forall q :: q in Keys(d) <==> q in queries)
            && forall q :: q in queries ==> Get(d, q) == Some(SearchResult(index, chunks, faiss(q), k, NoFilters).value)
  {
    if |queries| > 0 {
      var init, q := queries[..|queries| - 1], queries[|queries| - 1];
      SearchAllValues(index, chunks, init, k, faiss);
      var d0 := SearchAll(index, chunks, init, k, faiss).value;
      var search := y => SearchResult(index, chunks, faiss(y), k, NoFilters);
      SplitLast(queries);
      assert forall y :: y in init ==> search(y).Ok?;
      PutLookup(d0, init, q, search);
      assert SearchAll(index, chunks, queries, k, faiss).value == Put(d0, q, search(q).value);
    }
  }

  lemma StatsStep(chunks: seq<DocumentChunk>, i: nat)
    requires i < |chunks|
    ensures CompanySet(chunks[..i + 1]) == CompanySet(chunks[..i]) + {chunks[i].metadata.company}
    ensures YearSet(chunks[..i + 1]) == YearSet(chunks[..i]) + {chunks[i].metadata.year}
    ensures SectionSet(chunks[..i + 1]) ==
              SectionSet(chunks[..i]) + (if Truthy(chunks[i].section) then {chunks[i].section.value} else {})
  {
    var a, b := chunks[..i], chunks[..i + 1];
    assert forall j :: 0 <= j < i ==> b[j] == a[j];
    assert b[i] == chunks[i];
  }

  // ---------------------------------------------------------------
  // What search promises
  // ---------------------------------------------------------------

  /** Every accepted row is a stored chunk that passes the filters, with its row's score. */
  lemma {:induction false} AcceptedSound(chunks: seq<DocumentChunk>, cands: seq<Candidate>, f: Filters)
    ensures |Accepted(chunks, cands, f)| <= |cands|
    ensures forall h :: h in Accepted(chunks, cands, f) ==>
              h.chunk in chunks && Matches(h.chunk, f) && exists c :: c in cands && c.score == h.score
  {
    if |cands| > 0 {
      var init := cands[..|cands| - 1];
      AcceptedSound(chunks, init, f);
      forall h | h in Accepted(chunks, init, f)
        ensures exists c :: c in cands && c.score == h.score
      {
        var c :| c in init && c.score == h.score;
        assert c in cands;
      }
      assert cands[|cands| - 1] in cands;
    }
  }

  /** On an absent or empty index, search returns no results and raises nothing. */
  lemma SearchEmptyIndex(index: Option<FlatIndex>, chunks: seq<DocumentChunk>, ranking: Ranking, k: int, f: Filters)
    requires index.None? || index.value.ntotal == 0
    ensures SearchResult(index, chunks, ranking, k, f) == Ok([])
  {
  }

  /**
   * A count of zero or less is no query at all: an absent or empty index still
   * answers with nothing, any other index raises.
   */
  lemma SearchNonPositive(index: Option<FlatIndex>, chunks: seq<DocumentChunk>, ranking: Ranking, k: int, f: Filters)
    requires k <= 0
    ensures var r := SearchResult(index, chunks, ranking, k, f);
            && (r.Ok? <==> index.None? || index.value.ntotal == 0)
            && (r.Ok? ==> r.value == [])
            && (r.Err? && ranking.Ranked? ==> r.error == ranking.refusal)
  {
  }

  /**
   * At most k results, at most ntotal results, and each is a stored chunk that
   * matches every truthy filter.
   */
  lemma SearchSound(index: Option<FlatIndex>, chunks: seq<DocumentChunk>, ranking: Ranking, k: int, f: Filters)
    requires SearchResult(index, chunks, ranking, k, f).Ok?
    ensures var hits := SearchResult(index, chunks, ranking, k, f).value;
            && (hits != [] ==> |hits| <= k)
            && (index.Some? ==> |hits| <= index.value.ntotal)
            && forall h :: h in hits ==> h.chunk in chunks && Matches(h.chunk, f)
  {
    if index.Some? && index.value.ntotal > 0 {
      var rows := Take(ranking.candidates, FetchCount(k, index.value.ntotal));
      AcceptedSound(chunks, rows, f);
      var acc := Accepted(chunks, rows, f);
      forall h | h in Take(acc, k) ensures h in acc {
        var j :| 0 <= j < |Take(acc, k)| && Take(acc, k)[j] == h;
        assert acc[j] == h;
      }
    }
  }

  /** Scores are non-increasing along a list of rows. */
  predicate RowsDescending(cands: seq<Candidate>) {
    forall i, j :: 0 <= i < j < |cands| ==> cands[i].score >= cands[j].score
  }

  predicate HitsDescending(hits: seq<Hit>) {
    forall i, j :: 0 <= i < j < |hits| ==> hits[i].score >= hits[j].score
  }

  lemma {:induction false} AcceptedDescending(chunks: seq<DocumentChunk>, cands: seq<Candidate>, f: Filters)
    requires RowsDescending(cands)
    ensures HitsDescending(Accepted(chunks, cands, f))
  {
    if |cands| > 0 {
      var init := cands[..|cands| - 1];
      var last := cands[|cands| - 1];
      AcceptedDescending(chunks, init, f);
      AcceptedSound(chunks, init, f);
      forall h | h in Accepted(chunks, init, f) ensures h.score >= last.score {
        var c :| c in init && c.score == h.score;
        var j :| 0 <= j < |init| && init[j] == c;
        assert cands[j] == c;
      }
    }
  }

  /** Filtering never reorders: if FAISS ranks best first, so does search. */
  lemma SearchDescending(index: Option<FlatIndex>, chunks: seq<DocumentChunk>, ranking: Ranking, k: int, f: Filters)
    requires ranking.Ranked? && RowsDescending(ranking.candidates)
    requires SearchResult(index, chunks, ranking, k, f).Ok?
    ensures HitsDescending(SearchResult(index, chunks, ranking, k, f).value)
  {
    if index.Some? && index.value.ntotal > 0 {
      var rows := Take(ranking.candidates, FetchCount(k, index.value.ntotal));
      AcceptedDescending(chunks, rows, f);
    }
  }

  /** Rows that name no stored chunk (idx -1, or past the metadata) contribute nothing. */
  lemma {:induction false} AcceptedSkipsBadRows(chunks: seq<DocumentChunk>, cands: seq<Candidate>, f: Filters)
    requires forall c :: c in cands ==> c.idx < 0 || c.idx >= |chunks|
    ensures Accepted(chunks, cands, f) == []
  {
    if |cands| > 0 {
      assert forall c :: c in cands[..|cands| - 1] ==> c in cands;
      AcceptedSkipsBadRows(chunks, cands[..|cands| - 1], f);
      assert cands[|cands| - 1] in cands;
    }
  }

  /** With no filter and every row naming a stored chunk, every row yields a hit. */
  lemma {:induction false} AcceptedAllRows(chunks: seq<DocumentChunk>, cands: seq<Candidate>)
    requires forall c :: c in cands ==> 0 <= c.idx < |chunks|
    ensures |Accepted(chunks, cands, NoFilters)| == |cands|
  {
    if |cands| > 0 {
      assert forall c :: c in cands[..|cands| - 1] ==> c in cands;
      AcceptedAllRows(chunks, cands[..|cands| - 1]);
      assert cands[|cands| - 1] in cands;
    }
  }

  /** Every candidate row that names a stored chunk passing the filters yields its hit. */
  lemma {:induction false} AcceptedComplete(chunks: seq<DocumentChunk>, cands: seq<Candidate>, f: Filters, c: Candidate)
    requires c in cands && Accepts(chunks, c, f)
    ensures Hit(chunks[c.idx], c.score) in Accepted(chunks, cands, f)
  {
    var init, last := cands[..|cands| - 1], cands[|cands| - 1];
    SplitLast(cands);
    if c != last {
      assert c in init;
      AcceptedComplete(chunks, init, f, c);
    }
  }

  /**
   * Filtering keeps row order: the hits are a subsequence of the hits of all
   * in-range rows.
   */
  lemma {:induction false} AcceptedInOrder(chunks: seq<DocumentChunk>, cands: seq<Candidate>, f: Filters)
    ensures IsSubsequence(Accepted(chunks, cands, f), Accepted(chunks, cands, NoFilters))
  {
    if |cands| > 0 {
      var init, last := cands[..|cands| - 1], cands[|cands| - 1];
      AcceptedInOrder(chunks, init, f);
      var a, b := Accepted(chunks, init, f), Accepted(chunks, init, NoFilters);
      if Accepts(chunks, last, f) {
        assert Accepts(chunks, last, NoFilters);
        SubsequenceAppendBoth(a, b, Hit(chunks[last.idx], last.score));
      } else if Accepts(chunks, last, NoFilters) {
        assert Accepted(chunks, cands, f) == a;
        assert Accepted(chunks, cands, NoFilters) == b + [Hit(chunks[last.idx], last.score)];
        SubsequenceExtend(a, b, Hit(chunks[last.idx], last.score));
      } else {
        assert Accepted(chunks, cands, f) == a && Accepted(chunks, cands, NoFilters) == b;
      }
    }
  }

  /**
   * A search that returns fewer than k hits returns every fetched row that names
   * a stored chunk passing the filters.
   */
  lemma SearchComplete(index: Option<FlatIndex>, chunks: seq<DocumentChunk>, ranking: Ranking, k: int, f: Filters,
                       c: Candidate)
    requires index.Some? && index.value.ntotal > 0 && ranking.Ranked? && k > 0
    requires c in Take(ranking.candidates, FetchCount(k, index.value.ntotal)) && Accepts(chunks, c, f)
    ensures var hits := SearchResult(index, chunks, ranking, k, f).value;
            |hits| < k ==> Hit(chunks[c.idx], c.score) in hits
  {
    var rows := Take(ranking.candidates, FetchCount(k, index.value.ntotal));
    AcceptedComplete(chunks, rows, f, c);
  }

  /** `chunk_to_source` keeps short content whole and cuts long content to 200 characters plus "...". */
  lemma ExcerptBounded(c: DocumentChunk, score: Score)
    ensures |ChunkToSource(c, score).excerpt| <= 203
    ensures StartsWith(c.content, Prefix(ChunkToSource(c, score).excerpt, 200))
  {
  }
}
