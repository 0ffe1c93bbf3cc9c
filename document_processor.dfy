/**
 * `DocumentProcessor`: the part of ingestion that turns an extracted filing text
 * into `DocumentChunk`s. Text extraction (pdfplumber, PyPDF2, BeautifulSoup),
 * the regex that finds section headers, the regex that splits sentences and MD5
 * are inputs (`Readers`); what the processor does with their results is modelled.
 */
module DocumentProcessor {
  import opened Wrappers
  import opened PyStr
  import opened PyDict
  import opened Schemas

  /** `DocumentProcessor(chunk_size, chunk_overlap)`; neither field changes after construction. */
  datatype Processor = Processor(chunkSize: int, chunkOverlap: int)

  const DefaultProcessor := Processor(800, 100)

  /** What an extractor returns: the text and its page count. */
  datatype Extracted = Extracted(text: string, pageCount: int)

  /** The collaborators a document is processed with. */
  datatype Readers = Readers(
    html: string -> Result<string, string>,  // the cleaned text of an HTML file, or the exception raised
    pdf: string -> Extracted,                // extract_text_from_pdf, ("", 0) on failure
    sections: string -> Dict<string, int>,   // identify_sections: header name to start offset
    sentences: string -> seq<string>,        // the regex sentence split of a text
    md5: string -> string)                   // hexdigest of the UTF-8 key

  // ---------------------------------------------------------------
  // Extraction
  // ---------------------------------------------------------------

  /** The page estimate of `extract_text_from_html`: `max(1, len(text) // 3000)`. */
  function HtmlPageCount(text: string): (n: nat)
    ensures n >= 1
    ensures n == 1 <==> |text| < 6000
    ensures n > 1 ==> n * 3000 <= |text| < (n + 1) * 3000
  {
    if |text| / 3000 > 1 then |text| / 3000 else 1
  }

  /** `extract_text_from_html`: an exception gives `("", 0)`. */
  function HtmlExtraction(cleaned: Result<string, string>): (e: Extracted)
    ensures cleaned.Err? ==> e == Extracted("", 0)
    ensures cleaned.Ok? ==> e.text == cleaned.value && e.pageCount >= 1
  {
    match cleaned
    case Err(_) => Extracted("", 0)
    case Ok(t) => Extracted(t, HtmlPageCount(t))
  }

  predicate IsHtmlPath(filepath: string) {
    EndsWith(Lower(filepath), ".htm") || EndsWith(Lower(filepath), ".html")
  }

  /** The extractor `process_document` picks by file extension. */
  function Extraction(r: Readers, filepath: string): Extracted {
    if IsHtmlPath(filepath) then HtmlExtraction(r.html(filepath)) else r.pdf(filepath)
  }

  // ---------------------------------------------------------------
  // Section lookup
  // ---------------------------------------------------------------

  type Entry = (string, int)

  predicate SortedByStart(s: seq<Entry>) {
    forall i, j :: 0 <= i < j < |s| ==> s[i].1 <= s[j].1
  }

  /** Insert `e` after every element whose start is at most `e`'s: the step of a stable sort. */
  function InsertByStart(s: seq<Entry>, e: Entry): (r: seq<Entry>)
    requires SortedByStart(s)
    ensures SortedByStart(r)
    ensures multiset(r) == multiset(s) + multiset{e}
  {
    if |s| == 0 then [e]
    else if s[|s| - 1].1 <= e.1 then s + [e]
    else
      var init, last := s[..|s| - 1], s[|s| - 1];
      assert s == init + [last];
      var r' := InsertByStart(init, e);
      StartsBounded(s, e, r');
      SortedAppend(r', last);
      r' + [last]
  }

  lemma StartsBounded(s: seq<Entry>, e: Entry, r: seq<Entry>)
    requires |s| > 0 && SortedByStart(s) && e.1 < s[|s| - 1].1
    requires multiset(r) == multiset(s[..|s| - 1]) + multiset{e}
    ensures forall i :: 0 <= i < |r| ==> r[i].1 <= s[|s| - 1].1
  {
    forall i | 0 <= i < |r| ensures r[i].1 <= s[|s| - 1].1 {
      var x := r[i];
      assert x in multiset(r);
      if x != e {
        assert x in multiset(s[..|s| - 1]);
        var j :| 0 <= j < |s| - 1 && s[..|s| - 1][j] == x;
        assert s[j] == x;
      }
    }
  }

  lemma SortedAppend(r: seq<Entry>, last: Entry)
    requires SortedByStart(r)
    requires forall i :: 0 <= i < |r| ==> r[i].1 <= last.1
    ensures SortedByStart(r + [last])
  {
  }

  /** `sorted(sections.items(), key=lambda x: x[1])`, which is stable. */
  function SortByStart(items: seq<Entry>): (r: seq<Entry>)
    ensures SortedByStart(r)
    ensures multiset(r) == multiset(items)
  {
    if |items| == 0 then []
    else
      assert items == items[..|items| - 1] + [items[|items| - 1]];
      InsertByStart(SortByStart(items[..|items| - 1]), items[|items| - 1])
  }

  /** How many entries, from the front, start at or before `position`. */
  function Leading(s: seq<Entry>, position: int): (n: nat)
    ensures n <= |s|
    ensures forall j :: 0 <= j < n ==> s[j].1 <= position
    ensures n == |s| || s[n].1 > position
  {
    if |s| == 0 || s[0].1 > position then 0 else 1 + Leading(s[1..], position)
  }

  /** The section `get_section_for_position` reports: the last entry of the sorted scan at or before `position`. */
  function SectionAt(position: int, sections: Dict<string, int>): (r: Option<string>)
    ensures |sections| == 0 ==> r.None?
    ensures r.Some? ==> exists i :: 0 <= i < |sections| && sections[i].0 == r.value && sections[i].1 <= position
  {
    var sorted := SortByStart(sections);
    var n := Leading(sorted, position);
    if n == 0 then None
    else
      assert sorted[n - 1] in multiset(sorted);
      assert sorted[n - 1] in sections;
      Some(sorted[n - 1].0)
  }

  /** `get_section_for_position` */
  method GetSectionForPosition(position: int, sections: Dict<string, int>) returns (r: Option<string>)
    ensures r == SectionAt(position, sections)
  {
    if |sections| == 0 {
      return None;
    }
    var sorted := SortByStart(sections);
    r := None;
    var i := 0;
    while i < |sorted|
      invariant 0 <= i <= |sorted|
      invariant forall j :: 0 <= j < i ==> sorted[j].1 <= position
      invariant r == if i == 0 then None else Some(sorted[i - 1].0)
    {
      var (section, start) := sorted[i];
      if position >= start {
        r := Some(section);
      } else {
        break;
      }
      i := i + 1;
    }
    assert i == Leading(sorted, position);
  }

  lemma SortedKeepsEntries(items: seq<Entry>, x: Entry)
    ensures x in SortByStart(items) <==> x in items
  {
    var s := SortByStart(items);
    assert x in s <==> x in multiset(s);
    assert x in items <==> x in multiset(items);
  }

  /** Where an entry of the dict sits in a permutation of it. */
  lemma SortedIndexOf(items: seq<Entry>, sorted: seq<Entry>, i: int) returns (m: nat)
    requires multiset(sorted) == multiset(items) && 0 <= i < |items|
    ensures m < |sorted| && sorted[m] == items[i]
  {
    assert items[i] in multiset(items);
    m :| m < |sorted| && sorted[m] == items[i];
  }

  /** Where an entry of a permutation sits in the dict. */
  lemma ItemIndexOf(items: seq<Entry>, sorted: seq<Entry>, m: int) returns (i: nat)
    requires multiset(sorted) == multiset(items) && 0 <= m < |sorted|
    ensures i < |items| && items[i] == sorted[m]
  {
    assert sorted[m] in multiset(sorted);
    i :| i < |items| && items[i] == sorted[m];
  }

  /** When the scan accepts nothing, every section starts after `position`. */
  lemma SectionAtNone(position: int, sections: Dict<string, int>, sorted: seq<Entry>)
    requires SortedByStart(sorted) && multiset(sorted) == multiset(sections)
    requires Leading(sorted, position) == 0
    ensures forall i :: 0 <= i < |sections| ==> sections[i].1 > position
  {
    forall i | 0 <= i < |sections| ensures sections[i].1 > position {
      var m := SortedIndexOf(sections, sorted, i);
      assert sorted[0].1 <= sorted[m].1;
    }
  }

  /** The last accepted entry has the greatest start at or before `position`. */
  lemma SectionAtSome(position: int, sections: Dict<string, int>, sorted: seq<Entry>) returns (i: nat)
    requires SortedByStart(sorted) && multiset(sorted) == multiset(sections)
    requires Leading(sorted, position) > 0
    ensures i < |sections|
    ensures sections[i] == sorted[Leading(sorted, position) - 1]
    ensures sections[i].1 <= position
    ensures forall j :: 0 <= j < |sections| && sections[j].1 <= position ==> sections[j].1 <= sections[i].1
  {
    var n := Leading(sorted, position);
    i := ItemIndexOf(sections, sorted, n - 1);
    forall j | 0 <= j < |sections| && sections[j].1 <= position
      ensures sections[j].1 <= sections[i].1
    {
      var m := SortedIndexOf(sections, sorted, j);
      if m < n - 1 {
        assert sorted[m].1 <= sorted[n - 1].1;
      }
    }
  }

  /**
   * No section when there are none or every start lies after `position`; otherwise
   * a section whose start is the greatest start at or before `position`.
   */
  lemma SectionAtGreatest(position: int, sections: Dict<string, int>)
    ensures SectionAt(position, sections).None? <==>
              forall i :: 0 <= i < |sections| ==> sections[i].1 > position
    ensures SectionAt(position, sections).Some? ==>
              exists i :: 0 <= i < |sections| && sections[i].0 == SectionAt(position, sections).value
                && sections[i].1 <= position
                && forall j :: 0 <= j < |sections| && sections[j].1 <= position ==> sections[j].1 <= sections[i].1
  {
    var sorted := SortByStart(sections);
    var n := Leading(sorted, position);
    if n == 0 {
      SectionAtNone(position, sections, sorted);
    } else {
      var i := SectionAtSome(position, sections, sorted);
      assert SectionAt(position, sections).value == sections[i].0;
    }
  }

  // ---------------------------------------------------------------
  // Semantic chunking
  // ---------------------------------------------------------------

  /** One `(chunk_text, section, position)` triple of `semantic_chunking`. */
  datatype RawChunk = RawChunk(text: string, section: Option<string>, position: int)

  /** `ws[-overlap:]`, Python slice semantics (so an overlap of 0 keeps every word). */
  function OverlapWords(ws: seq<string>, overlap: int): (r: seq<string>)
    ensures |r| <= |ws| && r == ws[|ws| - |r|..]
    ensures overlap == 0 ==> r == ws
    ensures overlap > 0 ==> |r| == if overlap < |ws| then overlap else |ws|
  {
    var start := -overlap;
    var b := if start < 0 then (if start + |ws| < 0 then 0 else start + |ws|)
             else (if start > |ws| then |ws| else start);
    ws[b..]
  }

  /** The loop variables of `semantic_chunking`. */
  datatype Acc = Acc(chunks: seq<RawChunk>, current: string, position: int)

  /** One iteration of the sentence loop. */
  function Step(p: Processor, text: string, sections: Dict<string, int>, a: Acc, sentence: string): (r: Acc)
  {
    var s := Strip(sentence);
    if s == "" then a
    else
      var potential := if a.current != "" then a.current + " " + s else s;
      if |Words(potential)| > p.chunkSize && a.current != "" then
        Acc(a.chunks + [RawChunk(Strip(a.current), SectionAt(a.position, sections), a.position)],
            Join(OverlapWords(Words(a.current), p.chunkOverlap), " ") + " " + s,
            Find(text, s, a.position))
      else
        Acc(a.chunks, potential,
            if potential == "" || |Words(potential)| == 1 then Find(text, s, a.position) else a.position)
  }

  /** The loop variables after the given sentences. */
  function Fold(p: Processor, text: string, sections: Dict<string, int>, sentences: seq<string>): (r: Acc)
    ensures |r.chunks| <= |sentences|
  {
    if |sentences| == 0 then Acc([], "", 0)
    else Step(p, text, sections, Fold(p, text, sections, sentences[..|sentences| - 1]), sentences[|sentences| - 1])
  }

  /** The result of `semantic_chunking`: the loop, then the final flush. */
  function Chunking(p: Processor, text: string, sections: Dict<string, int>, sentences: seq<string>): (r: seq<RawChunk>)
  {
    var a := Fold(p, text, sections, sentences);
    if Strip(a.current) != "" then a.chunks + [RawChunk(Strip(a.current), SectionAt(a.position, sections), a.position)]
    else a.chunks
  }

  /** `semantic_chunking(text, sections)` over the sentences the split regex produced. */
  method SemanticChunking(p: Processor, text: string, sections: Dict<string, int>, sentences: seq<string>)
    returns (chunks: seq<RawChunk>)
    ensures chunks == Chunking(p, text, sections, sentences)
  {
    chunks := [];
    var currentChunk := "";
    var currentPosition := 0;
    var i := 0;
    while i < |sentences|
      invariant 0 <= i <= |sentences|
      invariant Acc(chunks, currentChunk, currentPosition) == Fold(p, text, sections, sentences[..i])
    {
      assert sentences[..i + 1][..i] == sentences[..i];
      var sentence := Strip(sentences[i]);
      if sentence != "" {
        var potentialChunk := if currentChunk != "" then currentChunk + " " + sentence else sentence;
        if |Words(potentialChunk)| > p.chunkSize && currentChunk != "" {
          var section := GetSectionForPosition(currentPosition, sections);
          chunks := chunks + [RawChunk(Strip(currentChunk), section, currentPosition)];
          var overlapWords := OverlapWords(Words(currentChunk), p.chunkOverlap);
          currentChunk := Join(overlapWords, " ") + " " + sentence;
          currentPosition := Find(text, sentence, currentPosition);
        } else {
          currentChunk := potentialChunk;
          if currentChunk == "" || |Words(currentChunk)| == 1 {
            currentPosition := Find(text, sentence, currentPosition);
          }
        }
      }
      i := i + 1;
    }
    assert sentences[..|sentences|] == sentences;
    if Strip(currentChunk) != "" {
      var section := GetSectionForPosition(currentPosition, sections);
      chunks := chunks + [RawChunk(Strip(currentChunk), section, currentPosition)];
    }
  }

  // ---------------------------------------------------------------
  // What chunking promises
  // ---------------------------------------------------------------

  predicate Blank(s: string) {
    Strip(s) == ""
  }

  /** The words of all sentences, in order. */
  function SentenceWords(sentences: seq<string>): seq<string> {
    if |sentences| == 0 then []
    else SentenceWords(sentences[..|sentences| - 1]) + Words(sentences[|sentences| - 1])
  }

  function ChunkWords(cs: seq<RawChunk>): (r: seq<seq<string>>)
    ensures |r| == |cs|
  {
    seq(|cs|, i requires 0 <= i < |cs| => Words(cs[i].text))
  }

  function DropWords(w: seq<string>, n: nat): seq<string> {
    if n <= |w| then w[n..] else []
  }

  /**
   * The word lists glued back together: every list after the first loses the
   * overlap it repeats from its predecessor.
   */
  function Reassemble(ws: seq<seq<string>>, overlap: int): seq<string> {
    if |ws| == 0 then []
    else if |ws| == 1 then ws[0]
    else Reassemble(ws[..|ws| - 1], overlap) + DropWords(ws[|ws| - 1], |OverlapWords(ws[|ws| - 2], overlap)|)
  }

  predicate IsPrefix(a: seq<string>, b: seq<string>) {
    |a| <= |b| && b[..|a|] == a
  }

  /** Consecutive word lists overlap: each begins with the tail of the one before it. */
  predicate Chained(ws: seq<seq<string>>, overlap: int) {
    forall j :: 0 <= j < |ws| - 1 ==> IsPrefix(OverlapWords(ws[j], overlap), ws[j + 1])
  }

  /** Consecutive chunks overlap: the next one's words begin with the previous one's tail. */
  predicate Overlapping(cs: seq<RawChunk>, overlap: int) {
    Chained(ChunkWords(cs), overlap)
  }

  /** The closed chunks' words followed by the accumulator's words. */
  function Pending(a: Acc): seq<seq<string>> {
    ChunkWords(a.chunks) + [Words(a.current)]
  }

  /** What holds of the loop variables after any prefix of the sentences. */
  predicate FoldInv(p: Processor, a: Acc, sentences: seq<string>) {
    && (a.current == "" ==> a.chunks == [] && SentenceWords(sentences) == [])
    && (a.current != "" ==> |Words(a.current)| > 0)
    && Chained(Pending(a), p.chunkOverlap)
    && Reassemble(Pending(a), p.chunkOverlap) == SentenceWords(sentences)
  }

  lemma ChunkWordsAppend(cs: seq<RawChunk>, c: RawChunk)
    ensures ChunkWords(cs + [c]) == ChunkWords(cs) + [Words(c.text)]
  {
    assert forall i :: 0 <= i < |cs| ==> (cs + [c])[i] == cs[i];
  }

  /** A list that begins with the last list's tail keeps the chain. */
  lemma ChainedAppend(ws: seq<seq<string>>, x: seq<string>, overlap: int)
    requires ws != [] && Chained(ws, overlap)
    requires IsPrefix(OverlapWords(ws[|ws| - 1], overlap), x)
    ensures Chained(ws + [x], overlap)
  {
    var l := ws + [x];
    forall j | 0 <= j < |l| - 1 ensures IsPrefix(OverlapWords(l[j], overlap), l[j + 1]) {
      assert l[j] == ws[j];
      if j < |ws| - 1 {
        assert l[j + 1] == ws[j + 1];
      }
    }
  }

  /** Appending words to the last list keeps the chain. */
  lemma ChainedGrowLast(ws: seq<seq<string>>, w: seq<string>, x: seq<string>, overlap: int)
    requires Chained(ws + [w], overlap)
    ensures Chained(ws + [w + x], overlap)
  {
    var l, l' := ws + [w], ws + [w + x];
    forall j | 0 <= j < |l'| - 1 ensures IsPrefix(OverlapWords(l'[j], overlap), l'[j + 1]) {
      assert l'[j] == l[j];
      var o := OverlapWords(l[j], overlap);
      assert IsPrefix(o, l[j + 1]);
      if j == |ws| - 1 {
        assert l[j + 1] == w && l'[j + 1] == w + x;
        assert (w + x)[..|o|] == w[..|o|];
      } else {
        assert l'[j + 1] == l[j + 1];
      }
    }
  }

  /** Appending words to the last list appends them to the reassembly. */
  lemma ReassembleExtend(ws: seq<seq<string>>, w: seq<string>, x: seq<string>, overlap: int)
    requires ws == [] || |OverlapWords(ws[|ws| - 1], overlap)| <= |w|
    ensures Reassemble(ws + [w + x], overlap) == Reassemble(ws + [w], overlap) + x
  {
    if ws != [] {
      var l1, l2 := ws + [w + x], ws + [w];
      assert l1[..|l1| - 1] == ws && l2[..|l2| - 1] == ws;
      assert l1[|l1| - 2] == ws[|ws| - 1] && l2[|l2| - 2] == ws[|ws| - 1];
      var d := |OverlapWords(ws[|ws| - 1], overlap)|;
      assert (w + x)[d..] == w[d..] + x;
    }
  }

  /** A list that begins with the previous list's overlap contributes exactly its remainder. */
  lemma ReassembleOverlap(ws: seq<seq<string>>, o: seq<string>, x: seq<string>, overlap: int)
    requires ws != [] && o == OverlapWords(ws[|ws| - 1], overlap)
    ensures Reassemble(ws + [o + x], overlap) == Reassemble(ws, overlap) + x
  {
    var l := ws + [o + x];
    assert l[..|l| - 1] == ws;
    assert l[|l| - 2] == ws[|ws| - 1];
    assert (o + x)[|o|..] == x;
  }

  lemma WordsOfSpaced(a: string, s: string)
    ensures Words(a + " " + s) == Words(a) + Words(s)
  {
    WordsAtSpace(a, ' ', s);
    assert a + " " + s == a + [' '] + s;
  }

  lemma OverlapAreWords(ws: seq<string>, overlap: int)
    requires forall i :: 0 <= i < |ws| ==> IsWord(ws[i])
    ensures forall i :: 0 <= i < |OverlapWords(ws, overlap)| ==> IsWord(OverlapWords(ws, overlap)[i])
  {
    var r := OverlapWords(ws, overlap);
    forall i | 0 <= i < |r| ensures IsWord(r[i]) {
      assert r[i] == ws[|ws| - |r| + i];
    }
  }

  /** The accumulator after a close: the kept words of the old one, then the sentence's words. */
  lemma CloseWords(current: string, overlap: int, s: string)
    ensures Words(Join(OverlapWords(Words(current), overlap), " ") + " " + s)
            == OverlapWords(Words(current), overlap) + Words(s)
  {
    var o := OverlapWords(Words(current), overlap);
    WordsAreWords(current);
    OverlapAreWords(Words(current), overlap);
    WordsOfJoin(o);
    WordsOfSpaced(Join(o, " "), s);
  }

  /** One step keeps the invariant. */
  lemma StepInv(p: Processor, text: string, sections: Dict<string, int>, a: Acc, prior: seq<string>, sentence: string)
    requires FoldInv(p, a, prior)
    ensures FoldInv(p, Step(p, text, sections, a, sentence), prior + [sentence])
  {
    var ss := prior + [sentence];
    assert ss[..|ss| - 1] == prior;
    assert SentenceWords(ss) == SentenceWords(prior) + Words(sentence);
    var s := Strip(sentence);
    WordsStrip(sentence);
    var a' := Step(p, text, sections, a, sentence);
    if s == "" {
      BlankHasNoWords(sentence);
      assert a' == a;
    } else {
      StripNonEmptyHasWords(sentence);
      var potential := if a.current != "" then a.current + " " + s else s;
      if |Words(potential)| > p.chunkSize && a.current != "" {
        var c := RawChunk(Strip(a.current), SectionAt(a.position, sections), a.position);
        assert a'.chunks == a.chunks + [c];
        assert a'.current == Join(OverlapWords(Words(a.current), p.chunkOverlap), " ") + " " + s;
        CloseInv(p, a, prior, sentence, c, a');
      } else if a.current != "" {
        assert a'.chunks == a.chunks && a'.current == a.current + " " + s;
        AppendInv(p, a, prior, sentence, a');
      } else {
        assert a'.chunks == [] && a'.current == s;
        assert Pending(a') == [Words(s)];
      }
    }
  }

  /** Closing a chunk: the new accumulator is the overlap followed by the sentence. */
  lemma CloseInv(p: Processor, a: Acc, prior: seq<string>, sentence: string, c: RawChunk, a': Acc)
    requires FoldInv(p, a, prior) && !Blank(sentence) && a.current != ""
    requires c.text == Strip(a.current)
    requires a'.chunks == a.chunks + [c]
    requires a'.current == Join(OverlapWords(Words(a.current), p.chunkOverlap), " ") + " " + Strip(sentence)
    requires SentenceWords(prior + [sentence]) == SentenceWords(prior) + Words(sentence)
    ensures FoldInv(p, a', prior + [sentence])
  {
    var ov := p.chunkOverlap;
    var x := Words(Strip(sentence));
    WordsStrip(sentence);
    StripNonEmptyHasWords(sentence);
    var w := Words(a.current);
    var o := OverlapWords(w, ov);
    WordsStrip(a.current);
    ChunkWordsAppend(a.chunks, c);
    CloseWords(a.current, ov, Strip(sentence));
    assert Pending(a') == Pending(a) + [o + x];
    assert IsPrefix(o, o + x);
    ChainedAppend(Pending(a), o + x, ov);
    ReassembleOverlap(Pending(a), o, x, ov);
  }

  /** Appending a sentence to a non-empty accumulator appends its words. */
  lemma AppendInv(p: Processor, a: Acc, prior: seq<string>, sentence: string, a': Acc)
    requires FoldInv(p, a, prior) && !Blank(sentence) && a.current != ""
    requires a'.chunks == a.chunks
    requires a'.current == a.current + " " + Strip(sentence)
    requires SentenceWords(prior + [sentence]) == SentenceWords(prior) + Words(sentence)
    ensures FoldInv(p, a', prior + [sentence])
  {
    var ov := p.chunkOverlap;
    var x := Words(Strip(sentence));
    WordsStrip(sentence);
    var l := ChunkWords(a.chunks);
    var w := Words(a.current);
    WordsOfSpaced(a.current, Strip(sentence));
    assert Pending(a) == l + [w] && Pending(a') == l + [w + x];
    ChainedGrowLast(l, w, x, ov);
    if l != [] {
      assert IsPrefix(OverlapWords(l[|l| - 1], ov), w) by {
        assert Pending(a)[|l| - 1] == l[|l| - 1] && Pending(a)[|l|] == w;
      }
    }
    ReassembleExtend(l, w, x, ov);
  }

  lemma InitialInv(p: Processor)
    ensures FoldInv(p, Acc([], "", 0), [])
  {
    assert Pending(Acc([], "", 0)) == [[]];
  }

  lemma {:induction false} FoldKeepsInv(p: Processor, text: string, sections: Dict<string, int>, sentences: seq<string>)
    ensures FoldInv(p, Fold(p, text, sections, sentences), sentences)
  {
    if |sentences| == 0 {
      InitialInv(p);
    } else {
      var prior := sentences[..|sentences| - 1];
      var last := sentences[|sentences| - 1];
      FoldKeepsInv(p, text, sections, prior);
      assert prior + [last] == sentences;
      StepInv(p, text, sections, Fold(p, text, sections, prior), prior, last);
    }
  }

  /**
   * Drop each chunk's leading overlap (all but the first) and concatenate: the
   * result is exactly the words of the sentences, in order.
   */
  lemma ChunkingConservesWords(p: Processor, text: string, sections: Dict<string, int>, sentences: seq<string>)
    ensures Reassemble(ChunkWords(Chunking(p, text, sections, sentences)), p.chunkOverlap) == SentenceWords(sentences)
  {
    var a := Fold(p, text, sections, sentences);
    FoldKeepsInv(p, text, sections, sentences);
    FinalChunkWords(p, text, sections, sentences);
    if Strip(a.current) == "" {
      BlankHasNoWords(a.current);
      assert a.current == "";
    }
  }

  /** The final chunks' words are the pending word lists, less an empty accumulator. */
  lemma FinalChunkWords(p: Processor, text: string, sections: Dict<string, int>, sentences: seq<string>)
    requires FoldInv(p, Fold(p, text, sections, sentences), sentences)
    ensures var a := Fold(p, text, sections, sentences);
            ChunkWords(Chunking(p, text, sections, sentences)) == if Strip(a.current) != "" then Pending(a) else []
  {
    var a := Fold(p, text, sections, sentences);
    if Strip(a.current) != "" {
      var c := RawChunk(Strip(a.current), SectionAt(a.position, sections), a.position);
      ChunkWordsAppend(a.chunks, c);
      WordsStrip(a.current);
    } else {
      BlankHasNoWords(a.current);
    }
  }

  /** Each chunk after the first begins with the last words of the one before it. */
  lemma ChunkingOverlaps(p: Processor, text: string, sections: Dict<string, int>, sentences: seq<string>)
    ensures Overlapping(Chunking(p, text, sections, sentences), p.chunkOverlap)
  {
    FoldKeepsInv(p, text, sections, sentences);
    FinalChunkWords(p, text, sections, sentences);
  }

  /** No chunk when every sentence is blank; at least one chunk otherwise. */
  lemma ChunkingEmptyIffBlank(p: Processor, text: string, sections: Dict<string, int>, sentences: seq<string>)
    ensures Chunking(p, text, sections, sentences) == [] <==> forall i :: 0 <= i < |sentences| ==> Blank(sentences[i])
  {
    var a := Fold(p, text, sections, sentences);
    FoldKeepsInv(p, text, sections, sentences);
    if forall i :: 0 <= i < |sentences| ==> Blank(sentences[i]) {
      FoldBlank(p, text, sections, sentences);
    } else {
      var i :| 0 <= i < |sentences| && !Blank(sentences[i]);
      SentenceWordsHas(sentences, i);
      assert a.current != "";
      WordsStrip(a.current);
    }
  }

  lemma {:induction false} FoldBlank(p: Processor, text: string, sections: Dict<string, int>, sentences: seq<string>)
    requires forall i :: 0 <= i < |sentences| ==> Blank(sentences[i])
    ensures Fold(p, text, sections, sentences) == Acc([], "", 0)
  {
    if |sentences| > 0 {
      FoldBlank(p, text, sections, sentences[..|sentences| - 1]);
    }
  }

  lemma {:induction false} SentenceWordsHas(sentences: seq<string>, i: nat)
    requires i < |sentences| && !Blank(sentences[i])
    ensures SentenceWords(sentences) != []
  {
    var n := |sentences|;
    if i == n - 1 {
      StripNonEmptyHasWords(sentences[i]);
    } else {
      SentenceWordsHas(sentences[..n - 1], i);
    }
  }

  /** When all the words fit within chunk_size, everything lands in at most one chunk. */
  lemma ChunkingWithinBudget(p: Processor, text: string, sections: Dict<string, int>, sentences: seq<string>)
    requires |SentenceWords(sentences)| <= p.chunkSize
    ensures |Chunking(p, text, sections, sentences)| <= 1
  {
    FoldNoClose(p, text, sections, sentences);
  }

  lemma {:induction false} FoldNoClose(p: Processor, text: string, sections: Dict<string, int>, sentences: seq<string>)
    requires |SentenceWords(sentences)| <= p.chunkSize
    ensures Fold(p, text, sections, sentences).chunks == []
    ensures Words(Fold(p, text, sections, sentences).current) == SentenceWords(sentences)
  {
    if |sentences| > 0 {
      var prior := sentences[..|sentences| - 1];
      var sentence := sentences[|sentences| - 1];
      FoldNoClose(p, text, sections, prior);
      var a := Fold(p, text, sections, prior);
      var s := Strip(sentence);
      WordsStrip(sentence);
      if s != "" && a.current != "" {
        WordsOfSpaced(a.current, s);
      }
    }
  }

  /** A lone sentence is never split, however long it is. */
  lemma SingleSentenceWhole(p: Processor, text: string, sections: Dict<string, int>, sentence: string)
    requires !Blank(sentence)
    ensures |Chunking(p, text, sections, [sentence])| == 1
    ensures Chunking(p, text, sections, [sentence])[0].text == Strip(sentence)
  {
    StripIdempotent(sentence);
    var s := Strip(sentence);
    assert [sentence][..0] == [];
    var a0 := Fold(p, text, sections, []);
    assert a0 == Acc([], "", 0);
    var a := Step(p, text, sections, a0, sentence);
    assert Fold(p, text, sections, [sentence]) == a;
    assert a.chunks == [] && a.current == s;
  }

  /**
   * Where each non-blank stripped sentence occurs in the text, at offsets that
   * never decrease (as the pieces of a split of that text do).
   */
  predicate InOrderIn(text: string, sentences: seq<string>, offsets: seq<nat>) {
    && |offsets| == |sentences|
    && (forall i, j :: 0 <= i < j < |offsets| ==> offsets[i] <= offsets[j])
    && (forall i :: 0 <= i < |sentences| && !Blank(sentences[i]) ==> OccursAt(text, Strip(sentences[i]), offsets[i]))
  }

  predicate PositionsOrdered(cs: seq<RawChunk>, text: string) {
    && (forall j :: 0 <= j < |cs| ==> 0 <= cs[j].position <= |text|)
    && (forall j, k :: 0 <= j < k < |cs| ==> cs[j].position <= cs[k].position)
  }

  /** One step moves the position forward, at most to where the sentence occurs, and records the old position. */
  lemma StepPosition(p: Processor, text: string, sections: Dict<string, int>, a: Acc, sentence: string, o: nat)
    requires 0 <= a.position <= o
    requires !Blank(sentence) ==> OccursAt(text, Strip(sentence), o)
    ensures var a' := Step(p, text, sections, a, sentence);
            && a.position <= a'.position
            && (Blank(sentence) ==> a' == a)
            && (!Blank(sentence) ==> a'.position <= o && a'.position <= |text|)
            && (a'.chunks == a.chunks
                || (|a'.chunks| == |a.chunks| + 1 && a'.chunks[..|a.chunks|] == a.chunks
                    && a'.chunks[|a.chunks|].position == a.position))
  {
    var s := Strip(sentence);
    var a' := Step(p, text, sections, a, sentence);
    if s == "" {
      assert a' == a;
    } else {
      FindFromReaches(text, s, a.position, o);
      var f := Find(text, s, a.position);
      assert a.position <= f <= o;
      var potential := if a.current != "" then a.current + " " + s else s;
      if |Words(potential)| > p.chunkSize && a.current != "" {
        var c := RawChunk(Strip(a.current), SectionAt(a.position, sections), a.position);
        assert a'.chunks == a.chunks + [c] && a'.position == f;
        assert (a.chunks + [c])[..|a.chunks|] == a.chunks;
      } else {
        assert a'.chunks == a.chunks;
        assert a'.position == a.position || a'.position == f;
      }
    }
  }

  lemma OrderedAppend(cs: seq<RawChunk>, cs': seq<RawChunk>, text: string, pos: int)
    requires PositionsOrdered(cs, text) && 0 <= pos <= |text|
    requires forall j :: 0 <= j < |cs| ==> cs[j].position <= pos
    requires cs' == cs || (|cs'| == |cs| + 1 && cs'[..|cs|] == cs && cs'[|cs|].position == pos)
    ensures PositionsOrdered(cs', text)
    ensures forall j :: 0 <= j < |cs'| ==> cs'[j].position <= pos
  {
    if cs' != cs {
      assert forall j :: 0 <= j < |cs| ==> cs'[j] == cs[j];
    }
  }

  /** What holds of the positions in the loop variables: recorded ones are ordered and behind the current one. */
  predicate PosInv(a: Acc, text: string) {
    && 0 <= a.position <= |text|
    && PositionsOrdered(a.chunks, text)
    && (forall j :: 0 <= j < |a.chunks| ==> a.chunks[j].position <= a.position)
  }

  lemma StepPosInv(p: Processor, text: string, sections: Dict<string, int>, a: Acc, sentence: string, o: nat)
    requires PosInv(a, text) && a.position <= o
    requires !Blank(sentence) ==> OccursAt(text, Strip(sentence), o)
    ensures PosInv(Step(p, text, sections, a, sentence), text)
    ensures Step(p, text, sections, a, sentence).position <= o
  {
    var a' := Step(p, text, sections, a, sentence);
    StepPosition(p, text, sections, a, sentence, o);
    OrderedAppend(a.chunks, a'.chunks, text, a.position);
  }

  /** The order facts of a shorter sentence list carry over from the longer one. */
  lemma InOrderPrefix(text: string, sentences: seq<string>, offsets: seq<nat>)
    requires |sentences| > 0 && InOrderIn(text, sentences, offsets)
    ensures InOrderIn(text, sentences[..|sentences| - 1], offsets[..|offsets| - 1])
    ensures !Blank(sentences[|sentences| - 1]) ==>
              OccursAt(text, Strip(sentences[|sentences| - 1]), offsets[|offsets| - 1])
    ensures |sentences| > 1 ==> offsets[|offsets| - 2] <= offsets[|offsets| - 1]
  {
  }

  lemma {:induction false} FoldPositions(p: Processor, text: string, sections: Dict<string, int>,
                                         sentences: seq<string>, offsets: seq<nat>)
    requires InOrderIn(text, sentences, offsets)
    ensures PosInv(Fold(p, text, sections, sentences), text)
    ensures |sentences| > 0 ==> Fold(p, text, sections, sentences).position <= offsets[|offsets| - 1]
  {
    if |sentences| > 0 {
      var n := |sentences|;
      var prior, last := sentences[..n - 1], sentences[n - 1];
      InOrderPrefix(text, sentences, offsets);
      FoldPositions(p, text, sections, prior, offsets[..n - 1]);
      var a := Fold(p, text, sections, prior);
      StepPosInv(p, text, sections, a, last, offsets[n - 1]);
    }
  }

  /** Recorded positions lie in the text and never decrease. */
  lemma ChunkPositionsOrdered(p: Processor, text: string, sections: Dict<string, int>,
                              sentences: seq<string>, offsets: seq<nat>)
    requires InOrderIn(text, sentences, offsets)
    ensures PositionsOrdered(Chunking(p, text, sections, sentences), text)
  {
    FoldPositions(p, text, sections, sentences, offsets);
    var a := Fold(p, text, sections, sentences);
    var cs := Chunking(p, text, sections, sentences);
    if cs != a.chunks {
      assert cs == a.chunks + [RawChunk(Strip(a.current), SectionAt(a.position, sections), a.position)];
      assert cs[..|a.chunks|] == a.chunks;
    }
    OrderedAppend(a.chunks, cs, text, a.position);
  }

  // ---------------------------------------------------------------
  // Metadata from the file name
  // ---------------------------------------------------------------

  function Filter(parts: seq<string>): (r: seq<string>)
    ensures forall x :: x in r ==> x != "" && x != "." && x in parts
  {
    if |parts| == 0 then []
    else
      var last := parts[|parts| - 1];
      Filter(parts[..|parts| - 1]) + (if last == "" || last == "." then [] else [last])
  }

  /** The components of a POSIX path as `pathlib` keeps them (empty and "." components dropped). */
  function PathParts(path: string): (parts: seq<string>)
    ensures forall x :: x in parts ==> x != "" && x != "." && '/' !in x
  {
    Filter(SplitOn(path, '/'))
  }

  /** `Path(p).name` */
  function PathName(path: string): (name: string)
    ensures '/' !in name && name != "."
    ensures name == "" <==> PathParts(path) == []
  {
    var parts := PathParts(path);
    if |parts| == 0 then "" else assert parts[|parts| - 1] in parts; parts[|parts| - 1]
  }

  /** `Path(p).parent.name` */
  function ParentName(path: string): (name: string)
    ensures '/' !in name && name != "."
  {
    var parts := PathParts(path);
    if |parts| < 2 then "" else assert parts[|parts| - 2] in parts; parts[|parts| - 2]
  }

  /** `extract_metadata_from_filename`: `COMPANY_YEAR_rest`, else the parent directory and "unknown". */
  function ExtractMetadataFromFilename(filepath: string): (m: DocumentMetadata)
    ensures m.filingType == "10-K" && m.totalPages.None? && m.sections.None?
    ensures |SplitOn(PathName(filepath), '_')| >= 2 ==>
              m.company == SplitOn(PathName(filepath), '_')[0] && m.year == SplitOn(PathName(filepath), '_')[1]
    ensures '_' !in PathName(filepath) ==> m.company == ParentName(filepath) && m.year == "unknown"
  {
    var parts := SplitOn(PathName(filepath), '_');
    SplitOnParts(PathName(filepath), '_');
    if |parts| >= 2 then DocumentMetadata(parts[0], parts[1], "10-K", None, None)
    else DocumentMetadata(ParentName(filepath), "unknown", "10-K", None, None)
  }

  /** The name of `dir + "/" + base` is `base` when `base` is a plain component. */
  lemma PathNameOfJoin(dir: string, base: string)
    requires '/' !in base && base != "" && base != "."
    ensures PathName(dir + "/" + base) == base
  {
    assert dir + "/" + base == dir + ['/'] + base;
    SplitOnLast(dir, '/', base);
  }

  // ---------------------------------------------------------------
  // Chunks of one document
  // ---------------------------------------------------------------

  /** `int(x)` for a real: truncation toward zero. */
  function Trunc(x: real): (n: int)
    ensures x >= 0.0 ==> n as real <= x < n as real + 1.0
  {
    if x >= 0.0 then x.Floor else -((-x).Floor)
  }

  /** `min(int((position / len(text)) * page_count) + 1, page_count)`, in exact arithmetic. */
  function EstimatedPage(position: int, textLength: nat, pageCount: int): (page: int)
    requires textLength > 0
    ensures page <= pageCount
  {
    var t := Trunc((position as real / textLength as real) * pageCount as real) + 1;
    if t < pageCount then t else pageCount
  }

  /** A position inside the text lands on a page between 1 and page_count. */
  lemma EstimatedPageInRange(position: int, textLength: nat, pageCount: int)
    requires textLength > 0 && 0 <= position <= textLength && pageCount >= 1
    ensures 1 <= EstimatedPage(position, textLength, pageCount) <= pageCount
  {
    var f := position as real / textLength as real;
    assert 0.0 <= f <= 1.0 by {
      assert f * textLength as real == position as real;
    }
    var x := f * pageCount as real;
    assert 0.0 <= x <= pageCount as real;
  }

  /** The string whose MD5 becomes the chunk id: `f"{company}_{year}_{i}_{chunk_text[:50]}"`. */
  function ChunkKey(company: string, year: string, i: nat, content: string): (key: string)
    ensures StartsWith(key, company + "_" + year + "_" + NatToString(i) + "_")
    ensures |key| <= |company| + |year| + |NatToString(i)| + 3 + 50
  {
    company + "_" + year + "_" + NatToString(i) + "_" + Prefix(content, 50)
  }

  /** The key splits back on '_' into company, year and index when neither holds a '_'. */
  lemma ChunkKeyFields(company: string, year: string, i: nat, content: string)
    requires '_' !in company && '_' !in year
    ensures var parts := SplitOn(ChunkKey(company, year, i, content), '_');
            |parts| >= 3 && parts[0] == company && parts[1] == year && parts[2] == NatToString(i)
  {
    var d := NatToString(i);
    var rest := Prefix(content, 50);
    assert '_' !in d;
    assert ChunkKey(company, year, i, content) == company + ['_'] + (year + ['_'] + (d + ['_'] + rest));
    SplitOnFirst(company, '_', year + ['_'] + (d + ['_'] + rest));
    SplitOnFirst(year, '_', d + ['_'] + rest);
    SplitOnFirst(d, '_', rest);
  }

  /** Different chunk indices give different keys, whatever the contents. */
  lemma ChunkKeysDistinct(company: string, year: string, i: nat, j: nat, a: string, b: string)
    requires '_' !in company && '_' !in year && i != j
    ensures ChunkKey(company, year, i, a) != ChunkKey(company, year, j, b)
  {
    ChunkKeyFields(company, year, i, a);
    ChunkKeyFields(company, year, j, b);
    if ChunkKey(company, year, i, a) == ChunkKey(company, year, j, b) {
      NatToStringInjective(i, j);
    }
  }

  /** The metadata every chunk of the document shares. */
  function DocumentMeta(filepath: string, pageCount: int, sections: Dict<string, int>): DocumentMetadata {
    ExtractMetadataFromFilename(filepath).(totalPages := Some(pageCount), sections := Some(Keys(sections)))
  }

  /** The `i`-th `DocumentChunk` built from a raw chunk. */
  function MakeChunk(r: Readers, meta: DocumentMetadata, text: string, pageCount: int, i: nat, c: RawChunk): (chunk: DocumentChunk)
    requires |text| > 0
    ensures chunk.content == c.text && chunk.section == c.section && chunk.metadata == meta
    ensures chunk.tokenCount == Some(|Words(chunk.content)|)
    ensures chunk.chunkId == r.md5(ChunkKey(meta.company, meta.year, i, chunk.content))
    ensures pageCount >= 1 && 0 <= c.position <= |text| ==>
              chunk.pageNumber.Some? && 1 <= chunk.pageNumber.value <= pageCount
  {
    var page := EstimatedPage(c.position, |text|, pageCount);
    assert pageCount >= 1 && 0 <= c.position <= |text| ==> 1 <= page <= pageCount by {
      if pageCount >= 1 && 0 <= c.position <= |text| {
        EstimatedPageInRange(c.position, |text|, pageCount);
      }
    }
    DocumentChunk(r.md5(ChunkKey(meta.company, meta.year, i, c.text)), c.text, meta,
                  Some(page), c.section, Some(|Words(c.text)|))
  }

  /** The `DocumentChunk`s built from a document's raw chunks, numbered from 0. */
  function BuildChunks(r: Readers, meta: DocumentMetadata, text: string, pageCount: int, raw: seq<RawChunk>): (cs: seq<DocumentChunk>)
    requires |text| > 0
    ensures |cs| == |raw|
  {
    seq(|raw|, i requires 0 <= i < |raw| => MakeChunk(r, meta, text, pageCount, i, raw[i]))
  }

  /** The chunks `process_document` returns. */
  function DocumentChunks(p: Processor, r: Readers, filepath: string): (cs: seq<DocumentChunk>)
    ensures Extraction(r, filepath).text == "" ==> cs == []
    ensures forall c :: c in cs ==> c.metadata.filingType == "10-K" && c.tokenCount == Some(|Words(c.content)|)
  {
    var e := Extraction(r, filepath);
    if e.text == "" then []
    else
      var sections := r.sections(e.text);
      BuildChunks(r, DocumentMeta(filepath, e.pageCount, sections), e.text, e.pageCount,
                  Chunking(p, e.text, sections, r.sentences(e.text)))
  }

  /** `process_document` */
  method ProcessDocument(p: Processor, r: Readers, filepath: string) returns (documentChunks: seq<DocumentChunk>)
    ensures documentChunks == DocumentChunks(p, r, filepath)
  {
    var e := if IsHtmlPath(filepath) then HtmlExtraction(r.html(filepath)) else r.pdf(filepath);
    var text, pageCount := e.text, e.pageCount;
    if text == "" {
      return [];
    }
    var meta := ExtractMetadataFromFilename(filepath);
    meta := meta.(totalPages := Some(pageCount));
    var sections := r.sections(text);
    meta := meta.(sections := Some(Keys(sections)));
    assert meta == DocumentMeta(filepath, pageCount, sections);
    var chunksData := SemanticChunking(p, text, sections, r.sentences(text));
    documentChunks := [];
    var i := 0;
    while i < |chunksData|
      invariant 0 <= i <= |chunksData|
      invariant documentChunks == BuildChunks(r, meta, text, pageCount, chunksData[..i])
    {
      var c := chunksData[i];
      var chunkId := r.md5(meta.company + "_" + meta.year + "_" + NatToString(i) + "_" + Prefix(c.text, 50));
      var estimatedPage := EstimatedPage(c.position, |text|, pageCount);
      BuildChunksStep(r, meta, text, pageCount, chunksData, i);
      documentChunks := documentChunks + [DocumentChunk(chunkId, c.text, meta, Some(estimatedPage), c.section, Some(|Words(c.text)|))];
      i := i + 1;
    }
    assert chunksData[..|chunksData|] == chunksData;
  }

  lemma BuildChunksStep(r: Readers, meta: DocumentMetadata, text: string, pageCount: int, raw: seq<RawChunk>, i: nat)
    requires |text| > 0 && i < |raw|
    ensures BuildChunks(r, meta, text, pageCount, raw[..i + 1]) ==
              BuildChunks(r, meta, text, pageCount, raw[..i]) + [MakeChunk(r, meta, text, pageCount, i, raw[i])]
  {
    var a, b := BuildChunks(r, meta, text, pageCount, raw[..i]), BuildChunks(r, meta, text, pageCount, raw[..i + 1]);
    assert forall j :: 0 <= j < i ==> b[j] == a[j];
  }

  /**
   * What each chunk of a document carries: no chunks for an empty text; an id that
   * is the hash of its key, built from the file name's company and year, the chunk's
   * index and its content; its own word count; the document's metadata; and,
   * when the sentences occur in order in the text and there is at least one page,
   * a page between 1 and the page count.
   */
  lemma DocumentChunksFacts(p: Processor, r: Readers, filepath: string, offsets: seq<nat>)
    ensures Extraction(r, filepath).text == "" ==> DocumentChunks(p, r, filepath) == []
    ensures forall c :: c in DocumentChunks(p, r, filepath) ==>
              && c.tokenCount == Some(|Words(c.content)|)
              && c.metadata.filingType == "10-K"
              && c.metadata.totalPages == Some(Extraction(r, filepath).pageCount)
    ensures var cs, m := DocumentChunks(p, r, filepath), ExtractMetadataFromFilename(filepath);
            forall i :: 0 <= i < |cs| ==>
              && cs[i].chunkId == r.md5(ChunkKey(m.company, m.year, i, cs[i].content))
              && cs[i].metadata.company == m.company && cs[i].metadata.year == m.year
    ensures var e := Extraction(r, filepath);
            e.text != "" && e.pageCount >= 1 && InOrderIn(e.text, r.sentences(e.text), offsets) ==>
              forall c :: c in DocumentChunks(p, r, filepath) ==>
                c.pageNumber.Some? && 1 <= c.pageNumber.value <= e.pageCount
  {
    var e := Extraction(r, filepath);
    if e.text != "" {
      var sections := r.sections(e.text);
      var meta := DocumentMeta(filepath, e.pageCount, sections);
      var raw := Chunking(p, e.text, sections, r.sentences(e.text));
      assert DocumentChunks(p, r, filepath) == BuildChunks(r, meta, e.text, e.pageCount, raw);
      BuildChunksFields(r, meta, e.text, e.pageCount, raw);
      if e.pageCount >= 1 && InOrderIn(e.text, r.sentences(e.text), offsets) {
        ChunkPositionsOrdered(p, e.text, sections, r.sentences(e.text), offsets);
        BuildChunksPages(r, meta, e.text, e.pageCount, raw);
      }
    }
  }

  /** Each built chunk counts its own words and carries the document's metadata. */
  lemma BuildChunksFields(r: Readers, meta: DocumentMetadata, text: string, pageCount: int, raw: seq<RawChunk>)
    requires |text| > 0
    ensures forall c :: c in BuildChunks(r, meta, text, pageCount, raw) ==>
              c.tokenCount == Some(|Words(c.content)|) && c.metadata == meta
  {
    var cs := BuildChunks(r, meta, text, pageCount, raw);
    forall c | c in cs ensures c.tokenCount == Some(|Words(c.content)|) && c.metadata == meta {
      var i :| 0 <= i < |cs| && cs[i] == c;
    }
  }

  /** Chunks at positions inside the text get pages between 1 and the page count. */
  lemma BuildChunksPages(r: Readers, meta: DocumentMetadata, text: string, pageCount: int, raw: seq<RawChunk>)
    requires |text| > 0 && pageCount >= 1 && PositionsOrdered(raw, text)
    ensures forall c :: c in BuildChunks(r, meta, text, pageCount, raw) ==>
              c.pageNumber.Some? && 1 <= c.pageNumber.value <= pageCount
  {
    var cs := BuildChunks(r, meta, text, pageCount, raw);
    forall c | c in cs ensures c.pageNumber.Some? && 1 <= c.pageNumber.value <= pageCount {
      var i :| 0 <= i < |cs| && cs[i] == c;
      EstimatedPageInRange(raw[i].position, |text|, pageCount);
    }
  }

  // ---------------------------------------------------------------
  // All documents
  // ---------------------------------------------------------------

  /** The chunks of several documents, in order. */
  function PathsChunks(p: Processor, r: Readers, paths: seq<string>): (cs: seq<DocumentChunk>)
    ensures forall c :: c in cs ==> c.metadata.filingType == "10-K" && c.tokenCount == Some(|Words(c.content)|)
  {
    if |paths| == 0 then []
    else PathsChunks(p, r, paths[..|paths| - 1]) + DocumentChunks(p, r, paths[|paths| - 1])
  }

  /** `process_all_documents`: every company's paths, in dictionary order. */
  function AllChunks(p: Processor, r: Readers, filings: Dict<string, seq<string>>): (cs: seq<DocumentChunk>)
    ensures forall c :: c in cs ==> c.metadata.filingType == "10-K" && c.tokenCount == Some(|Words(c.content)|)
  {
    if |filings| == 0 then []
    else AllChunks(p, r, filings[..|filings| - 1]) + PathsChunks(p, r, filings[|filings| - 1].1)
  }

  method ProcessAllDocuments(p: Processor, r: Readers, filings: Dict<string, seq<string>>)
    returns (allChunks: seq<DocumentChunk>)
    ensures allChunks == AllChunks(p, r, filings)
  {
    allChunks := [];
    var k := 0;
    while k < |filings|
      invariant 0 <= k <= |filings|
      invariant allChunks == AllChunks(p, r, filings[..k])
    {
      assert filings[..k + 1][..k] == filings[..k];
      var (company, filepaths) := filings[k];
      var chunks := ProcessPaths(p, r, filepaths);
      allChunks := allChunks + chunks;
      k := k + 1;
    }
    assert filings[..|filings|] == filings;
  }

  /** The inner loop of `process_all_documents`: one company's files. */
  method ProcessPaths(p: Processor, r: Readers, filepaths: seq<string>) returns (chunks: seq<DocumentChunk>)
    ensures chunks == PathsChunks(p, r, filepaths)
  {
    chunks := [];
    var j := 0;
    while j < |filepaths|
      invariant 0 <= j <= |filepaths|
      invariant chunks == PathsChunks(p, r, filepaths[..j])
    {
      assert filepaths[..j + 1][..j] == filepaths[..j];
      var one := ProcessDocument(p, r, filepaths[j]);
      chunks := chunks + one;
      j := j + 1;
    }
    assert filepaths[..|filepaths|] == filepaths;
  }

  lemma {:induction false} PathsChunksFrom(p: Processor, r: Readers, paths: seq<string>, c: DocumentChunk)
    requires c in PathsChunks(p, r, paths)
    ensures exists i :: 0 <= i < |paths| && c in DocumentChunks(p, r, paths[i])
  {
    var n := |paths|;
    var init := paths[..n - 1];
    if c in PathsChunks(p, r, init) {
      PathsChunksFrom(p, r, init, c);
      var i :| 0 <= i < |init| && c in DocumentChunks(p, r, init[i]);
      assert paths[i] == init[i];
    } else {
      assert c in DocumentChunks(p, r, paths[n - 1]);
    }
  }

  /** Every chunk comes from one of the listed files. */
  lemma {:induction false} AllChunksFrom(p: Processor, r: Readers, filings: Dict<string, seq<string>>, c: DocumentChunk)
    requires c in AllChunks(p, r, filings)
    ensures exists k, i :: 0 <= k < |filings| && 0 <= i < |filings[k].1| && c in DocumentChunks(p, r, filings[k].1[i])
  {
    var n := |filings|;
    var init := filings[..n - 1];
    if c in AllChunks(p, r, init) {
      AllChunksFrom(p, r, init, c);
      var k, i :| 0 <= k < |init| && 0 <= i < |init[k].1| && c in DocumentChunks(p, r, init[k].1[i]);
      assert filings[k] == init[k];
    } else {
      PathsChunksFrom(p, r, filings[n - 1].1, c);
    }
  }
}
