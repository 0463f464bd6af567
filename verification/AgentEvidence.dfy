/** Numbered lines of a resume, and evidence quoted from them. */
module AgentEvidence {
  import opened Wrappers
  import opened PipelineText

  datatype Line = Line(number: int, page: int, text: string)

  datatype Evidence = Evidence(quote: string, page: int, startLine: int, endLine: int)

  // ---------------------------------------------------------------- lines

  function PageLines(before: nat, page: nat, parts: seq<string>): seq<Line> {
    seq(|parts|, k requires 0 <= k < |parts| => Line(before + k + 1, page, parts[k]))
  }

  function LinesOfPages(pages: seq<string>): seq<Line> {
    if pages == [] then []
    else
      var before := LinesOfPages(pages[..|pages|-1]);
      before + PageLines(|before|, |pages|, Split(pages[|pages|-1], '\n'))
  }

  function LinesOf(text: string): seq<Line> { LinesOfPages(Split(text, FORM_FEED)) }

  method NumberLines(text: string) returns (lines: seq<Line>)
    ensures lines == LinesOf(text)
  {
    lines := [];
    var pages := Split(text, FORM_FEED);
    for page := 0 to |pages|
      invariant lines == LinesOfPages(pages[..page])
    {
      assert pages[..page+1][..page] == pages[..page];
      ghost var before := lines;
      var parts := Split(pages[page], '\n');
      for k := 0 to |parts|
        invariant |lines| == |before| + k
        invariant lines == before + PageLines(|before|, page + 1, parts)[..k]
      {
        lines := lines + [Line(|lines| + 1, page + 1, parts[k])];
      }
      assert PageLines(|before|, page + 1, parts)[..|parts|] == PageLines(|before|, page + 1, parts);
    }
    assert pages[..|pages|] == pages;
  }

  /** The texts of the lines of one page, in order. */
  function TextsOnPage(lines: seq<Line>, page: int): seq<string> {
    if lines == [] then []
    else
      var l := lines[|lines|-1];
      TextsOnPage(lines[..|lines|-1], page) + if l.page == page then [l.text] else []
  }

  lemma {:induction false} TextsAppend(a: seq<Line>, b: seq<Line>, page: int)
    ensures TextsOnPage(a + b, page) == TextsOnPage(a, page) + TextsOnPage(b, page)
  {
    if b == [] {
      assert a + b == a;
    } else {
      assert (a + b)[..|a + b|-1] == a + b[..|b|-1];
      TextsAppend(a, b[..|b|-1], page);
    }
  }

  lemma {:induction false} TextsOfPageLines(before: nat, page: nat, parts: seq<string>, p: int)
    ensures TextsOnPage(PageLines(before, page, parts), p) == if p == page then parts else []
  {
    if parts != [] {
      var ls := PageLines(before, page, parts);
      assert ls[..|ls|-1] == PageLines(before, page, parts[..|parts|-1]);
      TextsOfPageLines(before, page, parts[..|parts|-1], p);
      assert parts == parts[..|parts|-1] + [parts[|parts|-1]];
    }
  }

  lemma {:induction false} TextsOfPages(pages: seq<string>, p: int)
    ensures TextsOnPage(LinesOfPages(pages), p) == if 1 <= p <= |pages| then Split(pages[p-1], '\n') else []
  {
    if pages != [] {
      var before := LinesOfPages(pages[..|pages|-1]);
      var parts := Split(pages[|pages|-1], '\n');
      TextsOfPages(pages[..|pages|-1], p);
      TextsAppend(before, PageLines(|before|, |pages|, parts), p);
      TextsOfPageLines(|before|, |pages|, parts, p);
      assert LinesOfPages(pages) == before + PageLines(|before|, |pages|, parts);
    }
  }

  /** Numbered from one without gaps, on pages 1 to n, pages never decreasing. */
  predicate Paged(lines: seq<Line>, n: nat) {
    && (forall i | 0 <= i < |lines| :: lines[i].number == i + 1 && 1 <= lines[i].page <= n)
    && (forall i, j | 0 <= i < j < |lines| :: lines[i].page <= lines[j].page)
  }

  lemma NextPage(before: seq<Line>, n: nat, parts: seq<string>)
    requires Paged(before, n)
    ensures Paged(before + PageLines(|before|, n + 1, parts), n + 1)
  {
    var lines := before + PageLines(|before|, n + 1, parts);
    forall i | 0 <= i < |lines| ensures lines[i].number == i + 1 && 1 <= lines[i].page <= n + 1 {
      assert i < |before| ==> lines[i] == before[i];
    }
    forall i, j | 0 <= i < j < |lines| ensures lines[i].page <= lines[j].page {
      assert i < |before| ==> lines[i] == before[i];
      assert j < |before| ==> lines[j] == before[j];
    }
  }

  lemma {:induction false} LinesArePaged(pages: seq<string>)
    ensures Paged(LinesOfPages(pages), |pages|)
  {
    if pages != [] {
      LinesArePaged(pages[..|pages|-1]);
      NextPage(LinesOfPages(pages[..|pages|-1]), |pages| - 1, Split(pages[|pages|-1], '\n'));
    }
  }

  /** Paging loses nothing: lines are numbered from one without gaps, pages never
      decrease, and the lines of each page joined by line feeds are that page. */
  lemma PagingIsLossless(pages: seq<string>, p: int)
    requires pages != [] && CleanPages(pages)
    ensures Paged(LinesOf(Join(pages, FORM_FEED)), |pages|)
    ensures 1 <= p <= |pages| ==> Join(TextsOnPage(LinesOf(Join(pages, FORM_FEED)), p), '\n') == pages[p-1]
  {
    forall q | q in pages ensures FORM_FEED !in q { assert CleanPage(q); }
    SplitUndoesJoin(pages, FORM_FEED);
    LinesArePaged(pages);
    TextsOfPages(pages, p);
  }

  // ---------------------------------------------------------------- evidence

  const MIN_QUOTE := 8
  const MAX_SPAN := 100

  predicate InRange(e: Evidence, n: nat) {
    1 <= e.startLine <= e.endLine <= n && e.endLine - e.startLine <= MAX_SPAN
  }

  predicate OnOnePage(lines: seq<Line>, e: Evidence)
    requires InRange(e, |lines|)
  {
    forall i | e.startLine - 1 <= i < e.endLine :: lines[i].page == e.page
  }

  function Texts(lines: seq<Line>): seq<string> {
    seq(|lines|, k requires 0 <= k < |lines| => lines[k].text)
  }

  function Quoted(lines: seq<Line>, e: Evidence): string
    requires InRange(e, |lines|)
  {
    Concat(Texts(lines[e.startLine-1..e.endLine]))
  }

  /** The quote is long enough and found, whitespace aside, in its own lines, all
      on its own page. */
  predicate Verified(lines: seq<Line>, e: Evidence) {
    && |Norm(e.quote)| >= MIN_QUOTE && InRange(e, |lines|) && OnOnePage(lines, e)
    && Contains(Norm(Quoted(lines, e)), Norm(e.quote))
  }

  predicate AllVerified(lines: seq<Line>, es: seq<Evidence>) {
    es != [] && forall e | e in es :: Verified(lines, e)
  }

  method Verify(lines: seq<Line>, e: Evidence) returns (ok: bool)
    ensures ok <==> Verified(lines, e)
  {
    if |Norm(e.quote)| < MIN_QUOTE || e.startLine < 1 || e.endLine < e.startLine || e.endLine > |lines|
       || e.endLine - e.startLine > MAX_SPAN
    {
      return false;
    }
    var text, range := "", lines[e.startLine-1..e.endLine];
    for i := 0 to |range|
      invariant text == Concat(Texts(range[..i]))
      invariant forall k | 0 <= k < i :: range[k].page == e.page
    {
      if range[i].page != e.page {
        assert lines[e.startLine-1+i].page != e.page;
        return false;
      }
      assert Texts(range[..i+1]) == Texts(range[..i]) + [range[i].text];
      ConcatAppend(Texts(range[..i]), [range[i].text]);
      assert Concat([range[i].text]) == range[i].text;
      text := text + range[i].text;
    }
    assert range[..|range|] == range;
    forall k | e.startLine - 1 <= k < e.endLine ensures lines[k].page == e.page {
      assert lines[k] == range[k - (e.startLine - 1)];
    }
    return Contains(Norm(text), Norm(e.quote));
  }

  method VerifyAll(lines: seq<Line>, es: seq<Evidence>) returns (ok: bool)
    ensures ok <==> AllVerified(lines, es)
  {
    if |es| == 0 { return false; }
    for i := 0 to |es|
      invariant forall k | 0 <= k < i :: Verified(lines, es[k])
    {
      ok := Verify(lines, es[i]);
      if !ok { return false; }
    }
    return true;
  }

  /** Where a submission fails: a code and the path of the field. */
  datatype Step = Field(name: string) | Index(i: nat)
  datatype Problem = Problem(code: string, at: seq<Step>)

  /** What is wrong with one piece of evidence, in the order it is checked. */
  function EvidenceFault(lines: seq<Line>, e: Evidence, at: seq<Step>): Option<Problem> {
    if |Norm(e.quote)| < MIN_QUOTE then Some(Problem("evidence_too_short", at + [Field("quote")]))
    else if !InRange(e, |lines|) then Some(Problem("evidence_range", at))
    else if !OnOnePage(lines, e) then Some(Problem("evidence_page", at + [Field("page")]))
    else if !Verified(lines, e) then Some(Problem("evidence_mismatch", at + [Field("quote")]))
    else None
  }

  ghost predicate FirstFault(lines: seq<Line>, es: seq<Evidence>, i: int, field: seq<Step>, p: Problem)
    requires 0 <= i < |es|
  {
    (forall k | 0 <= k < i :: Verified(lines, es[k])) && EvidenceFault(lines, es[i], field + [Index(i)]) == Some(p)
  }

  /** p is the first thing wrong with the evidence. */
  ghost predicate EvidenceBlamed(lines: seq<Line>, es: seq<Evidence>, field: seq<Step>, p: Problem) {
    || (es == [] && p == Problem("evidence_required", field))
    || exists i | 0 <= i < |es| :: FirstFault(lines, es, i, field, p)
  }

  /** Succeeds exactly when every piece verifies; otherwise names the first that
      does not, and why. */
  method ValidateEvidence(lines: seq<Line>, es: seq<Evidence>, field: seq<Step>) returns (problem: Option<Problem>)
    ensures problem.None? <==> AllVerified(lines, es)
    ensures problem.Some? ==> EvidenceBlamed(lines, es, field, problem.value)
  {
    if |es| == 0 { return Some(Problem("evidence_required", field)); }
    for i := 0 to |es|
      invariant forall k | 0 <= k < i :: Verified(lines, es[k])
    {
      var v := es[i];
      var at := field + [Index(i)];
      assert AllVerified(lines, es) ==> Verified(lines, v) by { assert v in es; }
      if |Norm(v.quote)| < MIN_QUOTE {
        assert FirstFault(lines, es, i, field, Problem("evidence_too_short", at + [Field("quote")]));
        return Some(Problem("evidence_too_short", at + [Field("quote")]));
      }
      if v.startLine < 1 || v.endLine < v.startLine || v.endLine > |lines| || v.endLine - v.startLine > MAX_SPAN {
        assert FirstFault(lines, es, i, field, Problem("evidence_range", at));
        return Some(Problem("evidence_range", at));
      }
      for l := v.startLine - 1 to v.endLine
        invariant forall k | v.startLine - 1 <= k < l :: lines[k].page == v.page
      {
        if lines[l].page != v.page {
          assert FirstFault(lines, es, i, field, Problem("evidence_page", at + [Field("page")]));
          return Some(Problem("evidence_page", at + [Field("page")]));
        }
      }
      var ok := Verify(lines, v);
      if !ok {
        assert FirstFault(lines, es, i, field, Problem("evidence_mismatch", at + [Field("quote")]));
        return Some(Problem("evidence_mismatch", at + [Field("quote")]));
      }
    }
    return None;
  }

  // ---------------------------------------------------------------- anchoring

  lemma {:induction false} AllOnPage(lines: seq<Line>, page: int)
    requires forall l | l in lines :: l.page == page
    ensures TextsOnPage(lines, page) == Texts(lines)
  {
    if lines != [] {
      AllOnPage(lines[..|lines|-1], page);
      assert lines[|lines|-1] in lines;
    }
  }

  /** What is quoted from a page lies, without whitespace, within all the lines of
      that page. */
  lemma QuotedWithinPage(lines: seq<Line>, e: Evidence, needle: string)
    requires InRange(e, |lines|) && OnOnePage(lines, e) && Contains(Norm(Quoted(lines, e)), needle)
    ensures Contains(Norm(Concat(TextsOnPage(lines, e.page))), needle)
  {
    var a, b, c := lines[..e.startLine-1], lines[e.startLine-1..e.endLine], lines[e.endLine..];
    assert lines == a + b + c;
    forall l | l in b ensures l.page == e.page {
      var k :| 0 <= k < |b| && b[k] == l;
      assert lines[e.startLine - 1 + k] == l;
    }
    TextsAround(a, b, c, e.page);
    NormOfThree(TextsOnPage(a, e.page), Texts(b), TextsOnPage(c, e.page), needle);
  }

  lemma TextsAround(a: seq<Line>, b: seq<Line>, c: seq<Line>, page: int)
    requires forall l | l in b :: l.page == page
    ensures TextsOnPage(a + b + c, page) == TextsOnPage(a, page) + Texts(b) + TextsOnPage(c, page)
  {
    AllOnPage(b, page);
    TextsAppend(a + b, c, page);
    TextsAppend(a, b, page);
  }

  lemma NormOfThree(a: seq<string>, b: seq<string>, c: seq<string>, needle: string)
    requires Contains(Norm(Concat(b)), needle)
    ensures Contains(Norm(Concat(a + b + c)), needle)
  {
    ConcatAppend(a + b, c);
    ConcatAppend(a, b);
    NormAppend(Concat(a) + Concat(b), Concat(c));
    NormAppend(Concat(a), Concat(b));
    ContainsWithin(Norm(Concat(a)), Norm(Concat(b)), Norm(Concat(c)), needle);
  }

  /** Verified evidence is anchored: without whitespace, the quote is a substring
      of the very page of the original input it names. */
  lemma EvidenceIsAnchored(pages: seq<string>, e: Evidence)
    requires pages != [] && CleanPages(pages) && Verified(LinesOf(Join(pages, FORM_FEED)), e)
    ensures 1 <= e.page <= |pages| && Contains(Norm(pages[e.page-1]), Norm(e.quote))
  {
    var lines := LinesOf(Join(pages, FORM_FEED));
    PagingIsLossless(pages, e.page);
    assert lines[e.startLine-1].page == e.page;
    var texts := TextsOnPage(lines, e.page);
    QuotedWithinPage(lines, e, Norm(e.quote));
    NormOfJoin(texts, '\n');
    assert Norm(pages[e.page-1]) == Norm(Concat(texts));
  }
}
