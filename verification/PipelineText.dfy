/** Canonical resume text: splitting and joining, whitespace, and the check on the
    pages that arrive.  Text is a sequence of code points. */
module PipelineText {

  // ---------------------------------------------------------------- split and join

  function Join(parts: seq<string>, sep: char): string {
    if parts == [] then ""
    else if |parts| == 1 then parts[0]
    else parts[0] + [sep] + Join(parts[1..], sep)
  }

  function Split(s: string, sep: char): (parts: seq<string>)
    ensures |parts| >= 1 && Join(parts, sep) == s
    ensures forall p | p in parts :: sep !in p
  {
    if s == "" then [""]
    else
      var rest := Split(s[1..], sep);
      assert s == [s[0]] + s[1..];
      assert rest == [rest[0]] + rest[1..];
      if s[0] == sep then
        assert ([""] + rest)[1..] == rest;
        [""] + rest
      else
        assert ([[s[0]] + rest[0]] + rest[1..])[1..] == rest[1..];
        [[s[0]] + rest[0]] + rest[1..]
  }

  lemma {:induction false} SplitOfOne(s: string, sep: char)
    requires sep !in s
    ensures Split(s, sep) == [s]
  {
    if s != "" {
      SplitOfOne(s[1..], sep);
      assert s == [s[0]] + s[1..];
    }
  }

  lemma {:induction false} SplitAtFirst(s: string, rest: string, sep: char)
    requires sep !in s
    ensures Split(s + [sep] + rest, sep) == [s] + Split(rest, sep)
  {
    var whole := s + [sep] + rest;
    if s == "" {
      assert whole[1..] == rest;
    } else {
      assert whole[1..] == s[1..] + [sep] + rest;
      SplitAtFirst(s[1..], rest, sep);
      assert s == [s[0]] + s[1..];
    }
  }

  /** Splitting undoes joining, when no part holds the separator. */
  lemma {:induction false} SplitUndoesJoin(parts: seq<string>, sep: char)
    requires parts != [] && forall p | p in parts :: sep !in p
    ensures Split(Join(parts, sep), sep) == parts
  {
    if |parts| == 1 {
      SplitOfOne(parts[0], sep);
    } else {
      SplitUndoesJoin(parts[1..], sep);
      SplitAtFirst(parts[0], Join(parts[1..], sep), sep);
    }
  }

  function Concat(parts: seq<string>): string {
    if parts == [] then "" else parts[0] + Concat(parts[1..])
  }

  lemma {:induction false} ConcatAppend(a: seq<string>, b: seq<string>)
    ensures Concat(a + b) == Concat(a) + Concat(b)
  {
    if a == [] {
      assert a + b == b;
    } else {
      assert (a + b)[1..] == a[1..] + b;
      ConcatAppend(a[1..], b);
    }
  }

  // ---------------------------------------------------------------- whitespace

  /** Unicode White_Space, as Go's unicode.IsSpace. */
  predicate IsSpace(c: char) {
    || '\t' <= c <= '\r' || c == ' ' || c == '\U{0085}' || c == '\U{00A0}' || c == '\U{1680}'
    || '\U{2000}' <= c <= '\U{200A}' || c == '\U{2028}' || c == '\U{2029}' || c == '\U{202F}'
    || c == '\U{205F}' || c == '\U{3000}'
  }

  predicate Blank(s: string) { forall c | c in s :: IsSpace(c) }

  /** s without its whitespace. */
  function Norm(s: string): string {
    if s == "" then "" else (if IsSpace(s[0]) then "" else [s[0]]) + Norm(s[1..])
  }

  lemma {:induction false} NormAppend(a: string, b: string)
    ensures Norm(a + b) == Norm(a) + Norm(b)
  {
    if a == "" {
      assert a + b == b;
    } else {
      assert (a + b)[1..] == a[1..] + b;
      NormAppend(a[1..], b);
    }
  }

  /** Line feeds between parts do not matter without whitespace. */
  lemma {:induction false} NormOfJoin(parts: seq<string>, sep: char)
    requires IsSpace(sep)
    ensures Norm(Join(parts, sep)) == Norm(Concat(parts))
  {
    if |parts| == 1 {
      assert Concat(parts) == parts[0] + Concat([]) == parts[0];
    } else if parts != [] {
      NormOfJoin(parts[1..], sep);
      NormAppend(parts[0] + [sep], Join(parts[1..], sep));
      NormAppend(parts[0], [sep]);
      NormAppend(parts[0], Concat(parts[1..]));
    }
  }

  predicate OccursAt(hay: string, needle: string, i: int) {
    0 <= i <= |hay| - |needle| && hay[i..i+|needle|] == needle
  }

  predicate Contains(hay: string, needle: string) {
    exists i | 0 <= i <= |hay| :: OccursAt(hay, needle, i)
  }

  lemma ContainsWithin(a: string, b: string, c: string, needle: string)
    requires Contains(b, needle)
    ensures Contains(a + b + c, needle)
  {
    var i :| 0 <= i <= |b| && OccursAt(b, needle, i);
    assert (a + b + c)[|a|+i..|a|+i+|needle|] == needle;
    assert OccursAt(a + b + c, needle, |a| + i);
  }

  function TrimLeft(s: string): string {
    if s != "" && IsSpace(s[0]) then TrimLeft(s[1..]) else s
  }

  function TrimRight(s: string): string {
    if s != "" && IsSpace(s[|s|-1]) then TrimRight(s[..|s|-1]) else s
  }

  function TrimSpace(s: string): string { TrimRight(TrimLeft(s)) }

  /** Trimming leaves nothing exactly of blank text. */
  lemma TrimsToNothing(s: string)
    ensures TrimSpace(s) == "" <==> Blank(s)
  {
    TrimLeftBlank(s);
    TrimRightBlank(TrimLeft(s));
  }

  lemma {:induction false} TrimLeftBlank(s: string)
    ensures Blank(TrimLeft(s)) <==> Blank(s)
    ensures TrimLeft(s) == "" <==> Blank(s)
  {
    if s != "" {
      TrimLeftBlank(s[1..]);
      assert s == [s[0]] + s[1..];
    }
  }

  lemma {:induction false} TrimRightBlank(s: string)
    ensures TrimRight(s) == "" <==> Blank(s)
  {
    if s != "" {
      TrimRightBlank(s[..|s|-1]);
      assert s == s[..|s|-1] + [s[|s|-1]];
    }
  }

  // ---------------------------------------------------------------- bytes

  function Utf8Len(c: char): nat {
    if c < '\U{0080}' then 1 else if c < '\U{0800}' then 2 else if c < '\U{10000}' then 3 else 4
  }

  function ByteLen(s: string): nat {
    if s == "" then 0 else Utf8Len(s[0]) + ByteLen(s[1..])
  }

  function TotalBytes(parts: seq<string>): nat {
    if parts == [] then 0 else TotalBytes(parts[..|parts|-1]) + ByteLen(parts[|parts|-1])
  }

  lemma {:induction false} ByteLenAppend(a: string, b: string)
    ensures ByteLen(a + b) == ByteLen(a) + ByteLen(b)
  {
    if a == "" {
      assert a + b == b;
    } else {
      assert (a + b)[1..] == a[1..] + b;
      ByteLenAppend(a[1..], b);
    }
  }

  lemma {:induction false} TotalBytesAppend(p: string, parts: seq<string>)
    ensures TotalBytes([p] + parts) == ByteLen(p) + TotalBytes(parts)
  {
    var all := [p] + parts;
    if parts == [] {
      assert all[..|all|-1] == [];
    } else {
      assert all[..|all|-1] == [p] + parts[..|parts|-1];
      TotalBytesAppend(p, parts[..|parts|-1]);
    }
  }

  /** Adding up page sizes and separators measures the joined text. */
  lemma {:induction false} JoinedBytes(parts: seq<string>, sep: char)
    requires parts != [] && Utf8Len(sep) == 1
    ensures ByteLen(Join(parts, sep)) == TotalBytes(parts) + |parts| - 1
  {
    assert parts == [parts[0]] + parts[1..];
    TotalBytesAppend(parts[0], parts[1..]);
    if |parts| > 1 {
      JoinedBytes(parts[1..], sep);
      ByteLenAppend(parts[0] + [sep], Join(parts[1..], sep));
      ByteLenAppend(parts[0], [sep]);
    }
  }

  lemma {:induction false} PrefixBytes(parts: seq<string>, i: nat)
    requires i <= |parts|
    ensures TotalBytes(parts[..i]) <= TotalBytes(parts)
  {
    if i < |parts| {
      PrefixBytes(parts[..|parts|-1], i);
      assert parts[..|parts|-1][..i] == parts[..i];
    } else {
      assert parts[..i] == parts;
    }
  }

  // ---------------------------------------------------------------- the page check

  const FORM_FEED := '\U{000C}'
  const MAX_TEXT_BYTES := 0x10_0000
  const MAX_PAGES := 100
  const MAX_VERSION := 128

  datatype ResumeText = ResumeText(fileSha: string, textSha: string, extractorVersion: string,
                                   pages: seq<string>, status: string)

  datatype Document = Document(text: string, checksum: string)

  datatype Reading = Read(document: Document) | Cancelled | Invalid | TooLarge

  predicate LowerHex64(h: string) {
    |h| == 64 && forall c | c in h :: '0' <= c <= '9' || 'a' <= c <= 'f'
  }

  predicate GoodHeader(input: ResumeText) {
    && input.status == "ready" && 1 <= |input.pages| <= MAX_PAGES
    && !Blank(input.extractorVersion) && ByteLen(input.extractorVersion) <= MAX_VERSION
    && LowerHex64(input.fileSha) && LowerHex64(input.textSha)
  }

  predicate CleanPage(p: string) { '\r' !in p && FORM_FEED !in p && '\0' !in p }

  predicate CleanPages(pages: seq<string>) { forall p | p in pages :: CleanPage(p) }

  /** Everything a canonical text must be; `sha` is SHA-256 in hexadecimal. */
  predicate Acceptable(input: ResumeText, sha: string -> string) {
    var text := Join(input.pages, FORM_FEED);
    && GoodHeader(input) && CleanPages(input.pages) && ByteLen(text) <= MAX_TEXT_BYTES
    && !Blank(text) && sha(text) == input.textSha
  }

  /** The page loop: stops at the first unclean page or once the text is too large. */
  method Measure(pages: seq<string>) returns (clean: bool, size: int)
    requires 1 <= |pages| <= MAX_PAGES
    ensures !clean ==> !CleanPages(pages)
    ensures clean && size <= MAX_TEXT_BYTES ==> CleanPages(pages) && size == TotalBytes(pages) + |pages| - 1
    ensures clean && size > MAX_TEXT_BYTES ==> TotalBytes(pages) + |pages| - 1 > MAX_TEXT_BYTES
    ensures CleanPages(pages) && TotalBytes(pages) + |pages| - 1 > MAX_TEXT_BYTES ==> clean && size > MAX_TEXT_BYTES
  {
    size := |pages| - 1;
    for i := 0 to |pages|
      invariant size == |pages| - 1 + TotalBytes(pages[..i]) && size <= MAX_TEXT_BYTES
      invariant forall k | 0 <= k < i :: CleanPage(pages[k])
    {
      if !CleanPage(pages[i]) { return false, size; }
      assert pages[..i+1][..i] == pages[..i];
      size := size + ByteLen(pages[i]);
      if size > MAX_TEXT_BYTES {
        PrefixBytes(pages, i + 1);
        return true, size;
      }
    }
    assert pages[..|pages|] == pages;
    return true, size;
  }

  method ReadText(input: ResumeText, sha: string -> string, cancelled: bool) returns (r: Reading)
    ensures r.Read? <==> !cancelled && Acceptable(input, sha)
    ensures r.Read? ==> r.document == Document(Join(input.pages, FORM_FEED), input.fileSha)
    ensures r.Cancelled? <==> cancelled
    ensures r.TooLarge? ==> GoodHeader(input) && ByteLen(Join(input.pages, FORM_FEED)) > MAX_TEXT_BYTES
    ensures (!cancelled && GoodHeader(input) && CleanPages(input.pages)
             && ByteLen(Join(input.pages, FORM_FEED)) > MAX_TEXT_BYTES) ==> r.TooLarge?
  {
    if cancelled { return Cancelled; }
    if input.status != "ready" || |input.pages| < 1 || |input.pages| > MAX_PAGES
       || TrimSpace(input.extractorVersion) == "" || ByteLen(input.extractorVersion) > MAX_VERSION
    {
      TrimsToNothing(input.extractorVersion);
      return Invalid;
    }
    TrimsToNothing(input.extractorVersion);
    var hashes := [input.fileSha, input.textSha];
    for i := 0 to |hashes|
      invariant forall k | 0 <= k < i :: LowerHex64(hashes[k])
    {
      if !LowerHex64(hashes[i]) { return Invalid; }
    }
    assert LowerHex64(hashes[0]) && LowerHex64(hashes[1]);
    JoinedBytes(input.pages, FORM_FEED);
    var clean, size := Measure(input.pages);
    if !clean { return Invalid; }
    if size > MAX_TEXT_BYTES { return TooLarge; }
    var text := Join(input.pages, FORM_FEED);
    TrimsToNothing(text);
    if TrimSpace(text) == "" || sha(text) != input.textSha { return Invalid; }
    return Read(Document(text, input.fileSha));
  }
}
