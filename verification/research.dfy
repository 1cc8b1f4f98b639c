/** The research half of the analysis client (`GeminiClient` in
    src/services/gemini_client.py): the fixed query plan of a segment, the
    search that keeps the first usable links of a result page, the clean-up and
    truncation of a linked page's text, the per-query research loop, and the
    digest of the results that the prompt carries.

    Network access is passed in. `search(q)` stands for requesting and parsing
    the result page of query `q`; `fetch(url)` for requesting and parsing the
    text of a linked page. `None` from either is any exception on the way
    (timeout, HTTP error, missing HTML parser), which the client swallows. */
module Research {
  import opened Text
  import opened Values

  /** The six research topics, in the order they are searched. */
  const QuerySuffixes: seq<string> := [
    " mercado brasileiro 2024 2025",
    " tendências consumidor comportamento",
    " concorrentes principais Brasil",
    " preços produtos serviços",
    " público alvo demographics",
    " marketing digital estratégias"
  ]

  /** `research_segment_comprehensive` asks for three results per query. */
  const ResultsPerQuery: nat := 3
  /** `_extract_snippet` keeps at most this many characters before the ellipsis. */
  const SnippetLimit: nat := 500
  /** The digest shows this many results of each query ... */
  const DigestResults: nat := 2
  /** ... each with at most this many characters of its snippet. */
  const DigestSnippetLimit: nat := 150

  /** One link of a result page: its text (already stripped by the parser) and its `href`, if any. */
  datatype Anchor = Anchor(title: string, href: Option<string>)

  datatype SearchResult = SearchResult(title: string, url: string, snippet: string)

  /** The research data: query to results, in the order the queries were run. */
  type ResearchData = Assoc<seq<SearchResult>>

  // ---------------------------------------------------------------- query plan

  function QueryPlan(segment: string): (qs: seq<string>)
    ensures |qs| == |QuerySuffixes|
    ensures forall i :: 0 <= i < |qs| ==> qs[i] == segment + QuerySuffixes[i]
  {
    seq(|QuerySuffixes|, i requires 0 <= i < |QuerySuffixes| => segment + QuerySuffixes[i])
  }

  lemma SuffixesDistinct(i: nat, j: nat)
    requires i < j < |QuerySuffixes|
    ensures QuerySuffixes[i] != QuerySuffixes[j]
  {
    var s := QuerySuffixes;
    assert s[0][1] == 'm' && s[1][1] == 't' && s[2][1] == 'c' && s[3][1] == 'p' && s[4][1] == 'p' && s[5][1] == 'm';
    assert s[0][2] == 'e' && s[5][2] == 'a' && s[3][2] == 'r' && s[4][2] == 'ú';
  }

  /** The plan has six different queries, each the segment followed by its topic,
      so the research data ends up with one entry per query. */
  lemma QueryPlanShape(segment: string)
    ensures |QueryPlan(segment)| == 6
    ensures forall i :: 0 <= i < 6 ==> StartsWith(QueryPlan(segment)[i], segment)
    ensures forall i, j :: 0 <= i < j < 6 ==> QueryPlan(segment)[i] != QueryPlan(segment)[j]
  {
    var qs := QueryPlan(segment);
    forall i, j | 0 <= i < j < 6
      ensures qs[i] != qs[j]
    {
      SuffixesDistinct(i, j);
      assert qs[i][|segment|..] == QuerySuffixes[i];
      assert qs[j][|segment|..] == QuerySuffixes[j];
    }
    forall i | 0 <= i < 6
      ensures StartsWith(qs[i], segment)
    {
      assert qs[i][..|segment|] == segment;
    }
  }

  /** Different segments give different plans: the plan determines the segment. */
  lemma QueryPlanInjective(a: string, b: string)
    requires QueryPlan(a) == QueryPlan(b)
    ensures a == b
  {
    var q := QueryPlan(a)[0];
    assert q == a + QuerySuffixes[0] && q == b + QuerySuffixes[0];
    assert |a| == |b|;
    assert a == q[..|a|] == b;
  }

  // ---------------------------------------------------------- snippet clean-up

  /** A line boundary of `str.splitlines`. */
  predicate IsLineBreak(c: char) {
    ('\n' <= c <= '\r') || ('\U{1C}' <= c <= '\U{1E}') || c == '\U{85}' || c == '\U{2028}' || c == '\U{2029}'
  }

  predicate NoLineBreak(s: string) {
    forall i :: 0 <= i < |s| ==> !IsLineBreak(s[i])
  }

  predicate DoubleSpaceAt(s: string, i: int) {
    0 <= i && i + 1 < |s| && s[i] == ' ' && s[i + 1] == ' '
  }

  predicate NoDoubleSpace(s: string) {
    forall i :: 0 <= i < |s| ==> !DoubleSpaceAt(s, i)
  }

  /** What `_extract_snippet` joins: non-empty, stripped, no line break, no double space. */
  predicate IsChunk(c: string) {
    |c| > 0 && IsStripped(c) && NoDoubleSpace(c) && NoLineBreak(c)
  }

  /** Stripping keeps a text free of double spaces and line breaks. */
  lemma StripKeeps(s: string)
    ensures NoDoubleSpace(s) ==> NoDoubleSpace(Strip(s))
    ensures NoLineBreak(s) ==> NoLineBreak(Strip(s))
  {
    SliceKeeps(s, LeadingSpaces(s), LeadingSpaces(s) + |Strip(s)|);
  }

  lemma SliceKeeps(s: string, a: nat, b: nat)
    requires a <= b <= |s|
    ensures NoDoubleSpace(s) ==> NoDoubleSpace(s[a..b])
    ensures NoLineBreak(s) ==> NoLineBreak(s[a..b])
  {
    if NoDoubleSpace(s) {
      forall i | 0 <= i < b - a
        ensures !DoubleSpaceAt(s[a..b], i)
      {
        assert !DoubleSpaceAt(s, a + i);
      }
    }
  }

  lemma ConcatKeeps(x: string, y: string)
    requires NoDoubleSpace(x) && NoDoubleSpace(y)
    requires |x| == 0 || |y| == 0 || x[|x| - 1] != ' ' || y[0] != ' '
    ensures NoDoubleSpace(x + y)
  {
    var s := x + y;
    forall i | 0 <= i < |s|
      ensures !DoubleSpaceAt(s, i)
    {
      if i + 1 < |x| {
        assert !DoubleSpaceAt(x, i);
      } else if i >= |x| {
        assert !DoubleSpaceAt(y, i - |x|);
      }
    }
  }

  function FirstLineBreak(s: string): (i: nat)
    ensures i <= |s|
    ensures i < |s| ==> IsLineBreak(s[i])
    ensures NoLineBreak(s[..i])
  {
    if |s| == 0 || IsLineBreak(s[0]) then 0
    else
      var j := 1 + FirstLineBreak(s[1..]);
      assert s[..j] == [s[0]] + s[1..][..j - 1];
      j
  }

  /** `s.splitlines()`, cut at every line break. Python's split differs in three
      places, each an extra empty line here: "" gives one empty line (Python
      gives none), a trailing break is followed by an empty line (Python adds
      none), and "\r\n" is two boundaries (Python reads one). Empty lines yield
      no chunk, so the joined text is the same. */
  function SplitLines(s: string): (lines: seq<string>)
    ensures |lines| >= 1
    ensures forall l :: l in lines ==> NoLineBreak(l)
    ensures NoLineBreak(s) ==> lines == [s]
    decreases |s|
  {
    var i := FirstLineBreak(s);
    if i == |s| then [s] else [s[..i]] + SplitLines(s[i + 1..])
  }

  function FirstDoubleSpace(s: string): (i: nat)
    ensures i <= |s|
    ensures i < |s| ==> DoubleSpaceAt(s, i)
    ensures NoDoubleSpace(s[..i])
  {
    if |s| < 2 then |s|
    else if s[0] == ' ' && s[1] == ' ' then 0
    else
      var j := 1 + FirstDoubleSpace(s[1..]);
      var t := s[..j];
      assert t == [s[0]] + s[1..][..j - 1];
      forall k | 0 <= k < |t|
        ensures !DoubleSpaceAt(t, k)
      {
        if k > 0 {
          assert !DoubleSpaceAt(s[1..][..j - 1], k - 1);
        }
      }
      j
  }

  /** `s.split("  ")`: the pieces between non-overlapping double spaces, left to right. */
  function SplitDoubleSpace(s: string): (parts: seq<string>)
    ensures |parts| >= 1
    ensures forall p :: p in parts ==> NoDoubleSpace(p)
    ensures NoLineBreak(s) ==> forall p :: p in parts ==> NoLineBreak(p)
    ensures NoDoubleSpace(s) ==> parts == [s]
    decreases |s|
  {
    var i := FirstDoubleSpace(s);
    if i == |s| then
      assert s[..i] == s;
      [s]
    else
      SliceKeeps(s, 0, i);
      SliceKeeps(s, i + 2, |s|);
      [s[..i]] + SplitDoubleSpace(s[i + 2..])
  }

  predicate AllChunks(cs: seq<string>) {
    forall i :: 0 <= i < |cs| ==> IsChunk(cs[i])
  }

  /** The stripped phrases of one line, empty ones dropped. */
  function KeepChunks(phrases: seq<string>): (cs: seq<string>)
    requires forall p :: p in phrases ==> NoDoubleSpace(p) && NoLineBreak(p)
    ensures AllChunks(cs)
  {
    if |phrases| == 0 then []
    else
      var p := phrases[0];
      var c := Strip(p);
      StripKeeps(p);
      (if c == "" then [] else [c]) + KeepChunks(phrases[1..])
  }

  function Chunks(lines: seq<string>): (cs: seq<string>)
    requires forall l :: l in lines ==> NoLineBreak(l)
    ensures AllChunks(cs)
  {
    if |lines| == 0 then []
    else
      StripKeeps(lines[0]);
      var first := KeepChunks(SplitDoubleSpace(Strip(lines[0])));
      var rest := Chunks(lines[1..]);
      ChunksAppend(first, rest);
      first + rest
  }

  lemma ChunksAppend(a: seq<string>, b: seq<string>)
    requires AllChunks(a) && AllChunks(b)
    ensures AllChunks(a + b)
  {
    forall i | 0 <= i < |a + b| ensures IsChunk((a + b)[i]) {
      if i >= |a| {
        assert (a + b)[i] == b[i - |a|];
      }
    }
  }

  /** `' '.join(chunks)`. */
  function JoinSpace(cs: seq<string>): (s: string)
    requires AllChunks(cs)
    ensures |s| == 0 <==> |cs| == 0
    ensures IsStripped(s) && NoDoubleSpace(s) && NoLineBreak(s)
  {
    if |cs| == 0 then ""
    else
      var c := cs[0];
      assert IsChunk(c);
      if |cs| == 1 then c
      else
        var rest := JoinSpace(cs[1..]);
        ConcatKeeps(c, " ");
        ConcatKeeps(c + " ", rest);
        assert (c + " " + rest)[0] == c[0];
        c + " " + rest
  }

  /** The page text of `_extract_snippet`: lines stripped, cut at double spaces,
      pieces stripped, empty pieces dropped, the rest joined by single spaces.
      Only whitespace is removed or replaced: every other character of the page
      survives, in its order. */
  function Normalize(text: string): (r: string)
    ensures IsStripped(r) && NoDoubleSpace(r) && NoLineBreak(r)
    ensures Visible(r) == Visible(text)
  {
    var lines := SplitLines(text);
    VisibleSplitLines(text);
    VisibleChunks(lines);
    VisibleJoinSpace(Chunks(lines));
    JoinSpace(Chunks(lines))
  }

  /** Normalising a normalised text changes nothing. */
  lemma NormalizeIdempotent(text: string)
    ensures Normalize(Normalize(text)) == Normalize(text)
  {
    var t := Normalize(text);
    if t == "" {
      NormalizeEmpty();
    } else {
      NormalizeChunk(t);
    }
  }

  lemma NormalizeEmpty()
    ensures Normalize("") == ""
  {
    assert SplitLines("") == [""];
    assert SplitDoubleSpace("") == [""];
    assert KeepChunks([""]) == [];
    assert Chunks([""]) == [];
  }

  /** A text that is already clean comes out of the clean-up unchanged. */
  lemma NormalizeChunk(t: string)
    requires IsChunk(t)
    ensures Normalize(t) == t
  {
    assert SplitLines(t) == [t];
    assert SplitDoubleSpace(t) == [t];
    assert KeepChunks([t]) == [t] + KeepChunks([]);
    assert Chunks([t]) == [t] + Chunks([]);
  }

  // ------------------------------------------ what the clean-up keeps of a page

  /** A character as it counts for the text: nothing when it is whitespace. */
  function Shown(c: char): string {
    if IsSpace(c) then "" else [c]
  }

  /** The text with every whitespace character taken out. */
  function Visible(s: string): string {
    if |s| == 0 then "" else Shown(s[0]) + Visible(s[1..])
  }

  predicate Blank(s: string) {
    forall i :: 0 <= i < |s| ==> IsSpace(s[i])
  }

  lemma {:induction false} VisibleAppend(a: string, b: string)
    ensures Visible(a + b) == Visible(a) + Visible(b)
    decreases |a|
  {
    if |a| == 0 {
      assert a + b == b;
    } else {
      assert (a + b)[1..] == a[1..] + b;
      VisibleAppend(a[1..], b);
    }
  }

  lemma {:induction false} VisibleBlank(s: string)
    requires Blank(s)
    ensures Visible(s) == ""
    decreases |s|
  {
    if |s| > 0 {
      VisibleBlank(s[1..]);
    }
  }

  /** `strip` removes whitespace only. */
  lemma VisibleStrip(s: string)
    ensures Visible(Strip(s)) == Visible(s)
  {
    var n := LeadingSpaces(s);
    var r := Strip(s);
    var head, tail := s[..n], s[n + |r|..];
    assert s == head + r + tail;
    assert Blank(head) by {
      forall i | 0 <= i < |head| ensures IsSpace(head[i]) {
        assert head[i] == s[i];
      }
    }
    assert Blank(tail) by {
      forall i | 0 <= i < |tail| ensures IsSpace(tail[i]) {
        assert tail[i] == s[n + |r| + i];
      }
    }
    VisibleAppend(head + r, tail);
    VisibleAppend(head, r);
    VisibleBlank(head);
    VisibleBlank(tail);
  }

  /** A line boundary, or a double space, removed between two pieces. */
  lemma VisibleJoin(a: string, sep: string, b: string)
    requires Blank(sep)
    ensures Visible(a + sep + b) == Visible(a) + Visible(b)
  {
    VisibleAppend(a + sep, b);
    VisibleAppend(a, sep);
    VisibleBlank(sep);
  }

  /** Cutting `s` at position `i` and dropping the `gap` characters there, all
      of them whitespace, keeps the visible text. */
  lemma VisibleCut(s: string, i: nat, gap: nat)
    requires i + gap <= |s| && Blank(s[i..i + gap])
    ensures Visible(s) == Visible(s[..i]) + Visible(s[i + gap..])
  {
    assert s == s[..i] + s[i..i + gap] + s[i + gap..];
    VisibleJoin(s[..i], s[i..i + gap], s[i + gap..]);
  }

  /** The pieces of a cut, visible text and all: the first piece, then the rest. */
  lemma VisibleParts(first: string, rest: seq<string>, tail: string)
    requires Visible(Flatten(rest)) == Visible(tail)
    ensures Visible(Flatten([first] + rest)) == Visible(first) + Visible(tail)
  {
    FlattenCons(first, rest);
    VisibleAppend(first, Flatten(rest));
  }

  /** `s` is its first piece, the separator of `gap` blanks, and what follows;
      the pieces of the split are the first piece and the pieces of what follows. */
  lemma VisibleStep(s: string, i: nat, gap: nat, pieces: seq<string>, more: seq<string>)
    requires i + gap <= |s| && Blank(s[i..i + gap])
    requires pieces == [s[..i]] + more
    requires Visible(Flatten(more)) == Visible(s[i + gap..])
    ensures Visible(Flatten(pieces)) == Visible(s)
  {
    VisibleParts(s[..i], more, s[i + gap..]);
    VisibleCut(s, i, gap);
  }

  lemma VisibleWhole(s: string)
    ensures Visible(Flatten([s])) == Visible(s)
  {
    assert Flatten<char>([]) == [];
    assert Flatten([s]) == Flatten([]) + s == s;
  }

  lemma SplitLinesStep(s: string)
    requires FirstLineBreak(s) < |s|
    ensures SplitLines(s) == [s[..FirstLineBreak(s)]] + SplitLines(s[FirstLineBreak(s) + 1..])
  {
  }

  lemma SplitDoubleSpaceStep(s: string)
    requires FirstDoubleSpace(s) < |s|
    ensures SplitDoubleSpace(s) == [s[..FirstDoubleSpace(s)]] + SplitDoubleSpace(s[FirstDoubleSpace(s) + 2..])
  {
  }

  /** Every line boundary is whitespace. */
  lemma LineBreakBlank(s: string, i: nat)
    requires i < |s| && IsLineBreak(s[i])
    ensures Blank(s[i..i + 1])
  {
    assert IsSpace(s[i]);
    assert s[i..i + 1][0] == s[i];
  }

  lemma DoubleSpaceBlank(s: string, i: nat)
    requires DoubleSpaceAt(s, i)
    ensures Blank(s[i..i + 2])
  {
  }

  lemma {:induction false} VisibleSplitLines(s: string)
    ensures Visible(Flatten(SplitLines(s))) == Visible(s)
    decreases |s|
  {
    var i := FirstLineBreak(s);
    if i == |s| {
      assert SplitLines(s) == [s];
      VisibleWhole(s);
    } else {
      var rest := s[i + 1..];
      SplitLinesStep(s);
      LineBreakBlank(s, i);
      VisibleSplitLines(rest);
      VisibleStep(s, i, 1, SplitLines(s), SplitLines(rest));
    }
  }

  lemma {:induction false} VisibleSplitDoubleSpace(s: string)
    ensures Visible(Flatten(SplitDoubleSpace(s))) == Visible(s)
    decreases |s|
  {
    var i := FirstDoubleSpace(s);
    if i == |s| {
      assert SplitDoubleSpace(s) == [s];
      VisibleWhole(s);
    } else {
      SplitDoubleSpaceStep(s);
      DoubleSpaceBlank(s, i);
      VisibleSplitDoubleSpace(s[i + 2..]);
      VisibleStep(s, i, 2, SplitDoubleSpace(s), SplitDoubleSpace(s[i + 2..]));
    }
  }

  lemma {:induction false} VisibleKeepChunks(phrases: seq<string>)
    requires forall p :: p in phrases ==> NoDoubleSpace(p) && NoLineBreak(p)
    ensures Visible(Flatten(KeepChunks(phrases))) == Visible(Flatten(phrases))
    decreases |phrases|
  {
    if |phrases| > 0 {
      var p, rest := phrases[0], phrases[1..];
      var c := Strip(p);
      var kept: seq<string> := if c == "" then [] else [c];
      assert phrases == [p] + rest;
      VisibleKeepChunks(rest);
      VisibleStrip(p);
      FlattenAppend(kept, KeepChunks(rest));
      assert Flatten(kept) == c by {
        assert Flatten<char>([]) == [];
        if c != "" {
          assert Flatten(kept) == Flatten([]) + c;
        }
      }
      VisibleAppend(Flatten(kept), Flatten(KeepChunks(rest)));
      FlattenCons(p, rest);
      VisibleAppend(p, Flatten(rest));
    }
  }

  /** The phrases of one line keep its visible text. */
  lemma VisibleLine(line: string)
    requires NoLineBreak(Strip(line))
    ensures Visible(Flatten(KeepChunks(SplitDoubleSpace(Strip(line))))) == Visible(line)
  {
    var l := Strip(line);
    VisibleKeepChunks(SplitDoubleSpace(l));
    VisibleSplitDoubleSpace(l);
    VisibleStrip(line);
  }

  lemma {:induction false} VisibleChunks(lines: seq<string>)
    requires forall l :: l in lines ==> NoLineBreak(l)
    ensures Visible(Flatten(Chunks(lines))) == Visible(Flatten(lines))
    decreases |lines|
  {
    if |lines| > 0 {
      var first, rest := lines[0], lines[1..];
      StripKeeps(first);
      var kept := KeepChunks(SplitDoubleSpace(Strip(first)));
      assert Chunks(lines) == kept + Chunks(rest);
      assert lines == [first] + rest;
      VisibleChunks(rest);
      VisibleLine(first);
      VisibleChunksJoin(first, rest, kept, Chunks(rest));
    }
  }

  /** The chunks of one line followed by those of the rest keep the visible
      text of the line followed by the rest. */
  lemma VisibleChunksJoin(first: string, rest: seq<string>, kept: seq<string>, more: seq<string>)
    requires Visible(Flatten(kept)) == Visible(first)
    requires Visible(Flatten(more)) == Visible(Flatten(rest))
    ensures Visible(Flatten(kept + more)) == Visible(Flatten([first] + rest))
  {
    FlattenAppend(kept, more);
    VisibleAppend(Flatten(kept), Flatten(more));
    FlattenCons(first, rest);
    VisibleAppend(first, Flatten(rest));
  }

  lemma {:induction false} VisibleJoinSpace(cs: seq<string>)
    requires AllChunks(cs)
    ensures Visible(JoinSpace(cs)) == Visible(Flatten(cs))
    decreases |cs|
  {
    if |cs| > 0 {
      var c, rest := cs[0], cs[1..];
      assert cs == [c] + rest;
      FlattenCons(c, rest);
      if |cs| == 1 {
        assert rest == [];
        assert Flatten(cs) == c + Flatten(rest) == c;
      } else {
        VisibleJoinSpace(rest);
        VisibleJoin(c, " ", JoinSpace(rest));
        VisibleAppend(c, Flatten(rest));
      }
    }
  }

  /** `text[:500] + "..." if len(text) > 500 else text`. */
  function Truncate(text: string): (r: string)
    ensures |r| <= SnippetLimit + 3
    ensures |text| <= SnippetLimit ==> r == text
    ensures |text| > SnippetLimit ==> |r| == SnippetLimit + 3 && r == text[..SnippetLimit] + "..."
  {
    if |text| > SnippetLimit then text[..SnippetLimit] + "..." else text
  }

  /** Truncating twice is truncating once: a cut text is exactly 503 characters and
      its first 500 are the same. */
  lemma TruncateIdempotent(text: string)
    ensures Truncate(Truncate(text)) == Truncate(text)
  {
    if |text| > SnippetLimit {
      var r := Truncate(text);
      assert r[..SnippetLimit] == text[..SnippetLimit];
    }
  }

  /** `_extract_snippet(url)` given what fetching the page produced. */
  function ExtractSnippet(page: Option<string>): (snippet: string)
    ensures |snippet| <= SnippetLimit + 3
    ensures page.None? ==> snippet == ""
    ensures IsStripped(snippet) && NoDoubleSpace(snippet)
    ensures page.Some? && |Normalize(page.value)| <= SnippetLimit ==> snippet == Normalize(page.value)
    ensures page.Some? && |Normalize(page.value)| > SnippetLimit ==>
      |snippet| == SnippetLimit + 3 && snippet[..SnippetLimit] == Normalize(page.value)[..SnippetLimit]
  {
    match page
    case None => ""
    case Some(text) =>
      var t := Normalize(text);
      TruncateKeeps(t);
      Truncate(t)
  }

  /** Cutting a clean text keeps it clean: its first character stays, the ellipsis ends it. */
  lemma TruncateKeeps(t: string)
    requires IsStripped(t) && NoDoubleSpace(t)
    ensures IsStripped(Truncate(t)) && NoDoubleSpace(Truncate(t))
    ensures |t| > SnippetLimit ==> Truncate(t)[..SnippetLimit] == t[..SnippetLimit]
  {
    if |t| > SnippetLimit {
      SliceKeeps(t, 0, SnippetLimit);
      ConcatKeeps(t[..SnippetLimit], "...");
      assert Truncate(t)[..SnippetLimit] == t[..SnippetLimit];
    }
  }

  // ---------------------------------------------------------------- searching

  /** A link is kept when both its text and its `href` are non-empty. */
  predicate Usable(a: Anchor) {
    a.title != "" && a.href.Some? && a.href.value != ""
  }

  predicate FromAnchor(r: SearchResult, a: Anchor) {
    Usable(a) && r.title == a.title && a.href == Some(r.url)
  }

  /** The usable links, in page order, each with the snippet of its page. */
  function Collect(anchors: seq<Anchor>, fetch: string -> Option<string>): (rs: seq<SearchResult>)
    ensures |rs| <= |anchors|
    ensures forall r :: r in rs ==> r.title != "" && r.url != "" && r.snippet == ExtractSnippet(fetch(r.url))
  {
    if |anchors| == 0 then []
    else
      var a := anchors[0];
      (if Usable(a) then [SearchResult(a.title, a.href.value, ExtractSnippet(fetch(a.href.value)))] else [])
      + Collect(anchors[1..], fetch)
  }

  /** Every kept result comes from a usable link of the page ... */
  lemma {:induction false} CollectSound(anchors: seq<Anchor>, fetch: string -> Option<string>)
    ensures forall r :: r in Collect(anchors, fetch) ==> exists a :: a in anchors && FromAnchor(r, a)
  {
    if |anchors| > 0 {
      CollectSound(anchors[1..], fetch);
      var rs := Collect(anchors, fetch);
      var rest := Collect(anchors[1..], fetch);
      forall r | r in rs
        ensures exists a :: a in anchors && FromAnchor(r, a)
      {
        if Usable(anchors[0]) && r == rs[0] {
          assert FromAnchor(r, anchors[0]);
        } else {
          assert r in rest;
          var a :| a in anchors[1..] && FromAnchor(r, a);
          assert a in anchors;
        }
      }
    }
  }

  /** ... and every usable link of the page is kept. */
  lemma {:induction false} CollectComplete(anchors: seq<Anchor>, fetch: string -> Option<string>)
    ensures forall a :: a in anchors && Usable(a) ==> exists r :: r in Collect(anchors, fetch) && FromAnchor(r, a)
  {
    if |anchors| > 0 {
      CollectComplete(anchors[1..], fetch);
      var rs := Collect(anchors, fetch);
      var rest := Collect(anchors[1..], fetch);
      assert forall r :: r in rest ==> r in rs;
      forall a | a in anchors && Usable(a)
        ensures exists r :: r in rs && FromAnchor(r, a)
      {
        if a == anchors[0] {
          assert FromAnchor(rs[0], a);
        } else {
          assert a in anchors[1..];
        }
      }
    }
  }

  /** `search_internet(query, limit)` given the parsed result page (`None` when
      the request or the parse raised): among the first `limit` links of the
      page, those with a text and a link, each with its snippet; `[]` on error. */
  function SearchInternet(page: Option<seq<Anchor>>, limit: nat, fetch: string -> Option<string>): (rs: seq<SearchResult>)
    ensures |rs| <= limit
    ensures page.None? ==> rs == []
    ensures forall r :: r in rs ==> r.title != "" && r.url != "" && r.snippet == ExtractSnippet(fetch(r.url))
  {
    match page
    case None => []
    case Some(anchors) => Collect(Take(anchors, limit), fetch)
  }

  /** The results are exactly the usable links among the first `limit` of the page:
      each result comes from one, and each one gives a result. */
  lemma SearchKeepsUsableLinks(anchors: seq<Anchor>, limit: nat, fetch: string -> Option<string>)
    ensures forall r :: r in SearchInternet(Some(anchors), limit, fetch) ==>
      exists a :: a in Take(anchors, limit) && FromAnchor(r, a)
    ensures forall a :: a in Take(anchors, limit) && Usable(a) ==>
      exists r :: r in SearchInternet(Some(anchors), limit, fetch) && FromAnchor(r, a)
  {
    CollectSound(Take(anchors, limit), fetch);
    CollectComplete(Take(anchors, limit), fetch);
  }

  // ------------------------------------------------------------ research loop

  /** The research data built from the queries in order, one entry per query. */
  function Gather(queries: seq<string>, search: string -> Option<seq<Anchor>>, fetch: string -> Option<string>): (data: ResearchData)
    ensures Keys(data) == queries
  {
    if |queries| == 0 then []
    else
      var q := queries[|queries| - 1];
      Gather(queries[..|queries| - 1], search, fetch) + [(q, SearchInternet(search(q), ResultsPerQuery, fetch))]
  }

  /** Each entry holds what searching its query gave: at most three results, none
      when the search failed. */
  lemma {:induction false} GatherEntries(queries: seq<string>, search: string -> Option<seq<Anchor>>, fetch: string -> Option<string>)
    ensures forall i :: 0 <= i < |queries| ==>
      Gather(queries, search, fetch)[i] == (queries[i], SearchInternet(search(queries[i]), ResultsPerQuery, fetch))
    ensures forall i :: 0 <= i < |queries| ==> |Gather(queries, search, fetch)[i].1| <= ResultsPerQuery
    ensures forall i :: 0 <= i < |queries| && search(queries[i]).None? ==> Gather(queries, search, fetch)[i].1 == []
  {
    if |queries| > 0 {
      var init := queries[..|queries| - 1];
      GatherEntries(init, search, fetch);
      forall i | 0 <= i < |queries|
        ensures Gather(queries, search, fetch)[i] == (queries[i], SearchInternet(search(queries[i]), ResultsPerQuery, fetch))
      {
        if i < |init| {
          assert Gather(queries, search, fetch)[i] == Gather(init, search, fetch)[i];
        }
      }
    }
  }

  /** `research_segment_comprehensive`: runs the six planned queries in order and
      stores each query's results under it (`Gather` says what those are, `[]`
      when the search failed), so every planned query has its entry. */
  method ResearchSegment(segment: string, search: string -> Option<seq<Anchor>>, fetch: string -> Option<string>)
    returns (data: ResearchData)
    ensures Keys(data) == QueryPlan(segment)
    ensures data == Gather(QueryPlan(segment), search, fetch)
  {
    var queries := QueryPlan(segment);
    data := [];
    for k := 0 to |queries|
      invariant data == Gather(queries[..k], search, fetch)
    {
      var q := queries[k];
      var results := SearchInternet(search(q), ResultsPerQuery, fetch);
      QueryNotRepeated(segment, k);
      GatherStep(queries, k, search, fetch);
      data := Put(data, q, results);
    }
    assert queries[..|queries|] == queries;
  }

  /** No planned query repeats an earlier one. */
  lemma QueryNotRepeated(segment: string, k: nat)
    requires k < |QueryPlan(segment)|
    ensures QueryPlan(segment)[k] !in QueryPlan(segment)[..k]
  {
    var qs := QueryPlan(segment);
    QueryPlanShape(segment);
    forall i | 0 <= i < k
      ensures qs[..k][i] != qs[k]
    {
      assert qs[..k][i] == qs[i];
    }
  }

  /** Storing a new query's results extends the gathered data by that query. */
  lemma GatherStep(queries: seq<string>, k: nat, search: string -> Option<seq<Anchor>>, fetch: string -> Option<string>)
    requires k < |queries| && queries[k] !in queries[..k]
    ensures Put(Gather(queries[..k], search, fetch), queries[k], SearchInternet(search(queries[k]), ResultsPerQuery, fetch))
      == Gather(queries[..k + 1], search, fetch)
  {
    var q, pre, ext := queries[k], queries[..k], queries[..k + 1];
    var results := SearchInternet(search(q), ResultsPerQuery, fetch);
    var g := Gather(pre, search, fetch);
    assert ext[..|ext| - 1] == pre && ext[|ext| - 1] == q;
    assert Gather(ext, search, fetch) == g + [(q, results)];
    assert Keys(g) == pre;
    PutNewKey(g, q, results);
  }

  // ------------------------------------------------------------------- digest

  /** One result of the digest: title and at most 150 characters of snippet, always
      followed by an ellipsis. */
  function ResultLine(r: SearchResult): string {
    "- " + r.title + ": " + Take(r.snippet, DigestSnippetLimit) + "...\n"
  }

  function ResultLines(rs: seq<SearchResult>): string {
    if |rs| == 0 then "" else ResultLine(rs[0]) + ResultLines(rs[1..])
  }

  /** The block of one query: its heading and its first two results; nothing for no results. */
  function QueryBlock(q: string, rs: seq<SearchResult>): string {
    if |rs| == 0 then "" else "\n\n**" + q + ":**\n" + ResultLines(Take(rs, DigestResults))
  }

  /** The research summary of `_create_ultra_detailed_prompt`. */
  function Digest(data: ResearchData): string {
    if |data| == 0 then "" else QueryBlock(data[0].0, data[0].1) + Digest(data[1..])
  }

  /** The research data cut down to what the digest can show. */
  function Condense(data: ResearchData): (c: ResearchData)
    ensures Keys(c) == Keys(data)
    ensures forall i :: 0 <= i < |c| ==> |c[i].1| <= DigestResults
  {
    seq(|data|, i requires 0 <= i < |data| =>
      (data[i].0, seq(|Take(data[i].1, DigestResults)|, j requires 0 <= j < |Take(data[i].1, DigestResults)| =>
        var r := data[i].1[j];
        SearchResult(r.title, r.url, Take(r.snippet, DigestSnippetLimit)))))
  }

  /** The research data without the queries that found nothing. */
  function DropEmpty(data: ResearchData): (d: ResearchData)
    ensures forall i :: 0 <= i < |d| ==> |d[i].1| > 0
  {
    if |data| == 0 then []
    else (if |data[0].1| == 0 then [] else [data[0]]) + DropEmpty(data[1..])
  }

  /** Only the first two results of each query and the first 150 characters of each
      snippet reach the digest. */
  lemma {:induction false} DigestShowsOnlyTopResults(data: ResearchData)
    ensures Digest(Condense(data)) == Digest(data)
  {
    if |data| > 0 {
      var c := Condense(data);
      assert c[1..] == Condense(data[1..]);
      DigestShowsOnlyTopResults(data[1..]);
      var rs := data[0].1;
      var top := Take(rs, DigestResults);
      CondensedLines(top);
      assert c[0].1 == Condensed(top);
      assert Take(c[0].1, DigestResults) == c[0].1;
    }
  }

  function Condensed(rs: seq<SearchResult>): seq<SearchResult> {
    seq(|rs|, j requires 0 <= j < |rs| => SearchResult(rs[j].title, rs[j].url, Take(rs[j].snippet, DigestSnippetLimit)))
  }

  lemma {:induction false} CondensedLines(rs: seq<SearchResult>)
    ensures ResultLines(Condensed(rs)) == ResultLines(rs)
  {
    if |rs| > 0 {
      assert Condensed(rs)[1..] == Condensed(rs[1..]);
      CondensedLines(rs[1..]);
    }
  }

  /** Queries without results leave no trace in the digest. */
  lemma {:induction false} DigestSkipsEmptyQueries(data: ResearchData)
    ensures Digest(DropEmpty(data)) == Digest(data)
  {
    if |data| > 0 {
      DigestSkipsEmptyQueries(data[1..]);
      DigestAppend(if |data[0].1| == 0 then [] else [data[0]], DropEmpty(data[1..]));
    }
  }

  lemma {:induction false} DigestAppend(a: ResearchData, b: ResearchData)
    ensures Digest(a + b) == Digest(a) + Digest(b)
  {
    if |a| > 0 {
      assert (a + b)[1..] == a[1..] + b;
      DigestAppend(a[1..], b);
    } else {
      assert a + b == b;
    }
  }

  /** The digest is empty exactly when no query found anything (in particular for
      empty research data). */
  lemma {:induction false} DigestEmptyIff(data: ResearchData)
    ensures Digest(data) == "" <==> forall i :: 0 <= i < |data| ==> |data[i].1| == 0
  {
    if |data| > 0 {
      DigestEmptyIff(data[1..]);
      if |data[0].1| > 0 {
        assert |QueryBlock(data[0].0, data[0].1)| > 0;
      } else {
        assert forall i :: 1 <= i < |data| ==> data[i] == data[1..][i - 1];
      }
    }
  }

  // ------------------------------------------------------ research as a value

  function ResultValue(r: SearchResult): Value {
    Dict([("title", Str(r.title)), ("url", Str(r.url)), ("snippet", Str(r.snippet))])
  }

  /** The research data as stored under `research_data` in the analysis. */
  function ResearchValue(data: ResearchData): (v: Value)
    ensures v.Dict? && Keys(v.fields) == Keys(data)
  {
    Dict(seq(|data|, i requires 0 <= i < |data| =>
      (data[i].0, List(seq(|data[i].1|, j requires 0 <= j < |data[i].1| => ResultValue(data[i].1[j]))))))
  }
}
