/** String helpers with Python's semantics: `str.isspace`, `str.strip`,
    `str.startswith`/`endswith`, decimal rendering of integers, the `{:,}`
    thousands grouping with the comma replaced by a dot, and `str.title`. */
module Text {

  /** A value that may be missing; `None` also stands for a Python exception,
      and `:-` propagates it. */
  datatype Option<+T> = None | Some(value: T) {
    predicate IsFailure() {
      None?
    }

    function PropagateFailure<U>(): Option<U>
      requires None?
    {
      None
    }

    function Extract(): T
      requires Some?
    {
      value
    }
  }

  /** `c.isspace()` in Python. */
  predicate IsSpace(c: char) {
    c == ' ' || ('\t' <= c <= '\r') || ('\U{1C}' <= c <= '\U{1F}') || c == '\U{85}' || c == '\U{A0}'
    || c == '\U{1680}' || ('\U{2000}' <= c <= '\U{200A}') || c == '\U{2028}' || c == '\U{2029}'
    || c == '\U{202F}' || c == '\U{205F}' || c == '\U{3000}'
  }

  function LeadingSpaces(s: string): (n: nat)
    ensures n <= |s|
    ensures forall i :: 0 <= i < n ==> IsSpace(s[i])
    ensures n < |s| ==> !IsSpace(s[n])
  {
    if |s| == 0 || !IsSpace(s[0]) then 0 else 1 + LeadingSpaces(s[1..])
  }

  function TrailingSpaces(s: string): (n: nat)
    ensures n <= |s|
    ensures forall i :: |s| - n <= i < |s| ==> IsSpace(s[i])
    ensures n < |s| ==> !IsSpace(s[|s| - n - 1])
  {
    if |s| == 0 || !IsSpace(s[|s| - 1]) then 0 else 1 + TrailingSpaces(s[..|s| - 1])
  }

  predicate IsStripped(s: string) {
    |s| == 0 || (!IsSpace(s[0]) && !IsSpace(s[|s| - 1]))
  }

  /** `s.strip()`: the infix of `s` left after removing whitespace from both ends. */
  function Strip(s: string): (r: string)
    ensures IsStripped(r)
    ensures LeadingSpaces(s) + |r| <= |s|
    ensures r == s[LeadingSpaces(s)..LeadingSpaces(s) + |r|]
    ensures forall i :: 0 <= i < LeadingSpaces(s) ==> IsSpace(s[i])
    ensures forall i :: LeadingSpaces(s) + |r| <= i < |s| ==> IsSpace(s[i])
    ensures IsStripped(s) ==> r == s
    ensures (forall i :: 0 <= i < |s| ==> IsSpace(s[i])) ==> r == ""
  {
    var t := s[LeadingSpaces(s)..];
    t[..|t| - TrailingSpaces(t)]
  }

  predicate StartsWith(s: string, p: string) {
    |p| <= |s| && s[..|p|] == p
  }

  predicate EndsWith(s: string, p: string) {
    |p| <= |s| && s[|s| - |p|..] == p
  }

  /** `s[:n]`: at most the first `n` elements. */
  function Take<T>(s: seq<T>, n: nat): (r: seq<T>)
    ensures |r| <= n && |r| <= |s|
    ensures |s| <= n ==> r == s
    ensures |s| > n ==> |r| == n
    ensures r == s[..|r|]
  {
    if |s| <= n then s else s[..n]
  }

  predicate IsDigit(c: char) {
    '0' <= c <= '9'
  }

  function DigitChar(d: nat): (c: char)
    requires d < 10
    ensures IsDigit(c)
    ensures DigitValue(c) == d
  {
    "0123456789"[d]
  }

  /** `str(n)` for a natural number. */
  function NatToString(n: nat): (s: string)
    ensures |s| >= 1
    ensures forall i :: 0 <= i < |s| ==> IsDigit(s[i])
    ensures |s| > 1 ==> s[0] != '0'
  {
    if n < 10 then [DigitChar(n)] else NatToString(n / 10) + [DigitChar(n % 10)]
  }

  /** `str(i)` for an integer. */
  function IntToString(i: int): (s: string)
    ensures |s| >= 1
    ensures i < 0 <==> s[0] == '-'
  {
    if i < 0 then "-" + NatToString(-i) else NatToString(i)
  }

  /** The value of a string of decimal digits: the inverse of `NatToString`. */
  function DigitsValue(s: string): nat
    requires forall i :: 0 <= i < |s| ==> IsDigit(s[i])
  {
    if |s| == 0 then 0 else DigitsValue(s[..|s| - 1]) * 10 + DigitValue(s[|s| - 1])
  }

  function DigitValue(c: char): nat
    requires IsDigit(c)
  {
    c as int - '0' as int
  }

  lemma {:induction false} DigitsRoundTrip(n: nat)
    ensures DigitsValue(NatToString(n)) == n
  {
    if n >= 10 {
      var s := NatToString(n);
      assert s[..|s| - 1] == NatToString(n / 10);
      DigitsRoundTrip(n / 10);
    }
  }

  /** Three digits with leading zeros: one full group of the thousands format. */
  function Pad3(n: nat): (s: string)
    requires n < 1000
    ensures |s| == 3 && forall i :: 0 <= i < 3 ==> IsDigit(s[i])
  {
    [DigitChar(n / 100), DigitChar(n / 10 % 10), DigitChar(n % 10)]
  }

  /** `f"{n:,}".replace(',', '.')` for a natural number. */
  function GroupThousands(n: nat): (s: string)
    ensures |s| >= 1
  {
    if n < 1000 then NatToString(n) else GroupThousands(n / 1000) + "." + Pad3(n % 1000)
  }

  /** `f"{i:,}".replace(',', '.')`: the sign stays in front of the grouped digits. */
  function FormatThousands(i: int): (s: string)
    ensures |s| >= 1
  {
    if i < 0 then "-" + GroupThousands(-i) else GroupThousands(i)
  }

  function RemoveDots(s: string): (r: string)
    ensures |r| <= |s|
    ensures forall i :: 0 <= i < |r| ==> r[i] != '.'
  {
    if |s| == 0 then "" else (if s[0] == '.' then "" else [s[0]]) + RemoveDots(s[1..])
  }

  lemma {:induction false} RemoveDotsAppend(a: string, b: string)
    ensures RemoveDots(a + b) == RemoveDots(a) + RemoveDots(b)
  {
    if |a| > 0 {
      assert (a + b)[1..] == a[1..] + b;
      RemoveDotsAppend(a[1..], b);
    } else {
      assert a + b == b;
    }
  }

  lemma {:induction false} RemoveDotsNoDots(s: string)
    requires forall i :: 0 <= i < |s| ==> s[i] != '.'
    ensures RemoveDots(s) == s
  {
    if |s| > 0 {
      RemoveDotsNoDots(s[1..]);
    }
  }

  /** The last three digits of a number of at least four digits form `Pad3` of its remainder. */
  lemma NatToStringSplit(n: nat)
    requires n >= 1000
    ensures NatToString(n) == NatToString(n / 1000) + Pad3(n % 1000)
  {
    var a, b, c, m := n / 10, n / 100, n / 1000, n % 1000;
    ThousandDigits(n);
    assert NatToString(n) == NatToString(a) + [DigitChar(n % 10)];
    assert NatToString(a) == NatToString(b) + [DigitChar(a % 10)];
    assert NatToString(b) == NatToString(c) + [DigitChar(b % 10)];
    assert Pad3(m) == [DigitChar(b % 10), DigitChar(a % 10), DigitChar(n % 10)];
  }

  /** The three last decimal digits of `n`, read off `n` and off `n % 1000`. */
  lemma ThousandDigits(n: nat)
    ensures n / 10 / 10 == n / 100 && n / 100 / 10 == n / 1000
    ensures n / 100 % 10 == n % 1000 / 100
    ensures n / 10 % 10 == n % 1000 / 10 % 10
    ensures n % 10 == n % 1000 % 10
  {
  }

  /** Dropping the group separators gives back the plain decimal rendering. */
  lemma {:induction false} GroupThousandsDigits(n: nat)
    ensures RemoveDots(GroupThousands(n)) == NatToString(n)
  {
    if n < 1000 {
      RemoveDotsNoDots(NatToString(n));
    } else {
      GroupThousandsDigits(n / 1000);
      RemoveDotsJoin(GroupThousands(n / 1000), Pad3(n % 1000));
      NatToStringSplit(n);
    }
  }

  /** A dot between two parts disappears, and a dot-free right part stays as it is. */
  lemma RemoveDotsJoin(g: string, p: string)
    requires forall i :: 0 <= i < |p| ==> IsDigit(p[i])
    ensures RemoveDots(g + "." + p) == RemoveDots(g) + p
  {
    var tail := "." + p;
    assert g + "." + p == g + tail;
    RemoveDotsAppend(g, tail);
    RemoveDotsLeadingDot(p);
    RemoveDotsNoDots(p);
  }

  lemma RemoveDotsLeadingDot(p: string)
    ensures RemoveDots("." + p) == RemoveDots(p)
  {
    assert ("." + p)[0] == '.';
    assert ("." + p)[1..] == p;
  }

  /** Reads back digits grouped by dots. */
  function ParseGrouped(s: string): Option<nat> {
    var body := RemoveDots(s);
    if |body| > 0 && forall i :: 0 <= i < |body| ==> IsDigit(body[i]) then Some(DigitsValue(body)) else None
  }

  /** Reads back a number written by `FormatThousands`: an optional minus sign,
      then digits and dots. */
  function ParseThousands(s: string): Option<int> {
    if |s| > 0 && s[0] == '-' then
      match ParseGrouped(s[1..])
      case Some(n) => Some(-(n as int))
      case None => None
    else
      match ParseGrouped(s)
      case Some(n) => Some(n as int)
      case None => None
  }

  lemma GroupedRoundTrip(n: nat)
    ensures ParseGrouped(GroupThousands(n)) == Some(n)
  {
    GroupThousandsDigits(n);
    DigitsRoundTrip(n);
  }

  /** Round trip: the grouped rendering of an integer reads back as that integer. */
  lemma FormatThousandsRoundTrip(i: int)
    ensures ParseThousands(FormatThousands(i)) == Some(i)
  {
    var m: nat := if i < 0 then -i else i;
    GroupedRoundTrip(m);
    GroupThousandsLeadingDigit(m);
    var s := FormatThousands(i);
    if i < 0 {
      assert s[1..] == GroupThousands(m);
    }
  }

  lemma {:induction false} GroupThousandsLeadingDigit(n: nat)
    ensures IsDigit(GroupThousands(n)[0])
  {
    if n >= 1000 {
      GroupThousandsLeadingDigit(n / 1000);
    }
  }

  predicate IsAsciiLetter(c: char) {
    ('a' <= c <= 'z') || ('A' <= c <= 'Z')
  }

  function ToUpper(c: char): char {
    if 'a' <= c <= 'z' then (c as int - 32) as char else c
  }

  function ToLower(c: char): char {
    if 'A' <= c <= 'Z' then (c as int + 32) as char else c
  }

  /** `s.title()` for ASCII letters: a letter that follows a letter is lowered,
      any other letter is raised; other characters are kept. */
  function TitleCase(s: string): (r: string)
    ensures |r| == |s|
  {
    TitleFrom(s, false)
  }

  function TitleFrom(s: string, afterLetter: bool): (r: string)
    ensures |r| == |s|
  {
    if |s| == 0 then ""
    else
      var c := s[0];
      var c' := if !IsAsciiLetter(c) then c else if afterLetter then ToLower(c) else ToUpper(c);
      [c'] + TitleFrom(s[1..], IsAsciiLetter(c))
  }

  predicate IsLowerWord(w: string) {
    forall i :: 0 <= i < |w| ==> 'a' <= w[i] <= 'z'
  }

  /** A word of lower-case letters comes out of `title()` with only its first letter raised. */
  lemma {:induction false} TitleCaseLowerWord(w: string)
    requires |w| > 0 && IsLowerWord(w)
    ensures TitleCase(w) == [ToUpper(w[0])] + w[1..]
  {
    TitleFromLowerTail(w[1..]);
  }

  lemma {:induction false} TitleFromLowerTail(w: string)
    requires IsLowerWord(w)
    ensures TitleFrom(w, true) == w
  {
    if |w| > 0 {
      TitleFromLowerTail(w[1..]);
    }
  }

  /** `s.replace(pat, rep)`: every non-overlapping occurrence, left to right. */
  function Replace(s: string, pat: string, rep: string): (r: string)
    requires |pat| > 0
    decreases |s|
  {
    if |s| < |pat| then s
    else if s[..|pat|] == pat then rep + Replace(s[|pat|..], pat, rep)
    else [s[0]] + Replace(s[1..], pat, rep)
  }

  /** A string without the character `c` contains no occurrence of a pattern that has it. */
  lemma {:induction false} ReplaceAbsent(s: string, pat: string, rep: string, c: char)
    requires |pat| > 0 && c in pat && c !in s
    ensures Replace(s, pat, rep) == s
    decreases |s|
  {
    if |s| >= |pat| {
      assert s[..|pat|] != pat by {
        var k :| 0 <= k < |pat| && pat[k] == c;
        assert s[k] != c;
      }
      ReplaceAbsent(s[1..], pat, rep, c);
    }
  }
}
