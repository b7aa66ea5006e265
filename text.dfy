/** Python `str` operations the core relies on, on `seq<char>`.
    Case mapping covers ASCII and the Latin-1 letters, with 'ÿ' and its
    capital 'Ÿ' (U+0178); 'ß' and 'µ', whose Python upper cases are "SS" and a
    Greek letter, and every other script are left unchanged. Whitespace is the set Python's `str.isspace`
    (and therefore `strip()`, `split()` and the regex class `\s`) accepts. */
module Text {

  /** `c.isspace()` in Python 3. */
  predicate IsSpace(c: char)
  {
    var n := c as int;
    n == 0x20 || 0x09 <= n <= 0x0d || 0x1c <= n <= 0x1f || n == 0x85 || n == 0xa0
    || n == 0x1680 || 0x2000 <= n <= 0x200a || n == 0x2028 || n == 0x2029
    || n == 0x202f || n == 0x205f || n == 0x3000
  }

  /** The regex class `\d`, restricted to ASCII digits. */
  predicate IsDigit(c: char) { '0' <= c <= '9' }

  predicate IsAsciiUpper(c: char) { 'A' <= c <= 'Z' }

  predicate IsAsciiLower(c: char) { 'a' <= c <= 'z' }

  /** The Latin-1 capitals 'À' to 'Þ' (not '×'), 32 code points below their lower cases. */
  predicate IsLatinUpper(c: char) { 0xc0 <= c as int <= 0xde && c as int != 0xd7 }

  predicate IsLatinLower(c: char) { 0xe0 <= c as int <= 0xfe && c as int != 0xf7 }

  const SmallYDiaeresis: char := '\U{00ff}'
  const CapitalYDiaeresis: char := '\U{0178}'

  function DigitValue(c: char): nat
    requires IsDigit(c)
  {
    (c as int) - ('0' as int)
  }

  // ---------------------------------------------------------------------------
  // strip

  /** `s.lstrip()`: the suffix left after dropping leading whitespace. */
  function LStrip(s: string): (r: string)
    ensures |r| <= |s| && r == s[|s| - |r|..]
    ensures r == [] || !IsSpace(r[0])
    ensures forall i :: 0 <= i < |s| - |r| ==> IsSpace(s[i])
  {
    if |s| > 0 && IsSpace(s[0]) then LStrip(s[1..]) else s
  }

  /** `s.rstrip()`: the prefix left after dropping trailing whitespace. */
  function RStrip(s: string): (r: string)
    ensures |r| <= |s| && r == s[..|r|]
    ensures r == [] || !IsSpace(r[|r| - 1])
    ensures forall i :: |r| <= i < |s| ==> IsSpace(s[i])
  {
    if |s| > 0 && IsSpace(s[|s| - 1]) then RStrip(s[..|s| - 1]) else s
  }

  /** `s.strip()`. The result is the slice of `s` starting at `StripOffset(s)`,
      and neither end of it is whitespace. */
  function Strip(s: string): (r: string)
    ensures |r| <= |s|
    ensures StripOffset(s) + |r| <= |s| && r == s[StripOffset(s)..StripOffset(s) + |r|]
    ensures r == [] || (!IsSpace(r[0]) && !IsSpace(r[|r| - 1]))
  {
    var l := LStrip(s);
    var r := RStrip(l);
    assert r != [] ==> r[0] == l[0];
    assert s[|s| - |l|..][..|r|] == s[|s| - |l|..|s| - |l| + |r|];
    r
  }

  function StripOffset(s: string): nat
  {
    |s| - |LStrip(s)|
  }

  lemma StripKeepsChars(s: string, c: char)
    requires c !in s
    ensures c !in Strip(s)
  {
  }

  lemma StripNoSpaceAround(s: string)
    requires s == [] || (!IsSpace(s[0]) && !IsSpace(s[|s| - 1]))
    ensures Strip(s) == s
  {
  }

  // ---------------------------------------------------------------------------
  // find / in

  predicate StartsWith(s: string, p: string)
  {
    |p| <= |s| && s[..|p|] == p
  }

  predicate EndsWith(s: string, p: string)
  {
    |p| <= |s| && s[|s| - |p|..] == p
  }

  /** `pat` occurs in `s` at index `i`. */
  predicate OccursAt(s: string, pat: string, i: nat)
  {
    i + |pat| <= |s| && s[i..i + |pat|] == pat
  }

  lemma OccursShift(s: string, pat: string, j: nat)
    requires |s| > 0
    ensures OccursAt(s[1..], pat, j) <==> OccursAt(s, pat, j + 1)
  {
    if j + |pat| <= |s| - 1 {
      assert s[1..][j..j + |pat|] == s[j + 1..j + 1 + |pat|];
    }
  }

  /** `s.find(pat)`: the leftmost occurrence, or -1. */
  function Find(s: string, pat: string): (r: int)
    ensures -1 <= r <= |s|
    ensures r >= 0 ==> OccursAt(s, pat, r)
    ensures r >= 0 ==> forall j: nat :: j < r ==> !OccursAt(s, pat, j)
    ensures r == -1 ==> forall j: nat :: !OccursAt(s, pat, j)
    decreases |s|
  {
    if |s| < |pat| then -1
    else if s[..|pat|] == pat then 0
    else
      var k := Find(s[1..], pat);
      FindShift(s, pat, k);
      if k == -1 then -1 else k + 1
  }

  /** The occurrences in `s` after its first position are those of `s[1..]`,
      shifted by one. */
  lemma FindShift(s: string, pat: string, k: int)
    requires |s| > 0 && !OccursAt(s, pat, 0)
    requires -1 <= k
    requires k >= 0 ==> OccursAt(s[1..], pat, k) && forall j: nat :: j < k ==> !OccursAt(s[1..], pat, j)
    requires k == -1 ==> forall j: nat :: !OccursAt(s[1..], pat, j)
    ensures k >= 0 ==> OccursAt(s, pat, k + 1) && forall j: nat :: j < k + 1 ==> !OccursAt(s, pat, j)
    ensures k == -1 ==> forall j: nat :: !OccursAt(s, pat, j)
  {
    forall j: nat ensures OccursAt(s[1..], pat, j) <==> OccursAt(s, pat, j + 1) {
      OccursShift(s, pat, j);
    }
    forall j: nat | j > 0 && (k == -1 || j < k + 1) ensures !OccursAt(s, pat, j) {
      assert !OccursAt(s[1..], pat, j - 1);
    }
  }

  /** An occurrence with no earlier copy of the pattern's first character is
      the one `find` reports. */
  lemma FindAt(s: string, pat: string, k: nat)
    requires |pat| > 0 && OccursAt(s, pat, k)
    requires forall j :: 0 <= j < k ==> s[j] != pat[0]
    ensures Find(s, pat) == k
  {
    var r := Find(s, pat);
    assert r >= 0;
    assert s[r..r + |pat|][0] == s[r];
  }

  /** Python's `pat in s` for strings. */
  predicate Contains(s: string, pat: string)
  {
    Find(s, pat) >= 0
  }

  lemma ContainsAt(s: string, pat: string, i: nat)
    requires OccursAt(s, pat, i)
    ensures Contains(s, pat)
  {
  }

  lemma NotContainsSlice(s: string, pat: string, a: nat, b: nat)
    requires a <= b <= |s|
    requires !Contains(s, pat)
    ensures !Contains(s[a..b], pat)
  {
    var t := s[a..b];
    if Contains(t, pat) {
      OccursInSlice(s, a, b, pat, Find(t, pat));
    }
  }

  lemma StripNotContains(s: string, pat: string)
    requires !Contains(s, pat)
    ensures !Contains(Strip(s), pat)
  {
    var r := Strip(s);
    var o := StripOffset(s);
    NotContainsSlice(s, pat, o, o + |r|);
    assert s[o..o + |r|] == r;
  }

  /** A text without the pattern's first character does not contain it. */
  lemma NoFirstCharNotContains(s: string, pat: string)
    requires |pat| > 0 && pat[0] !in s
    ensures !Contains(s, pat)
  {
    var k := Find(s, pat);
    NotOccursAtChar(s, pat, if k >= 0 then k else 0);
  }

  lemma NotOccursAtChar(s: string, pat: string, j: nat)
    requires |pat| > 0 && pat[0] !in s
    ensures !OccursAt(s, pat, j)
  {
    if j + |pat| <= |s| {
      assert s[j..j + |pat|][0] == s[j];
    }
  }

  lemma EndsWithContains(s: string, p: string)
    requires EndsWith(s, p)
    ensures Contains(s, p)
  {
    assert OccursAt(s, p, |s| - |p|);
  }

  lemma StartsWithContains(s: string, p: string)
    requires StartsWith(s, p)
    ensures Contains(s, p)
  {
    assert OccursAt(s, p, 0);
  }

  /** A single-character pattern occurs exactly where the character does. */
  lemma ContainsChar(s: string, c: char)
    ensures Contains(s, [c]) <==> c in s
  {
    if c in s {
      var k :| 0 <= k < |s| && s[k] == c;
      assert s[k..k + 1] == [c];
      assert OccursAt(s, [c], k);
    }
    if Contains(s, [c]) {
      var i := Find(s, [c]);
      assert s[i..i + 1] == [c];
      assert s[i] == c;
    }
  }

  /** The index of the first `c` in `s`, or -1 (`s.find(c)`). */
  function FindChar(s: string, c: char): (r: int)
    ensures -1 <= r < |s|
    ensures r >= 0 ==> s[r] == c && forall j :: 0 <= j < r ==> s[j] != c
    ensures r == -1 ==> forall j :: 0 <= j < |s| ==> s[j] != c
  {
    if |s| == 0 then -1
    else if s[0] == c then 0
    else
      var k := FindChar(s[1..], c);
      if k == -1 then -1 else k + 1
  }

  /** The index of the last `c` in `s`, or -1 (`s.rfind(c)`). */
  function RFindChar(s: string, c: char): (r: int)
    ensures -1 <= r < |s|
    ensures r >= 0 ==> s[r] == c && forall j :: r < j < |s| ==> s[j] != c
    ensures r == -1 ==> forall j :: 0 <= j < |s| ==> s[j] != c
  {
    if |s| == 0 then -1
    else if s[|s| - 1] == c then |s| - 1
    else RFindChar(s[..|s| - 1], c)
  }

  // ---------------------------------------------------------------------------
  // split / join / replace

  /** `s.split(sep)` for a non-empty separator: cut at each leftmost,
      non-overlapping occurrence. */
  function Split(s: string, sep: string): (parts: seq<string>)
    requires |sep| > 0
    ensures |parts| >= 1
    decreases |s|
  {
    var i := Find(s, sep);
    if i < 0 then [s] else [s[..i]] + Split(s[i + |sep|..], sep)
  }

  /** An occurrence in a prefix is an occurrence in the whole text. */
  lemma PrefixOccurrences(s: string, n: nat, pat: string)
    requires n <= |s|
    ensures forall j: nat :: OccursAt(s[..n], pat, j) ==> OccursAt(s, pat, j) && j + |pat| <= n
  {
    forall j: nat | OccursAt(s[..n], pat, j) ensures OccursAt(s, pat, j) && j + |pat| <= n {
      assert s[..n][j..j + |pat|] == s[j..j + |pat|];
    }
  }

  /** An occurrence in a slice is an occurrence in the whole text, shifted
      by the slice's start. */
  lemma OccursInSlice(s: string, a: nat, b: nat, pat: string, j: nat)
    requires a <= b <= |s| && OccursAt(s[a..b], pat, j)
    ensures OccursAt(s, pat, a + j)
  {
    var t := s[a..b];
    var u := t[j..j + |pat|];
    var v := s[a + j..a + j + |pat|];
    forall k | 0 <= k < |pat| ensures u[k] == v[k] {
      assert t[j + k] == s[a + j + k];
    }
    assert u == v;
  }

  /** The text before the first occurrence does not contain the pattern. */
  lemma NothingBeforeFind(s: string, pat: string)
    requires |pat| > 0 && Find(s, pat) >= 0
    ensures !Contains(s[..Find(s, pat)], pat)
  {
    var i := Find(s, pat);
    PrefixOccurrences(s, i, pat);
    assert forall j: nat :: !OccursAt(s[..i], pat, j);
  }

  /** No piece of a split contains the separator. */
  lemma {:induction false} SplitPiecesFree(s: string, sep: string, k: nat)
    requires |sep| > 0
    requires k < |Split(s, sep)|
    ensures !Contains(Split(s, sep)[k], sep)
    decreases |s|
  {
    var i := Find(s, sep);
    if i < 0 {
      assert Split(s, sep) == [s];
    } else {
      var rest := s[i + |sep|..];
      assert Split(s, sep) == [s[..i]] + Split(rest, sep);
      if k == 0 {
        NothingBeforeFind(s, sep);
      } else {
        assert Split(s, sep)[k] == Split(rest, sep)[k - 1];
        SplitPiecesFree(rest, sep, k - 1);
      }
    }
  }

  /** When `s` starts with `sep`, the first piece is empty and the second is
      the text up to the next occurrence of `sep`. */
  lemma SplitAfterLeadingSep(s: string, sep: string)
    requires |sep| > 0 && StartsWith(s, sep)
    ensures |Split(s, sep)| >= 2
    ensures Split(s, sep)[0] == ""
    ensures Split(s, sep)[1] == Split(s[|sep|..], sep)[0]
  {
    assert OccursAt(s, sep, 0);
    assert Find(s, sep) == 0;
  }

  function Join(parts: seq<string>, sep: string): string
  {
    if |parts| == 0 then ""
    else if |parts| == 1 then parts[0]
    else parts[0] + sep + Join(parts[1..], sep)
  }

  /** Splitting and re-joining with the same separator gives back the text. */
  lemma {:induction false} JoinSplit(s: string, sep: string)
    requires |sep| > 0
    ensures Join(Split(s, sep), sep) == s
    decreases |s|
  {
    var i := Find(s, sep);
    if i >= 0 {
      var rest := s[i + |sep|..];
      var tail := Split(rest, sep);
      var parts := [s[..i]] + tail;
      assert Split(s, sep) == parts;
      assert parts[1..] == tail;
      JoinSplit(rest, sep);
      assert Join(parts, sep) == s[..i] + sep + Join(tail, sep);
      assert s[i..i + |sep|] == sep;
      assert s == s[..i] + s[i..i + |sep|] + rest;
    }
  }

  lemma {:induction false} JoinSnoc(parts: seq<string>, x: string, sep: string)
    requires |parts| >= 1
    ensures Join(parts + [x], sep) == Join(parts, sep) + sep + x
    decreases |parts|
  {
    if |parts| > 1 {
      assert (parts + [x])[1..] == parts[1..] + [x];
      JoinSnoc(parts[1..], x, sep);
    }
  }

  /** Pieces free of a one-character separator come back from splitting
      their join. */
  lemma {:induction false} SplitJoinChar(parts: seq<string>, c: char)
    requires |parts| >= 1
    requires forall k :: 0 <= k < |parts| ==> c !in parts[k]
    ensures Split(Join(parts, [c]), [c]) == parts
    decreases |parts|
  {
    var s := Join(parts, [c]);
    if |parts| == 1 {
      ContainsChar(s, c);
    } else {
      var p := parts[0];
      var rest := Join(parts[1..], [c]);
      assert s == p + [c] + rest;
      assert s[|p|..|p| + 1] == [c];
      forall j | 0 <= j < |p|
        ensures s[j] != [c][0]
      {
        assert s[j] == p[j];
      }
      FindAt(s, [c], |p|);
      assert s[|p| + 1..] == rest && s[..|p|] == p;
      assert Split(s, [c]) == [p] + Split(rest, [c]);
      SplitJoinChar(parts[1..], c);
      assert [p] + parts[1..] == parts;
    }
  }

  /** `s.replace(pat, repl)` for a non-empty `pat`. */
  function Replace(s: string, pat: string, repl: string): string
    requires |pat| > 0
  {
    Join(Split(s, pat), repl)
  }

  /** Text without the pattern is left alone. */
  lemma ReplaceAbsent(s: string, pat: string, repl: string)
    requires |pat| > 0 && !Contains(s, pat)
    ensures Replace(s, pat, repl) == s
  {
  }

  /** Replacing every occurrence of a character by text without it leaves
      no occurrence. */
  lemma ReplaceRemovesChar(s: string, c: char, repl: string)
    requires c !in repl
    ensures c !in Replace(s, [c], repl)
  {
    var parts := Split(s, [c]);
    forall k | 0 <= k < |parts| ensures c !in parts[k] {
      SplitPiecesFree(s, [c], k);
      ContainsChar(parts[k], c);
    }
    JoinFree(parts, repl, c);
  }

  lemma {:induction false} JoinFree(parts: seq<string>, sep: string, c: char)
    requires c !in sep
    requires forall k :: 0 <= k < |parts| ==> c !in parts[k]
    ensures c !in Join(parts, sep)
    decreases |parts|
  {
    if |parts| > 1 {
      JoinFree(parts[1..], sep, c);
    }
  }

  /** `s.split()` with no argument: the maximal runs of non-whitespace. */
  function Words(s: string): (ws: seq<string>)
    ensures forall k :: 0 <= k < |ws| ==> ws[k] != [] && forall c :: c in ws[k] ==> !IsSpace(c)
    decreases |s|
  {
    var t := LStrip(s);
    if t == [] then []
    else
      var n := WordEnd(t);
      var rest := Words(t[n..]);
      WordHasNoSpace(t, n);
      WordsCons(t[..n], rest);
      [t[..n]] + rest
  }

  /** A leading run without whitespace is a non-empty word. */
  lemma WordHasNoSpace(t: string, n: nat)
    requires 0 < n <= |t| && forall i :: 0 <= i < n ==> !IsSpace(t[i])
    ensures t[..n] != [] && forall c :: c in t[..n] ==> !IsSpace(c)
  {
  }

  /** A word in front of words is still a list of words. */
  lemma WordsCons(w: string, rest: seq<string>)
    requires w != [] && forall c :: c in w ==> !IsSpace(c)
    requires forall k :: 0 <= k < |rest| ==> rest[k] != [] && forall c :: c in rest[k] ==> !IsSpace(c)
    ensures var ws := [w] + rest;
      forall k :: 0 <= k < |ws| ==> ws[k] != [] && forall c :: c in ws[k] ==> !IsSpace(c)
  {
    var ws := [w] + rest;
    forall k | 0 <= k < |ws|
      ensures ws[k] != [] && forall c :: c in ws[k] ==> !IsSpace(c)
    {
      if k > 0 {
        assert ws[k] == rest[k - 1];
      }
    }
  }

  /** Index of the first whitespace character, or the length. */
  function WordEnd(t: string): (n: nat)
    requires t != [] && !IsSpace(t[0])
    ensures 0 < n <= |t|
    ensures forall i :: 0 <= i < n ==> !IsSpace(t[i])
    ensures n < |t| ==> IsSpace(t[n])
  {
    if |t| == 1 || IsSpace(t[1]) then 1 else 1 + WordEnd(t[1..])
  }

  // ---------------------------------------------------------------------------
  // case mapping and slicing

  function UpperChar(c: char): char
  {
    if IsAsciiLower(c) || IsLatinLower(c) then ((c as int) - 32) as char
    else if c == SmallYDiaeresis then CapitalYDiaeresis
    else c
  }

  function LowerChar(c: char): char
  {
    if IsAsciiUpper(c) || IsLatinUpper(c) then ((c as int) + 32) as char
    else if c == CapitalYDiaeresis then SmallYDiaeresis
    else c
  }

  /** `s.upper()`. */
  function Upper(s: string): (r: string)
    ensures |r| == |s|
    ensures forall i :: 0 <= i < |s| ==> r[i] == UpperChar(s[i])
  {
    seq(|s|, i requires 0 <= i < |s| => UpperChar(s[i]))
  }

  /** Upper-casing twice is upper-casing once. */
  lemma UpperIdempotent(s: string)
    ensures Upper(Upper(s)) == Upper(s)
  {
  }

  /** `s.lower()`. */
  function Lower(s: string): (r: string)
    ensures |r| == |s|
    ensures forall i :: 0 <= i < |s| ==> r[i] == LowerChar(s[i])
  {
    seq(|s|, i requires 0 <= i < |s| => LowerChar(s[i]))
  }

  /** Upper-casing ignores an earlier lower-casing. */
  lemma {:induction false} UpperOfLower(s: string)
    ensures Upper(Lower(s)) == Upper(s)
  {
    forall i | 0 <= i < |s|
      ensures Upper(Lower(s))[i] == Upper(s)[i]
    {
      var c := s[i];
      if IsAsciiUpper(c) || IsLatinUpper(c) {
        assert LowerChar(c) as int == c as int + 32;
      }
    }
  }

  /** Lower-casing ignores an earlier upper-casing. */
  lemma {:induction false} LowerOfUpper(s: string)
    ensures Lower(Upper(s)) == Lower(s)
  {
    forall i | 0 <= i < |s|
      ensures Lower(Upper(s))[i] == Lower(s)[i]
    {
      var c := s[i];
      if IsAsciiLower(c) || IsLatinLower(c) {
        assert UpperChar(c) as int == c as int - 32;
      }
    }
  }

  /** Upper-casing commutes with taking a prefix. */
  lemma UpperTake(s: string, n: nat)
    ensures Upper(Take(s, n)) == Take(Upper(s), n)
  {
  }

  /** `s.capitalize()`: first character upper-cased, the rest lower-cased. */
  function Capitalize(s: string): (r: string)
    ensures |r| == |s|
  {
    if s == [] then [] else [UpperChar(s[0])] + Lower(s[1..])
  }

  /** `c * n` for a character: empty for `n <= 0`. */
  function Repeat(c: char, n: int): (r: string)
    ensures |r| == (if n > 0 then n else 0)
    ensures forall i :: 0 <= i < |r| ==> r[i] == c
  {
    if n <= 0 then [] else seq(n, i => c)
  }

  /** The cells of a text progress bar. */
  const Filled: char := '█'
  const Empty: char := '░'

  /** `"█" * filled + "░" * (width - filled)`. */
  function Cells(filled: int, width: int): string
  {
    Repeat(Filled, filled) + Repeat(Empty, width - filled)
  }

  /** With `0 <= filled <= width` the bar is `width` cells long and its
      first `filled` cells are the filled ones. */
  lemma CellsShape(filled: int, width: int)
    requires 0 <= filled <= width
    ensures |Cells(filled, width)| == width
    ensures forall i :: 0 <= i < width ==> (Cells(filled, width)[i] == Filled <==> i < filled)
  {
    var cells := Cells(filled, width);
    forall i | 0 <= i < width
      ensures cells[i] == Filled <==> i < filled
    {
      if i >= filled {
        assert cells[i] == Repeat(Empty, width - filled)[i - filled];
      }
    }
  }

  /** `s[:n]` for `n >= 0`. */
  function Take<T>(s: seq<T>, n: nat): (r: seq<T>)
    ensures |r| == if n <= |s| then n else |s|
    ensures r == s[..|r|]
  {
    if n <= |s| then s[..n] else s
  }

  /** Python's `str(n)` for a non-negative integer. */
  function NatToString(n: nat): (r: string)
    ensures r != []
    ensures forall c :: c in r ==> IsDigit(c)
  {
    if n < 10 then [DigitChar(n)] else NatToString(n / 10) + [DigitChar(n % 10)]
  }

  function DigitChar(d: nat): (c: char)
    requires d < 10
    ensures IsDigit(c)
  {
    ((d + ('0' as int)) as char)
  }
}
