/** The JavaScript string operations the services rely on, over `string`
    (a sequence of Unicode scalar values): toLowerCase/toUpperCase (ASCII
    letters only), includes, indexOf, lastIndexOf, substring, a global
    literal replace with '', trim, and the decimal rendering of a
    non-negative integer. */
module JsText {

  predicate IsUpper(c: char) { 'A' <= c <= 'Z' }

  predicate IsLower(c: char) { 'a' <= c <= 'z' }

  /** Lower-cases one ASCII letter; every other character is kept. */
  function LowerChar(c: char): (r: char)
    ensures !IsUpper(r)
    ensures IsUpper(c) ==> IsLower(r) && r as int - c as int == 32
    ensures !IsUpper(c) ==> r == c
  {
    if IsUpper(c) then (c as int + 32) as char else c
  }

  /** Upper-cases one ASCII letter; every other character is kept. */
  function UpperChar(c: char): (r: char)
    ensures !IsLower(r)
    ensures IsLower(c) ==> IsUpper(r) && c as int - r as int == 32
    ensures !IsLower(c) ==> r == c
  {
    if IsLower(c) then (c as int - 32) as char else c
  }

  /** `s.toLowerCase()` */
  function ToLower(s: string): (r: string)
    ensures |r| == |s|
    ensures forall i :: 0 <= i < |s| ==> r[i] == LowerChar(s[i])
  {
    seq(|s|, i requires 0 <= i < |s| => LowerChar(s[i]))
  }

  /** Lower-casing twice is lower-casing once: a lower-cased string has no
      upper-case letter left to change. */
  lemma ToLowerIdempotent(s: string)
    ensures ToLower(ToLower(s)) == ToLower(s)
  {
    var t := ToLower(s);
    assert forall i :: 0 <= i < |t| ==> LowerChar(t[i]) == t[i];
  }

  /** `s.charAt(0).toUpperCase() + s.slice(1)`; `charAt(0)` of the empty
      string is the empty string. */
  function Capitalise(s: string): (r: string)
    ensures |r| == |s|
    ensures |s| > 0 ==> r[0] == UpperChar(s[0]) && r[1..] == s[1..]
  {
    if |s| == 0 then "" else [UpperChar(s[0])] + s[1..]
  }

  /** `p` occurs in `s` starting at index `i`. */
  predicate OccursAt(s: string, p: string, i: int)
  {
    0 <= i && i + |p| <= |s| && s[i..i + |p|] == p
  }

  /** An occurrence inside an occurrence is an occurrence. */
  lemma OccursWithin(s: string, r: string, p: string, k: int, i: int)
    requires OccursAt(s, r, k) && OccursAt(r, p, i)
    ensures OccursAt(s, p, k + i)
  {
    var a := s[k + i..k + i + |p|];
    forall j | 0 <= j < |p| ensures a[j] == p[j] {
      assert a[j] == s[k + i + j] && p[j] == r[i + j];
    }
  }

  /** An occurrence past the first character is an occurrence in the rest. */
  lemma OccursInTail(c: char, t: string, p: string, i: int)
    requires OccursAt([c] + t, p, i) && i > 0
    ensures OccursAt(t, p, i - 1)
  {
    var s := [c] + t;
    var a := t[i - 1..i - 1 + |p|];
    forall j | 0 <= j < |p| ensures a[j] == p[j] {
      assert a[j] == s[i + j] && p[j] == s[i..i + |p|][j];
    }
  }

  /** `s.includes(p)` */
  function Contains(s: string, p: string): (r: bool)
    ensures r <==> exists i :: OccursAt(s, p, i)
  {
    if |p| > |s| then
      false
    else if s[..|p|] == p then
      assert OccursAt(s, p, 0);
      true
    else
      var rest := Contains(s[1..], p);
      if rest then
        var i :| OccursAt(s[1..], p, i);
        assert OccursAt(s, p, i + 1) by { assert s[i + 1..i + 1 + |p|] == s[1..][i..i + |p|]; }
        true
      else
        assert forall i | OccursAt(s, p, i) :: i == 0 || OccursAt(s[1..], p, i - 1) by {
          forall i | OccursAt(s, p, i) && i != 0 ensures OccursAt(s[1..], p, i - 1) {
            assert s[1..][i - 1..i - 1 + |p|] == s[i..i + |p|];
          }
        }
        false
  }

  /** A pattern does not occur when no position it could start at holds
      its first character. */
  lemma AbsentFirstChar(s: string, p: string)
    requires |p| > 0
    requires forall i :: 0 <= i <= |s| - |p| ==> s[i] != p[0]
    ensures !Contains(s, p)
  {
    forall i ensures !OccursAt(s, p, i) {
      if 0 <= i && i + |p| <= |s| {
        assert s[i..i + |p|][0] == s[i];
      }
    }
  }

  /** A pattern does not occur when no position it could start at holds
      its first two characters. */
  lemma AbsentFirstTwo(s: string, p: string)
    requires |p| > 1
    requires forall i :: 0 <= i <= |s| - |p| ==> s[i] != p[0] || s[i + 1] != p[1]
    ensures !Contains(s, p)
  {
    forall i ensures !OccursAt(s, p, i) {
      if 0 <= i && i + |p| <= |s| {
        assert s[i..i + |p|][0] == s[i] && s[i..i + |p|][1] == s[i + 1];
      }
    }
  }

  /** `s.indexOf(c)`: the first index holding `c`, or -1. */
  function IndexOf(s: string, c: char): (r: int)
    ensures -1 <= r < |s|
    ensures r == -1 <==> c !in s
    ensures r >= 0 ==> s[r] == c && c !in s[..r]
  {
    if |s| == 0 then -1
    else if s[0] == c then 0
    else
      var k := IndexOf(s[1..], c);
      if k == -1 then -1
      else
        assert s[..k + 1] == [s[0]] + s[1..][..k];
        k + 1
  }

  /** `s.lastIndexOf(c)`: the last index holding `c`, or -1. */
  function LastIndexOf(s: string, c: char): (r: int)
    ensures -1 <= r < |s|
    ensures r == -1 <==> c !in s
    ensures r >= 0 ==> s[r] == c && c !in s[r + 1..]
  {
    LastIndexBefore(s, c, |s|)
  }

  /** The last index below `n` holding `c`, or -1; the search runs
      backwards from `n`. */
  function LastIndexBefore(s: string, c: char, n: nat): (r: int)
    requires n <= |s|
    ensures -1 <= r < n
    ensures r >= 0 ==> s[r] == c
    ensures forall i :: r < i < n ==> s[i] != c
  {
    if n == 0 then -1
    else if s[n - 1] == c then n - 1
    else LastIndexBefore(s, c, n - 1)
  }

  function Clamp(x: int, n: nat): (r: nat)
    ensures r <= n
    ensures 0 <= x <= n ==> r == x
  {
    if x < 0 then 0 else if x > n then n else x
  }

  /** `s.substring(start, end)`: both bounds are clamped to the string and
      swapped when the start lies after the end. */
  function Substring(s: string, start: int, end: int): (r: string)
    ensures 0 <= start <= end <= |s| ==> r == s[start..end]
    ensures 0 <= end <= start <= |s| ==> r == s[end..start]
    ensures |r| <= |s|
  {
    var a, b := Clamp(start, |s|), Clamp(end, |s|);
    if a <= b then s[a..b] else s[b..a]
  }

  /** `s.replace(/p/g, '')` for a literal, non-empty pattern `p`: scanning
      left to right, every non-overlapping occurrence is dropped; what the
      removals bring together is not scanned again. */
  function RemoveAll(s: string, p: string): (r: string)
    requires |p| > 0
    ensures |r| <= |s|
    ensures !Contains(s, p) ==> r == s
    decreases |s|
  {
    if |s| < |p| then s
    else if s[..|p|] == p then RemoveAll(s[|p|..], p)
    else [s[0]] + RemoveAll(s[1..], p)
  }

  /** Removal drops whole occurrences only: a character that is not part
      of the pattern is in the result exactly when it is in the input. */
  lemma {:induction false} RemoveAllKeeps(s: string, p: string, c: char)
    requires |p| > 0 && c !in p
    ensures c in RemoveAll(s, p) <==> c in s
    decreases |s|
  {
    if |s| < |p| {
    } else if s[..|p|] == p {
      RemoveAllKeeps(s[|p|..], p, c);
      assert s == s[..|p|] + s[|p|..];
    } else {
      RemoveAllKeeps(s[1..], p, c);
      assert s == [s[0]] + s[1..];
    }
  }

  /** Something is removed whenever the pattern occurs: the scan reaches
      the first occurrence unless an earlier removal has consumed it, and
      either way at least one occurrence goes. */
  lemma {:induction false} RemoveAllShrinks(s: string, p: string)
    requires |p| > 0 && Contains(s, p)
    ensures |RemoveAll(s, p)| < |s|
    decreases |s|
  {
    if s[..|p|] != p {
      RemoveAllShrinks(s[1..], p);
    }
  }

  /** A text that cannot start the pattern anywhere, followed by the
      pattern, loses just the pattern. */
  lemma {:induction false} RemoveAllTrailing(a: string, p: string)
    requires |p| > 0 && p[0] !in a
    ensures RemoveAll(a + p, p) == a
    decreases |a|
  {
    var s := a + p;
    if |a| == 0 {
      assert s == p && s[..|p|] == p && s[|p|..] == [];
    } else {
      assert s[..|p|][0] == a[0];
      assert s[1..] == a[1..] + p;
      RemoveAllTrailing(a[1..], p);
    }
  }

  /** The characters JavaScript's `trim` removes: WhiteSpace and
      LineTerminator of ECMA-262. */
  predicate IsJsWhitespace(c: char)
  {
    var n := c as int;
    9 <= n <= 13 || n == 0x20 || n == 0xA0 || n == 0x1680 || 0x2000 <= n <= 0x200A
    || n == 0x2028 || n == 0x2029 || n == 0x202F || n == 0x205F || n == 0x3000 || n == 0xFEFF
  }

  /** The end of the run of whitespace that starts at `i`. */
  function SkipForward(s: string, i: nat): (j: nat)
    requires i <= |s|
    ensures i <= j <= |s|
    ensures forall k :: i <= k < j ==> IsJsWhitespace(s[k])
    ensures j < |s| ==> !IsJsWhitespace(s[j])
    decreases |s| - i
  {
    if i < |s| && IsJsWhitespace(s[i]) then SkipForward(s, i + 1) else i
  }

  /** The start of the run of whitespace that ends at `j`, going back no
      further than `lo`. */
  function SkipBackward(s: string, lo: nat, j: nat): (i: nat)
    requires lo <= j <= |s|
    ensures lo <= i <= j
    ensures forall k :: i <= k < j ==> IsJsWhitespace(s[k])
    ensures i > lo ==> !IsJsWhitespace(s[i - 1])
    decreases j
  {
    if j > lo && IsJsWhitespace(s[j - 1]) then SkipBackward(s, lo, j - 1) else j
  }

  /** `r` is the slice of `s` at `k`, and everything around it is
      whitespace. */
  predicate TrimmedAt(s: string, r: string, k: int)
  {
    && OccursAt(s, r, k)
    && (forall i :: 0 <= i < k ==> IsJsWhitespace(s[i]))
    && (forall i :: k + |r| <= i < |s| ==> IsJsWhitespace(s[i]))
  }

  /** `s.trim()`: the longest slice of `s` that neither starts nor ends with
      whitespace, obtained by dropping only whitespace. */
  function Trim(s: string): (r: string)
    ensures exists k :: TrimmedAt(s, r, k)
    ensures r != [] ==> !IsJsWhitespace(r[0]) && !IsJsWhitespace(r[|r| - 1])
  {
    var a := SkipForward(s, 0);
    var b := SkipBackward(s, a, |s|);
    assert TrimmedAt(s, s[a..b], a);
    s[a..b]
  }

  /** Trimming drops whitespace only: a character that is not whitespace
      is in the result exactly when it is in the input. */
  lemma TrimKeeps(s: string, c: char)
    requires !IsJsWhitespace(c)
    ensures c in Trim(s) <==> c in s
  {
    var a := SkipForward(s, 0);
    var b := SkipBackward(s, a, |s|);
    assert s == s[..a] + s[a..b] + s[b..];
  }

  /** A text that neither starts nor ends with whitespace comes back from
      `trim` unchanged, with one line break on either side or without. */
  lemma TrimLines(b: string)
    requires b != [] ==> !IsJsWhitespace(b[0]) && !IsJsWhitespace(b[|b| - 1])
    ensures Trim("\n" + b + "\n") == b
  {
    var s := "\n" + b + "\n";
    assert SkipForward(s, 0) == SkipForward(s, 1);
    if b == [] {
      assert SkipForward(s, 1) == SkipForward(s, 2) == 2;
    } else {
      assert s[1] == b[0];
      assert SkipBackward(s, 1, |s|) == SkipBackward(s, 1, |s| - 1);
      assert s[|s| - 2] == b[|b| - 1];
      assert s[1..|s| - 1] == b;
    }
  }

  function DigitChar(d: nat): (c: char)
    requires d < 10
    ensures '0' <= c <= '9'
  {
    ('0' as int + d) as char
  }

  /** `String(n)` for a non-negative integer: its decimal digits, without
      leading zeros. */
  function NatToString(n: nat): (r: string)
    ensures |r| > 0
    ensures forall i :: 0 <= i < |r| ==> '0' <= r[i] <= '9'
  {
    if n < 10 then [DigitChar(n)] else NatToString(n / 10) + [DigitChar(n % 10)]
  }

  /** The value of a string of decimal digits. */
  function DecimalValue(s: string): nat
    requires forall i :: 0 <= i < |s| ==> '0' <= s[i] <= '9'
  {
    if |s| == 0 then 0
    else DecimalValue(s[..|s| - 1]) * 10 + (s[|s| - 1] as int - '0' as int)
  }

  /** Reading the rendered digits back gives the number. */
  lemma {:induction false} NatToStringRoundTrip(n: nat)
    ensures DecimalValue(NatToString(n)) == n
  {
    if n >= 10 {
      var s := NatToString(n);
      assert s[..|s| - 1] == NatToString(n / 10);
      NatToStringRoundTrip(n / 10);
    }
  }

  /** Different numbers are rendered differently. */
  lemma NatToStringInjective(m: nat, n: nat)
    requires m != n
    ensures NatToString(m) != NatToString(n)
  {
    NatToStringRoundTrip(m);
    NatToStringRoundTrip(n);
  }
}
