/**
 * The Python `str` built-ins that the configuration pipeline and the
 * translation shaping rely on, over `seq<char>`: `lower`, `startswith`,
 * `split`, `join`, `replace`, `rstrip`, slicing with Python's clamping,
 * `int()` and `str()` on integers, and the character classes `\d` and `\s`
 * of Python's regular expressions.
 */
module PyStr {
  import opened Wrappers

  // ---------------------------------------------------------------------
  // Character classes
  // ---------------------------------------------------------------------

  predicate IsUpper(c: char) { 'A' <= c <= 'Z' }

  predicate IsAsciiLetter(c: char) { 'A' <= c <= 'Z' || 'a' <= c <= 'z' }

  /** `\d` (ASCII digits only, see README). */
  predicate IsDigit(c: char) { '0' <= c <= '9' }

  predicate IsAsciiAlnum(c: char) { IsAsciiLetter(c) || IsDigit(c) }

  /**
   * `\s` of a Python `str` pattern: exactly the characters for which
   * `str.isspace()` holds.
   */
  predicate IsSpace(c: char)
  {
    || ('\t' <= c <= '\r') || ('\U{1C}' <= c <= ' ')
    || c == '\U{85}' || c == '\U{A0}' || c == '\U{1680}'
    || ('\U{2000}' <= c <= '\U{200A}') || c == '\U{2028}' || c == '\U{2029}'
    || c == '\U{202F}' || c == '\U{205F}' || c == '\U{3000}'
  }

  predicate AllDigits(s: string)
  {
    forall i | 0 <= i < |s| :: IsDigit(s[i])
  }

  // ---------------------------------------------------------------------
  // lower, startswith
  // ---------------------------------------------------------------------

  function LowerChar(c: char): char
  {
    if IsUpper(c) then (c as int - 'A' as int + 'a' as int) as char else c
  }

  /** `s.lower()`, mapping the letters A to Z. */
  function Lower(s: string): (r: string)
    ensures |r| == |s|
    ensures forall i | 0 <= i < |s| :: r[i] == LowerChar(s[i])
  {
    seq(|s|, i requires 0 <= i < |s| => LowerChar(s[i]))
  }

  /** A string that `lower()` leaves as it is. */
  predicate IsLowerCase(s: string)
  {
    forall i | 0 <= i < |s| :: !IsUpper(s[i])
  }

  lemma LowerIsLowerCase(s: string)
    ensures IsLowerCase(Lower(s))
    ensures Lower(Lower(s)) == Lower(s)
  {
  }

  lemma LowerOfLowerCase(s: string)
    requires IsLowerCase(s)
    ensures Lower(s) == s
  {
  }

  lemma LowerConcat(a: string, b: string)
    ensures Lower(a + b) == Lower(a) + Lower(b)
  {
  }

  /** `s.startswith(p)`. */
  predicate StartsWith(s: string, p: string)
  {
    |p| <= |s| && s[..|p|] == p
  }

  /** Python truthiness of an optional string: given and not empty. */
  predicate NonEmpty(a: Option<string>)
  {
    a.Some? && a.value != ""
  }

  // ---------------------------------------------------------------------
  // split and join
  // ---------------------------------------------------------------------

  /** Number of occurrences of `c` in `s`. */
  function Count(s: string, c: char): nat
  {
    if s == [] then 0 else (if s[0] == c then 1 else 0) + Count(s[1..], c)
  }

  /**
   * `s.split(c)` for a one-character separator: every occurrence of `c`
   * separates two pieces, so there is always one piece more than there are
   * separators, and `"".split(c) == [""]`.
   */
  function Split(s: string, c: char): (r: seq<string>)
    ensures |r| == Count(s, c) + 1
    ensures forall i | 0 <= i < |r| :: c !in r[i]
    decreases |s|
  {
    if s == [] then [""]
    else if s[0] == c then [""] + Split(s[1..], c)
    else
      var rest := Split(s[1..], c);
      [[s[0]] + rest[0]] + rest[1..]
  }

  /** `''.join(ps)`. */
  function Concat(ps: seq<string>): string
  {
    if ps == [] then "" else ps[0] + Concat(ps[1..])
  }

  lemma {:induction false} ConcatAppend(ps: seq<string>, x: string)
    ensures Concat(ps + [x]) == Concat(ps) + x
  {
    if ps != [] {
      assert (ps + [x])[1..] == ps[1..] + [x];
      ConcatAppend(ps[1..], x);
    }
  }

  /** `sep.join(ps)`. */
  function Join(ps: seq<string>, sep: string): string
  {
    if ps == [] then ""
    else if |ps| == 1 then ps[0]
    else ps[0] + sep + Join(ps[1..], sep)
  }

  lemma {:induction false} JoinAppend(ps: seq<string>, x: string, sep: string)
    ensures Join(ps + [x], sep) == if ps == [] then x else Join(ps, sep) + sep + x
  {
    if |ps| <= 1 {
    } else {
      assert (ps + [x])[1..] == ps[1..] + [x];
      JoinAppend(ps[1..], x, sep);
    }
  }

  /** Joining the pieces of a split with the same separator gives back the string. */
  lemma {:induction false} JoinSplit(s: string, c: char)
    ensures Join(Split(s, c), [c]) == s
    decreases |s|
  {
    if s == [] {
    } else if s[0] == c {
      JoinSplit(s[1..], c);
    } else {
      var rest := Split(s[1..], c);
      JoinSplit(s[1..], c);
      if |rest| == 1 {
      } else {
        var ps := [[s[0]] + rest[0]] + rest[1..];
        assert ps[1..] == rest[1..];
        assert Join(rest, [c]) == rest[0] + [c] + Join(rest[1..], [c]);
      }
    }
  }

  /** Splitting text that starts with a separator-free piece `a` followed by `c`. */
  lemma {:induction false} SplitAfterPiece(a: string, b: string, c: char)
    requires c !in a
    ensures Split(a + [c] + b, c) == [a] + Split(b, c)
    decreases |a|
  {
    if a == [] {
      assert ([c] + b)[1..] == b;
    } else {
      assert (a + [c] + b)[1..] == a[1..] + [c] + b;
      SplitAfterPiece(a[1..], b, c);
      assert [a[0]] + a[1..] == a;
    }
  }

  lemma {:induction false} SplitOfPiece(a: string, c: char)
    requires c !in a
    ensures Split(a, c) == [a]
    decreases |a|
  {
    if a != [] {
      SplitOfPiece(a[1..], c);
      assert [a[0]] + a[1..] == a;
    }
  }

  /**
   * Splitting the join of separator-free pieces gives the pieces back
   * (one piece at least: `"".split(c)` is `[""]`, not `[]`).
   */
  lemma {:induction false} SplitJoin(ps: seq<string>, c: char)
    requires |ps| >= 1
    requires forall i | 0 <= i < |ps| :: c !in ps[i]
    ensures Split(Join(ps, [c]), c) == ps
  {
    if |ps| == 1 {
      SplitOfPiece(ps[0], c);
    } else {
      SplitJoin(ps[1..], c);
      SplitAfterPiece(ps[0], Join(ps[1..], [c]), c);
    }
  }

  // ---------------------------------------------------------------------
  // replace, rstrip
  // ---------------------------------------------------------------------

  /**
   * `s.replace(pat, rep)`: leftmost non-overlapping occurrences; an empty
   * `pat` inserts `rep` before every character and at the end.
   */
  function Replace(s: string, pat: string, rep: string): string
    decreases |s|
  {
    if pat == [] then
      (if s == [] then rep else rep + [s[0]] + Replace(s[1..], pat, rep))
    else if |s| < |pat| then s
    else if s[..|pat|] == pat then rep + Replace(s[|pat|..], pat, rep)
    else [s[0]] + Replace(s[1..], pat, rep)
  }

  /** `pat` occurs in `s` starting at index `i`. */
  predicate OccursAt(s: string, pat: string, i: int)
  {
    0 <= i <= |s| - |pat| && s[i..i + |pat|] == pat
  }

  /** `pat` occurs in `s` at some position. */
  predicate Occurs(s: string, pat: string)
  {
    exists i | 0 <= i <= |s| :: OccursAt(s, pat, i)
  }

  /** Replacing a non-empty text that does not occur changes nothing. */
  lemma {:induction false} ReplaceAbsent(s: string, pat: string, rep: string)
    requires pat != [] && !Occurs(s, pat)
    ensures Replace(s, pat, rep) == s
    decreases |s|
  {
    if |s| < |pat| {
    } else {
      assert !OccursAt(s, pat, 0);
      assert !Occurs(s[1..], pat) by {
        forall i | OccursAt(s[1..], pat, i)
          ensures OccursAt(s, pat, i + 1)
        {
          assert s[1..][i..i + |pat|] == s[i + 1..i + 1 + |pat|];
        }
      }
      ReplaceAbsent(s[1..], pat, rep);
    }
  }

  /** `s.rstrip(c)` for one character `c`. */
  function RStrip(s: string, c: char): (r: string)
    ensures |r| <= |s| && r == s[..|r|]
    ensures r == [] || r[|r| - 1] != c
    ensures forall i | |r| <= i < |s| :: s[i] == c
    decreases |s|
  {
    if s != [] && s[|s| - 1] == c then RStrip(s[..|s| - 1], c) else s
  }

  // ---------------------------------------------------------------------
  // Slicing
  // ---------------------------------------------------------------------

  /** The index a Python slice bound `i` stands for in a sequence of length `n`. */
  function SliceIndex(i: int, n: nat): (k: nat)
    ensures k <= n
  {
    if i < 0 then (if n + i < 0 then 0 else n + i)
    else if i > n then n
    else i
  }

  /** `s[:i]`. */
  function PyPrefix(s: string, i: int): string
  {
    s[..SliceIndex(i, |s|)]
  }

  /** `s[i:]`. */
  function PySuffix(s: string, i: int): string
  {
    s[SliceIndex(i, |s|)..]
  }

  /** `s[:i] + s[i:] == s` for every integer `i`. */
  lemma PrefixSuffix(s: string, i: int)
    ensures PyPrefix(s, i) + PySuffix(s, i) == s
  {
  }

  // ---------------------------------------------------------------------
  // int() and str() on integers
  // ---------------------------------------------------------------------

  function DigitChar(d: nat): (c: char)
    requires d < 10
    ensures IsDigit(c)
  {
    ('0' as int + d) as char
  }

  function DigitValue(c: char): nat
    requires IsDigit(c)
  {
    c as int - '0' as int
  }

  /** The value of a run of decimal digits, most significant first. */
  function DigitsValue(s: string): nat
    requires AllDigits(s)
    decreases |s|
  {
    if s == [] then 0 else DigitsValue(s[..|s| - 1]) * 10 + DigitValue(s[|s| - 1])
  }

  /** `str(n)` for a natural number: decimal digits, no leading zero. */
  function NatToString(n: nat): (r: string)
    ensures |r| >= 1 && AllDigits(r)
    ensures |r| > 1 ==> r[0] != '0'
    decreases n
  {
    if n < 10 then [DigitChar(n)] else NatToString(n / 10) + [DigitChar(n % 10)]
  }

  /** `str(i)`. */
  function IntToString(i: int): (r: string)
    ensures |r| >= 1
  {
    if i < 0 then "-" + NatToString(-i) else NatToString(i)
  }

  /** `int(s)`: an optional sign followed by one or more decimal digits. */
  function ParseInt(s: string): Option<int>
  {
    if |s| >= 2 && (s[0] == '+' || s[0] == '-') && AllDigits(s[1..]) then
      var magnitude: int := DigitsValue(s[1..]);
      Some(if s[0] == '-' then -magnitude else magnitude)
    else if |s| >= 1 && AllDigits(s) then Some(DigitsValue(s))
    else None
  }

  lemma ParseIntOfDigits(s: string)
    requires |s| >= 1 && AllDigits(s)
    ensures ParseInt(s) == Some(DigitsValue(s))
  {
    assert IsDigit(s[0]);
  }

  /** `int()` accepts exactly a sign-optional, non-empty run of digits. */
  lemma ParseIntAccepts(s: string)
    ensures ParseInt(s).Some? <==>
      (|s| >= 1 && AllDigits(s)) || (|s| >= 2 && (s[0] == '+' || s[0] == '-') && AllDigits(s[1..]))
  {
  }
}
