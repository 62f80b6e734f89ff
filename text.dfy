/**
 * The string operations the synthesiser builds identifiers and parameter
 * names with: hyphen removal, Python's `str.split(sep)[-1]`,
 * `str.replace`, decimal rendering of indices and `os.path.basename`.
 */
module Text {

  /** `s` with every '-' dropped (Python `s.replace('-', '')`). */
  function RemoveHyphens(s: string): (r: string)
    ensures '-' !in r
    ensures |r| <= |s|
    ensures forall c :: c in r ==> c in s
  {
    if s == [] then []
    else (if s[0] == '-' then [] else [s[0]]) + RemoveHyphens(s[1..])
  }

  lemma {:induction false} RemoveHyphensKeepsHyphenFree(s: string)
    requires '-' !in s
    ensures RemoveHyphens(s) == s
  {
    if s != [] {
      assert '-' !in s[1..] by {
        forall c | c in s[1..] ensures c != '-' { assert c in s; }
      }
      RemoveHyphensKeepsHyphenFree(s[1..]);
    }
  }

  /** Sanitising an identifier twice is sanitising it once. */
  lemma RemoveHyphensIdempotent(s: string)
    ensures RemoveHyphens(RemoveHyphens(s)) == RemoveHyphens(s)
  {
    RemoveHyphensKeepsHyphenFree(RemoveHyphens(s));
  }

  lemma {:induction false} RemoveHyphensAppend(a: string, b: string)
    ensures RemoveHyphens(a + b) == RemoveHyphens(a) + RemoveHyphens(b)
  {
    if a == [] {
      assert a + b == b;
    } else {
      var head: string := if a[0] == '-' then [] else [a[0]];
      assert (a + b)[0] == a[0] && (a + b)[1..] == a[1..] + b;
      assert RemoveHyphens(a + b) == head + RemoveHyphens(a[1..] + b);
      RemoveHyphensAppend(a[1..], b);
      assert RemoveHyphens(a) == head + RemoveHyphens(a[1..]);
    }
  }

  /** `t` is a suffix of `s`. */
  predicate IsSuffix(t: string, s: string) {
    |t| <= |s| && s[|s| - |t|..] == t
  }

  /** `s` ends with `t`. */
  predicate EndsWith(s: string, t: string) {
    IsSuffix(t, s)
  }

  /** `sep` occurs in `t` starting at position `j`. */
  predicate MatchAt(t: string, sep: string, j: int) {
    0 <= j && j + |sep| <= |t| && t[j..j + |sep|] == sep
  }

  /** Python's `sep in t`. */
  predicate Occurs(t: string, sep: string) {
    exists j | 0 <= j <= |t| :: MatchAt(t, sep, j)
  }

  /**
   * The scan behind `str.split(sep)`: `rest` is the text still to be
   * scanned and `piece` the piece that began after the last separator
   * found so far.  Separators are found left to right without overlap.
   */
  function SplitLastFrom(rest: string, sep: string, piece: string): string
    requires |sep| > 0
    decreases |rest|
  {
    if |rest| < |sep| then piece
    else if rest[..|sep|] == sep then SplitLastFrom(rest[|sep|..], sep, rest[|sep|..])
    else SplitLastFrom(rest[1..], sep, piece)
  }

  /**
   * Python's `s.split(sep)[-1]`: the text after the last separator, or the
   * whole of `s` when `sep` does not occur in it.
   */
  function AfterLast(s: string, sep: string): (r: string)
    requires |sep| > 0
    ensures IsSuffix(r, s)
    ensures !Occurs(r, sep)
    ensures r == s || PrecededBy(s, r, sep)
  {
    SplitLastFromSpec(s, sep, s, s);
    SplitLastFrom(s, sep, s)
  }

  lemma {:induction false} SplitLastFromSpec(s: string, sep: string, rest: string, piece: string)
    requires |sep| > 0
    requires IsSuffix(piece, s) && IsSuffix(rest, piece)
    requires forall j :: 0 <= j < |piece| - |rest| ==> !MatchAt(piece, sep, j)
    requires piece == s || PrecededBy(s, piece, sep)
    ensures IsSuffix(SplitLastFrom(rest, sep, piece), s)
    ensures !Occurs(SplitLastFrom(rest, sep, piece), sep)
    ensures SplitLastFrom(rest, sep, piece) == s || PrecededBy(s, SplitLastFrom(rest, sep, piece), sep)
    decreases |rest|
  {
    SuffixOfSuffix(rest, piece, s);
    if |rest| < |sep| {
      assert SplitLastFrom(rest, sep, piece) == piece;
      NoMatchInTail(piece, sep, |piece| - |rest|);
    } else if rest[..|sep|] == sep {
      var p' := rest[|sep|..];
      assert SplitLastFrom(rest, sep, piece) == SplitLastFrom(p', sep, p');
      SeparatorPrecedes(s, sep, rest);
      SplitLastFromSpec(s, sep, p', p');
    } else {
      assert SplitLastFrom(rest, sep, piece) == SplitLastFrom(rest[1..], sep, piece);
      NoMatchBeforeNextRest(piece, sep, rest);
      SplitLastFromSpec(s, sep, rest[1..], piece);
    }
  }

  lemma SuffixOfSuffix(a: string, b: string, c: string)
    requires IsSuffix(a, b) && IsSuffix(b, c)
    ensures IsSuffix(a, c)
  {
    assert c[|c| - |a|..] == c[|c| - |b|..][|b| - |a|..];
  }

  /** The suffix `r` of `s` comes right after an occurrence of `sep`. */
  predicate PrecededBy(s: string, r: string, sep: string)
    requires IsSuffix(r, s)
  {
    EndsWith(s[..|s| - |r|], sep)
  }

  /** No match can start in the last `|sep| - 1` characters. */
  lemma NoMatchInTail(piece: string, sep: string, off: int)
    requires 0 <= off <= |piece| && |piece| - off < |sep|
    requires forall j :: 0 <= j < off ==> !MatchAt(piece, sep, j)
    ensures !Occurs(piece, sep)
  {
    forall j | 0 <= j <= |piece| ensures !MatchAt(piece, sep, j) {
      if off <= j {
        assert |piece| < j + |sep|;
      }
    }
  }

  /** A separator found at the head of the suffix `rest` ends the prefix of `s` before the new piece. */
  lemma SeparatorPrecedes(s: string, sep: string, rest: string)
    requires |sep| <= |rest| && rest[..|sep|] == sep
    requires IsSuffix(rest, s)
    ensures IsSuffix(rest[|sep|..], s)
    ensures PrecededBy(s, rest[|sep|..], sep)
  {
    var cut := |s| - |rest|;
    var p' := rest[|sep|..];
    assert s[cut..] == rest;
    assert s[|s| - |p'|..] == s[cut..][|sep|..];
    var pre := s[..|s| - |p'|];
    assert pre[|pre| - |sep|..] == s[cut..cut + |sep|];
    assert s[cut..cut + |sep|] == rest[..|sep|];
  }

  /** A mismatch at the head of `rest` extends the match-free prefix of `piece` by one. */
  lemma NoMatchAtRestStart(piece: string, sep: string, rest: string)
    requires |sep| <= |rest| && rest[..|sep|] != sep
    requires IsSuffix(rest, piece)
    ensures !MatchAt(piece, sep, |piece| - |rest|)
    ensures IsSuffix(rest[1..], piece)
  {
    var off := |piece| - |rest|;
    assert piece[off..] == rest;
    assert piece[off..off + |sep|] == rest[..|sep|];
  }

  /** Scanning past a position where `sep` does not start keeps the scanned part free of it. */
  lemma NoMatchBeforeNextRest(piece: string, sep: string, rest: string)
    requires |sep| <= |rest| && rest[..|sep|] != sep
    requires IsSuffix(rest, piece)
    requires forall j :: 0 <= j < |piece| - |rest| ==> !MatchAt(piece, sep, j)
    ensures IsSuffix(rest[1..], piece)
    ensures forall j :: 0 <= j < |piece| - |rest[1..]| ==> !MatchAt(piece, sep, j)
  {
    NoMatchAtRestStart(piece, sep, rest);
  }

  /** When `sep` does not occur in `s`, splitting returns `s` unchanged. */
  lemma AfterLastWithoutSeparator(s: string, sep: string)
    requires |sep| > 0
    requires !Occurs(s, sep)
    ensures AfterLast(s, sep) == s
  {
    var r := AfterLast(s, sep);
    if r != s {
      var pre := s[..|s| - |r|];
      assert MatchAt(s, sep, |pre| - |sep|) by {
        assert s[|pre| - |sep|..|pre|] == pre[|pre| - |sep|..];
      }
    }
  }

  /** Python's `s.replace(pat, rep)`: leftmost, non-overlapping occurrences. */
  function ReplaceAll(s: string, pat: string, rep: string): string
    requires |pat| > 0
    decreases |s|
  {
    if |s| < |pat| then s
    else if s[..|pat|] == pat then rep + ReplaceAll(s[|pat|..], pat, rep)
    else [s[0]] + ReplaceAll(s[1..], pat, rep)
  }

  /** A single-character replacement keeps the length and removes the character. */
  lemma {:induction false} ReplaceCharSpec(s: string, c: char, d: char)
    requires c != d
    ensures |ReplaceAll(s, [c], [d])| == |s|
    ensures c !in ReplaceAll(s, [c], [d])
    ensures forall i :: 0 <= i < |s| ==>
      ReplaceAll(s, [c], [d])[i] == (if s[i] == c then d else s[i])
    decreases |s|
  {
    if |s| > 0 {
      ReplaceCharSpec(s[1..], c, d);
      var r := ReplaceAll(s, [c], [d]);
      var tail := ReplaceAll(s[1..], [c], [d]);
      assert r == [if s[0] == c then d else s[0]] + tail;
      forall i | 0 <= i < |s|
        ensures r[i] == (if s[i] == c then d else s[i])
      {
        if i > 0 { assert r[i] == tail[i - 1]; assert s[1..][i - 1] == s[i]; }
      }
    }
  }

  /** Replacing a pattern that does not occur leaves the text as it is. */
  lemma {:induction false} ReplaceAbsent(s: string, pat: string, rep: string)
    requires |pat| > 0
    requires !Occurs(s, pat)
    ensures ReplaceAll(s, pat, rep) == s
    decreases |s|
  {
    if |s| >= |pat| {
      assert !MatchAt(s, pat, 0);
      assert !Occurs(s[1..], pat) by {
        forall j | MatchAt(s[1..], pat, j) ensures false {
          assert s[1..][j..j + |pat|] == s[j + 1..j + 1 + |pat|];
          assert MatchAt(s, pat, j + 1);
        }
      }
      ReplaceAbsent(s[1..], pat, rep);
    }
  }

  function Digit(d: nat): (c: char)
    requires d < 10
    ensures '0' <= c <= '9'
  {
    "0123456789"[d]
  }

  lemma DigitInjective(a: nat, b: nat)
    requires a < 10 && b < 10 && Digit(a) == Digit(b)
    ensures a == b
  {
  }

  /** Python's `str(n)` for a natural number. */
  function NatToString(n: nat): (r: string)
    ensures |r| >= 1
    ensures forall i :: 0 <= i < |r| ==> '0' <= r[i] <= '9'
  {
    if n < 10 then [Digit(n)] else NatToString(n / 10) + [Digit(n % 10)]
  }

  /** Distinct numbers render as distinct strings. */
  lemma {:induction false} NatToStringInjective(a: nat, b: nat)
    requires NatToString(a) == NatToString(b)
    ensures a == b
  {
    var sa, sb := NatToString(a), NatToString(b);
    if a < 10 && b < 10 {
      DigitInjective(a, b);
    } else if a >= 10 && b >= 10 {
      assert sa[..|sa| - 1] == NatToString(a / 10);
      assert sb[..|sb| - 1] == NatToString(b / 10);
      NatToStringInjective(a / 10, b / 10);
      DigitInjective(a % 10, b % 10);
    }
  }

  /** A string ends with a decimal digit. */
  predicate EndsWithDigit(s: string) {
    |s| > 0 && '0' <= s[|s| - 1] <= '9'
  }

  /**
   * A name made of a prefix that does not end in a digit followed by a
   * number determines both: the number is exactly the trailing digits.
   */
  /**
   * When two ways of writing the same string end in digit runs of
   * different lengths, the shorter run is preceded by a digit.
   */
  lemma DigitTailLength(p: string, sa: string, q: string, sb: string)
    requires p + sa == q + sb && |q| > 0
    requires forall i :: 0 <= i < |sa| ==> '0' <= sa[i] <= '9'
    ensures |sb| >= |sa| || EndsWithDigit(q)
  {
    if |sb| < |sa| {
      var s := p + sa;
      assert s[|q| - 1] == q[|q| - 1];
      assert s[|q| - 1] == sa[|q| - 1 - |p|];
    }
  }

  /**
   * A name made of a prefix that does not end in a digit followed by a
   * number determines both: the number is exactly the trailing digits.
   */
  lemma NumberedNameInjective(p: string, q: string, a: nat, b: nat)
    requires |p| > 0 && !EndsWithDigit(p) && |q| > 0 && !EndsWithDigit(q)
    requires p + NatToString(a) == q + NatToString(b)
    ensures p == q && a == b
  {
    var sa, sb := NatToString(a), NatToString(b);
    DigitTailLength(p, sa, q, sb);
    DigitTailLength(q, sb, p, sa);
    var s := p + sa;
    assert sa == s[|p|..] && sb == s[|q|..];
    assert p == s[..|p|] && q == s[..|q|];
    NatToStringInjective(a, b);
  }

  /** Four-digit years render in four characters. */
  lemma NatToStringFourDigits(n: nat)
    requires 1000 <= n < 10000
    ensures |NatToString(n)| == 4
  {
    assert |NatToString(n / 100)| == 2;
    assert |NatToString(n / 10)| == 3;
  }

  predicate AllDigits(s: string) {
    forall i :: 0 <= i < |s| ==> '0' <= s[i] <= '9'
  }

  /** The number a string of decimal digits denotes (Python `int(s)`). */
  function DigitsValue(s: string): nat
    requires AllDigits(s)
  {
    if s == [] then 0 else DigitsValue(s[..|s| - 1]) * 10 + (s[|s| - 1] as int - '0' as int)
  }

  lemma DigitValue(d: nat)
    requires d < 10
    ensures Digit(d) as int - '0' as int == d
  {
  }

  /** Rendering then reading back a number is the identity. */
  lemma {:induction false} NatToStringValue(n: nat)
    ensures AllDigits(NatToString(n))
    ensures DigitsValue(NatToString(n)) == n
  {
    var s := NatToString(n);
    if n < 10 {
      DigitValue(n);
      assert s[..0] == [];
    } else {
      NatToStringValue(n / 10);
      DigitValue(n % 10);
      assert s[..|s| - 1] == NatToString(n / 10);
    }
  }

  /** A two-digit, zero-padded rendering (strftime's `%m`, `%d`, `%H`, ...). */
  function Pad2(n: nat): (r: string)
    requires n < 100
    ensures |r| == 2
  {
    [Digit(n / 10), Digit(n % 10)]
  }

  lemma Pad2Value(n: nat)
    requires n < 100
    ensures AllDigits(Pad2(n)) && DigitsValue(Pad2(n)) == n
  {
    var s := Pad2(n);
    DigitValue(n / 10);
    DigitValue(n % 10);
    assert s[..1][..0] == [];
    assert s[..1] == [Digit(n / 10)];
  }

  /** `os.path.basename`: the text after the last '/'. */
  function BaseName(path: string): (r: string)
    ensures '/' !in r
    ensures IsSuffix(r, path)
  {
    var r := AfterLast(path, "/");
    CharOccurs(r, '/');
    r
  }

  /** A character present in a string occurs there as a one-character separator. */
  lemma CharOccurs(r: string, c: char)
    ensures c in r ==> Occurs(r, [c])
  {
    if c in r {
      var j :| 0 <= j < |r| && r[j] == c;
      assert MatchAt(r, [c], j);
    }
  }
}
