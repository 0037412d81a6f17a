/** The few operations of Go's `strings` and `strconv` packages the core relies on,
    over Dafny strings (`seq<char>`). Go compares strings byte-wise; for valid
    UTF-8 that order coincides with the code-point order used by `Less` here. */
module Text {

  predicate HasPrefix(s: string, p: string) {
    |p| <= |s| && s[..|p|] == p
  }

  predicate HasSuffix(s: string, p: string) {
    |p| <= |s| && s[|s| - |p|..] == p
  }

  /** `strings.CutPrefix`: the rest of `s` after `p`, and whether `p` was there. */
  function CutPrefix(s: string, p: string): (r: (string, bool))
    ensures r.1 == HasPrefix(s, p)
    ensures r.1 ==> p + r.0 == s
    ensures !r.1 ==> r.0 == s
  {
    if HasPrefix(s, p) then
      assert s == p + s[|p|..];
      (s[|p|..], true)
    else (s, false)
  }

  /** `strings.TrimSuffix`: removes one trailing `p` when present. */
  function TrimSuffix(s: string, p: string): (r: string)
    ensures HasSuffix(s, p) ==> r + p == s
    ensures !HasSuffix(s, p) ==> r == s
  {
    if HasSuffix(s, p) then
      assert s == s[..|s| - |p|] + p;
      s[..|s| - |p|]
    else s
  }

  /** `w` occurs somewhere in `s`. */
  predicate Occurs(s: string, w: string)
    decreases |s|
  {
    HasPrefix(s, w) || (s != [] && Occurs(s[1..], w))
  }

  /** `strings.ReplaceAll` for a non-empty pattern: a left-to-right scan that
      replaces non-overlapping occurrences of `pat` by `rep`. */
  function ReplaceAll(s: string, pat: string, rep: string): string
    requires pat != []
    decreases |s|
  {
    if s == [] then []
    else if HasPrefix(s, pat) then rep + ReplaceAll(s[|pat|..], pat, rep)
    else [s[0]] + ReplaceAll(s[1..], pat, rep)
  }

  /** Replacing a pattern that does not occur changes nothing. */
  lemma {:induction false} ReplaceAllAbsent(s: string, pat: string, rep: string)
    requires pat != []
    requires !Occurs(s, pat)
    ensures ReplaceAll(s, pat, rep) == s
    decreases |s|
  {
    if s != [] {
      ReplaceAllAbsent(s[1..], pat, rep);
    }
  }

  /** Characters of `rep` never occur in `pat`, so a replacement can neither be
      nor start a new occurrence of the pattern. */
  predicate Disjoint(rep: string, pat: string) {
    forall k :: 0 <= k < |rep| ==> rep[k] !in pat
  }

  /** A prefix test on a sequence that starts with one known character. */
  lemma ConsPrefix(c: char, u: string, p: string)
    ensures HasPrefix([c] + u, p) <==> (p == [] || (c == p[0] && HasPrefix(u, p[1..])))
  {
    if p != [] && |p| <= |u| + 1 {
      assert ([c] + u)[..|p|] == [c] + u[..|p| - 1];
      assert p == [p[0]] + p[1..];
    }
  }

  /** If the result of a replacement starts with a proper tail `pat[j..]` of the
      pattern, so did its input. */
  lemma {:induction false} ReplaceAllStartsWithTail(x: string, pat: string, rep: string, j: nat)
    requires pat != [] && rep != [] && Disjoint(rep, pat)
    requires 1 <= j < |pat|
    ensures HasPrefix(ReplaceAll(x, pat, rep), pat[j..]) ==> HasPrefix(x, pat[j..])
    decreases |x|
  {
    var r := ReplaceAll(x, pat, rep);
    if x != [] && !HasPrefix(x, pat) {
      var t := ReplaceAll(x[1..], pat, rep);
      assert r == [x[0]] + t;
      assert x == [x[0]] + x[1..];
      assert pat[j..][1..] == pat[j + 1..];
      ConsPrefix(x[0], t, pat[j..]);
      ConsPrefix(x[0], x[1..], pat[j..]);
      if j + 1 < |pat| {
        ReplaceAllStartsWithTail(x[1..], pat, rep, j + 1);
      }
    } else if x != [] {
      var t := ReplaceAll(x[|pat|..], pat, rep);
      assert r == [rep[0]] + (rep[1..] + t);
      ConsPrefix(rep[0], rep[1..] + t, pat[j..]);
      assert pat[j..][0] == pat[j];
    }
  }

  /** After replacing every occurrence by a text sharing no character with the
      pattern, the pattern occurs nowhere in the result. */
  lemma {:induction false} ReplaceAllRemoves(s: string, pat: string, rep: string)
    requires pat != [] && rep != [] && Disjoint(rep, pat)
    ensures !Occurs(ReplaceAll(s, pat, rep), pat)
    decreases |s|
  {
    var r := ReplaceAll(s, pat, rep);
    if s == [] {
    } else if HasPrefix(s, pat) {
      var t := ReplaceAll(s[|pat|..], pat, rep);
      ReplaceAllRemoves(s[|pat|..], pat, rep);
      assert r == rep + t;
      NoOccurrenceAfterPrefix(rep, t, pat);
    } else {
      var t := ReplaceAll(s[1..], pat, rep);
      ReplaceAllRemoves(s[1..], pat, rep);
      assert r == [s[0]] + t;
      assert s == [s[0]] + s[1..];
      ConsPrefix(s[0], t, pat);
      ConsPrefix(s[0], s[1..], pat);
      if |pat| > 1 {
        ReplaceAllStartsWithTail(s[1..], pat, rep, 1);
      } else {
        assert pat[1..] == [];
      }
      assert r[1..] == t;
    }
  }

  /** A pattern whose first character `rep` lacks cannot start inside `rep`. */
  lemma {:induction false} NoOccurrenceAfterPrefix(rep: string, t: string, pat: string)
    requires pat != [] && Disjoint(rep, pat)
    requires !Occurs(t, pat)
    ensures !Occurs(rep + t, pat)
    decreases |rep|
  {
    if rep == [] {
      assert rep + t == t;
    } else {
      assert rep + t == [rep[0]] + (rep[1..] + t);
      ConsPrefix(rep[0], rep[1..] + t, pat);
      assert (rep + t)[1..] == rep[1..] + t;
      NoOccurrenceAfterPrefix(rep[1..], t, pat);
    }
  }

  /** `strings.Split(s, string(sep))`: the pieces between separators, empty
      pieces included; an empty `s` gives one empty piece. */
  function Split(s: string, sep: char): (parts: seq<string>)
    ensures |parts| >= 1
    decreases |s|
  {
    if s == [] then [""]
    else
      var rest := Split(s[1..], sep);
      if s[0] == sep then [""] + rest
      else [[s[0]] + rest[0]] + rest[1..]
  }

  /** Reference inverse of `Split`: the pieces glued back with the separator. */
  function Join(parts: seq<string>, sep: char): string
    requires |parts| >= 1
    decreases |parts|
  {
    if |parts| == 1 then parts[0] else parts[0] + [sep] + Join(parts[1..], sep)
  }

  function Count(s: string, c: char): nat
    decreases |s|
  {
    if s == [] then 0 else (if s[0] == c then 1 else 0) + Count(s[1..], c)
  }

  /** Splitting yields one piece more than there are separators, no piece holds
      a separator, and joining the pieces gives back the input. */
  lemma {:induction false} SplitJoin(s: string, sep: char)
    ensures |Split(s, sep)| == Count(s, sep) + 1
    ensures forall i :: 0 <= i < |Split(s, sep)| ==> sep !in Split(s, sep)[i]
    ensures Join(Split(s, sep), sep) == s
    decreases |s|
  {
    if s != [] {
      SplitJoin(s[1..], sep);
      var rest := Split(s[1..], sep);
      if s[0] == sep {
        assert Split(s, sep)[1..] == rest;
        assert s == [sep] + s[1..];
      } else {
        var parts := Split(s, sep);
        forall i | 0 <= i < |parts| ensures sep !in parts[i] {
          if i > 0 { assert parts[i] == rest[i]; }
        }
        if |rest| == 1 {
          assert s == [s[0]] + rest[0];
        } else {
          assert parts[1..] == rest[1..];
          assert Join(rest, sep) == rest[0] + [sep] + Join(rest[1..], sep);
          assert s == [s[0]] + s[1..];
        }
      }
    }
  }

  /** Go's string `<`: lexicographic, a proper prefix sorting first. */
  predicate Less(a: string, b: string)
    decreases |a|
  {
    b != [] && (a == [] || a[0] < b[0] || (a[0] == b[0] && Less(a[1..], b[1..])))
  }

  lemma {:induction false} LessIrreflexive(a: string)
    ensures !Less(a, a)
    decreases |a|
  {
    if a != [] { LessIrreflexive(a[1..]); }
  }

  lemma {:induction false} LessTransitive(a: string, b: string, c: string)
    requires Less(a, b) && Less(b, c)
    ensures Less(a, c)
    decreases |a|
  {
    if a != [] && a[0] == b[0] && b[0] == c[0] {
      LessTransitive(a[1..], b[1..], c[1..]);
    }
  }

  lemma {:induction false} LessTotal(a: string, b: string)
    requires a != b
    ensures Less(a, b) || Less(b, a)
    decreases |a|
  {
    if a != [] && b != [] && a[0] == b[0] {
      assert a == [a[0]] + a[1..] && b == [b[0]] + b[1..];
      LessTotal(a[1..], b[1..]);
    }
  }

  function DigitChar(d: nat): char
    requires d < 10
  {
    "0123456789"[d]
  }

  /** The number a string of decimal digits reads as, most significant
      first. */
  function DigitsValue(s: string): nat
    requires forall i :: 0 <= i < |s| ==> '0' <= s[i] <= '9'
  {
    if s == [] then 0 else 10 * DigitsValue(s[..|s| - 1]) + (s[|s| - 1] as int - '0' as int)
  }

  /** `%d` formatting of a natural number: decimal digits that read as `n`,
      with a leading zero only for zero itself. */
  function NatToString(n: nat): (s: string)
    ensures s != []
    ensures forall i :: 0 <= i < |s| ==> '0' <= s[i] <= '9'
    ensures DigitsValue(s) == n
    ensures s[0] == '0' <==> n == 0
    decreases n
  {
    if n < 10 then [DigitChar(n)]
    else
      var s := NatToString(n / 10) + [DigitChar(n % 10)];
      assert s[..|s| - 1] == NatToString(n / 10);
      s
  }
}
