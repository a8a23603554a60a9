/**
 * The string operations the sinks and hooks rely on: Python's
 * `str.strip()`, `str.replace(old, '')` on one character, `str.replace(old, new)`
 * and the text normalisation that both chat sinks apply before sending.
 */
module Text {

  /** The characters for which Python's `str.isspace()` holds. */
  predicate IsSpace(c: char) {
    c == ' ' || ('\t' <= c <= '\r') || ('\U{1c}' <= c <= '\U{1f}')
    || c == '\U{85}' || c == '\U{a0}' || c == '\U{1680}'
    || ('\U{2000}' <= c <= '\U{200a}') || c == '\U{2028}' || c == '\U{2029}'
    || c == '\U{202f}' || c == '\U{205f}' || c == '\U{3000}'
  }

  predicate AllSpace(s: string) {
    forall i :: 0 <= i < |s| ==> IsSpace(s[i])
  }

  /** No whitespace at either end. */
  predicate Trimmed(s: string) {
    s == [] || (!IsSpace(s[0]) && !IsSpace(s[|s| - 1]))
  }

  /** `s.lstrip()`: drop leading whitespace. */
  function StripLeft(s: string): (r: string)
    ensures |r| <= |s|
    ensures r == [] || !IsSpace(r[0])
  {
    if s != [] && IsSpace(s[0]) then StripLeft(s[1..]) else s
  }

  /** What `s.lstrip()` drops is all whitespace, and what it keeps is a suffix of `s`. */
  lemma {:induction false} StripLeftShape(s: string)
    ensures var r := StripLeft(s); r == s[|s| - |r|..] && AllSpace(s[..|s| - |r|])
  {
    if s != [] && IsSpace(s[0]) {
      var p := s[1..];
      StripLeftShape(p);
      var r := StripLeft(p);
      assert p[|p| - |r|..] == s[|s| - |r|..];
      assert s[..|s| - |r|] == [s[0]] + p[..|p| - |r|];
    }
  }

  /** `s.rstrip()`: drop trailing whitespace. */
  function StripRight(s: string): (r: string)
    ensures |r| <= |s|
    ensures r == [] || !IsSpace(r[|r| - 1])
  {
    if s != [] && IsSpace(s[|s| - 1]) then StripRight(s[..|s| - 1]) else s
  }

  /** What `s.rstrip()` drops is all whitespace, and what it keeps is a prefix of `s`. */
  lemma {:induction false} StripRightShape(s: string)
    ensures var r := StripRight(s); r == s[..|r|] && AllSpace(s[|r|..])
  {
    if s != [] && IsSpace(s[|s| - 1]) {
      var p := s[..|s| - 1];
      StripRightShape(p);
      var r := StripRight(p);
      assert p[..|r|] == s[..|r|];
      assert s[|r|..] == p[|r|..] + [s[|s| - 1]];
    }
  }

  /** `s.strip()`. */
  function Strip(s: string): string {
    StripRight(StripLeft(s))
  }

  /** `s.strip()` leaves no whitespace at either end. */
  lemma StripTrims(s: string)
    ensures Trimmed(Strip(s))
  {
    var t := StripLeft(s);
    var r := StripRight(t);
    StripRightShape(t);
    if r != [] {
      assert r[0] == t[0];
    }
  }

  /** `s.replace(c, '')` for a single character `c`. */
  function Remove(s: string, c: char): (r: string)
    ensures c !in r
  {
    if s == [] then []
    else (if s[0] == c then [] else [s[0]]) + Remove(s[1..], c)
  }

  /** Removing `c` keeps every other character, as often as it occurred. */
  lemma {:induction false} RemoveKeepsOthers(s: string, c: char)
    ensures multiset(Remove(s, c)) == multiset(s)[c := 0]
  {
    if s != [] {
      RemoveKeepsOthers(s[1..], c);
      assert s == [s[0]] + s[1..];
    }
  }

  /** Removing `c` keeps the other characters in their order: it distributes over concatenation. */
  lemma {:induction false} RemoveAppend(a: string, b: string, c: char)
    ensures Remove(a + b, c) == Remove(a, c) + Remove(b, c)
  {
    if a == [] {
      assert a + b == b;
    } else {
      assert (a + b)[1..] == a[1..] + b;
      RemoveAppend(a[1..], b, c);
    }
  }

  /** Removing a character that does not occur leaves the string as it is. */
  lemma {:induction false} RemoveAbsent(s: string, c: char)
    requires c !in s
    ensures Remove(s, c) == s
  {
    if s != [] {
      assert s[0] != c && c !in s[1..];
      RemoveAbsent(s[1..], c);
    }
  }

  /** Stripping adds no character: `Strip(s)` is a piece of `s`. */
  lemma StripKeepsCharacters(s: string)
    ensures forall c :: c in Strip(s) ==> c in s
  {
    var t := StripLeft(s);
    StripLeftShape(s);
    StripRightShape(t);
    var r := StripRight(t);
    forall c | c in r ensures c in s {
      var k :| 0 <= k < |r| && r[k] == c;
      assert t[k] == c;
      assert s[|s| - |t| + k] == c;
    }
  }

  /** Stripping a string that has no whitespace at its ends leaves it as it is. */
  lemma StripTrimmed(s: string)
    requires Trimmed(s)
    ensures Strip(s) == s
  {
  }

  /** The text sent in place of an empty update. */
  const Placeholder := "..."

  /**
   * What a sink's `write(s)` sends: an empty (falsy) `s` becomes "...",
   * every carriage return is removed and the ends are stripped.
   */
  function Normalise(s: string): (r: string)
    ensures s == [] ==> r == Placeholder
    ensures '\r' !in r
  {
    var t := if s == [] then Placeholder else s;
    PlaceholderNormal();
    StripKeepsCharacters(Remove(t, '\r'));
    Strip(Remove(t, '\r'))
  }

  /** The placeholder survives the normalisation unchanged. */
  lemma PlaceholderNormal()
    ensures Strip(Remove(Placeholder, '\r')) == Placeholder
  {
    RemoveAbsent(Placeholder, '\r');
    assert Trimmed(Placeholder);
    StripTrimmed(Placeholder);
  }

  /** The normalised text has no whitespace at either end: it is a stripped infix of `s` without its carriage returns. */
  lemma NormaliseTrimmed(s: string)
    requires s != []
    ensures Trimmed(Normalise(s))
    ensures Normalise(s) == Strip(Remove(s, '\r'))
  {
    StripTrims(Remove(s, '\r'));
  }

  /** A non-empty normalised text normalises to itself. */
  lemma NormaliseIdempotent(s: string)
    requires Normalise(s) != []
    ensures Normalise(Normalise(s)) == Normalise(s)
  {
    var r := Normalise(s);
    if s != [] {
      NormaliseTrimmed(s);
    } else {
      assert Trimmed(Placeholder);
    }
    RemoveAbsent(r, '\r');
    StripTrimmed(r);
  }

  /** Whitespace alone is truthy, yet normalises to the empty text. */
  lemma BlankNormalisesToEmpty(s: string)
    requires s != [] && AllSpace(s)
    ensures Normalise(s) == []
  {
    RemoveBlank(s, '\r');
    BlankStripsLeft(Remove(s, '\r'));
  }

  lemma {:induction false} RemoveBlank(s: string, c: char)
    requires AllSpace(s)
    ensures AllSpace(Remove(s, c))
  {
    if s != [] {
      RemoveBlank(s[1..], c);
    }
  }

  lemma {:induction false} BlankStripsLeft(s: string)
    requires AllSpace(s)
    ensures StripLeft(s) == []
  {
    if s != [] {
      BlankStripsLeft(s[1..]);
    }
  }

  // ---- substring search and replacement ----

  predicate StartsWith(s: string, p: string) {
    |p| <= |s| && s[..|p|] == p
  }

  /** A string starts with a non-empty `w` when its head is `w[0]` and its tail starts with the rest of `w`. */
  lemma StartsWithCons(c: char, x: string, w: string)
    requires w != []
    ensures StartsWith([c] + x, w) <==> c == w[0] && StartsWith(x, w[1..])
  {
    if |w| - 1 <= |x| {
      assert ([c] + x)[..|w|] == [c] + x[..|w| - 1];
    }
  }

  predicate OccursAt(s: string, p: string, i: int) {
    0 <= i && i + |p| <= |s| && s[i..i + |p|] == p
  }

  /** Python's `p in s`. */
  predicate Contains(s: string, p: string) {
    exists i | 0 <= i <= |s| - |p| :: OccursAt(s, p, i)
  }

  /** Python's `s.replace(pat, rep)`: every non-overlapping occurrence, scanned from the left. */
  function ReplaceAll(s: string, pat: string, rep: string): string
    requires pat != []
    decreases |s|
  {
    if StartsWith(s, pat) then rep + ReplaceAll(s[|pat|..], pat, rep)
    else if s == [] then []
    else [s[0]] + ReplaceAll(s[1..], pat, rep)
  }

  /** A window of `[c] + x` that starts after `c` is a window of `x`. */
  lemma ConsWindow(c: char, x: string, i: int, n: nat)
    requires 1 <= i && i + n <= |x| + 1
    ensures ([c] + x)[i..i + n] == x[i - 1..i - 1 + n]
  {
  }

  /**
   * The first occurrence of a pattern that cannot overlap itself is the one
   * replaced, and scanning resumes after it.
   */
  lemma {:induction false} ReplaceAtFirst(a: string, pat: string, rep: string, b: string)
    requires pat != [] && pat[0] !in pat[1..] && !Contains(a, pat)
    ensures ReplaceAll(a + pat + b, pat, rep) == a + rep + ReplaceAll(b, pat, rep)
    decreases |a|
  {
    var s := a + pat + b;
    if a == [] {
      assert s == pat + b;
      assert s[..|pat|] == pat;
      assert s[|pat|..] == b;
    } else {
      if |pat| <= |a| {
        assert !OccursAt(a, pat, 0);
        assert s[..|pat|] == a[0..|pat|];
      } else {
        assert pat[1..][|a| - 1] == pat[|a|];
        assert s[..|pat|][|a|] == pat[0] != pat[|a|];
      }
      assert !StartsWith(s, pat);
      assert s[1..] == a[1..] + pat + b;
      NoOccurrenceInSuffix(a, pat, 1);
      ReplaceAtFirst(a[1..], pat, rep, b);
      assert [a[0]] + (a[1..] + rep + ReplaceAll(b, pat, rep)) == a + rep + ReplaceAll(b, pat, rep);
    }
  }

  /** No occurrence can straddle the join when the right part starts with a character found only at the pattern's start. */
  lemma NoStraddle(a: string, y: string, p: string)
    requires p != [] && !Contains(a, p) && !Contains(y, p)
    requires y != [] ==> y[0] !in p[1..]
    ensures !Contains(a + y, p)
  {
    var s := a + y;
    forall i | 0 <= i <= |s| - |p| ensures !OccursAt(s, p, i) {
      if i + |p| <= |a| {
        assert !OccursAt(a, p, i);
        assert s[i..i + |p|] == a[i..i + |p|];
      } else if i >= |a| {
        assert !OccursAt(y, p, i - |a|);
        assert s[i..i + |p|] == y[i - |a|..i - |a| + |p|];
      } else {
        var j := |a| - i;
        assert p[1..][j - 1] == p[j];
        assert s[i..i + |p|][j] == y[0];
      }
    }
  }

  lemma NoOccurrenceInSuffix(s: string, p: string, k: nat)
    requires k <= |s| && !Contains(s, p)
    ensures !Contains(s[k..], p)
  {
    forall i | 0 <= i <= |s[k..]| - |p| ensures !OccursAt(s[k..], p, i) {
      assert !OccursAt(s, p, k + i);
      assert s[k..][i..i + |p|] == s[k + i..k + i + |p|];
    }
  }

  /** A pattern that does not occur is not replaced: the string comes back unchanged. */
  lemma {:induction false} ReplaceAbsent(s: string, pat: string, rep: string)
    requires pat != [] && !Contains(s, pat)
    ensures ReplaceAll(s, pat, rep) == s
  {
    if s != [] {
      assert !OccursAt(s, pat, 0);
      NoOccurrenceInSuffix(s, pat, 1);
      ReplaceAbsent(s[1..], pat, rep);
    }
  }

  /**
   * A prefix free of `rep[0]` cannot have been produced by a replacement,
   * so it was already a prefix of the input.
   */
  lemma {:induction false} PrefixPreserved(t: string, pat: string, rep: string, w: string)
    requires pat != [] && rep != [] && rep[0] !in w
    ensures StartsWith(ReplaceAll(t, pat, rep), w) ==> StartsWith(t, w)
    decreases |t|
  {
    if w != [] && !StartsWith(t, pat) && t != [] {
      assert rep[0] !in w[1..] by {
        forall j | 0 <= j < |w[1..]| ensures w[1..][j] != rep[0] {
          assert w[1..][j] == w[j + 1];
        }
      }
      PrefixPreserved(t[1..], pat, rep, w[1..]);
      StartsWithCons(t[0], ReplaceAll(t[1..], pat, rep), w);
      assert t == [t[0]] + t[1..];
      StartsWithCons(t[0], t[1..], w);
    }
  }

  /** No occurrence of `p` starts inside `rep` when `p[0]` occurs in `rep` at most at index 0, there not as a prefix. */
  lemma NoOccurrenceAfterRep(rep: string, x: string, p: string)
    requires p != [] && rep != [] && p[0] !in rep[1..] && !Contains(x, p)
    requires rep[0] == p[0] ==> |p| <= |rep| && rep[..|p|] != p
    ensures !Contains(rep + x, p)
  {
    var s := rep + x;
    forall i | 0 <= i <= |s| - |p| ensures !OccursAt(s, p, i) {
      if i == 0 {
        if rep != [] && rep[0] == p[0] {
          assert s[..|p|] == rep[..|p|];
        }
      } else if i < |rep| {
        assert s[i] == rep[i] == rep[1..][i - 1];
      } else {
        assert !OccursAt(x, p, i - |rep|);
        assert s[i..i + |p|] == x[i - |rep|..i - |rep| + |p|];
      }
    }
  }

  /**
   * Replacing `pat` leaves no occurrence of it, provided the replacement
   * cannot recreate one: `pat[0]` occurs in `rep` at most at index 0 (and
   * `pat` is not a prefix of `rep` there), and `rep[0]` does not occur in
   * the rest of `pat`.
   */
  lemma {:induction false} ReplaceEliminates(t: string, pat: string, rep: string)
    requires pat != [] && rep != []
    requires pat[0] !in rep[1..] && rep[0] !in pat[1..]
    requires rep[0] == pat[0] ==> |pat| <= |rep| && rep[..|pat|] != pat
    ensures !Contains(ReplaceAll(t, pat, rep), pat)
    decreases |t|
  {
    if StartsWith(t, pat) {
      ReplaceEliminates(t[|pat|..], pat, rep);
      NoOccurrenceAfterRep(rep, ReplaceAll(t[|pat|..], pat, rep), pat);
    } else if t != [] {
      var x := ReplaceAll(t[1..], pat, rep);
      ReplaceEliminates(t[1..], pat, rep);
      PrefixPreserved(t[1..], pat, rep, pat[1..]);
      var s := [t[0]] + x;
      forall i | 0 <= i <= |s| - |pat| ensures !OccursAt(s, pat, i) {
        if i == 0 {
          StartsWithCons(t[0], x, pat);
          assert t == [t[0]] + t[1..];
          StartsWithCons(t[0], t[1..], pat);
        } else {
          assert !OccursAt(x, pat, i - 1);
          ConsWindow(t[0], x, i, |pat|);
        }
      }
    }
  }

  /**
   * Replacing `pat` creates no occurrence of a pattern `q` that was absent,
   * provided `q` can neither start inside `rep` nor run into it.
   */
  lemma {:induction false} ReplacePreservesAbsence(t: string, pat: string, rep: string, q: string)
    requires pat != [] && rep != [] && q != []
    requires q[0] !in rep && rep[0] !in q
    ensures !Contains(t, q) ==> !Contains(ReplaceAll(t, pat, rep), q)
    decreases |t|
  {
    if !Contains(t, q) {
      if StartsWith(t, pat) {
        NoOccurrenceInSuffix(t, q, |pat|);
        ReplacePreservesAbsence(t[|pat|..], pat, rep, q);
        assert q[0] !in rep[1..] by {
          forall j | 0 <= j < |rep[1..]| ensures rep[1..][j] != q[0] {
            assert rep[1..][j] == rep[j + 1];
          }
        }
        NoOccurrenceAfterRep(rep, ReplaceAll(t[|pat|..], pat, rep), q);
      } else if t != [] {
        var x := ReplaceAll(t[1..], pat, rep);
        NoOccurrenceInSuffix(t, q, 1);
        ReplacePreservesAbsence(t[1..], pat, rep, q);
        assert rep[0] !in q[1..] by {
          forall j | 0 <= j < |q[1..]| ensures q[1..][j] != rep[0] {
            assert q[1..][j] == q[j + 1];
          }
        }
        PrefixPreserved(t[1..], pat, rep, q[1..]);
        var s := [t[0]] + x;
        forall i | 0 <= i <= |s| - |q| ensures !OccursAt(s, q, i) {
          if i == 0 {
            assert !OccursAt(t, q, 0);
            StartsWithCons(t[0], x, q);
            assert t == [t[0]] + t[1..];
            StartsWithCons(t[0], t[1..], q);
          } else {
            assert !OccursAt(x, q, i - 1);
            ConsWindow(t[0], x, i, |q|);
          }
        }
      }
    }
  }
}
