/** Shared vocabulary of the four trackers: optional values, calendar days as
    day numbers, the rounded percentage every dashboard shows, counting and
    filtering of JavaScript arrays, and `String.prototype.trim`. */
module Common {

  datatype Option<T> = None | Some(value: T)

  /** A calendar date as a day number; day 0 is 1970-01-01, a Thursday. */
  type Day = int

  /** Ids are opaque strings (the source draws them from `crypto.randomUUID`). */
  type Id = string

  /** Day of week with 0 = Sunday, as JavaScript's `Date.getDay` counts. */
  function Weekday(d: Day): (w: nat)
    ensures w < 7
  {
    (d + 4) % 7
  }

  /** The Sunday that starts the week containing `today`
      (`startOfWeek(today, { weekStartsOn: 0 })`). */
  function SundayOnOrBefore(today: Day): (s: Day)
    ensures s <= today < s + 7
    ensures Weekday(s) == 0
  {
    today - Weekday(today)
  }

  /** `Math.round(100 * part / whole)` for whole > 0, and 0 when whole is 0:
      the nearest integer to 100*part/whole, halves rounded up. */
  function RoundPercent(part: nat, whole: nat): (r: nat)
    ensures whole == 0 ==> r == 0
    ensures whole > 0 ==> 2 * whole * r <= 200 * part + whole < 2 * whole * (r + 1)
    ensures part <= whole ==> r <= 100
  {
    if whole == 0 then 0
    else
      var r := (200 * part + whole) / (2 * whole);
      DivBounds(200 * part + whole, 2 * whole);
      if part <= whole then
        assert 2 * whole * r <= 200 * part + whole <= 201 * whole < 2 * whole * 101;
        LessByFactor(r, 101, 2 * whole);
        r
      else r
  }

  lemma DivBounds(a: nat, b: nat)
    requires b > 0
    ensures b * (a / b) <= a < b * (a / b + 1)
  {
  }

  lemma LessByFactor(x: nat, y: nat, k: nat)
    requires k > 0 && k * x < k * y
    ensures x < y
  {
  }

  /** Rounding never exceeds 100 when the part is at most the whole, and reaches
      exactly 100 for part == whole > 0 and 0 for part == 0. */
  lemma RoundPercentEnds(whole: nat)
    requires whole > 0
    ensures RoundPercent(whole, whole) == 100
    ensures RoundPercent(0, whole) == 0
  {
    var r := RoundPercent(whole, whole);
    assert 2 * whole * r <= 201 * whole < 2 * whole * 101;
    LessByFactor(r, 101, 2 * whole);
    assert 2 * whole * 100 < 2 * whole * (r + 1);
    LessByFactor(100, r + 1, 2 * whole);
    var z := RoundPercent(0, whole);
    assert 2 * whole * z < 2 * whole * 1;
    LessByFactor(z, 1, 2 * whole);
  }

  /** Number of elements of `s` satisfying `p` (`s.filter(p).length`). */
  function Count<T>(s: seq<T>, p: T -> bool): (n: nat)
    ensures n <= |s|
  {
    if s == [] then 0 else Count(s[..|s| - 1], p) + (if p(s[|s| - 1]) then 1 else 0)
  }

  /** `s.filter(p)`. */
  function Filter<T>(s: seq<T>, p: T -> bool): (r: seq<T>)
    ensures |r| == Count(s, p)
    ensures forall i :: 0 <= i < |r| ==> r[i] in s && p(r[i])
    ensures forall i :: 0 <= i < |s| && p(s[i]) ==> s[i] in r
  {
    if s == [] then [] else Filter(s[..|s| - 1], p) + (if p(s[|s| - 1]) then [s[|s| - 1]] else [])
  }

  /** Index of the first element satisfying `p`, or `|s|` when none does
      (`Array.prototype.find`, with `|s|` standing for `undefined`). */
  function FindIndex<T>(s: seq<T>, p: T -> bool): (i: nat)
    ensures i <= |s|
    ensures i < |s| ==> p(s[i])
    ensures forall j :: 0 <= j < i ==> !p(s[j])
  {
    if s == [] then 0 else if p(s[0]) then 0 else 1 + FindIndex(s[1..], p)
  }

  /** `a` is an order-preserving subsequence of `b`. */
  predicate IsSubsequence<T(==)>(a: seq<T>, b: seq<T>)
  {
    if a == [] then true
    else if b == [] then false
    else if a[|a| - 1] == b[|b| - 1] then IsSubsequence(a[..|a| - 1], b[..|b| - 1])
    else IsSubsequence(a, b[..|b| - 1])
  }

  lemma {:induction false} SubsequenceOfSelf<T>(s: seq<T>)
    ensures IsSubsequence(s, s)
  {
    if s != [] {
      SubsequenceOfSelf(s[..|s| - 1]);
    }
  }

  lemma {:induction false} SubsequenceExtend<T>(a: seq<T>, b: seq<T>, x: T)
    requires IsSubsequence(a, b)
    ensures IsSubsequence(a, b + [x])
    decreases |a| + |b|, 1
  {
    var bx := b + [x];
    assert bx[..|bx| - 1] == b;
    if a != [] && a[|a| - 1] == x {
      SubsequenceDropLast(a, b);
    }
  }

  lemma {:induction false} SubsequenceDropLast<T>(a: seq<T>, b: seq<T>)
    requires a != [] && IsSubsequence(a, b)
    ensures IsSubsequence(a[..|a| - 1], b)
    decreases |a| + |b|, 0
  {
    var b', y := b[..|b| - 1], b[|b| - 1];
    assert b' + [y] == b;
    if a[|a| - 1] == y {
      SubsequenceExtend(a[..|a| - 1], b', y);
    } else {
      SubsequenceDropLast(a, b');
      SubsequenceExtend(a[..|a| - 1], b', y);
    }
  }

  /** What `filter` keeps is an order-preserving subsequence of its input. */
  lemma {:induction false} FilterIsSubsequence<T>(s: seq<T>, p: T -> bool)
    ensures IsSubsequence(Filter(s, p), s)
  {
    if s != [] {
      var init, last := s[..|s| - 1], s[|s| - 1];
      FilterIsSubsequence(init, p);
      if p(last) {
        var f := Filter(s, p);
        assert f[..|f| - 1] == Filter(init, p);
        assert s[..|s| - 1] == init;
      } else {
        assert Filter(s, p) == Filter(init, p);
        SubsequenceExtend(Filter(init, p), init, last);
        assert init + [last] == s;
      }
    }
  }

  /** A filter whose predicate holds everywhere returns its input. */
  lemma {:induction false} FilterAll<T>(s: seq<T>, p: T -> bool)
    requires forall i :: 0 <= i < |s| ==> p(s[i])
    ensures Filter(s, p) == s
  {
    if s != [] {
      FilterAll(s[..|s| - 1], p);
      assert s[..|s| - 1] + [s[|s| - 1]] == s;
    }
  }

  /** The elements of `s` have pairwise distinct keys. */
  predicate DistinctKeys<T, K(==)>(s: seq<T>, key: T -> K)
  {
    forall i, j :: 0 <= i < j < |s| ==> key(s[i]) != key(s[j])
  }

  /** Filtering a sequence whose elements have pairwise distinct keys keeps the
      keys pairwise distinct (ids stay unique after a delete). */
  lemma {:induction false} FilterKeepsDistinct<T, K>(s: seq<T>, p: T -> bool, key: T -> K)
    requires DistinctKeys(s, key)
    ensures DistinctKeys(Filter(s, p), key)
  {
    if s != [] {
      var init, last := s[..|s| - 1], s[|s| - 1];
      FilterKeepsDistinct(init, p, key);
      var f := Filter(init, p);
      forall i | 0 <= i < |f| ensures key(f[i]) != key(last) {
        assert f[i] in init;
        var k :| 0 <= k < |init| && init[k] == f[i];
        assert init[k] == s[k];
      }
      if p(last) {
        var r := f + [last];
        assert Filter(s, p) == r;
        forall i, j | 0 <= i < j < |r| ensures key(r[i]) != key(r[j]) {
          if j < |f| {
            assert r[i] == f[i] && r[j] == f[j];
          }
        }
      } else {
        assert Filter(s, p) == f;
      }
    }
  }

  /** Counting a predicate and its negation splits the sequence. */
  lemma {:induction false} CountComplement<T>(s: seq<T>, p: T -> bool, q: T -> bool)
    requires forall x :: q(x) == !p(x)
    ensures Count(s, p) + Count(s, q) == |s|
  {
    if s != [] {
      CountComplement(s[..|s| - 1], p, q);
    }
  }

  /** Counting is monotone in the predicate. */
  lemma {:induction false} CountMono<T>(s: seq<T>, p: T -> bool, q: T -> bool)
    requires forall x :: p(x) ==> q(x)
    ensures Count(s, p) <= Count(s, q)
  {
    if s != [] {
      CountMono(s[..|s| - 1], p, q);
    }
  }

  /** Two predicates that never hold together count at most the whole sequence. */
  lemma {:induction false} CountDisjoint<T>(s: seq<T>, p: T -> bool, q: T -> bool)
    requires forall x :: !(p(x) && q(x))
    ensures Count(s, p) + Count(s, q) <= |s|
  {
    if s != [] {
      CountDisjoint(s[..|s| - 1], p, q);
    }
  }

  /** `s.filter(x => x.id !== id)`, the delete of every store, with `key`
      reading an element's id. */
  function RemoveById<T>(s: seq<T>, key: T -> Id, id: Id): (r: seq<T>)
    ensures forall i :: 0 <= i < |r| ==> key(r[i]) != id && r[i] in s
    ensures forall i :: 0 <= i < |s| && key(s[i]) != id ==> s[i] in r
  {
    Filter(s, (x: T) => key(x) != id)
  }

  /** Deleting keeps the other elements in their order, removes one entry per
      element with the id, and keeps unique ids unique. */
  lemma RemoveByIdKeepsOrder<T>(s: seq<T>, key: T -> Id, id: Id)
    ensures IsSubsequence(RemoveById(s, key, id), s)
    ensures |RemoveById(s, key, id)| + Count(s, (x: T) => key(x) == id) == |s|
    ensures DistinctKeys(s, key) ==> DistinctKeys(RemoveById(s, key, id), key)
  {
    FilterIsSubsequence(s, (x: T) => key(x) != id);
    CountComplement(s, (x: T) => key(x) != id, (x: T) => key(x) == id);
    if DistinctKeys(s, key) {
      FilterKeepsDistinct(s, (x: T) => key(x) != id, key);
    }
  }

  /** The characters `String.prototype.trim` removes: ECMAScript WhiteSpace and
      LineTerminator. */
  predicate IsSpace(c: char)
  {
    c == '\t' || c == '\n' || c == '\U{000B}' || c == '\U{000C}' || c == '\r' || c == ' '
    || c == '\U{00A0}' || c == '\U{1680}' || ('\U{2000}' <= c <= '\U{200A}')
    || c == '\U{2028}' || c == '\U{2029}' || c == '\U{202F}' || c == '\U{205F}'
    || c == '\U{3000}' || c == '\U{FEFF}'
  }

  /** Number of white-space characters at the start of `s`. */
  function LeadingSpaces(s: string): (k: nat)
    ensures k <= |s|
    ensures forall i :: 0 <= i < k ==> IsSpace(s[i])
    ensures k < |s| ==> !IsSpace(s[k])
  {
    if s == [] || !IsSpace(s[0]) then 0 else 1 + LeadingSpaces(s[1..])
  }

  /** Length of `s` without its white-space tail. */
  function TrailingStart(s: string): (k: nat)
    ensures k <= |s|
    ensures forall i :: k <= i < |s| ==> IsSpace(s[i])
    ensures k > 0 ==> !IsSpace(s[k - 1])
  {
    if s == [] || !IsSpace(s[|s| - 1]) then |s| else TrailingStart(s[..|s| - 1])
  }

  /** `s.trim()`: the input without white space at either end. */
  function Trim(s: string): (r: string)
    ensures r == [] || (!IsSpace(r[0]) && !IsSpace(r[|r| - 1]))
  {
    var u := s[LeadingSpaces(s)..];
    u[..TrailingStart(u)]
  }

  /** `s.trim()` is falsy exactly for strings made only of white space. */
  lemma TrimEmptyIff(s: string)
    ensures Trim(s) == [] <==> forall i :: 0 <= i < |s| ==> IsSpace(s[i])
  {
    var k := LeadingSpaces(s);
    assert Trim(s) == [] ==> k == |s|;
  }

  /** Trimming keeps a contiguous piece of the input and only drops white space around it. */
  lemma TrimIsInfix(s: string)
    ensures exists a, b ::
              && 0 <= a <= b <= |s| && Trim(s) == s[a..b]
              && (forall i :: 0 <= i < a ==> IsSpace(s[i]))
              && (forall i :: b <= i < |s| ==> IsSpace(s[i]))
  {
    var k := LeadingSpaces(s);
    var u := s[k..];
    var m := TrailingStart(u);
    assert Trim(s) == s[k..k + m];
    forall i | k + m <= i < |s| ensures IsSpace(s[i]) {
      assert s[i] == u[i - k];
    }
  }
}
