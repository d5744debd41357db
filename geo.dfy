/**
 * `parseGeoJSON` of src/lib/geo.ts: turns every two-element position of a
 * path around, so that positions in the server's order come out in the
 * map's order. Coordinates are only moved, never computed with, so their
 * type is a parameter.
 */
module Geo {

  /** One position turned around. */
  function Swap<C>(p: (C, C)): (C, C) {
    (p.1, p.0)
  }

  /** The path with every position turned around, as a fresh value: outer order and length are kept. */
  function ParseGeoJSON<C>(paths: seq<(C, C)>): (r: seq<(C, C)>)
    ensures |r| == |paths|
    ensures forall i :: 0 <= i < |paths| ==> r[i].0 == paths[i].1 && r[i].1 == paths[i].0
  {
    seq(|paths|, i requires 0 <= i < |paths| => Swap(paths[i]))
  }

  /** Turning every position around twice gives the original path back. */
  lemma ParseGeoJSONInvolutive<C>(paths: seq<(C, C)>)
    ensures ParseGeoJSON(ParseGeoJSON(paths)) == paths
  {
  }

  /** The conversion works position by position: it distributes over concatenation. */
  lemma ParseGeoJSONAppend<C>(a: seq<(C, C)>, b: seq<(C, C)>)
    ensures ParseGeoJSON(a + b) == ParseGeoJSON(a) + ParseGeoJSON(b)
  {
  }

  /** The concrete cases of the module's tests: several points, one point, none, and negative values carried unchanged. */
  lemma ParseGeoJSONExamples()
    ensures ParseGeoJSON([(100.123, 50.123), (123.456, 10.234)]) == [(50.123, 100.123), (10.234, 123.456)]
    ensures ParseGeoJSON([(123.456, 10.234)]) == [(10.234, 123.456)]
    ensures ParseGeoJSON<real>([]) == []
    ensures ParseGeoJSON([(-50.123, 50.321)]) == [(50.321, -50.123)]
    ensures ParseGeoJSON([(-50.123, 10.234), (-50.321, 99.876)]) == [(10.234, -50.123), (99.876, -50.321)]
  {
  }

  /**
   * The code as written. `path.reverse()` turns each caller's two-element
   * array around IN PLACE and the result holds those same arrays. An array
   * that occurs several times in `paths` is turned around once per
   * occurrence, so it ends up swapped exactly when it occurs an odd number
   * of times.
   */
  method ParseGeoJSONInPlace<C>(paths: seq<array<C>>) returns (out: seq<array<C>>)
    requires forall p :: p in paths ==> p.Length == 2
    modifies set p | p in paths
    ensures out == paths
    ensures forall p :: p in paths ==>
      p[..] == if Occurrences(paths, p) % 2 == 1 then [old(p[1]), old(p[0])] else old(p[..])
  {
    var i := 0;
    while i < |paths|
      invariant 0 <= i <= |paths|
      invariant forall p :: p in paths ==>
        p[..] == if OddTimes(paths[..i], p) then [old(p[1]), old(p[0])] else old(p[..])
    {
      var q := paths[i];
      assert paths[..i + 1] == paths[..i] + [q];
      OddTimesSnoc(paths[..i], q);
      Reverse(q);
      i := i + 1;
    }
    assert paths[..|paths|] == paths;
    OddTimesIsOddCount(paths);
    out := paths;
  }

  /** `reverse()` on one two-element position: the array itself is turned around. */
  method Reverse<C>(q: array<C>)
    requires q.Length == 2
    modifies q
    ensures q[..] == [old(q[1]), old(q[0])]
  {
    q[0], q[1] := q[1], q[0];
  }

  /** How many times `x` occurs in `s`. */
  function Occurrences<X(==)>(s: seq<X>, x: X): (n: nat)
    ensures n <= |s|
    ensures n == 0 <==> x !in s
  {
    if |s| == 0 then 0 else (if s[0] == x then 1 else 0) + Occurrences(s[1..], x)
  }

  /** The count agrees with the multiplicity in the multiset of `s`. */
  lemma {:induction false} OccurrencesIsMultiplicity<X>(s: seq<X>, x: X)
    ensures Occurrences(s, x) == multiset(s)[x]
    decreases |s|
  {
    if |s| > 0 {
      assert s == [s[0]] + s[1..];
      assert multiset(s) == multiset{s[0]} + multiset(s[1..]);
      OccurrencesIsMultiplicity(s[1..], x);
    }
  }

  /** Whether `x` occurs in `s` an odd number of times, by flipping a flag per occurrence. */
  function OddTimes<X(==)>(s: seq<X>, x: X): bool {
    if |s| == 0 then false else (s[0] == x) != OddTimes(s[1..], x)
  }

  /** Appending `y` flips the flag of `y` and of nothing else. */
  lemma {:induction false} OddTimesSnoc<X>(s: seq<X>, y: X)
    ensures forall x :: OddTimes(s + [y], x) == (OddTimes(s, x) != (x == y))
    decreases |s|
  {
    if |s| > 0 {
      assert (s + [y])[1..] == s[1..] + [y];
      OddTimesSnoc(s[1..], y);
    } else {
      assert s + [y] == [y] && [y][1..] == [];
    }
  }

  /** The flag is the parity of the count. */
  lemma {:induction false} OddTimesIsOddCount<X>(s: seq<X>)
    ensures forall x :: OddTimes(s, x) <==> Occurrences(s, x) % 2 == 1
    decreases |s|
  {
    if |s| > 0 {
      OddTimesIsOddCount(s[1..]);
    }
  }

  /**
   * A caller's array `[100.123, 50.123]` passed to the code as written reads
   * `[50.123, 100.123]` afterwards: the input is changed, not just the
   * result. A shallow copy of the outer array taken beforehand shares the
   * inner arrays, so its first position reads the changed contents too, and
   * comparing the input with it cannot see the change.
   */
  method InPlaceMutationWitness() returns (before: seq<real>, after: seq<real>, copyReads: seq<real>)
    ensures before == [100.123, 50.123]
    ensures after == [50.123, 100.123]
    ensures copyReads == after
  {
    var a := new real[2];
    a[0], a[1] := 100.123, 50.123;
    before := a[..];
    var original := [a];
    var copy := original;
    var result := ParseGeoJSONInPlace(original);
    after := a[..];
    copyReads := copy[0][..];
  }

  /**
   * The evidently intended behaviour on arrays: every position is reversed
   * in a fresh array and the caller's arrays are left as they were (this
   * method may modify nothing that existed before it ran).
   */
  method ParseGeoJSONCopying<C>(paths: seq<array<C>>) returns (out: seq<array<C>>)
    requires forall p :: p in paths ==> p.Length == 2
    ensures |out| == |paths|
    ensures forall i :: 0 <= i < |paths| ==> out[i][..] == [paths[i][1], paths[i][0]]
    ensures forall i :: 0 <= i < |out| ==> fresh(out[i])
  {
    out := [];
    var i := 0;
    while i < |paths|
      invariant 0 <= i <= |paths|
      invariant |out| == i
      invariant forall j :: 0 <= j < i ==> out[j][..] == [paths[j][1], paths[j][0]]
      invariant forall j :: 0 <= j < i ==> fresh(out[j])
    {
      var p := paths[i];
      var q := new C[2](k requires 0 <= k < 2 reads p => p[1 - k]);
      out := out + [q];
      i := i + 1;
    }
  }
}
