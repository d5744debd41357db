/**
 * The route-path assembly of src/components/MapPanel/index.tsx. From the
 * waypoints of the resolved route it builds the consecutive pairs, asks the
 * routing service for one segment per pair, and folds the answers back into
 * one path in pair order: a pair whose answer is not "Ok" is skipped; an Ok
 * pair contributes its first waypoint and the segment's geometry; the
 * final waypoint is added only when the last pair is Ok.
 */
module MapPanel {
  import opened Wrappers
  import opened Constants
  import opened Store

  /** The routing service's `code` for a segment it could compute. */
  const OK_CODE: string := "Ok"

  /** A segment answer: its `code` and `routes[0].geometry.coordinates`. */
  datatype Segment<P> = Segment(code: string, coordinates: seq<P>)

  /** How one segment fetch settled: with an answer, or rejected. */
  datatype Settled<X> = Fulfilled(value: X) | Rejected

  // ---------------------------------------------------------------------
  // Pair construction
  // ---------------------------------------------------------------------

  /** The mapped route: each waypoint but the last is paired with its successor, and the last gives no pair. */
  function Candidates<P>(points: seq<P>): (c: seq<Option<(P, P)>>)
    ensures |c| == |points|
  {
    seq(|points|, i requires 0 <= i < |points| =>
      if i < |points| - 1 then Some((points[i], points[i + 1])) else None)
  }

  /** `.filter(Boolean)`: the present entries, in order. */
  function Present<X>(xs: seq<Option<X>>): seq<X>
  {
    if |xs| == 0 then []
    else (if xs[0].Some? then [xs[0].value] else []) + Present(xs[1..])
  }

  lemma {:induction false} PresentAppend<X>(xs: seq<Option<X>>, ys: seq<Option<X>>)
    ensures Present(xs + ys) == Present(xs) + Present(ys)
  {
    if |xs| > 0 {
      assert (xs + ys)[1..] == xs[1..] + ys;
      PresentAppend(xs[1..], ys);
    } else {
      assert xs + ys == ys;
    }
  }

  lemma {:induction false} PresentAllSome<X>(xs: seq<Option<X>>)
    requires forall i :: 0 <= i < |xs| ==> xs[i].Some?
    ensures |Present(xs)| == |xs|
    ensures forall i :: 0 <= i < |xs| ==> Present(xs)[i] == xs[i].value
  {
    if |xs| > 0 {
      PresentAllSome(xs[1..]);
    }
  }

  /** The consecutive waypoint pairs: `n - 1` of them for `n >= 1` points, pair `i` being `(points[i], points[i + 1])`. */
  function Pairs<P>(points: seq<P>): (r: seq<(P, P)>)
    ensures |r| == if |points| == 0 then 0 else |points| - 1
    ensures forall i :: 0 <= i < |r| ==> r[i] == (points[i], points[i + 1])
  {
    var c := Candidates(points);
    if |points| == 0 then Present(c)
    else
      assert c == c[..|points| - 1] + [None];
      PresentAppend(c[..|points| - 1], [None]);
      PresentAllSome(c[..|points| - 1]);
      Present(c)
  }

  // ---------------------------------------------------------------------
  // Promise.all
  // ---------------------------------------------------------------------

  /** `Promise.all`: the answers in input order when every fetch fulfilled, `None` when any rejected. */
  function PromiseAll<X>(settled: seq<Settled<X>>): (r: Option<seq<X>>)
    ensures r.Some? <==> forall i :: 0 <= i < |settled| ==> settled[i].Fulfilled?
    ensures r.Some? ==> |r.value| == |settled| && forall i :: 0 <= i < |settled| ==> r.value[i] == settled[i].value
  {
    if |settled| == 0 then Some([])
    else if settled[0].Rejected? then None
    else match PromiseAll(settled[1..])
      case None => None
      case Some(rest) => Some([settled[0].value] + rest)
  }

  // ---------------------------------------------------------------------
  // The fold
  // ---------------------------------------------------------------------

  /** The reducer: `(prev, cur, i) => ...` for answer `i` of the pairs of `points`. */
  function Step<P>(points: seq<P>, results: seq<Segment<P>>, prev: seq<P>, i: nat): (r: seq<P>)
    requires i < |results| < |points|
    ensures prev <= r
    ensures results[i].code == OK_CODE ==> prev + [points[i]] <= r
  {
    if results[i].code != OK_CODE then prev
    else
      var result := prev + [points[i]] + results[i].coordinates;
      if i == |results| - 1 then result + [points[i + 1]] else result
  }

  /** `reduce` over the first `k` answers, starting from `[]`. */
  function Reduce<P>(points: seq<P>, results: seq<Segment<P>>, k: nat): (r: seq<P>)
    requires k <= |results| < |points|
    ensures k > 0 && results[k - 1].code == OK_CODE ==> points[k - 1] in r
    decreases k
  {
    if k == 0 then [] else Step(points, results, Reduce(points, results, k - 1), k - 1)
  }

  /** `newRoutePath`: the whole fold over one answer per pair. */
  function Assemble<P>(points: seq<P>, results: seq<Segment<P>>): (r: seq<P>)
    requires |results| == |Pairs(points)|
    ensures |points| <= 1 ==> r == []
    ensures results != [] && results[|results| - 1].code == OK_CODE ==> points[|results| - 1] in r
  {
    if |points| == 0 then [] else Reduce(points, results, |results|)
  }

  // ---------------------------------------------------------------------
  // An independent description: a right fold over the pairs
  // ---------------------------------------------------------------------

  /** What one pair contributes before the final waypoint: its first waypoint and its geometry, or nothing. */
  function Piece<P>(w: P, s: Segment<P>): seq<P>
  {
    if s.code == OK_CODE then [w] + s.coordinates else []
  }

  /** The pieces of pairs whose first waypoints are `ws`, concatenated front to back. */
  function Woven<P>(ws: seq<P>, results: seq<Segment<P>>): seq<P>
    requires |ws| == |results|
  {
    if |results| == 0 then [] else Piece(ws[0], results[0]) + Woven(ws[1..], results[1..])
  }

  /** The final waypoint when the last pair is Ok, nothing otherwise. */
  function Closing<P>(points: seq<P>, results: seq<Segment<P>>): seq<P>
    requires |results| < |points|
  {
    if |results| > 0 && results[|results| - 1].code == OK_CODE then [points[|results|]] else []
  }

  /** What the Ok pairs contribute in length: one waypoint plus the geometry each. */
  function OkWeight<P>(results: seq<Segment<P>>): nat
  {
    if |results| == 0 then 0
    else (if results[0].code == OK_CODE then 1 + |results[0].coordinates| else 0) + OkWeight(results[1..])
  }

  lemma {:induction false} WovenSnoc<P>(ws: seq<P>, results: seq<Segment<P>>, w: P, s: Segment<P>)
    requires |ws| == |results|
    ensures Woven(ws + [w], results + [s]) == Woven(ws, results) + Piece(w, s)
  {
    if |results| > 0 {
      assert (ws + [w])[1..] == ws[1..] + [w];
      assert (results + [s])[1..] == results[1..] + [s];
      WovenSnoc(ws[1..], results[1..], w, s);
    }
  }

  /** One step of the fold appends the pair's piece, and after the last answer the closing waypoint. */
  lemma ReduceSnoc<P>(points: seq<P>, results: seq<Segment<P>>, k: nat)
    requires 0 < k <= |results| < |points|
    ensures Reduce(points, results, k) == Reduce(points, results, k - 1) + Piece(points[k - 1], results[k - 1])
      + (if k == |results| then Closing(points, results) else [])
  {
  }

  /** Extending the prefix by one pair appends that pair's piece. */
  lemma WovenPrefixSnoc<P>(points: seq<P>, results: seq<Segment<P>>, k: nat)
    requires 0 < k <= |results| <= |points|
    ensures Woven(points[..k], results[..k]) ==
      Woven(points[..k - 1], results[..k - 1]) + Piece(points[k - 1], results[k - 1])
  {
    assert points[..k] == points[..k - 1] + [points[k - 1]];
    assert results[..k] == results[..k - 1] + [results[k - 1]];
    WovenSnoc(points[..k - 1], results[..k - 1], points[k - 1], results[k - 1]);
  }

  /** Before the last answer, the fold holds exactly the pieces of the pairs seen so far. */
  lemma {:induction false} ReduceIsWoven<P>(points: seq<P>, results: seq<Segment<P>>, k: nat)
    requires k <= |results| < |points|
    ensures Reduce(points, results, k) ==
      Woven(points[..k], results[..k]) + (if k == |results| then Closing(points, results) else [])
  {
    if k > 0 {
      var before := Woven(points[..k - 1], results[..k - 1]);
      ReduceIsWoven(points, results, k - 1);
      assert Reduce(points, results, k - 1) == before;
      ReduceSnoc(points, results, k);
      WovenPrefixSnoc(points, results, k);
    }
  }

  /**
   * The fold equals the independent description: the pieces of all pairs in
   * pair order, followed by the final waypoint exactly when the last pair
   * is Ok. In particular, when the last pair is not Ok the path is built
   * from the other waypoints and the geometries alone.
   */
  lemma AssembleIsWovenThenClosing<P>(points: seq<P>, results: seq<Segment<P>>)
    requires |results| == |Pairs(points)|
    ensures |points| > 0 ==>
      Assemble(points, results) == Woven(points[..|results|], results) + Closing(points, results)
    ensures |points| > 0 && results != [] && results[|results| - 1].code != OK_CODE ==>
      Assemble(points, results) == Woven(points[..|results|], results)
  {
    if |points| > 0 {
      ReduceIsWoven(points, results, |results|);
      assert results[..|results|] == results;
    }
  }

  /** The path ends with the final waypoint when the last pair is Ok. */
  lemma LastWaypointWhenLastPairOk<P>(points: seq<P>, results: seq<Segment<P>>)
    requires |results| == |Pairs(points)|
    requires results != [] && results[|results| - 1].code == OK_CODE
    ensures Assemble(points, results) != []
    ensures Assemble(points, results)[|Assemble(points, results)| - 1] == points[|points| - 1]
  {
    AssembleIsWovenThenClosing(points, results);
  }

  lemma {:induction false} WovenLength<P>(ws: seq<P>, results: seq<Segment<P>>)
    requires |ws| == |results|
    ensures |Woven(ws, results)| == OkWeight(results)
  {
    if |results| > 0 {
      WovenLength(ws[1..], results[1..]);
    }
  }

  /** Length of the path: one waypoint plus the geometry per Ok pair, plus one when the last pair is Ok. */
  lemma AssembleLength<P>(points: seq<P>, results: seq<Segment<P>>)
    requires |results| == |Pairs(points)|
    ensures |Assemble(points, results)| ==
      OkWeight(results) + (if results != [] && results[|results| - 1].code == OK_CODE then 1 else 0)
  {
    if |points| > 0 {
      AssembleIsWovenThenClosing(points, results);
      WovenLength(points[..|results|], results);
    }
  }

  lemma {:induction false} WovenAllFailed<P>(ws: seq<P>, results: seq<Segment<P>>)
    requires |ws| == |results|
    requires forall i :: 0 <= i < |results| ==> results[i].code != OK_CODE
    ensures Woven(ws, results) == []
  {
    if |results| > 0 {
      WovenAllFailed(ws[1..], results[1..]);
    }
  }

  /** When no pair is Ok the assembled path is empty (the map then has nothing to draw). */
  lemma AllFailedGivesEmptyPath<P>(points: seq<P>, results: seq<Segment<P>>)
    requires |results| == |Pairs(points)|
    requires forall i :: 0 <= i < |results| ==> results[i].code != OK_CODE
    ensures Assemble(points, results) == []
  {
    if |points| > 0 {
      AssembleIsWovenThenClosing(points, results);
      WovenAllFailed(points[..|results|], results);
    }
  }

  /** A pair that is not Ok passes the accumulated path on unchanged. */
  lemma FailedPairAddsNothing<P>(points: seq<P>, results: seq<Segment<P>>, i: nat)
    requires i < |results| < |points|
    requires results[i].code != OK_CODE
    ensures Reduce(points, results, i + 1) == Reduce(points, results, i)
  {
  }

  /** The fold only ever appends: what it holds after `k` answers starts what it holds after `k' >= k`. */
  lemma {:induction false} ReduceGrows<P>(points: seq<P>, results: seq<Segment<P>>, k: nat, k': nat)
    requires k <= k' <= |results| < |points|
    ensures Reduce(points, results, k) <= Reduce(points, results, k')
  {
    if k < k' {
      ReduceGrows(points, results, k, k' - 1);
    }
  }

  /**
   * Order by pair index: an Ok pair `i` puts its first waypoint and then its
   * geometry right after everything pairs `0..i-1` contributed, and all of
   * it stays at that place in the final path.
   */
  lemma OkPairPlacedInOrder<P>(points: seq<P>, results: seq<Segment<P>>, i: nat)
    requires |results| == |Pairs(points)|
    requires i < |results|
    requires results[i].code == OK_CODE
    ensures Reduce(points, results, i) + [points[i]] + results[i].coordinates <= Assemble(points, results)
  {
    ReduceGrows(points, results, i + 1, |results|);
  }

  /** Three waypoints: the path is the two pairs' pieces and then the closing waypoint. */
  lemma TwoPairs<P>(a: P, b: P, c: P, rab: Segment<P>, rbc: Segment<P>)
    ensures |Pairs([a, b, c])| == 2
    ensures Assemble([a, b, c], [rab, rbc]) == Piece(a, rab) + Piece(b, rbc) + Closing([a, b, c], [rab, rbc])
  {
    var points, results := [a, b, c], [rab, rbc];
    AssembleIsWovenThenClosing(points, results);
    assert points[..2] == [a, b];
    assert [a, b][1..] == [b] && results[1..] == [rbc];
    assert Woven([b], [rbc]) == Piece(b, rbc) + Woven([b][1..], [rbc][1..]);
    assert Woven([a, b], results) == Piece(a, rab) + Piece(b, rbc);
  }

  /** Three waypoints A, B, C: both segments Ok gives A, AB's geometry, B, BC's geometry, C. */
  lemma ThreeWaypointsAllOk<P>(a: P, b: P, c: P, gab: seq<P>, gbc: seq<P>)
    ensures Assemble([a, b, c], [Segment(OK_CODE, gab), Segment(OK_CODE, gbc)]) == [a] + gab + [b] + gbc + [c]
  {
    TwoPairs(a, b, c, Segment(OK_CODE, gab), Segment(OK_CODE, gbc));
    assert ([a] + gab) + ([b] + gbc) == [a] + gab + [b] + gbc;
  }

  /** Three waypoints A, B, C with (A, B) not Ok: the A side is dropped, giving B, BC's geometry, C. */
  lemma ThreeWaypointsFirstFails<P>(a: P, b: P, c: P, code: string, gab: seq<P>, gbc: seq<P>)
    requires code != OK_CODE
    ensures Assemble([a, b, c], [Segment(code, gab), Segment(OK_CODE, gbc)]) == [b] + gbc + [c]
  {
    TwoPairs(a, b, c, Segment(code, gab), Segment(OK_CODE, gbc));
    assert [] + ([b] + gbc) == [b] + gbc;
  }

  /** Three waypoints A, B, C with (B, C) not Ok: C is left out although (A, B) succeeded. */
  lemma ThreeWaypointsLastFails<P>(a: P, b: P, c: P, code: string, gab: seq<P>, gbc: seq<P>)
    requires code != OK_CODE
    ensures Assemble([a, b, c], [Segment(OK_CODE, gab), Segment(code, gbc)]) == [a] + gab
  {
    TwoPairs(a, b, c, Segment(OK_CODE, gab), Segment(code, gbc));
    assert ([a] + gab) + [] + [] == [a] + gab;
  }

  // ---------------------------------------------------------------------
  // The effect on `geoData`
  // ---------------------------------------------------------------------

  /** The component's local `routePath` state. */
  class RoutePanel {
    var routePath: Option<seq<Point>>

    constructor ()
      ensures routePath == None
    {
      routePath := None;
    }

    /**
     * The `[geoData]` effect, given how each segment fetch settled. No route:
     * the path is cleared. Any fetch rejected: the store's message becomes
     * OTHER_ERR and the path is left as it was (the resolved route stays in
     * the store beside the message). Otherwise: the path is the assembly of
     * the answers.
     */
    method OnGeoData(store: RouteStore, settled: seq<Settled<Segment<Point>>>)
      requires store.geoData.Some? ==> |settled| == |Pairs(store.geoData.value.path)|
      modifies this, store
      ensures old(store.geoData).None? ==> routePath == None && store.Snapshot() == old(store.Snapshot())
      ensures old(store.geoData).Some? && PromiseAll(settled).None? ==>
        routePath == old(routePath) && store.Snapshot() == old(store.Snapshot()).(errMsg := ERR_OTHER)
      ensures old(store.geoData).Some? && PromiseAll(settled).Some? ==>
        routePath == Some(Assemble(old(store.geoData).value.path, PromiseAll(settled).value))
        && store.Snapshot() == old(store.Snapshot())
    {
      var geoData := store.geoData;
      if geoData.None? {
        routePath := None;
        return;
      }
      var points := geoData.value.path;
      var all := PromiseAll(settled);
      match all {
        case None =>
          store.SetErrMsg(ERR_OTHER);
        case Some(res) =>
          routePath := Some(Assemble(points, res));
      }
    }
  }
}
