/**
 * `CurveLoopVisualizationViewModel`: prepares a curve loop for the render server.
 * The vertices sent are the tessellation points of the loop's curves, in order,
 * each dropped when a point almost equal to it was already kept, with the first
 * vertex repeated at the end when the loop is closed.
 */
module CurveLoopVisualizationViewModel {
  import opened Wrappers
  import opened Host

  /** A curve loop: the tessellation of each curve in loop order, and whether the loop is open. */
  datatype CurveLoop<P> = CurveLoop(tessellations: seq<seq<P>>, isOpen: bool)

  /** The object handed to `RegisterServer`. */
  datatype Renderable<P> = LoopObject(loop: CurveLoop<P>) | OtherObject

  /** The points of all curves, curve after curve. */
  function Flatten<P>(tessellations: seq<seq<P>>): seq<P>
  {
    if tessellations == [] then [] else Flatten(tessellations[..|tessellations| - 1]) + tessellations[|tessellations| - 1]
  }

  /** Some kept point is almost equal to `p` (`IsAlmostEqualTo`, called on the kept point). */
  predicate AlmostIn<P>(kept: seq<P>, p: P, almostEqual: (P, P) -> bool)
  {
    exists j | 0 <= j < |kept| :: almostEqual(kept[j], p)
  }

  /** The points kept from `points`: each in turn, unless a point already kept is almost equal to it. */
  function Dedupe<P>(points: seq<P>, almostEqual: (P, P) -> bool): (r: seq<P>)
    ensures |r| <= |points|
  {
    if points == [] then []
    else
      var kept := Dedupe(points[..|points| - 1], almostEqual);
      var p := points[|points| - 1];
      if AlmostIn(kept, p, almostEqual) then kept else kept + [p]
  }

  /** The out-of-range error of reading `vertices[0]` on an empty list. */
  const EmptyIndex: Exception := Exception(ArgumentOutOfRangeException, "Index was out of range. Must be non-negative and less than the size of the collection.")

  /** The vertices sent for a loop: the kept points, closed with the first one for a closed loop. */
  function Vertices<P>(loop: CurveLoop<P>, almostEqual: (P, P) -> bool): Result<seq<P>, Exception>
  {
    var kept := Dedupe(Flatten(loop.tessellations), almostEqual);
    if loop.isOpen then Success(kept)
    else if kept == [] then Failure(EmptyIndex)
    else Success(kept + [kept[0]])
  }

  /** `CollectVertices`: the nested loop over curves and their points, then the closing vertex. */
  method CollectVertices<P>(loop: CurveLoop<P>, almostEqual: (P, P) -> bool) returns (r: Result<seq<P>, Exception>)
    ensures r == Vertices(loop, almostEqual)
  {
    var vertices: seq<P> := [];
    for c := 0 to |loop.tessellations|
      invariant vertices == Dedupe(Flatten(loop.tessellations[..c]), almostEqual)
    {
      var curveVertices := loop.tessellations[c];
      assert loop.tessellations[..c + 1][..c] == loop.tessellations[..c];
      ghost var before := Flatten(loop.tessellations[..c]);
      assert before + curveVertices[..0] == before;
      for i := 0 to |curveVertices|
        invariant vertices == Dedupe(before + curveVertices[..i], almostEqual)
      {
        var vertex := curveVertices[i];
        assert (before + curveVertices[..i + 1])[..|before| + i] == before + curveVertices[..i];
        var seen := false;
        for k := 0 to |vertices|
          invariant seen <==> exists j | 0 <= j < k :: almostEqual(vertices[j], vertex)
        {
          if almostEqual(vertices[k], vertex) {
            seen := true;
          }
        }
        if !seen {
          vertices := vertices + [vertex];
        }
      }
      assert curveVertices[..|curveVertices|] == curveVertices;
      assert Flatten(loop.tessellations[..c + 1]) == before + curveVertices;
    }
    assert loop.tessellations[..|loop.tessellations|] == loop.tessellations;
    if loop.isOpen {
      r := Success(vertices);
    } else if |vertices| == 0 {
      r := Failure(EmptyIndex);
    } else {
      r := Success(vertices + [vertices[0]]);
    }
  }

  /** Every kept point comes from the input, and no kept point is almost equal to a point kept before it. */
  lemma {:induction false} DedupeSound<P>(points: seq<P>, almostEqual: (P, P) -> bool)
    ensures forall q | q in Dedupe(points, almostEqual) :: q in points
    ensures forall i, j | 0 <= i < j < |Dedupe(points, almostEqual)| ::
      !almostEqual(Dedupe(points, almostEqual)[i], Dedupe(points, almostEqual)[j])
  {
    if points != [] {
      var init := points[..|points| - 1];
      DedupeSound(init, almostEqual);
      var kept := Dedupe(init, almostEqual);
      var p := points[|points| - 1];
      if !AlmostIn(kept, p, almostEqual) {
        var r := kept + [p];
        forall i, j | 0 <= i < j < |r|
          ensures !almostEqual(r[i], r[j])
        {
          if j == |kept| {
            assert r[i] == kept[i];
          }
        }
        forall q | q in r
          ensures q in points
        {
          if q in kept {
            assert q in init;
          }
        }
      } else {
        forall q | q in kept
          ensures q in points
        {
          assert q in init;
        }
      }
    }
  }

  /** A point is dropped only for a kept point almost equal to it: every input point is kept or has such a witness. */
  lemma {:induction false} DedupeCovers<P>(points: seq<P>, almostEqual: (P, P) -> bool, p: P)
    requires p in points
    ensures p in Dedupe(points, almostEqual) || AlmostIn(Dedupe(points, almostEqual), p, almostEqual)
  {
    var init, last := points[..|points| - 1], points[|points| - 1];
    var kept := Dedupe(init, almostEqual);
    assert points == init + [last];
    if p in init {
      DedupeCovers(init, almostEqual, p);
      if AlmostIn(kept, p, almostEqual) {
        var j :| 0 <= j < |kept| && almostEqual(kept[j], p);
        assert Dedupe(points, almostEqual)[j] == kept[j];
      } else {
        assert p in Dedupe(points, almostEqual);
      }
    } else {
      assert p == last;
    }
  }

  /**
   * The vertices sent: an open loop sends exactly the kept points; a closed loop
   * sends them with the first repeated at the end, and fails when none were kept.
   */
  lemma VerticesShape<P>(loop: CurveLoop<P>, almostEqual: (P, P) -> bool)
    ensures loop.isOpen ==> Vertices(loop, almostEqual) == Success(Dedupe(Flatten(loop.tessellations), almostEqual))
    ensures !loop.isOpen && Vertices(loop, almostEqual).Success? ==>
      var v := Vertices(loop, almostEqual).value;
      |v| >= 2 && v[|v| - 1] == v[0] && v[..|v| - 1] == Dedupe(Flatten(loop.tessellations), almostEqual)
    ensures Vertices(loop, almostEqual).Failure? <==> !loop.isOpen && Flatten(loop.tessellations) == []
  {
    var points := Flatten(loop.tessellations);
    if points != [] {
      DedupeNonEmpty(points, almostEqual);
    }
  }

  /** The first input point is always kept. */
  lemma {:induction false} DedupeNonEmpty<P>(points: seq<P>, almostEqual: (P, P) -> bool)
    requires points != []
    ensures Dedupe(points, almostEqual) != []
  {
    if |points| > 1 {
      DedupeNonEmpty(points[..|points| - 1], almostEqual);
    }
  }

  const UnexpectedType: Exception := Exception(ArgumentException, "Unexpected CurveLoop type")

  /** `RegisterServer`: anything but a curve loop is rejected; a curve loop has its vertices collected for the server. */
  method RegisterServer<P>(target: Renderable<P>, almostEqual: (P, P) -> bool) returns (r: Result<seq<P>, Exception>)
    ensures target.OtherObject? ==> r == Failure(UnexpectedType)
    ensures target.LoopObject? ==> r == Vertices(target.loop, almostEqual)
  {
    if !target.LoopObject? {
      return Failure(UnexpectedType);
    }
    r := CollectVertices(target.loop, almostEqual);
  }
}
