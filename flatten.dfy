/** What `MapDisplay::GlobalMapMsgToBillboardLines` produces from a map message,
    stated as functions: the per-lane point count, the three lines of a lane, the
    road -> section -> lane traversal order, and where `std::out_of_range` stops
    the run. The imperative method in module HdmapDisplay is proved against these. */
module Flatten {
  import opened MapMsgs

  /** What the display sets on one `BillboardLine`: its maximum points per line,
      its number of lines and the points it adds, in order. */
  datatype BillboardLine = BillboardLine(maxPointsPerLine: int, numLines: int, points: seq<Point>)

  /** The lines appended by a run, in order, and whether the run finished
      (false: an `.at` raised `std::out_of_range` after these lines were appended). */
  datatype Emission = Emission(lines: seq<BillboardLine>, complete: bool)

  const TwoTo31: int := 0x8000_0000
  const TwoTo32: int := 0x1_0000_0000

  function Min(a: int, b: int): int { if a <= b then a else b }

  function Max(a: int, b: int): int { if a >= b then a else b }

  /** A vector size passed to `std::min<int>`: converted to a 32-bit `int`,
      i.e. reduced modulo 2^32 into the two's-complement range. */
  function Int32(size: nat): (r: int)
    ensures -TwoTo31 <= r < TwoTo31
    ensures (r - size) % TwoTo32 == 0
    ensures size < TwoTo31 ==> r == size
    ensures 0 <= r ==> r <= size
  {
    var w := size % TwoTo32;
    if w < TwoTo31 then w else w - TwoTo32
  }

  /** The point count shared by the three lines of a lane, as written: the
      minimum of the centre curve's size and the left boundary's size taken
      twice, clamped at zero. The right boundary is never consulted. */
  function LineSize(lane: Lane): (n: nat)
    ensures n <= |lane.centralCurve.pts| && n <= |lane.leftBoundary.pts|
    ensures |lane.centralCurve.pts| < TwoTo31 && |lane.leftBoundary.pts| < TwoTo31 ==>
              n == Min(|lane.centralCurve.pts|, |lane.leftBoundary.pts|)
  {
    var central := Int32(|lane.centralCurve.pts|);
    var left := Int32(|lane.leftBoundary.pts|);
    Max(0, Min(central, Min(left, left)))
  }

  /** A line configured for `n` points with one line strip, holding the first
      `n` samples of `src` in order. */
  function FilledLine(src: Curve, n: nat): BillboardLine
    requires n <= |src.pts|
  {
    BillboardLine(n, 1, src.pts[..n])
  }

  /** Whether copying `n` samples of the right boundary stays in range. */
  predicate RightFits(lane: Lane, n: nat)
  {
    n <= |lane.rightBoundary.pts|
  }

  /** The lines one lane appends when the shared point count is `n`: centre and
      left always, then right, unless `.at` runs past the right boundary. */
  function LaneLines(lane: Lane, n: nat): (e: Emission)
    requires n <= |lane.centralCurve.pts| && n <= |lane.leftBoundary.pts|
    ensures e.complete <==> n <= |lane.rightBoundary.pts|
    ensures |e.lines| == (if e.complete then 3 else 2)
  {
    var central := FilledLine(lane.centralCurve, n);
    var left := FilledLine(lane.leftBoundary, n);
    if !RightFits(lane, n) then Emission([central, left], false)
    else Emission([central, left, FilledLine(lane.rightBoundary, n)], true)
  }

  /** The run of `first` followed by the run of `rest`: `rest` only happens
      (and its lines only follow) when `first` completed. */
  function Then(first: Emission, rest: Emission): Emission
  {
    if !first.complete then first else Emission(first.lines + rest.lines, rest.complete)
  }

  /** The lines a sequence of lanes appends, in lane order, stopping at the
      first lane whose right boundary is too short. */
  function EmitLanes(lanes: seq<Lane>): (e: Emission)
    ensures e.complete ==> |e.lines| == 3 * |lanes|
    ensures !e.complete ==> 2 <= |e.lines| < 3 * |lanes|
  {
    if lanes == [] then Emission([], true)
    else Then(LaneLines(lanes[0], LineSize(lanes[0])), EmitLanes(lanes[1..]))
  }

  /** The lines some sections append, section by section. */
  function EmitSections(sections: seq<Section>): (e: Emission)
    ensures e.complete ==> |e.lines| == 3 * |SectionsLanes(sections)|
    ensures !e.complete ==> 2 <= |e.lines| < 3 * |SectionsLanes(sections)|
  {
    if sections == [] then Emission([], true)
    else Then(EmitLanes(sections[0].lanes), EmitSections(sections[1..]))
  }

  /** The lines some roads append, road by road. */
  function EmitRoads(roads: seq<Road>): (e: Emission)
    ensures e.complete ==> |e.lines| == 3 * |RoadsLanes(roads)|
    ensures !e.complete ==> 2 <= |e.lines| < 3 * |RoadsLanes(roads)|
  {
    if roads == [] then Emission([], true)
    else Then(EmitSections(roads[0].sections), EmitRoads(roads[1..]))
  }

  /** What a run on a map with at least one road leaves in the (cleared) line list. */
  function FlattenMap(m: Map): (e: Emission)
    ensures m.roads == [] ==> e == Emission([], true)
    ensures e.complete ==> |e.lines| == 3 * |AllLanes(m)|
    ensures !e.complete ==> 2 <= |e.lines| < 3 * |AllLanes(m)|
  {
    EmitRoads(m.roads)
  }

  /** The lanes of some sections, section by section. */
  function SectionsLanes(sections: seq<Section>): seq<Lane>
  {
    if sections == [] then [] else sections[0].lanes + SectionsLanes(sections[1..])
  }

  /** The lanes of some roads, road by road, each road section by section. */
  function RoadsLanes(roads: seq<Road>): seq<Lane>
  {
    if roads == [] then [] else SectionsLanes(roads[0].sections) + RoadsLanes(roads[1..])
  }

  /** Every lane of the map in traversal order. */
  function AllLanes(m: Map): seq<Lane>
  {
    RoadsLanes(m.roads)
  }

  // ---------------------------------------------------------------------------
  // The nested run is one run over all lanes in traversal order

  lemma ThenAssoc(a: Emission, b: Emission, c: Emission)
    ensures Then(Then(a, b), c) == Then(a, Then(b, c))
  {
    if a.complete && b.complete {
      assert (a.lines + b.lines) + c.lines == a.lines + (b.lines + c.lines);
    }
  }

  /** Running over `a` and then over `b` is one run over `a + b`: the lines of
      `b` follow those of `a`, and nothing of `b` is run once `a` raised. */
  lemma {:induction false} EmitLanesAppend(a: seq<Lane>, b: seq<Lane>)
    ensures EmitLanes(a + b) == Then(EmitLanes(a), EmitLanes(b))
  {
    if a == [] {
      assert a + b == b;
      assert EmitLanes(b).lines == [] + EmitLanes(b).lines;
    } else {
      var ab := a + b;
      assert ab[0] == a[0];
      assert ab[1..] == a[1..] + b;
      EmitLanesAppend(a[1..], b);
      var first := LaneLines(a[0], LineSize(a[0]));
      calc {
        EmitLanes(ab);
        Then(first, EmitLanes(a[1..] + b));
        Then(first, Then(EmitLanes(a[1..]), EmitLanes(b)));
        { ThenAssoc(first, EmitLanes(a[1..]), EmitLanes(b)); }
        Then(Then(first, EmitLanes(a[1..])), EmitLanes(b));
      }
    }
  }

  /** Running section by section is running over their lanes in order. */
  lemma {:induction false} EmitSectionsFlat(sections: seq<Section>)
    ensures EmitSections(sections) == EmitLanes(SectionsLanes(sections))
  {
    if sections != [] {
      EmitSectionsFlat(sections[1..]);
      EmitLanesAppend(sections[0].lanes, SectionsLanes(sections[1..]));
    }
  }

  /** Running road by road is running over their lanes in order. */
  lemma {:induction false} EmitRoadsFlat(roads: seq<Road>)
    ensures EmitRoads(roads) == EmitLanes(RoadsLanes(roads))
  {
    if roads != [] {
      EmitRoadsFlat(roads[1..]);
      EmitSectionsFlat(roads[0].sections);
      EmitLanesAppend(SectionsLanes(roads[0].sections), RoadsLanes(roads[1..]));
    }
  }

  /** A map's lines are those of one run over all its lanes in traversal order. */
  lemma FlattenMapIsFlat(m: Map)
    ensures FlattenMap(m) == EmitLanes(AllLanes(m))
  {
    EmitRoadsFlat(m.roads);
  }

  /** What a loop of the display knows after running one more element whose
      run is `here`: either it went on with `done + here.lines` appended, or it
      raised with exactly those lines appended. */
  lemma ResumeStep(all: Emission, done: seq<BillboardLine>, here: Emission, rest: Emission)
    requires all == Then(Emission(done, true), Then(here, rest))
    ensures here.complete ==> all == Then(Emission(done + here.lines, true), rest)
    ensures !here.complete ==> all == Emission(done + here.lines, false)
  {
    ThenAssoc(Emission(done, true), here, rest);
  }

  /** A loop of the display that ran out of elements completed with `done`. */
  lemma ResumeEnd(all: Emission, done: seq<BillboardLine>)
    requires all == Then(Emission(done, true), Emission([], true))
    ensures all == Emission(done, true)
  {
    assert done + [] == done;
  }

  /** One step of each loop of the display: the remaining run from index `k`
      is the run of element `k` followed by the remaining run from `k + 1`. */
  lemma EmitLanesStep(lanes: seq<Lane>, k: nat)
    requires k < |lanes|
    ensures EmitLanes(lanes[k..]) == Then(LaneLines(lanes[k], LineSize(lanes[k])), EmitLanes(lanes[k + 1..]))
  {
    assert lanes[k..][1..] == lanes[k + 1..];
  }

  lemma EmitSectionsStep(sections: seq<Section>, j: nat)
    requires j < |sections|
    ensures EmitSections(sections[j..]) == Then(EmitLanes(sections[j].lanes), EmitSections(sections[j + 1..]))
  {
    assert sections[j..][1..] == sections[j + 1..];
  }

  lemma EmitRoadsStep(roads: seq<Road>, i: nat)
    requires i < |roads|
    ensures EmitRoads(roads[i..]) == Then(EmitSections(roads[i].sections), EmitRoads(roads[i + 1..]))
  {
    assert roads[i..][1..] == roads[i + 1..];
  }

  // ---------------------------------------------------------------------------
  // Properties of the point count and of the lines of one lane

  /** The point count does not depend on the right boundary at all. */
  lemma LineSizeIgnoresRightBoundary(lane: Lane, right: Curve)
    ensures LineSize(lane.(rightBoundary := right)) == LineSize(lane)
  {
  }

  /** A lane appends centre then left, each with `n` points of its own curve,
      and then the right boundary exactly when `n` samples of it exist. */
  lemma LaneLinesShape(lane: Lane)
    ensures var n := LineSize(lane);
            var e := LaneLines(lane, n);
            && e.complete == RightFits(lane, n)
            && |e.lines| == (if e.complete then 3 else 2)
            && e.lines[0] == BillboardLine(n, 1, lane.centralCurve.pts[..n])
            && e.lines[1] == BillboardLine(n, 1, lane.leftBoundary.pts[..n])
            && (e.complete ==> e.lines[2] == BillboardLine(n, 1, lane.rightBoundary.pts[..n]))
  {
  }

  // ---------------------------------------------------------------------------
  // Properties of a whole run

  /** A run completes exactly when every lane's right boundary holds at least
      the lane's point count. */
  lemma {:induction false} EmitLanesCompleteIff(lanes: seq<Lane>)
    ensures EmitLanes(lanes).complete <==>
              forall k :: 0 <= k < |lanes| ==> RightFits(lanes[k], LineSize(lanes[k]))
  {
    if lanes != [] {
      EmitLanesCompleteIff(lanes[1..]);
      assert forall k :: 1 <= k < |lanes| ==> lanes[k] == lanes[1..][k - 1];
    }
  }

  /** A completed run appends exactly three lines per lane. */
  lemma {:induction false} EmitLanesLength(lanes: seq<Lane>)
    requires EmitLanes(lanes).complete
    ensures |EmitLanes(lanes).lines| == 3 * |lanes|
  {
    if lanes != [] {
      EmitLanesLength(lanes[1..]);
    }
  }

  /** In a completed run, lines 3k, 3k+1 and 3k+2 are the centre, left and right
      lines of lane k, each with that lane's point count and the first that many
      samples of its own curve. */
  lemma {:induction false} EmitLanesAt(lanes: seq<Lane>, k: nat)
    requires EmitLanes(lanes).complete
    requires k < |lanes|
    ensures |EmitLanes(lanes).lines| == 3 * |lanes|
    ensures var lines := EmitLanes(lanes).lines;
            var lane := lanes[k];
            var n := LineSize(lane);
            && lines[3 * k] == BillboardLine(n, 1, lane.centralCurve.pts[..n])
            && lines[3 * k + 1] == BillboardLine(n, 1, lane.leftBoundary.pts[..n])
            && n <= |lane.rightBoundary.pts|
            && lines[3 * k + 2] == BillboardLine(n, 1, lane.rightBoundary.pts[..n])
  {
    EmitLanesLength(lanes);
    var first := LaneLines(lanes[0], LineSize(lanes[0]));
    var rest := EmitLanes(lanes[1..]);
    assert EmitLanes(lanes).lines == first.lines + rest.lines;
    if k > 0 {
      EmitLanesAt(lanes[1..], k - 1);
      assert lanes[1..][k - 1] == lanes[k];
    }
  }

  /** A run that raised stopped at the first lane k whose right boundary is too
      short: it holds the three lines of each earlier lane and then the centre
      and left lines of lane k, and nothing of any later lane. */
  lemma {:induction false} EmitLanesFailure(lanes: seq<Lane>)
    requires !EmitLanes(lanes).complete
    ensures var e := EmitLanes(lanes);
            var k := |e.lines| / 3;
            && |e.lines| % 3 == 2
            && k < |lanes|
            && !RightFits(lanes[k], LineSize(lanes[k]))
            && (forall j :: 0 <= j < k ==> RightFits(lanes[j], LineSize(lanes[j])))
            && e.lines == EmitLanes(lanes[..k]).lines + LaneLines(lanes[k], LineSize(lanes[k])).lines
  {
    var first := LaneLines(lanes[0], LineSize(lanes[0]));
    if first.complete {
      var rest := lanes[1..];
      EmitLanesFailure(rest);
      var k' := |EmitLanes(rest).lines| / 3;
      var k := k' + 1;
      assert |EmitLanes(lanes).lines| / 3 == k;
      assert lanes[..k][0] == lanes[0];
      assert lanes[..k][1..] == rest[..k'];
      EmitLanesCompleteIff(rest[..k']);
      assert forall j :: 1 <= j < k ==> lanes[j] == rest[..k'][j - 1];
    } else {
      assert lanes[..0] == [];
    }
  }

  /** Lanes of earlier sections come before lanes of later ones. */
  lemma {:induction false} SectionsLanesAppend(a: seq<Section>, b: seq<Section>)
    ensures SectionsLanes(a + b) == SectionsLanes(a) + SectionsLanes(b)
  {
    if a == [] {
      assert a + b == b;
    } else {
      var ab := a + b;
      assert ab[0] == a[0];
      assert ab[1..] == a[1..] + b;
      SectionsLanesAppend(a[1..], b);
      assert SectionsLanes(ab) == ab[0].lanes + SectionsLanes(ab[1..]);
      assert SectionsLanes(a) == a[0].lanes + SectionsLanes(a[1..]);
    }
  }

  /** Lanes of earlier roads come before lanes of later ones. */
  lemma {:induction false} RoadsLanesAppend(a: seq<Road>, b: seq<Road>)
    ensures RoadsLanes(a + b) == RoadsLanes(a) + RoadsLanes(b)
  {
    if a == [] {
      assert a + b == b;
    } else {
      var ab := a + b;
      assert ab[0] == a[0];
      assert ab[1..] == a[1..] + b;
      RoadsLanesAppend(a[1..], b);
      assert RoadsLanes(ab) == SectionsLanes(ab[0].sections) + RoadsLanes(ab[1..]);
      assert RoadsLanes(a) == SectionsLanes(a[0].sections) + RoadsLanes(a[1..]);
    }
  }

  /** A map run yields no lines exactly when the map holds no lanes, and then
      it completes. */
  lemma NoLinesIffNoLanes(m: Map)
    ensures FlattenMap(m).lines == [] <==> AllLanes(m) == []
    ensures AllLanes(m) == [] ==> FlattenMap(m).complete
  {
    FlattenMapIsFlat(m);
  }

  /** Running the sections `a + b` is running `a`, then, only if that
      completed, `b`: one section's lines form one contiguous block. */
  lemma EmitSectionsAppend(a: seq<Section>, b: seq<Section>)
    ensures EmitSections(a + b) == Then(EmitSections(a), EmitSections(b))
  {
    EmitSectionsFlat(a + b);
    EmitSectionsFlat(a);
    EmitSectionsFlat(b);
    SectionsLanesAppend(a, b);
    EmitLanesAppend(SectionsLanes(a), SectionsLanes(b));
  }

  /** Flattening a map whose roads are `a + b` is flattening the roads `a`,
      then, only if that completed, the roads `b`: one road's lines form one
      contiguous block of the output. */
  lemma FlattenMapAppend(a: seq<Road>, b: seq<Road>)
    ensures FlattenMap(Map(a + b)) == Then(FlattenMap(Map(a)), FlattenMap(Map(b)))
  {
    FlattenMapIsFlat(Map(a + b));
    FlattenMapIsFlat(Map(a));
    FlattenMapIsFlat(Map(b));
    RoadsLanesAppend(a, b);
    EmitLanesAppend(RoadsLanes(a), RoadsLanes(b));
  }

  /** A completed map run appends exactly three lines per lane of the map. */
  lemma FlattenMapLength(m: Map)
    requires FlattenMap(m).complete
    ensures |FlattenMap(m).lines| == 3 * |AllLanes(m)|
  {
    FlattenMapIsFlat(m);
    EmitLanesLength(AllLanes(m));
  }

  /** In a completed map run, lines 3k, 3k+1 and 3k+2 are the centre, left and
      right lines of the k-th lane in road -> section -> lane order. */
  lemma FlattenMapAt(m: Map, k: nat)
    requires FlattenMap(m).complete
    requires k < |AllLanes(m)|
    ensures var lines := FlattenMap(m).lines;
            var lane := AllLanes(m)[k];
            var n := LineSize(lane);
            && 3 * k + 2 < |lines|
            && lines[3 * k] == BillboardLine(n, 1, lane.centralCurve.pts[..n])
            && lines[3 * k + 1] == BillboardLine(n, 1, lane.leftBoundary.pts[..n])
            && n <= |lane.rightBoundary.pts|
            && lines[3 * k + 2] == BillboardLine(n, 1, lane.rightBoundary.pts[..n])
  {
    FlattenMapIsFlat(m);
    EmitLanesAt(AllLanes(m), k);
  }

  /** A map run that raised stopped at the first lane k, in traversal order,
      whose right boundary is too short, after that lane's centre and left lines. */
  lemma FlattenMapFailure(m: Map)
    requires !FlattenMap(m).complete
    ensures var e := FlattenMap(m);
            var lanes := AllLanes(m);
            var k := |e.lines| / 3;
            && |e.lines| % 3 == 2
            && k < |lanes|
            && !RightFits(lanes[k], LineSize(lanes[k]))
            && (forall j :: 0 <= j < k ==> RightFits(lanes[j], LineSize(lanes[j])))
            && e.lines == EmitLanes(lanes[..k]).lines + LaneLines(lanes[k], LineSize(lanes[k])).lines
  {
    FlattenMapIsFlat(m);
    EmitLanesFailure(AllLanes(m));
  }

  // ---------------------------------------------------------------------------
  // The evidently intended bound, which also consults the right boundary

  /** The point count taken over all three curves of the lane. */
  function LineSizeCorrected(lane: Lane): (n: nat)
    ensures n <= |lane.centralCurve.pts| && n <= |lane.leftBoundary.pts| && n <= |lane.rightBoundary.pts|
    ensures |lane.centralCurve.pts| < TwoTo31 && |lane.leftBoundary.pts| < TwoTo31 &&
            |lane.rightBoundary.pts| < TwoTo31 ==>
              n == Min(|lane.centralCurve.pts|, Min(|lane.leftBoundary.pts|, |lane.rightBoundary.pts|))
  {
    var central := Int32(|lane.centralCurve.pts|);
    var left := Int32(|lane.leftBoundary.pts|);
    var right := Int32(|lane.rightBoundary.pts|);
    Max(0, Min(central, Min(left, right)))
  }

  /** A run with the corrected point count (same copying, same `.at` checks). */
  function EmitLanesCorrected(lanes: seq<Lane>): (e: Emission)
    ensures e.complete && |e.lines| == 3 * |lanes|
  {
    if lanes == [] then Emission([], true)
    else Then(LaneLines(lanes[0], LineSizeCorrected(lanes[0])), EmitLanesCorrected(lanes[1..]))
  }

  /** Whether every curve of a lane has fewer than 2^31 samples, so that the
      conversion to `int` does not wrap. */
  predicate SizesFitInt(lane: Lane)
  {
    |lane.centralCurve.pts| < TwoTo31 && |lane.leftBoundary.pts| < TwoTo31 &&
    |lane.rightBoundary.pts| < TwoTo31
  }

  /** As written, a lane with centre 5, left 3 and right 2 samples raises
      `std::out_of_range` after its centre and left lines (3 points each) were
      appended; the corrected bound emits three lines of 2 points instead. */
  lemma RightBoundaryOutOfRange(p: Point)
    ensures var lane := Lane(Curve([p, p, p, p, p]), Curve([p, p, p]), Curve([p, p]));
            && LineSize(lane) == 3
            && EmitLanes([lane]) == Emission([BillboardLine(3, 1, [p, p, p]), BillboardLine(3, 1, [p, p, p])], false)
            && EmitLanesCorrected([lane]) ==
                 Emission([BillboardLine(2, 1, [p, p]), BillboardLine(2, 1, [p, p]), BillboardLine(2, 1, [p, p])], true)
  {
    var lane := Lane(Curve([p, p, p, p, p]), Curve([p, p, p]), Curve([p, p]));
    assert [lane][1..] == [];
    assert LineSize(lane) == 3;
    assert LineSizeCorrected(lane) == 2;
    assert lane.centralCurve.pts[..3] == [p, p, p];
    assert lane.leftBoundary.pts[..3] == [p, p, p];
    assert lane.centralCurve.pts[..2] == [p, p];
    assert lane.leftBoundary.pts[..2] == [p, p];
    assert lane.rightBoundary.pts[..2] == [p, p];
  }

  /** With the corrected bound a run never raises, and yields three lines per lane. */
  lemma {:induction false} CorrectedNeverFails(lanes: seq<Lane>)
    ensures EmitLanesCorrected(lanes).complete
    ensures |EmitLanesCorrected(lanes).lines| == 3 * |lanes|
  {
    if lanes != [] {
      CorrectedNeverFails(lanes[1..]);
    }
  }

  /** With the corrected bound, lines 3k, 3k+1 and 3k+2 are the centre, left and
      right lines of lane k, each cut to the shortest of the lane's three curves. */
  lemma {:induction false} CorrectedAt(lanes: seq<Lane>, k: nat)
    requires k < |lanes|
    ensures var lines := EmitLanesCorrected(lanes).lines;
            var lane := lanes[k];
            var n := LineSizeCorrected(lane);
            && 3 * k + 2 < |lines|
            && lines[3 * k] == BillboardLine(n, 1, lane.centralCurve.pts[..n])
            && lines[3 * k + 1] == BillboardLine(n, 1, lane.leftBoundary.pts[..n])
            && lines[3 * k + 2] == BillboardLine(n, 1, lane.rightBoundary.pts[..n])
  {
    CorrectedNeverFails(lanes);
    var first := LaneLines(lanes[0], LineSizeCorrected(lanes[0]));
    var rest := EmitLanesCorrected(lanes[1..]);
    CorrectedNeverFails(lanes[1..]);
    assert EmitLanesCorrected(lanes).lines == first.lines + rest.lines;
    if k > 0 {
      CorrectedAt(lanes[1..], k - 1);
      assert lanes[1..][k - 1] == lanes[k];
    }
  }

  /** The map run with the corrected count: the same road -> section -> lane
      traversal (one run over all lanes in order, by `FlattenMapIsFlat`). */
  function FlattenMapCorrected(m: Map): (e: Emission)
    ensures e.complete && |e.lines| == 3 * |AllLanes(m)|
  {
    CorrectedNeverFails(AllLanes(m));
    EmitLanesCorrected(AllLanes(m))
  }

  /** With the corrected count, lines 3k..3k+2 of a map run are the three lines
      of the k-th lane in traversal order, each cut to that lane's shortest curve. */
  lemma FlattenMapCorrectedAt(m: Map, k: nat)
    requires k < |AllLanes(m)|
    ensures var lines := FlattenMapCorrected(m).lines;
            var lane := AllLanes(m)[k];
            var n := LineSizeCorrected(lane);
            && lines[3 * k] == BillboardLine(n, 1, lane.centralCurve.pts[..n])
            && lines[3 * k + 1] == BillboardLine(n, 1, lane.leftBoundary.pts[..n])
            && lines[3 * k + 2] == BillboardLine(n, 1, lane.rightBoundary.pts[..n])
  {
    CorrectedAt(AllLanes(m), k);
  }

  /** Whenever the code as written completes (and sizes fit in an `int`), the
      corrected bound yields exactly the same lines. */
  lemma {:induction false} CorrectedAgreesWhenComplete(lanes: seq<Lane>)
    requires forall k :: 0 <= k < |lanes| ==> SizesFitInt(lanes[k])
    requires EmitLanes(lanes).complete
    ensures EmitLanesCorrected(lanes) == EmitLanes(lanes)
  {
    if lanes != [] {
      assert SizesFitInt(lanes[0]);
      assert LineSizeCorrected(lanes[0]) == LineSize(lanes[0]);
      CorrectedAgreesWhenComplete(lanes[1..]);
    }
  }

  /** On a map whose as-written run completes and whose curves all have fewer
      than 2^31 samples, the corrected run yields the very same lines. */
  lemma FlattenMapCorrectedAgrees(m: Map)
    requires forall k :: 0 <= k < |AllLanes(m)| ==> SizesFitInt(AllLanes(m)[k])
    requires FlattenMap(m).complete
    ensures FlattenMapCorrected(m) == FlattenMap(m)
  {
    FlattenMapIsFlat(m);
    CorrectedAgreesWhenComplete(AllLanes(m));
  }
}
