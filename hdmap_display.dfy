/** The map display: it flattens the global map message into billboard lines,
    keeps the latest current-region message, and on every timer tick copies
    that region into the text overlay.

    Rendering (scene nodes, `OverlayComponent::Clean/Update/Show`), ROS wiring
    and the mutex are not modelled; the operations run one at a time. */
module HdmapDisplay {
  import opened MapMsgs
  import opened Flatten
  import opened OverlayUi

  /** A `std::vector` of billboard lines. It is an object so that a parameter
      passed by reference can be the very vector the display owns. */
  class LineList {
    var items: seq<BillboardLine>

    constructor ()
      ensures items == []
    {
      items := [];
    }
  }

  /** Creates a line, sets its maximum point count to `n` and its number of
      lines to 1, then adds `src.pts.at(i)` for i = 0 .. n-1. Raises
      `std::out_of_range` (and the line is dropped) when `src` has fewer than
      `n` samples. */
  method FillLine(src: Curve, n: nat) returns (line: BillboardLine, outcome: Outcome)
    ensures outcome == (if n <= |src.pts| then Pass else Fail(OutOfRange))
    ensures outcome.Pass? ==> line == FilledLine(src, n)
  {
    line := BillboardLine(0, 0, []);
    line := line.(maxPointsPerLine := n);
    line := line.(numLines := 1);
    for i := 0 to n
      invariant i <= |src.pts|
      invariant line == BillboardLine(n, 1, src.pts[..i])
    {
      if i >= |src.pts| {
        return line, Fail(OutOfRange);
      }
      assert src.pts[..i + 1] == src.pts[..i] + [src.pts[i]];
      line := line.(points := line.points + [src.pts[i]]);
    }
    outcome := Pass;
  }

  /** Appending `b` and then `c` appends `b + c`. */
  lemma AppendAssoc(a: seq<BillboardLine>, b: seq<BillboardLine>, c: seq<BillboardLine>)
    ensures (a + b) + c == a + (b + c)
  {
  }

  /** The overlay numbers for a region: `[point.x, point.y, heading]`. */
  function RegionVector(r: Region): seq<real>
  {
    [r.point.x, r.point.y, r.heading]
  }

  /** After a region with a non-empty id has been shown, formatting the overlay
      cannot fail: it yields the id line, the point line with x and y, and the
      heading line. */
  lemma FormatAfterShow(r: Region, ts: real -> string)
    ensures FormatText(r.id, RegionVector(r), ts) == Success([
              "id: " + r.id,
              "point: [" + ts(r.point.x) + "  " + ts(r.point.y) + "  " + "]",
              "heading: " + ts(r.heading)
            ])
  {
  }

  class MapDisplay {
    /** The latest current-region message (`current_region_msg_`). */
    var currentRegionMsg: Region
    /** The rendered map lines (`rviz_lines_`). */
    const rvizLines: LineList
    /** The overlay object the timer tick fills (`overlap_ui_`). */
    const overlapUi: CurrentRegionOverlayUI

    /** A display with no region yet (default message, empty id), no lines,
        and a fresh overlay object. */
    constructor ()
      ensures currentRegionMsg == EmptyRegion
      ensures fresh(rvizLines) && rvizLines.items == []
      ensures fresh(overlapUi) && overlapUi.Id() == "" && overlapUi.Point() == []
    {
      currentRegionMsg := EmptyRegion;
      rvizLines := new LineList();
      overlapUi := new CurrentRegionOverlayUI();
    }

    /** The subscription callback: the stored message is replaced as a whole. */
    method CurrentRegionCallback(msg: Region)
      modifies this`currentRegionMsg
      ensures currentRegionMsg == msg
    {
      currentRegionMsg := msg;
    }

    /** The timer tick: nothing happens while the stored id is empty; otherwise
        the overlay gets the stored id and exactly `[x, y, heading]`. Returns
        whether the overlay was updated. */
    method ShowCurrentRegion() returns (shown: bool)
      modifies overlapUi
      ensures shown <==> currentRegionMsg.id != ""
      ensures !shown ==> unchanged(overlapUi)
      ensures shown ==> overlapUi.Id() == currentRegionMsg.id
      ensures shown ==> overlapUi.Point() == RegionVector(currentRegionMsg)
    {
      if |currentRegionMsg.id| == 0 {
        return false;
      }
      overlapUi.SetId(currentRegionMsg.id);
      overlapUi.ClearPoint();
      overlapUi.PushPoint(currentRegionMsg.point.x);
      overlapUi.PushPoint(currentRegionMsg.point.y);
      overlapUi.PushPoint(currentRegionMsg.heading);
      return true;
    }

    /** A region message arrives and the next timer tick shows it; a shown
        overlay is formatted for display. Nothing is shown or formatted for an
        empty id; otherwise the three lines are the id, x and y, and the heading
        of `msg`. */
    method ReceiveAndShow(msg: Region, ts: real -> string) returns (shown: bool, text: seq<string>)
      modifies this`currentRegionMsg, overlapUi
      ensures currentRegionMsg == msg
      ensures shown <==> msg.id != ""
      ensures !shown ==> unchanged(overlapUi)
      ensures shown ==> overlapUi.Id() == msg.id && overlapUi.Point() == RegionVector(msg)
      ensures !shown ==> text == []
      ensures shown ==> text == [
                "id: " + msg.id,
                "point: [" + ts(msg.point.x) + "  " + ts(msg.point.y) + "  " + "]",
                "heading: " + ts(msg.heading)
              ]
    {
      CurrentRegionCallback(msg);
      shown := ShowCurrentRegion();
      text := [];
      if shown {
        var formatted := overlapUi.Format(ts);
        FormatAfterShow(msg, ts);
        text := formatted.value;
      }
    }

    /** Flattens map `m` into lines. With no roads nothing changes. Otherwise
        `lines` is cleared and, road by road, section by section, lane by lane,
        the centre, left and right lines of each lane are appended to the
        display's own list; an `.at` past the end of a right boundary raises
        `std::out_of_range` and leaves what was appended so far. */
    method GlobalMapMsgToBillboardLines(m: Map, lines: LineList) returns (outcome: Outcome)
      modifies lines, rvizLines
      ensures m.roads == [] ==> outcome == Pass && unchanged(lines, rvizLines)
      ensures m.roads != [] ==> outcome == (if FlattenMap(m).complete then Pass else Fail(OutOfRange))
      ensures m.roads != [] && lines == rvizLines ==> rvizLines.items == FlattenMap(m).lines
      ensures m.roads != [] && lines != rvizLines ==>
                lines.items == [] && rvizLines.items == old(rvizLines.items) + FlattenMap(m).lines
    {
      if |m.roads| == 0 {
        return Pass;
      }
      lines.items := [];
      ghost var base := rvizLines.items;
      ghost var all := FlattenMap(m);
      ghost var done: seq<BillboardLine> := [];
      assert m.roads[0..] == m.roads;
      for i := 0 to |m.roads|
        modifies rvizLines
        invariant rvizLines.items == base + done
        invariant all == Then(Emission(done, true), EmitRoads(m.roads[i..]))
      {
        var road := m.roads[i];
        ghost var here := EmitSections(road.sections);
        EmitRoadsStep(m.roads, i);
        ResumeStep(all, done, here, EmitRoads(m.roads[i + 1..]));
        outcome := AppendRoadLines(road);
        AppendAssoc(base, done, here.lines);
        done := done + here.lines;
        if outcome.Fail? {
          return;
        }
      }
      assert m.roads[|m.roads|..] == [];
      ResumeEnd(all, done);
      return Pass;
    }

    /** The body of the road loop: the lines of each section of `road`, in
        section order, are appended to the display's list, until a lane raises. */
    method AppendRoadLines(road: Road) returns (outcome: Outcome)
      modifies rvizLines
      ensures var e := EmitSections(road.sections);
              && outcome == (if e.complete then Pass else Fail(OutOfRange))
              && rvizLines.items == old(rvizLines.items) + e.lines
    {
      ghost var base := rvizLines.items;
      ghost var all := EmitSections(road.sections);
      ghost var done: seq<BillboardLine> := [];
      assert road.sections[0..] == road.sections;
      for j := 0 to |road.sections|
        invariant rvizLines.items == base + done
        invariant all == Then(Emission(done, true), EmitSections(road.sections[j..]))
      {
        var section := road.sections[j];
        ghost var here := EmitLanes(section.lanes);
        EmitSectionsStep(road.sections, j);
        ResumeStep(all, done, here, EmitSections(road.sections[j + 1..]));
        outcome := AppendSectionLines(section);
        AppendAssoc(base, done, here.lines);
        done := done + here.lines;
        if outcome.Fail? {
          return;
        }
      }
      assert road.sections[|road.sections|..] == [];
      ResumeEnd(all, done);
      return Pass;
    }

    /** The body of the section loop: the lines of each lane of `section`, in
        lane order, are appended to the display's list, until a lane raises. */
    method AppendSectionLines(section: Section) returns (outcome: Outcome)
      modifies rvizLines
      ensures var e := EmitLanes(section.lanes);
              && outcome == (if e.complete then Pass else Fail(OutOfRange))
              && rvizLines.items == old(rvizLines.items) + e.lines
    {
      ghost var base := rvizLines.items;
      ghost var all := EmitLanes(section.lanes);
      ghost var done: seq<BillboardLine> := [];
      assert section.lanes[0..] == section.lanes;
      for k := 0 to |section.lanes|
        invariant rvizLines.items == base + done
        invariant all == Then(Emission(done, true), EmitLanes(section.lanes[k..]))
      {
        var lane := section.lanes[k];
        ghost var here := LaneLines(lane, LineSize(lane));
        EmitLanesStep(section.lanes, k);
        ResumeStep(all, done, here, EmitLanes(section.lanes[k + 1..]));
        outcome := AppendLaneLines(lane);
        AppendAssoc(base, done, here.lines);
        done := done + here.lines;
        if outcome.Fail? {
          return;
        }
      }
      assert section.lanes[|section.lanes|..] == [];
      ResumeEnd(all, done);
      return Pass;
    }

    /** The body of the lane loop: the centre, left and right lines of `lane`
        are appended to the display's list, in that order; reading the right
        boundary past its end raises after the first two were appended. */
    method AppendLaneLines(lane: Lane) returns (outcome: Outcome)
      modifies rvizLines
      ensures var e := LaneLines(lane, LineSize(lane));
              && outcome == (if e.complete then Pass else Fail(OutOfRange))
              && rvizLines.items == old(rvizLines.items) + e.lines
    {
      var lineSize := LineSize(lane);

      var central, centralOutcome := FillLine(lane.centralCurve, lineSize);
      assert centralOutcome == Pass;
      rvizLines.items := rvizLines.items + [central];

      var left, leftOutcome := FillLine(lane.leftBoundary, lineSize);
      assert leftOutcome == Pass;
      rvizLines.items := rvizLines.items + [left];

      var right, rightOutcome := FillLine(lane.rightBoundary, lineSize);
      if rightOutcome.Fail? {
        return rightOutcome;
      }
      rvizLines.items := rvizLines.items + [right];
      return Pass;
    }

    /** The map service's response: the map is flattened into the display's
        own line list, which is both the cleared list and the appended one. */
    method OnGlobalMapResponse(m: Map) returns (outcome: Outcome)
      modifies rvizLines
      ensures m.roads == [] ==> outcome == Pass && unchanged(rvizLines)
      ensures m.roads != [] ==> outcome == (if FlattenMap(m).complete then Pass else Fail(OutOfRange))
      ensures m.roads != [] ==> rvizLines.items == FlattenMap(m).lines
    {
      outcome := GlobalMapMsgToBillboardLines(m, rvizLines);
    }
  }
}
