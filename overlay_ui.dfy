/** The text overlay for the current region: an id and a point vector
    `[x, y, heading]`, formatted into three lines of text.

    `std::to_string(double)` is not modelled: every operation that prints a
    number takes the printing function `ts` as a parameter and treats it as
    opaque. */
module OverlayUi {
  import opened MapMsgs

  /** The numbers `vals` as the point line prints them: each followed by two spaces. */
  function Printed(vals: seq<real>, ts: real -> string): string
  {
    if vals == [] then "" else Printed(vals[..|vals| - 1], ts) + ts(vals[|vals| - 1]) + "  "
  }

  /** The three lines shown for an overlay with id `id` and point vector `point`:
      the id, the first two numbers in brackets, and the third as the heading.
      Fewer than three numbers make an `.at` raise `std::out_of_range`. */
  function FormatText(id: string, point: seq<real>, ts: real -> string): (r: Result<seq<string>>)
    ensures r.Failure? <==> |point| < 3
    ensures r.Success? ==> |r.value| == 3 && |r.value[0]| >= 4 && r.value[0][4..] == id
  {
    if |point| < 3 then Failure(OutOfRange)
    else Success([
      "id: " + id,
      "point: [" + ts(point[0]) + "  " + ts(point[1]) + "  " + "]",
      "heading: " + ts(point[2])
    ])
  }

  /** Two numbers print as the first, two spaces, the second, two spaces. */
  lemma PrintedTwo(vals: seq<real>, ts: real -> string)
    requires |vals| >= 2
    ensures Printed(vals[..2], ts) == ts(vals[0]) + "  " + ts(vals[1]) + "  "
  {
    assert vals[..2][..1] == vals[..1];
    assert vals[..1][..0] == [];
    calc {
      Printed(vals[..2], ts);
      Printed(vals[..1], ts) + ts(vals[1]) + "  ";
      Printed([], ts) + ts(vals[0]) + "  " + ts(vals[1]) + "  ";
    }
  }

  /** Formatting fails exactly when the point vector has fewer than three numbers. */
  lemma FormatFailsIff(id: string, point: seq<real>, ts: real -> string)
    ensures FormatText(id, point, ts).Failure? <==> |point| < 3
    ensures FormatText(id, point, ts).Failure? ==> FormatText(id, point, ts).error == OutOfRange
  {
  }

  /** A successful format has three lines, and the id can be read back from the
      first one after its four-character label. */
  lemma FormatIdRoundTrip(id: string, point: seq<real>, ts: real -> string)
    requires |point| >= 3
    ensures FormatText(id, point, ts).Success?
    ensures var lines := FormatText(id, point, ts).value;
            |lines| == 3 && lines[0][..4] == "id: " && lines[0][4..] == id
  {
  }

  /** The heading line is the label followed by the third number, and the point
      line mentions only the first two numbers. */
  lemma FormatHeadingAndPoint(id: string, point: seq<real>, ts: real -> string)
    requires |point| >= 3
    ensures var lines := FormatText(id, point, ts).value;
            && lines[2][..9] == "heading: " && lines[2][9..] == ts(point[2])
            && lines[1] == "point: [" + Printed(point[..2], ts) + "]"
  {
    PrintedTwo(point, ts);
  }

  /** Only the first three numbers matter: anything after them is never printed. */
  lemma FormatOnlyFirstThree(id: string, point: seq<real>, ts: real -> string)
    requires |point| >= 3
    ensures FormatText(id, point, ts) == FormatText(id, point[..3], ts)
  {
  }

  /** The overlay object of the display: the region id and `[x, y, heading]`. */
  class CurrentRegionOverlayUI {
    var id: string
    var point: seq<real>

    /** A new overlay has an empty id and no numbers: the constructor only
        reserves capacity for three. */
    constructor ()
      ensures id == "" && point == []
    {
      id := "";
      point := [];
    }

    /** A copy of the id. */
    function Id(): (r: string)
      reads this
      ensures r == id
    {
      id
    }

    /** A copy of the point vector. */
    function Point(): (r: seq<real>)
      reads this
      ensures r == point
    {
      point
    }

    /** Assignment through `mutable_id()`: the id becomes `s`, the numbers stay. */
    method SetId(s: string)
      modifies this`id
      ensures Id() == s
      ensures Point() == old(Point())
    {
      id := s;
    }

    /** `mutable_point()->clear()`. */
    method ClearPoint()
      modifies this`point
      ensures Point() == []
      ensures Id() == old(Id())
    {
      point := [];
    }

    /** `mutable_point()->emplace_back(v)`. */
    method PushPoint(v: real)
      modifies this`point
      ensures Point() == old(Point()) + [v]
      ensures Id() == old(Id())
    {
      point := point + [v];
    }

    /** Builds the three lines, raising `std::out_of_range` when the point
        vector is too short; reads the id and the numbers and changes neither. */
    method Format(ts: real -> string) returns (r: Result<seq<string>>)
      ensures r == FormatText(Id(), Point(), ts)
    {
      var ret: seq<string> := [];

      var idText := "";
      idText := idText + "id: ";
      idText := idText + id;
      ret := ret + [idText];

      var pointText := "";
      pointText := pointText + "point: [";
      for i := 0 to 2
        invariant i <= |point|
        invariant pointText == "point: [" + Printed(point[..i], ts)
      {
        if i >= |point| {
          return Failure(OutOfRange);
        }
        assert point[..i + 1][..i] == point[..i];
        pointText := pointText + ts(point[i]);
        pointText := pointText + "  ";
      }
      pointText := pointText + "]";
      ret := ret + [pointText];

      if 2 >= |point| {
        return Failure(OutOfRange);
      }
      var headingText := "";
      headingText := headingText + "heading: ";
      headingText := headingText + ts(point[2]);
      ret := ret + [headingText];

      PrintedTwo(point, ts);
      assert idText == "id: " + id;
      assert pointText == "point: [" + ts(point[0]) + "  " + ts(point[1]) + "  " + "]";
      assert headingText == "heading: " + ts(point[2]);
      assert ret == [idText, pointText, headingText];
      return Success(ret);
    }
  }

  /** A freshly constructed overlay has no numbers yet, so formatting it raises. */
  method FormatFresh(ts: real -> string) returns (r: Result<seq<string>>)
    ensures r == Failure(OutOfRange)
  {
    var ui := new CurrentRegionOverlayUI();
    r := ui.Format(ts);
  }
}
