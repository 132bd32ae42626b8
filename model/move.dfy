/**
 * The MOVE command built by Motion/Move.py: the axes given, in X, Y, Z order, each as
 * "<axis>=<value with 4 decimals>", then "SPEED=<speed>", sent once over the
 * Moonraker link. `format4` stands for Python's ":.4f" formatting.
 */
module Move {
  import opened Wrappers
  import opened TextFormat

  const DEFAULT_SPEED: int := 1200

  /** The axes present, as (letter, value) pairs in X, Y, Z order. */
  function PresentAxes(x: Option<real>, y: Option<real>, z: Option<real>): (axes: seq<(char, real)>)
    ensures |axes| <= 3
    ensures axes == [] <==> x.None? && y.None? && z.None?
    ensures forall i, j :: 0 <= i < j < |axes| ==> axes[i].0 < axes[j].0
    ensures x.Some? ==> ('X', x.value) in axes
    ensures y.Some? ==> ('Y', y.value) in axes
    ensures z.Some? ==> ('Z', z.value) in axes
    ensures forall i :: 0 <= i < |axes| ==>
      || (axes[i].0 == 'X' && x == Some(axes[i].1))
      || (axes[i].0 == 'Y' && y == Some(axes[i].1))
      || (axes[i].0 == 'Z' && z == Some(axes[i].1))
  {
    (if x.Some? then [('X', x.value)] else [])
    + (if y.Some? then [('Y', y.value)] else [])
    + (if z.Some? then [('Z', z.value)] else [])
  }

  /** The "<axis>=<value>" parts of the present axes. */
  function AxisParts(axes: seq<(char, real)>, format4: real -> string): (parts: seq<string>)
    ensures |parts| == |axes|
    ensures forall i :: 0 <= i < |axes| ==> parts[i] == [axes[i].0] + "=" + format4(axes[i].1)
  {
    if axes == [] then [] else [[axes[0].0] + "=" + format4(axes[0].1)] + AxisParts(axes[1..], format4)
  }

  /** The script Move() sends, or None when no axis is given (no call is made). */
  function MoveScript(x: Option<real>, y: Option<real>, z: Option<real>, speed: int, format4: real -> string): (cmd: Option<string>)
    ensures cmd.None? <==> x.None? && y.None? && z.None?
    ensures cmd.Some? ==> "MOVE " <= cmd.value
  {
    var parts := AxisParts(PresentAxes(x, y, z), format4);
    if parts == [] then None
    else Some("MOVE " + Join(parts + ["SPEED=" + IntToString(speed)], " "))
  }

  /** The script is "MOVE ", the axis parts joined by spaces, then " SPEED=<speed>". */
  lemma MoveScriptLayout(x: Option<real>, y: Option<real>, z: Option<real>, speed: int, format4: real -> string)
    requires x.Some? || y.Some? || z.Some?
    ensures MoveScript(x, y, z, speed, format4)
         == Some("MOVE " + Join(AxisParts(PresentAxes(x, y, z), format4), " ") + " SPEED=" + IntToString(speed))
  {
    var parts := AxisParts(PresentAxes(x, y, z), format4);
    assert parts != [];
    SpeedLast(parts, IntToString(speed));
  }

  lemma SpeedLast(parts: seq<string>, speed: string)
    requires parts != []
    ensures "MOVE " + Join(parts + ["SPEED=" + speed], " ") == "MOVE " + Join(parts, " ") + " SPEED=" + speed
  {
    JoinSnoc(parts, "SPEED=" + speed, " ");
    var j := Join(parts, " ");
    assert "MOVE " + (j + " " + ("SPEED=" + speed)) == "MOVE " + j + " SPEED=" + speed;
  }

  /** The Moonraker link's record of the "printer.gcode.script" calls made on it. */
  class ScriptLink {
    var scripts: seq<string>

    constructor ()
      ensures scripts == []
    {
      scripts := [];
    }
  }

  /** Move(): one call with the built script when some axis is given, none otherwise. */
  method SendMove(link: ScriptLink, x: Option<real>, y: Option<real>, z: Option<real>, speed: int, format4: real -> string)
    modifies link
    ensures |link.scripts| == |old(link.scripts)| + (if x.None? && y.None? && z.None? then 0 else 1)
    ensures link.scripts == old(link.scripts) + (match MoveScript(x, y, z, speed, format4) case None => [] case Some(c) => [c])
  {
    var cmd := MoveScript(x, y, z, speed, format4);
    if cmd.None? {
      return;
    }
    link.scripts := link.scripts + [cmd.value];
  }
}
