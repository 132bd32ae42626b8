/**
 * move_all in motion/Com.py: the same MOVE text as Motion/Move.py, except that the
 * SPEED part is always present, posted once over HTTP even when no axis is given.
 */
module Com {
  import opened Wrappers
  import opened TextFormat
  import Move

  /** The script move_all posts. */
  function MoveAllScript(x: Option<real>, y: Option<real>, z: Option<real>, speed: int, format4: real -> string): (cmd: string)
    ensures "MOVE " <= cmd
  {
    var joined := Join(Move.AxisParts(Move.PresentAxes(x, y, z), format4) + ["SPEED=" + IntToString(speed)], " ");
    assert "MOVE " <= "MOVE " + joined;
    "MOVE " + joined
  }

  /** With no axis given, move_all still posts a MOVE carrying only the speed. */
  lemma SpeedOnly(speed: int, format4: real -> string)
    ensures MoveAllScript(None, None, None, speed, format4) == "MOVE SPEED=" + IntToString(speed)
  {
    var digits := IntToString(speed);
    var speedPart := "SPEED=" + digits;
    assert Join(Move.AxisParts(Move.PresentAxes(None, None, None), format4) + [speedPart], " ") == speedPart by {
      assert Move.PresentAxes(None, None, None) == [];
      assert Move.AxisParts([], format4) + [speedPart] == [speedPart];
    }
    assert "MOVE " + speedPart == "MOVE SPEED=" + digits by {
      assert "MOVE " + "SPEED=" == "MOVE SPEED=";
      assert "MOVE " + "SPEED=" + digits == "MOVE " + ("SPEED=" + digits);
    }
  }

  /** With some axis given, move_all posts exactly the script Move() sends. */
  lemma AgreesWithMove(x: Option<real>, y: Option<real>, z: Option<real>, speed: int, format4: real -> string)
    requires x.Some? || y.Some? || z.Some?
    ensures Move.MoveScript(x, y, z, speed, format4) == Some(MoveAllScript(x, y, z, speed, format4))
  {
  }

  /** The HTTP endpoint's record of the scripts posted to it. */
  class HttpEndpoint {
    var posted: seq<string>

    constructor ()
      ensures posted == []
    {
      posted := [];
    }
  }

  /** move_all: exactly one POST per call. */
  method MoveAll(endpoint: HttpEndpoint, x: Option<real>, y: Option<real>, z: Option<real>, speed: int, format4: real -> string)
    modifies endpoint
    ensures endpoint.posted == old(endpoint.posted) + [MoveAllScript(x, y, z, speed, format4)]
  {
    var cmd := MoveAllScript(x, y, z, speed, format4);
    endpoint.posted := endpoint.posted + [cmd];
  }
}
