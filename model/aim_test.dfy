/**
 * The interactive command loop of Aim_Test.py: each input line is trimmed, lower-cased
 * and split into words; "s" stops the pattern, "p <dist> [size]" starts one, and a bare
 * number aims at that many inches straight ahead with a relative move from the last aim.
 * Python's float() is the parameter `parse`; the link and the laser are the calls made.
 */
module AimTest {
  import opened Wrappers
  import opened Transcendentals
  import opened Commands
  import GroundAim
  import DeterrencePattern

  const PATTERN_SIZE_FT: real := 0.5
  const PATTERN_SPEED: int := 12000
  const PATTERN_DWELL_MS: int := 100

  /**
   * The characters str.strip() and str.split() treat as white space: those for which
   * str.isspace() holds, including the ASCII separators 0x1C-0x1F and the Unicode spaces.
   */
  predicate IsSpace(c: char) {
    || ('\U{09}' <= c <= '\U{0D}') || ('\U{1C}' <= c <= '\U{20}')
    || c == '\U{85}' || c == '\U{A0}' || c == '\U{1680}'
    || ('\U{2000}' <= c <= '\U{200A}') || c == '\U{2028}' || c == '\U{2029}'
    || c == '\U{202F}' || c == '\U{205F}' || c == '\U{3000}'
  }

  predicate AllSpace(s: string) { forall i :: 0 <= i < |s| ==> IsSpace(s[i]) }

  predicate NoSpace(s: string) { forall i :: 0 <= i < |s| ==> !IsSpace(s[i]) }

  /** str.lower() on ASCII letters. */
  function LowerChar(c: char): (r: char)
    ensures !('A' <= r <= 'Z')
    ensures IsSpace(r) <==> IsSpace(c)
  {
    if 'A' <= c <= 'Z' then (c as int - 'A' as int + 'a' as int) as char else c
  }

  function Lower(s: string): (r: string)
    ensures |r| == |s|
  {
    if s == [] then [] else [LowerChar(s[0])] + Lower(s[1..])
  }

  /** Lowering works character by character. */
  lemma {:induction false} LowerAt(s: string, i: int)
    requires 0 <= i < |s|
    ensures Lower(s)[i] == LowerChar(s[i])
    decreases i
  {
    if i > 0 {
      LowerAt(s[1..], i - 1);
    }
  }

  /** s without its leading white space. */
  function TrimStart(s: string): (r: string)
    ensures |r| <= |s|
  {
    if s == [] || !IsSpace(s[0]) then s else TrimStart(s[1..])
  }

  /** What TrimStart drops is white space, and what it keeps is a suffix that starts with a visible character. */
  lemma {:induction false} TrimStartSpec(s: string)
    ensures var r := TrimStart(s);
      r == s[|s| - |r|..] && AllSpace(s[..|s| - |r|]) && (r == [] || !IsSpace(r[0]))
    decreases |s|
  {
    if s != [] && IsSpace(s[0]) {
      TrimStartSpec(s[1..]);
      var r := TrimStart(s);
      assert s[1..][..|s| - 1 - |r|] == s[1..|s| - |r|];
    } else {
      assert s[..0] == [];
    }
  }

  /** s without its trailing white space. */
  function TrimEnd(s: string): (r: string)
    ensures |r| <= |s|
  {
    if s == [] || !IsSpace(s[|s| - 1]) then s else TrimEnd(s[..|s| - 1])
  }

  /** What TrimEnd drops is white space, and what it keeps is a prefix that ends with a visible character. */
  lemma {:induction false} TrimEndSpec(s: string)
    ensures var r := TrimEnd(s);
      r == s[..|r|] && AllSpace(s[|r|..]) && (r == [] || !IsSpace(r[|r| - 1]))
    decreases |s|
  {
    if s != [] && IsSpace(s[|s| - 1]) {
      TrimEndSpec(s[..|s| - 1]);
      var r := TrimEnd(s);
      assert s[..|s| - 1][..|r|] == s[..|r|];
      assert forall i :: |r| <= i < |s| - 1 ==> s[i] == s[..|s| - 1][|r|..][i - |r|];
    }
  }

  /** str.strip() */
  function Strip(s: string): string {
    TrimEnd(TrimStart(s))
  }

  /** A line strips to nothing exactly when it is all white space. */
  lemma StripEmptyIffAllSpace(s: string)
    ensures Strip(s) == [] <==> AllSpace(s)
  {
    TrimStartSpec(s);
    var t := TrimStart(s);
    TrimEndSpec(t);
    if t == [] {
      assert s[..|s|] == s;
    } else {
      assert t[0] == s[|s| - |t|];
      assert TrimEnd(t) != [] by {
        assert t[0..] == t;
      }
    }
  }

  /** The first word: the longest prefix without white space. */
  function Word(s: string): (w: string)
    ensures |w| <= |s|
  {
    if s == [] || IsSpace(s[0]) then [] else [s[0]] + Word(s[1..])
  }

  /** The first word is a prefix without white space, ended by white space or the end of the text. */
  lemma {:induction false} WordSpec(s: string)
    ensures var w := Word(s);
      w == s[..|w|] && NoSpace(w) && (|w| == |s| || IsSpace(s[|w|]))
      && (s != [] && !IsSpace(s[0]) ==> |w| >= 1)
    decreases |s|
  {
    if s != [] && !IsSpace(s[0]) {
      WordSpec(s[1..]);
    }
  }

  /** str.split(): the maximal runs of non-white-space characters, in order. */
  function Split(s: string): (words: seq<string>)
    decreases |s|
  {
    var t := TrimStart(s);
    if t == [] then []
    else
      TrimStartSpec(s);
      WordSpec(t);
      var w := Word(t);
      [w] + Split(t[|w|..])
  }

  /** Every word is non-empty and holds no white space. */
  lemma {:induction false} SplitWords(s: string)
    ensures forall k :: 0 <= k < |Split(s)| ==> Split(s)[k] != [] && NoSpace(Split(s)[k])
    decreases |s|
  {
    var t := TrimStart(s);
    if t != [] {
      TrimStartSpec(s);
      WordSpec(t);
      var w := Word(t);
      SplitWords(t[|w|..]);
      assert Split(s) == [w] + Split(t[|w|..]);
    }
  }

  /** The non-white-space characters of s, in order. */
  function Visible(s: string): string {
    if s == [] then [] else (if IsSpace(s[0]) then [] else [s[0]]) + Visible(s[1..])
  }

  function Concat(words: seq<string>): string {
    if words == [] then [] else words[0] + Concat(words[1..])
  }

  lemma {:induction false} VisibleAppend(a: string, b: string)
    ensures Visible(a + b) == Visible(a) + Visible(b)
    decreases |a|
  {
    if a != [] {
      assert (a + b)[1..] == a[1..] + b;
      VisibleAppend(a[1..], b);
    } else {
      assert a + b == b;
    }
  }

  lemma {:induction false} VisibleOfSpaces(s: string)
    requires AllSpace(s)
    ensures Visible(s) == []
    decreases |s|
  {
    if s != [] {
      VisibleOfSpaces(s[1..]);
    }
  }

  lemma {:induction false} VisibleOfWord(s: string)
    requires NoSpace(s)
    ensures Visible(s) == s
    decreases |s|
  {
    if s != [] {
      VisibleOfWord(s[1..]);
    }
  }

  /** Splitting loses only white space: the words, joined, are the visible characters of the line. */
  lemma {:induction false} SplitKeepsText(s: string)
    ensures Concat(Split(s)) == Visible(s)
    decreases |s|
  {
    TrimStartSpec(s);
    var t := TrimStart(s);
    var lead := s[..|s| - |t|];
    assert s == lead + t;
    VisibleAppend(lead, t);
    VisibleOfSpaces(lead);
    if t != [] {
      WordSpec(t);
      var w := Word(t);
      var rest := t[|w|..];
      assert t == w + rest;
      VisibleAppend(w, rest);
      VisibleOfWord(w);
      SplitKeepsText(rest);
      assert Split(s) == [w] + Split(rest);
      assert Concat(Split(s)) == w + Concat(Split(rest));
    }
  }

  /** A line splits into no words exactly when it is all white space. */
  lemma SplitEmptyIffAllSpace(s: string)
    ensures Split(s) == [] <==> AllSpace(s)
  {
    TrimStartSpec(s);
    var t := TrimStart(s);
    if t == [] {
      assert s[..|s|] == s;
    } else {
      assert t[0] == s[|s| - |t|];
    }
  }

  /** The words of a command line, as the loop computes them: strip, lower, split. */
  function Tokens(line: string): seq<string> {
    Split(Lower(Strip(line)))
  }

  lemma LowerAllSpace(s: string)
    ensures AllSpace(Lower(s)) <==> AllSpace(s)
  {
    if AllSpace(s) {
      forall i | 0 <= i < |s| ensures IsSpace(Lower(s)[i]) {
        LowerAt(s, i);
      }
    } else {
      var i :| 0 <= i < |s| && !IsSpace(s[i]);
      LowerAt(s, i);
    }
  }

  /** A line is blank (skipped) exactly when it is all white space; otherwise it has a first word. */
  lemma BlankIffAllSpace(line: string)
    ensures Lower(Strip(line)) == [] <==> AllSpace(line)
    ensures Lower(Strip(line)) != [] ==> Tokens(line) != []
  {
    StripEmptyIffAllSpace(line);
    var t := Strip(line);
    if t != [] {
      TrimEndSpec(TrimStart(line));
      LowerAt(t, |t| - 1);
      SplitEmptyIffAllSpace(Lower(t));
    }
  }

  /** What the loop makes of one input line. */
  datatype Request =
    | Blank
    | StopRequest
    /** "p" alone: the usage text only. */
    | Usage
    | PatternRequest(distIn: real, sizeFt: real)
    /** "p" with a word float() refuses: "Invalid numbers." */
    | InvalidNumbers
    /** A first word that is neither "s", "p" nor a number. */
    | Unknown
    | NotPositive(distIn: real)
    | AimRequest(distIn: real)

  function Classify(line: string, parse: string -> Option<real>): (r: Request)
    ensures r.AimRequest? ==> r.distIn > 0.0
  {
    BlankIffAllSpace(line);
    var text := Lower(Strip(line));
    if text == [] then Blank
    else
      var parts := Split(text);
      var cmd := parts[0];
      if cmd == "s" then StopRequest
      else if cmd == "p" then
        if |parts| < 2 then Usage
        else
          match parse(parts[1])
          case None => InvalidNumbers
          case Some(dist) =>
            if |parts| > 2 then
              match parse(parts[2])
              case None => InvalidNumbers
              case Some(size) => PatternRequest(dist, size)
            else PatternRequest(dist, PATTERN_SIZE_FT)
      else
        match parse(cmd)
        case None => Unknown
        case Some(d) => if d <= 0.0 then NotPositive(d) else AimRequest(d)
  }

  /** A line is skipped exactly when it is all white space. */
  lemma BlankLines(line: string, parse: string -> Option<real>)
    ensures Classify(line, parse).Blank? <==> AllSpace(line)
  {
    BlankIffAllSpace(line);
  }

  /** An ASCII information separator is white space to str.strip(), so "\x1cs" stops the pattern. */
  lemma SeparatorIsSpace(parse: string -> Option<real>)
    ensures Classify("\U{1C}s", parse) == StopRequest
  {
    var line := "\U{1C}s";
    assert TrimStart(line[1..]) == "s";
    assert Strip(line) == "s";
    assert Lower("s") == "s";
    assert Word("s") == "s";
    assert Split("s") == ["s"];
  }

  /** "p <dist>" without a size asks for the default half-foot square. */
  lemma PatternSizeDefault(line: string, parse: string -> Option<real>, dist: real)
    requires |Tokens(line)| == 2 && Tokens(line)[0] == "p" && parse(Tokens(line)[1]) == Some(dist)
    ensures Classify(line, parse) == PatternRequest(dist, PATTERN_SIZE_FT)
  {
    BlankIffAllSpace(line);
  }

  /** A first word "s" is a stop whatever follows it; a lone "p" is usage only. */
  lemma StopAndUsage(line: string, parse: string -> Option<real>)
    requires Tokens(line) != []
    ensures Tokens(line)[0] == "s" ==> Classify(line, parse) == StopRequest
    ensures Tokens(line) == ["p"] ==> Classify(line, parse) == Usage
  {
    BlankIffAllSpace(line);
  }

  /** A number that is not positive is refused, and so is a first word that is not a number. */
  lemma AimNeedsPositiveNumber(line: string, parse: string -> Option<real>)
    requires Tokens(line) != [] && Tokens(line)[0] != "s" && Tokens(line)[0] != "p"
    ensures parse(Tokens(line)[0]).None? ==> Classify(line, parse) == Unknown
    ensures parse(Tokens(line)[0]).Some? && parse(Tokens(line)[0]).value <= 0.0 ==>
      Classify(line, parse) == NotPositive(parse(Tokens(line)[0]).value)
    ensures parse(Tokens(line)[0]).Some? && parse(Tokens(line)[0]).value > 0.0 ==>
      Classify(line, parse) == AimRequest(parse(Tokens(line)[0]).value)
  {
    BlankIffAllSpace(line);
  }

  /** The last absolute motor deltas (last_dx_mm, last_dy_mm). */
  type Deltas = (real, real)

  /**
   * What one request sends and the new last deltas. An aim sends the difference between
   * the new absolute deltas and the last ones; a GroundAim ValueError sends nothing.
   */
  function Respond(lib: Maths, roll: real, last: Deltas, req: Request): (Deltas, seq<Command>) {
    match req
    case StopRequest => (last, DeterrencePattern.StopPatternCommands())
    case PatternRequest(dist, size) =>
      (match DeterrencePattern.SquarePatternCommands(lib, roll, dist, size, PATTERN_SPEED, PATTERN_DWELL_MS)
       case Err(_) => (last, [])
       case Ok(cmds) => (last, cmds))
    case AimRequest(dist) =>
      (match GroundAim.MotorDeltas(lib, roll, 0.0, DeterrencePattern.InchesToMeters(dist))
       case Err(_) => (last, [])
       case Ok(d) => (d, [MoveRelativeXY(d.0 - last.0, d.1 - last.1)]))
    case _ => (last, [])
  }

  /** The requests a run of input lines makes, one per line. */
  function Requests(lines: seq<string>, parse: string -> Option<real>): (reqs: seq<Request>)
    ensures |reqs| == |lines|
  {
    if lines == [] then [] else [Classify(lines[0], parse)] + Requests(lines[1..], parse)
  }

  /** The k-th request is the k-th line's. */
  lemma {:induction false} RequestAt(lines: seq<string>, parse: string -> Option<real>, k: int)
    requires 0 <= k < |lines|
    ensures Requests(lines, parse)[k] == Classify(lines[k], parse)
    decreases k
  {
    if k > 0 {
      RequestAt(lines[1..], parse, k - 1);
    }
  }

  /** The last deltas and every command sent after the given requests, starting from `last`. */
  function Session(lib: Maths, roll: real, last: Deltas, reqs: seq<Request>): (Deltas, seq<Command>)
    decreases |reqs|
  {
    if reqs == [] then (last, [])
    else
      var before := Session(lib, roll, last, reqs[..|reqs| - 1]);
      var after := Respond(lib, roll, before.0, reqs[|reqs| - 1]);
      (after.0, before.1 + after.1)
  }

  /** The sum of all relative mirror moves in a command list. */
  function MoveSum(cmds: seq<Command>): Deltas {
    if cmds == [] then (0.0, 0.0)
    else
      var s := MoveSum(cmds[..|cmds| - 1]);
      var c := cmds[|cmds| - 1];
      if c.MoveRelativeXY? then (s.0 + c.dx, s.1 + c.dy) else s
  }

  lemma {:induction false} MoveSumAppend(a: seq<Command>, b: seq<Command>)
    ensures MoveSum(a + b) == (MoveSum(a).0 + MoveSum(b).0, MoveSum(a).1 + MoveSum(b).1)
    decreases |b|
  {
    if b == [] {
      assert a + b == a;
    } else {
      assert (a + b)[..|a + b| - 1] == a + b[..|b| - 1];
      MoveSumAppend(a, b[..|b| - 1]);
    }
  }

  /** A command list without relative mirror moves moves nothing. */
  lemma {:induction false} MoveSumOfNoMoves(cmds: seq<Command>)
    requires forall k :: 0 <= k < |cmds| ==> !cmds[k].MoveRelativeXY?
    ensures MoveSum(cmds) == (0.0, 0.0)
    decreases |cmds|
  {
    if cmds != [] {
      MoveSumOfNoMoves(cmds[..|cmds| - 1]);
    }
  }

  /** Pattern commands hold no relative mirror move. */
  lemma PatternCommandsMoveNothing(lib: Maths, roll: real, dist: real, size: real)
    ensures DeterrencePattern.SquarePatternCommands(lib, roll, dist, size, PATTERN_SPEED, PATTERN_DWELL_MS).Ok? ==>
      MoveSum(DeterrencePattern.SquarePatternCommands(lib, roll, dist, size, PATTERN_SPEED, PATTERN_DWELL_MS).value) == (0.0, 0.0)
    ensures MoveSum(DeterrencePattern.StopPatternCommands()) == (0.0, 0.0)
  {
    var r := DeterrencePattern.SquarePatternCommands(lib, roll, dist, size, PATTERN_SPEED, PATTERN_DWELL_MS);
    if r.Ok? {
      MoveSumOfNoMoves(r.value);
    }
    MoveSumOfNoMoves(DeterrencePattern.StopPatternCommands());
  }

  /** One request moves the mirrors by exactly the change of the last deltas. */
  lemma RespondMovesByChange(lib: Maths, roll: real, last: Deltas, req: Request)
    ensures var r := Respond(lib, roll, last, req);
      MoveSum(r.1) == (r.0.0 - last.0, r.0.1 - last.1)
  {
    match req
    case PatternRequest(dist, size) => PatternCommandsMoveNothing(lib, roll, dist, size);
    case StopRequest => PatternCommandsMoveNothing(lib, roll, 0.0, 0.0);
    case AimRequest(dist) =>
      var r := Respond(lib, roll, last, req);
      if r.1 != [] {
        assert r.1[..0] == [];
      }
    case _ =>
  }

  /**
   * Starting from the neutral position (last deltas zero), the relative moves sent so far
   * add up to the last absolute deltas: the mirrors sit where the last aim put them.
   */
  lemma {:induction false} MovesSumToLastDeltas(lib: Maths, roll: real, reqs: seq<Request>)
    ensures var r := Session(lib, roll, (0.0, 0.0), reqs);
      MoveSum(r.1) == r.0
    decreases |reqs|
  {
    if reqs != [] {
      var before := Session(lib, roll, (0.0, 0.0), reqs[..|reqs| - 1]);
      var after := Respond(lib, roll, before.0, reqs[|reqs| - 1]);
      MovesSumToLastDeltas(lib, roll, reqs[..|reqs| - 1]);
      RespondMovesByChange(lib, roll, before.0, reqs[|reqs| - 1]);
      MoveSumAppend(before.1, after.1);
    }
  }

  /** An aim at a positive distance always succeeds, since the point is in front of the laser. */
  lemma AimInFront(lib: Maths, roll: real, last: Deltas, dist: real)
    requires dist > 0.0
    ensures GroundAim.MotorDeltas(lib, roll, 0.0, DeterrencePattern.InchesToMeters(dist)).Ok?
    ensures |Respond(lib, roll, last, AimRequest(dist)).1| == 1
  {
  }

  /** Requests other than stop, pattern and aim send nothing and keep the last deltas. */
  lemma OthersSendNothing(lib: Maths, roll: real, last: Deltas, req: Request)
    requires !req.StopRequest? && !req.PatternRequest? && !req.AimRequest?
    ensures Respond(lib, roll, last, req) == (last, [])
  {
  }

  /**
   * The loop of main(): one pass per input line, in order, until Ctrl+C or the end of
   * input; `reqs` are the lines read before then, as Classify reads them (Requests).
   */
  method CommandLoop(lib: Maths, roll: real, reqs: seq<Request>)
    returns (lastDx: real, lastDy: real, sent: seq<Command>)
    ensures ((lastDx, lastDy), sent) == Session(lib, roll, (0.0, 0.0), reqs)
    ensures MoveSum(sent) == (lastDx, lastDy)
  {
    lastDx, lastDy := 0.0, 0.0;
    sent := [];
    var i := 0;
    while i < |reqs|
      invariant 0 <= i <= |reqs|
      invariant ((lastDx, lastDy), sent) == Session(lib, roll, (0.0, 0.0), reqs[..i])
    {
      assert reqs[..i + 1][..i] == reqs[..i];
      ghost var step := Respond(lib, roll, (lastDx, lastDy), reqs[i]);
      ghost var before := sent;
      match reqs[i] {
        case StopRequest =>
          sent := sent + DeterrencePattern.StopPatternCommands();
        case PatternRequest(dist, size) =>
          var started := DeterrencePattern.StartSquarePattern(lib, roll, dist, size, PATTERN_SPEED, PATTERN_DWELL_MS);
          if started.Ok? {
            sent := sent + started.value;
          }
        case AimRequest(dist) =>
          var deltas := GroundAim.MotorDeltas(lib, roll, 0.0, DeterrencePattern.InchesToMeters(dist));
          if deltas.Ok? {
            var (dx, dy) := deltas.value;
            sent := sent + [MoveRelativeXY(dx - lastDx, dy - lastDy)];
            lastDx, lastDy := dx, dy;
          }
        case _ =>
          assert step == ((lastDx, lastDy), []) && before + [] == before;
      }
      assert ((lastDx, lastDy), sent) == (step.0, before + step.1);
      i := i + 1;
    }
    assert reqs[..i] == reqs;
    MovesSumToLastDeltas(lib, roll, reqs);
  }

  /** Calls made on the link and the laser by main(). */
  datatype Action = Home | LaserOn | Send(command: Command) | LaserOff | Close

  function SendAll(cmds: seq<Command>): (r: seq<Action>)
    ensures |r| == |cmds| && forall k :: 0 <= k < |cmds| ==> r[k] == Send(cmds[k])
  {
    if cmds == [] then [] else [Send(cmds[0])] + SendAll(cmds[1..])
  }

  /**
   * How the command loop ends: Ctrl+C raises KeyboardInterrupt, which the loop catches
   * and leaves by `break`; the end of input makes input() raise EOFError, which nothing catches.
   */
  datatype LoopEnd = Interrupted | EndOfInput

  /**
   * main() after connecting: homing, then the laser on, then the command loop over `lines`,
   * the lines read before the loop ends. A failed homing or a laser that does not come on
   * closes the link at once. After Ctrl+C the laser is switched off and the link closed;
   * at the end of input EOFError escapes main() and neither happens.
   */
  method AimMain(lib: Maths, roll: real, homeOk: bool, laserOk: bool, parse: string -> Option<real>,
                 lines: seq<string>, ending: LoopEnd)
    returns (log: seq<Action>, raised: Option<Error>)
    ensures raised == (if homeOk && laserOk && ending == EndOfInput then Some(EOFError) else None)
    ensures !homeOk ==> log == [Home, Close]
    ensures homeOk && !laserOk ==> log == [Home, LaserOn, Close]
    ensures homeOk && laserOk && ending == Interrupted ==>
      log == [Home, LaserOn] + SendAll(Session(lib, roll, (0.0, 0.0), Requests(lines, parse)).1) + [LaserOff, Close]
    ensures homeOk && laserOk && ending == EndOfInput ==>
      log == [Home, LaserOn] + SendAll(Session(lib, roll, (0.0, 0.0), Requests(lines, parse)).1)
    ensures LaserOff in log <==> homeOk && laserOk && ending == Interrupted
  {
    if !homeOk {
      return [Home, Close], None;
    }
    if !laserOk {
      return [Home, LaserOn, Close], None;
    }
    var reqs := Requests(lines, parse);
    var lastDx, lastDy, sent := CommandLoop(lib, roll, reqs);
    log := [Home, LaserOn] + SendAll(sent);
    assert LaserOff !in log by {
      assert forall k :: 2 <= k < |log| ==> log[k] == Send(sent[k - 2]);
    }
    if ending == Interrupted {
      log := log + [LaserOff, Close];
      raised := None;
    } else {
      raised := Some(EOFError);
    }
  }
}
