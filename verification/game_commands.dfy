/** The game commands: Move, CheckFuel and BurnFuel (features/movement/commands.py,
    with the same Move in commands.py and move.py), Rotate and the early-exit
    branch of ChangeVelocity (features/rotation/commands.py, with the same
    Rotate in commands.py and rotate.py), MacroCommand
    (features/base/commands.py), and the Retry wrappers of commands.py.

    A command runs against a `Body` and yields the body afterwards together
    with its outcome. A failing accessor leaves the body as it was, but a
    MacroCommand does not undo the sub-commands that ran before a failure. */
module GameCommands {
  import opened Errors
  import opened Bodies
  import PyMath

  /** The floating-point part of ChangeVelocity (modulus, cos, sin, round):
      the new velocity computed from the old one and the heading. */
  type Steer = (Vec, int) -> Vec

  datatype GameCmd =
    | Move
    | CheckFuel
    | BurnFuel
    | Rotate
    | ChangeVelocity
    | Retry(inner: GameCmd)
    | DoubleRetry(inner: GameCmd)
    | Macro(cmds: seq<GameCmd>)
    /** a resolved value that is not a command: calling its `execute` raises AttributeError */
    | NoExecute

  datatype Run = Run(body: Body, outcome: Outcome)

  /** RotateWithChangeVelocity executes exactly this MacroCommand. */
  const RotateWithChangeVelocity: GameCmd := Macro([Rotate, ChangeVelocity])

  /** The macro the movement tests build: check fuel, move, burn fuel. */
  const MoveWithFuel: GameCmd := Macro([CheckFuel, Move, BurnFuel])

  const NotEnoughFuel: Error := CommandException(Message("Not enough fuel"))

  /** Turns a setter call into a run: the new body, or the old one and the error. */
  function Apply(b: Body, setter: Result<Body>): (r: Run)
    ensures setter.Ok? ==> r == Run(setter.value, Done)
    ensures setter.Err? ==> r == Run(b, Failed(setter.error))
  {
    match setter
    case Ok(b') => Run(b', Done)
    case Err(e) => Run(b, Failed(e))
  }

  /** `set_position(get_position() + get_velocity())` */
  function MoveExec(b: Body): (r: Run)
    ensures r.outcome.Done? <==> GetPosition !in b.broken && GetVelocity !in b.broken && SetPosition !in b.broken
    ensures r.outcome.Done? ==>
              && r.body.position == Plus(b.position, b.velocity)
              && r.body == b.(position := r.body.position, writes := b.writes + [PositionSet(r.body.position)])
    ensures r.outcome.Failed? ==> r.body == b
    ensures GetPosition in b.broken ==> r.outcome == Failed(AccessorFailed("get_position"))
    ensures GetPosition !in b.broken && GetVelocity in b.broken ==> r.outcome == Failed(AccessorFailed("get_velocity"))
  {
    match Read(b, GetPosition, b.position)
    case Err(e) => Run(b, Failed(e))
    case Ok(p) =>
      match Read(b, GetVelocity, b.velocity)
      case Err(e) => Run(b, Failed(e))
      case Ok(v) => Apply(b, SetPositionTo(b, Plus(p, v)))
  }

  /** Raises 'Not enough fuel' when the level is below the consumption; never writes. */
  function CheckFuelExec(b: Body): (r: Run)
    ensures r.body == b
    ensures r.outcome.Done? <==>
              GetFuelLevel !in b.broken && GetFuelConsumption !in b.broken && b.fuelLevel >= b.fuelConsumption
    ensures GetFuelLevel !in b.broken && GetFuelConsumption !in b.broken && b.fuelLevel < b.fuelConsumption ==>
              r.outcome == Failed(NotEnoughFuel)
  {
    match Read(b, GetFuelLevel, b.fuelLevel)
    case Err(e) => Run(b, Failed(e))
    case Ok(level) =>
      match Read(b, GetFuelConsumption, b.fuelConsumption)
      case Err(e) => Run(b, Failed(e))
      case Ok(consumption) =>
        if level < consumption then Run(b, Failed(NotEnoughFuel)) else Run(b, Done)
  }

  /** `set_fuel_level(get_fuel_level() - get_fuel_consumption())` */
  function BurnFuelExec(b: Body): (r: Run)
    ensures r.outcome.Done? <==>
              GetFuelLevel !in b.broken && GetFuelConsumption !in b.broken && SetFuelLevel !in b.broken
    ensures r.outcome.Done? ==>
              && r.body.fuelLevel + b.fuelConsumption == b.fuelLevel
              && r.body == b.(fuelLevel := r.body.fuelLevel, writes := b.writes + [FuelLevelSet(r.body.fuelLevel)])
    ensures r.outcome.Failed? ==> r.body == b
  {
    match Read(b, GetFuelLevel, b.fuelLevel)
    case Err(e) => Run(b, Failed(e))
    case Ok(level) =>
      match Read(b, GetFuelConsumption, b.fuelConsumption)
      case Err(e) => Run(b, Failed(e))
      case Ok(consumption) => Apply(b, SetFuelLevelTo(b, level - consumption))
  }

  /** `set_direction((get_direction() + get_angular_velocity()) % get_directions_number())`
      with Python's flooring `%`. */
  function RotateExec(b: Body): (r: Run)
    ensures r.outcome.Done? <==>
              && GetDirection !in b.broken && GetAngularVelocity !in b.broken && GetDirectionsNumber !in b.broken
              && b.directionsNumber != 0 && SetDirection !in b.broken
    ensures r.outcome.Done? ==>
              && (b.direction + b.angularVelocity - r.body.direction) % PyMath.Abs(b.directionsNumber) == 0
              && r.body == b.(direction := r.body.direction, writes := b.writes + [DirectionSet(r.body.direction)])
    ensures r.outcome.Done? && b.directionsNumber > 0 ==> 0 <= r.body.direction < b.directionsNumber
    ensures r.outcome.Done? && b.directionsNumber < 0 ==> b.directionsNumber < r.body.direction <= 0
    ensures r.outcome.Failed? ==> r.body == b
    ensures (GetDirection !in b.broken && GetAngularVelocity !in b.broken && GetDirectionsNumber !in b.broken
             && b.directionsNumber == 0) ==> r.outcome == Failed(ZeroDivision)
  {
    match Read(b, GetDirection, b.direction)
    case Err(e) => Run(b, Failed(e))
    case Ok(d) =>
      match Read(b, GetAngularVelocity, b.angularVelocity)
      case Err(e) => Run(b, Failed(e))
      case Ok(w) =>
        match Read(b, GetDirectionsNumber, b.directionsNumber)
        case Err(e) => Run(b, Failed(e))
        case Ok(n) =>
          match PyMath.FloorMod(d + w, n)
          case Err(e) => Run(b, Failed(e))
          case Ok(d') => Apply(b, SetDirectionTo(b, d'))
  }

  /** ChangeVelocity: an object whose velocity cannot be read cannot move, so
      the command returns without writing; otherwise it reads the heading and
      sets the velocity that `steer` computes. */
  function ChangeVelocityExec(b: Body, steer: Steer): (r: Run)
    ensures r.outcome.Done? <==> GetVelocity in b.broken || (GetAngle !in b.broken && SetVelocity !in b.broken)
    ensures GetVelocity in b.broken ==> r == Run(b, Done)
    ensures GetVelocity !in b.broken && GetAngle in b.broken ==> r.outcome == Failed(AccessorFailed("get_angle"))
    ensures GetVelocity !in b.broken && GetAngle !in b.broken && SetVelocity in b.broken ==>
              r.outcome == Failed(AccessorFailed("set_velocity"))
    ensures r.outcome.Failed? ==> r.body == b
    ensures r.outcome.Done? && GetVelocity !in b.broken ==>
              r.body == b.(velocity := steer(b.velocity, b.angle), writes := b.writes + [VelocitySet(steer(b.velocity, b.angle))])
  {
    match Read(b, GetVelocity, b.velocity)
    case Err(_) => Run(b, Done)
    case Ok(v) =>
      match Read(b, GetAngle, b.angle)
      case Err(e) => Run(b, Failed(e))
      case Ok(a) => Apply(b, SetVelocityTo(b, steer(v, a)))
  }

  /** `cmd.execute()` for every command of the model. */
  function Exec(c: GameCmd, b: Body, steer: Steer): (r: Run)
    ensures b.writes <= r.body.writes
    ensures c.Macro? && r.outcome.Failed? ==> r.outcome.error.CommandException?
    decreases c
  {
    match c
    case Move => MoveExec(b)
    case CheckFuel => CheckFuelExec(b)
    case BurnFuel => BurnFuelExec(b)
    case Rotate => RotateExec(b)
    case ChangeVelocity => ChangeVelocityExec(b, steer)
    case Retry(inner) => Exec(inner, b, steer)
    case DoubleRetry(inner) => Exec(inner, b, steer)
    case NoExecute => Run(b, Failed(NotACommand))
    case Macro(cmds) =>
      var r := RunAll(cmds, b, steer);
      if r.outcome.Failed? then Run(r.body, Failed(CommandException(r.outcome.error))) else r
  }

  /** The `for` loop of `MacroCommand.execute`: in order, stopping at the
      first failure, which is returned unwrapped. */
  function RunAll(cmds: seq<GameCmd>, b: Body, steer: Steer): (r: Run)
    ensures b.writes <= r.body.writes
    ensures |cmds| == 0 ==> r == Run(b, Done)
    decreases cmds
  {
    if |cmds| == 0 then Run(b, Done)
    else
      var first := Exec(cmds[0], b, steer);
      if first.outcome.Failed? then first else RunAll(cmds[1..], first.body, steer)
  }

  /** Running `a + c` is running `a` and then, only if nothing failed, `c`
      from where `a` left the body. */
  lemma {:induction false} RunAllAppend(a: seq<GameCmd>, c: seq<GameCmd>, b: Body, steer: Steer)
    ensures RunAll(a + c, b, steer) ==
              var ra := RunAll(a, b, steer);
              if ra.outcome.Failed? then ra else RunAll(c, ra.body, steer)
    decreases |a|
  {
    if |a| == 0 {
      assert a + c == c;
    } else {
      assert (a + c)[0] == a[0];
      assert (a + c)[1..] == a[1..] + c;
      var first := Exec(a[0], b, steer);
      if first.outcome.Done? {
        RunAllAppend(a[1..], c, first.body, steer);
      }
    }
  }

  /** When the commands before position `k` all succeed and command `k`
      fails, the macro raises CommandException around that error, the body is
      where command `k` left it, and nothing after `k` ran: the result is the
      same whatever follows. */
  lemma MacroStopsAtFirstFailure(cmds: seq<GameCmd>, k: nat, b: Body, steer: Steer)
    requires k < |cmds|
    requires RunAll(cmds[..k], b, steer).outcome.Done?
    requires Exec(cmds[k], RunAll(cmds[..k], b, steer).body, steer).outcome.Failed?
    ensures var failing := Exec(cmds[k], RunAll(cmds[..k], b, steer).body, steer);
            Exec(Macro(cmds), b, steer) == Run(failing.body, Failed(CommandException(failing.outcome.error)))
  {
    var pre := RunAll(cmds[..k], b, steer);
    assert cmds == cmds[..k] + ([cmds[k]] + cmds[k + 1..]);
    RunAllAppend(cmds[..k], [cmds[k]] + cmds[k + 1..], b, steer);
    assert ([cmds[k]] + cmds[k + 1..])[0] == cmds[k];
  }

  /** No rollback: every setter call made by the sub-commands that succeeded
      before a failure is still recorded after the macro raises. */
  lemma MacroKeepsEarlierWrites(cmds: seq<GameCmd>, k: nat, b: Body, steer: Steer)
    requires k <= |cmds|
    requires RunAll(cmds[..k], b, steer).outcome.Done?
    ensures RunAll(cmds[..k], b, steer).body.writes <= Exec(Macro(cmds), b, steer).body.writes
  {
    var pre := RunAll(cmds[..k], b, steer);
    assert cmds == cmds[..k] + cmds[k..];
    RunAllAppend(cmds[..k], cmds[k..], b, steer);
  }

  /** A macro with no commands does nothing and raises nothing. */
  lemma MacroOfNothing(b: Body, steer: Steer)
    ensures Exec(Macro([]), b, steer) == Run(b, Done)
  {
  }

  /** A macro whose commands all succeed succeeds, having run them in order. */
  lemma {:induction false} MacroAllSucceed(cmds: seq<GameCmd>, b: Body, steer: Steer)
    requires RunAll(cmds, b, steer).outcome.Done?
    ensures Exec(Macro(cmds), b, steer) == RunAll(cmds, b, steer)
    ensures |cmds| > 0 ==>
              var first := Exec(cmds[0], b, steer);
              first.outcome.Done? && RunAll(cmds, b, steer) == RunAll(cmds[1..], first.body, steer)
  {
  }

  /** Retry and DoubleRetry execute the wrapped command once and pass on its outcome. */
  lemma RetriesAreTransparent(c: GameCmd, b: Body, steer: Steer)
    ensures Exec(Retry(c), b, steer) == Exec(c, b, steer)
    ensures Exec(DoubleRetry(c), b, steer) == Exec(c, b, steer)
  {
  }

  /** With too little fuel, check-move-burn raises CommandException and
      writes neither position nor fuel. */
  lemma MoveWithFuelTooLittle(b: Body, steer: Steer)
    requires GetFuelLevel !in b.broken && GetFuelConsumption !in b.broken
    requires b.fuelLevel < b.fuelConsumption
    ensures Exec(MoveWithFuel, b, steer) == Run(b, Failed(CommandException(NotEnoughFuel)))
  {
    assert RunAll([CheckFuel, Move, BurnFuel], b, steer) == Run(b, Failed(NotEnoughFuel));
  }

  /** With enough fuel and working accessors, the object moves by its
      velocity and then burns exactly its consumption. */
  lemma MoveWithFuelEnough(b: Body, steer: Steer)
    requires {GetFuelLevel, GetFuelConsumption, SetFuelLevel, GetPosition, GetVelocity, SetPosition} !! b.broken
    requires b.fuelLevel >= b.fuelConsumption
    ensures var r := Exec(MoveWithFuel, b, steer);
            && r.outcome == Done
            && r.body.position == Plus(b.position, b.velocity)
            && r.body.fuelLevel == b.fuelLevel - b.fuelConsumption
            && r.body.writes == b.writes + [PositionSet(Plus(b.position, b.velocity)), FuelLevelSet(b.fuelLevel - b.fuelConsumption)]
  {
    var moved := MoveExec(b);
    assert RunAll([CheckFuel, Move, BurnFuel], b, steer) == RunAll([BurnFuel], moved.body, steer);
    assert moved.body.writes + [FuelLevelSet(b.fuelLevel - b.fuelConsumption)]
        == b.writes + [PositionSet(Plus(b.position, b.velocity)), FuelLevelSet(b.fuelLevel - b.fuelConsumption)];
  }

  /** When Rotate fails, ChangeVelocity is skipped and CommandException is raised. */
  lemma RotateFailureSkipsChangeVelocity(b: Body, steer: Steer)
    requires RotateExec(b).outcome.Failed?
    ensures Exec(RotateWithChangeVelocity, b, steer) == Run(b, Failed(CommandException(RotateExec(b).outcome.error)))
  {
  }

  /** When Rotate succeeds, ChangeVelocity runs on the rotated body: with every
      accessor working, the macro writes the new direction and then the velocity
      that the steering computes from the body's heading. */
  lemma RotateWithChangeVelocityWrites(b: Body, steer: Steer)
    requires {GetDirection, GetAngularVelocity, GetDirectionsNumber, SetDirection, GetVelocity, GetAngle, SetVelocity} !! b.broken
    requires b.directionsNumber != 0
    ensures var r := Exec(RotateWithChangeVelocity, b, steer);
            var d := RotateExec(b).body.direction;
            && r.outcome == Done
            && r.body.velocity == steer(b.velocity, b.angle)
            && r.body.writes == b.writes + [DirectionSet(d), VelocitySet(steer(b.velocity, b.angle))]
  {
    var rotated := RotateExec(b);
    assert RunAll([Rotate, ChangeVelocity], b, steer) == RunAll([ChangeVelocity], rotated.body, steer);
    assert rotated.body.writes + [VelocitySet(steer(b.velocity, b.angle))]
        == b.writes + [DirectionSet(rotated.body.direction), VelocitySet(steer(b.velocity, b.angle))];
  }

  /** Moving with the opposite velocity undoes a move. */
  lemma MoveIsUndoneByOppositeVelocity(b: Body)
    requires GetPosition !in b.broken && GetVelocity !in b.broken && SetPosition !in b.broken
    ensures var there := MoveExec(b).body;
            MoveExec(there.(velocity := Negate(b.velocity))).body.position == b.position
  {
  }

  /** Two rotations compose: rotating by `w1` and then by `w2` leaves the
      direction where a single rotation by `w1 + w2` does, for a number of
      directions of either sign. */
  lemma RotationsCompose(b: Body, w2: int)
    requires {GetDirection, GetAngularVelocity, GetDirectionsNumber, SetDirection} !! b.broken
    requires b.directionsNumber != 0
    ensures var once := RotateExec(b).body;
            RotateExec(once.(angularVelocity := w2)).body.direction
              == RotateExec(b.(angularVelocity := b.angularVelocity + w2)).body.direction
  {
    var n := b.directionsNumber;
    var a := b.direction + b.angularVelocity;
    var once := RotateExec(b).body;
    assert once.direction == PyMath.FloorMod(a, n).value;
    var again := once.(angularVelocity := w2);
    assert RotateExec(again).body.direction == PyMath.FloorMod(PyMath.FloorMod(a, n).value + w2, n).value;
    var single := b.(angularVelocity := b.angularVelocity + w2);
    assert RotateExec(single).body.direction == PyMath.FloorMod(a + w2, n).value;
    PyMath.AddAfterMod(a, w2, n);
  }

  lemma RotatesByDafnyMod(b: Body)
    requires {GetDirection, GetAngularVelocity, GetDirectionsNumber, SetDirection} !! b.broken
    requires b.directionsNumber > 0
    ensures RotateExec(b).body.direction == (b.direction + b.angularVelocity) % b.directionsNumber
  {
    PyMath.PositiveDivisorAgrees(b.direction + b.angularVelocity, b.directionsNumber);
  }


  /** The worked examples of the move and rotate tests: (12, 5) moved by
      (-7, 3) is (5, 8); direction 13 turned by 5 of 16 is 2. */
  lemma WorkedExamples(b: Body)
    requires b.broken == {}
    ensures MoveExec(b.(position := Vec(12, 5), velocity := Vec(-7, 3))).body.position == Vec(5, 8)
    ensures RotateExec(b.(direction := 13, angularVelocity := 5, directionsNumber := 16)).body.direction == 2
  {
  }

  /** The worked examples of the fuel tests: a level of 6 against a
      consumption of 4 passes the check and burning leaves 2; against a
      consumption of 7 the check fails with 'Not enough fuel'. */
  lemma FuelExamples(b: Body)
    requires b.broken == {}
    ensures BurnFuelExec(b.(fuelLevel := 6, fuelConsumption := 4)).body.fuelLevel == 2
    ensures CheckFuelExec(b.(fuelLevel := 6, fuelConsumption := 7)).outcome == Failed(NotEnoughFuel)
    ensures CheckFuelExec(b.(fuelLevel := 6, fuelConsumption := 4)).outcome == Done
  {
  }
}
