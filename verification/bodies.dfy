/** The game object the movement and rotation commands act on, seen through
    the accessor methods of IMovable, IFuelable, IRotatable and
    IVelocityChangeable. Any accessor may raise (the tests make mocks raise);
    `broken` lists those that do. Setters record what they wrote, so that "set
    exactly once, with this value" and "never written" can be stated. */
module Bodies {
  import opened Errors

  /** A numpy vector of two integers; `+` on such arrays is componentwise.
      The components are unbounded, so numpy's int64 wrap-around is not modelled. */
  datatype Vec = Vec(x: int, y: int)

  function Plus(a: Vec, b: Vec): (r: Vec)
    ensures r.x - a.x == b.x && r.y - a.y == b.y
  {
    Vec(a.x + b.x, a.y + b.y)
  }

  function Negate(a: Vec): Vec {
    Vec(-a.x, -a.y)
  }

  datatype Accessor =
    | GetPosition | GetVelocity | SetPosition
    | GetFuelLevel | GetFuelConsumption | SetFuelLevel
    | GetDirection | GetAngularVelocity | GetDirectionsNumber | SetDirection
    | GetAngle | SetVelocity

  /** The method name, which is what a failure reports. */
  function Name(a: Accessor): string {
    match a
    case GetPosition => "get_position"
    case GetVelocity => "get_velocity"
    case SetPosition => "set_position"
    case GetFuelLevel => "get_fuel_level"
    case GetFuelConsumption => "get_fuel_consumption"
    case SetFuelLevel => "set_fuel_level"
    case GetDirection => "get_direction"
    case GetAngularVelocity => "get_angular_velocity"
    case GetDirectionsNumber => "get_directions_number"
    case SetDirection => "set_direction"
    case GetAngle => "get_angle"
    case SetVelocity => "set_velocity"
  }

  /** One completed setter call. */
  datatype Write = PositionSet(p: Vec) | FuelLevelSet(level: int) | DirectionSet(d: int) | VelocitySet(v: Vec)

  datatype Body = Body(
    position: Vec,
    velocity: Vec,
    fuelLevel: int,
    fuelConsumption: int,
    direction: int,
    angularVelocity: int,
    directionsNumber: int,
    /** the heading `get_angle` returns; its floating-point value is not modelled */
    angle: int,
    broken: set<Accessor>,
    writes: seq<Write>)

  function Fail<T>(a: Accessor): Result<T> {
    Err(AccessorFailed(Name(a)))
  }

  function Read<T>(b: Body, a: Accessor, value: T): (r: Result<T>)
    ensures r.Ok? <==> a !in b.broken
    ensures r.Ok? ==> r.value == value
  {
    if a in b.broken then Fail(a) else Ok(value)
  }

  /** A setter call: raises if broken, otherwise stores and records the write. */
  function SetPositionTo(b: Body, p: Vec): (r: Result<Body>)
    ensures r.Ok? <==> SetPosition !in b.broken
    ensures r.Ok? ==> r.value == b.(position := p, writes := b.writes + [PositionSet(p)])
  {
    if SetPosition in b.broken then Fail(SetPosition)
    else Ok(b.(position := p, writes := b.writes + [PositionSet(p)]))
  }

  function SetFuelLevelTo(b: Body, level: int): (r: Result<Body>)
    ensures r.Ok? <==> SetFuelLevel !in b.broken
    ensures r.Ok? ==> r.value == b.(fuelLevel := level, writes := b.writes + [FuelLevelSet(level)])
  {
    if SetFuelLevel in b.broken then Fail(SetFuelLevel)
    else Ok(b.(fuelLevel := level, writes := b.writes + [FuelLevelSet(level)]))
  }

  function SetDirectionTo(b: Body, d: int): (r: Result<Body>)
    ensures r.Ok? <==> SetDirection !in b.broken
    ensures r.Ok? ==> r.value == b.(direction := d, writes := b.writes + [DirectionSet(d)])
  {
    if SetDirection in b.broken then Fail(SetDirection)
    else Ok(b.(direction := d, writes := b.writes + [DirectionSet(d)]))
  }

  function SetVelocityTo(b: Body, v: Vec): (r: Result<Body>)
    ensures r.Ok? <==> SetVelocity !in b.broken
    ensures r.Ok? ==> r.value == b.(velocity := v, writes := b.writes + [VelocitySet(v)])
  {
    if SetVelocity in b.broken then Fail(SetVelocity)
    else Ok(b.(velocity := v, writes := b.writes + [VelocitySet(v)]))
  }
}
