/** The Agent of Agent.cpp as values: its state, the report `describe` gives,
    the notifications it sends to the registry, and one transition function per
    operation. The class in module Agents is proved against these functions. */
module AgentModel {
  import opened MovingObject

  const DEFAULT_HEALTH: int := 5
  const DEFAULT_SPEED: real := 5.0

  /** The four-valued lifecycle. */
  datatype State = Alive | Dying | Dead | Disappearing

  /** Position of a state along ALIVE, DYING, DEAD, DISAPPEARING. */
  function Rank(s: State): (n: nat)
    ensures n <= 3
    ensures n == 0 <==> s == Alive
  {
    match s
    case Alive => 0
    case Dying => 1
    case Dead => 2
    case Disappearing => 3
  }

  /** Everything an Agent holds: its immutable name and speed, its health,
      its lifecycle state and its movement record. */
  datatype AgentData = AgentData(name: string, health: int, speed: real, state: State, motion: Motion)

  /** A notification to the registry: notify_location or notify_gone. */
  datatype Event = Location(name: string, loc: Point) | Gone(name: string)

  /** The new state of an agent together with the notifications a call sent. */
  datatype Effect = Effect(agent: AgentData, events: seq<Event>)

  /** health <= 0 exactly when the agent is no longer alive. */
  predicate DeadIffDown(a: AgentData) {
    a.health <= 0 <==> a.state != Alive
  }

  /** An agent that is no longer alive does not move. */
  predicate StillWhenDown(a: AgentData) {
    a.state != Alive ==> !a.motion.moving
  }

  /** The two invariants of an agent: health <= 0 iff not ALIVE, and a dead
      agent has been set to not move (Agent.cpp:38, 42). */
  predicate Consistent(a: AgentData) {
    DeadIffDown(a) && StillWhenDown(a)
  }

  /** The constructor: default health and speed, ALIVE, standing at `loc`. */
  function Construct(name: string, loc: Point): (a: AgentData)
    ensures a.name == name && a.health == DEFAULT_HEALTH && a.speed == DEFAULT_SPEED
    ensures a.state == Alive
    ensures a.motion.loc == loc && !a.motion.moving && a.motion.speed == DEFAULT_SPEED
    ensures Consistent(a)
  {
    AgentData(name, DEFAULT_HEALTH, DEFAULT_SPEED, Alive, Create(loc, DEFAULT_SPEED))
  }

  /** move_to: nothing happens when the agent already stands at `dest`;
      otherwise it heads for `dest`, replacing any earlier destination. */
  function MoveTo(a: AgentData, dest: Point): (r: AgentData)
    ensures dest == a.motion.loc ==> r == a
    ensures dest != a.motion.loc ==>
      r.motion.moving && r.motion.dest == dest && r.motion.loc == a.motion.loc
    ensures r.name == a.name && r.health == a.health && r.state == a.state && r.speed == a.speed
    ensures r.motion.speed == a.motion.speed
    ensures a.state == Alive && Consistent(a) ==> Consistent(r)
  {
    if dest == a.motion.loc then a
    else a.(motion := StartMoving(a.motion, dest))
  }

  /** stop: a moving agent stops where it is; a standing agent is untouched. */
  function Stop(a: AgentData): (r: AgentData)
    ensures !r.motion.moving && r.motion.loc == a.motion.loc
    ensures r.name == a.name && r.health == a.health && r.state == a.state && r.speed == a.speed
    ensures !a.motion.moving ==> r == a
    ensures Consistent(a) ==> Consistent(r)
  {
    if a.motion.moving then a.(motion := StopMoving(a.motion)) else a
  }

  /** lose_health (and take_hit, which forwards to it): health drops by exactly
      `amount`; at or below zero the agent turns DYING and stops, whatever state
      it was in before. */
  function LoseHealth(a: AgentData, amount: int): (r: AgentData)
    ensures r.health == a.health - amount
    ensures r.name == a.name && r.speed == a.speed
    ensures r.health > 0 ==> r.state == a.state && r.motion == a.motion
    ensures r.health <= 0 ==>
      r.state == Dying && !r.motion.moving && r.motion.loc == a.motion.loc && r.motion.dest == a.motion.dest
    ensures amount >= 0 && Consistent(a) ==> Consistent(r)
  {
    var h := a.health - amount;
    if h <= 0 then a.(health := h, state := Dying, motion := StopMoving(a.motion))
    else a.(health := h)
  }

  /** update_Movement: one step of the movement record, then exactly one
      location notification carrying the location after the step. */
  function UpdateMovement(a: AgentData, advanced: Point): (r: Effect)
    ensures r.agent.name == a.name && r.agent.health == a.health
    ensures r.agent.state == a.state && r.agent.speed == a.speed
    ensures r.events == [Location(a.name, r.agent.motion.loc)]
    ensures !a.motion.moving ==> r.agent == a
    ensures a.motion.moving && InReach(a.motion) ==>
      r.agent.motion.loc == a.motion.dest && !r.agent.motion.moving
    ensures a.motion.moving && !InReach(a.motion) ==>
      r.agent.motion.loc == advanced && r.agent.motion.moving && r.agent.motion.dest == a.motion.dest
  {
    var t := UpdateLocation(a.motion, advanced);
    Effect(a.(motion := t.motion), [Location(a.name, t.motion.loc)])
  }

  /** update: an ALIVE agent moves and reports its location; DYING becomes DEAD
      and announces that it is gone; DEAD becomes DISAPPEARING; DISAPPEARING
      stays as it is. */
  function Update(a: AgentData, advanced: Point): (r: Effect)
    ensures r.agent.name == a.name && r.agent.health == a.health && r.agent.speed == a.speed
    ensures a.state == Alive ==> r == UpdateMovement(a, advanced)
    ensures a.state == Alive ==>
      r.agent.state == Alive && r.events == [Location(a.name, r.agent.motion.loc)]
    ensures a.state == Dying ==> r.agent == a.(state := Dead) && r.events == [Gone(a.name)]
    ensures a.state == Dead ==> r.agent == a.(state := Disappearing) && r.events == []
    ensures a.state == Disappearing ==> r == Effect(a, [])
    ensures a.state != Alive ==> Rank(r.agent.state) == if a.state == Disappearing then 3 else Rank(a.state) + 1
    ensures Consistent(a) ==> Consistent(r.agent)
  {
    match a.state
    case Alive => UpdateMovement(a, advanced)
    case Dying => Effect(a.(state := Dead), [Gone(a.name)])
    case Dead => Effect(a.(state := Disappearing), [])
    case Disappearing => Effect(a, [])
  }

  /** How a moving agent is reported: stopped, or its speed and destination. */
  datatype Heading = Stopped | MovingTo(speed: real, dest: Point)

  /** The part of the report that depends on the lifecycle state. */
  datatype Condition = AliveWith(health: int, heading: Heading) | IsDying | IsDead | IsDisappearing

  /** describe: the name and location, then the condition. */
  datatype Report = Report(name: string, location: Point, condition: Condition)

  /** describe as a structured report. */
  function Describe(a: AgentData): (r: Report)
    ensures r.name == a.name && r.location == a.motion.loc
    ensures r.condition.AliveWith? <==> a.state == Alive
    ensures r.condition == IsDying <==> a.state == Dying
    ensures r.condition == IsDead <==> a.state == Dead
    ensures r.condition == IsDisappearing <==> a.state == Disappearing
    ensures a.state == Alive ==> r.condition.health == a.health
    ensures a.state == Alive ==> (r.condition.heading == Stopped <==> !a.motion.moving)
    ensures a.state == Alive && a.motion.moving ==>
      r.condition.heading == MovingTo(a.speed, a.motion.dest)
  {
    var condition :=
      match a.state
      case Alive => AliveWith(a.health, if a.motion.moving then MovingTo(a.speed, a.motion.dest) else Stopped)
      case Dying => IsDying
      case Dead => IsDead
      case Disappearing => IsDisappearing;
    Report(a.name, a.motion.loc, condition)
  }

  const CANNOT_WORK: string := ": Sorry, I can't work!"
  const CANNOT_ATTACK: string := ": Sorry, I can't attack!"

  /** The error start_working raises: the agent's name, then the refusal. */
  function CannotWork(name: string): (msg: string)
    ensures |msg| == |name| + |CANNOT_WORK|
    ensures msg[..|name|] == name && msg[|name|..] == CANNOT_WORK
  {
    name + CANNOT_WORK
  }

  /** The error start_attacking raises: the agent's name, then the refusal. */
  function CannotAttack(name: string): (msg: string)
    ensures |msg| == |name| + |CANNOT_ATTACK|
    ensures msg[..|name|] == name && msg[|name|..] == CANNOT_ATTACK
  {
    name + CANNOT_ATTACK
  }

  /** What a capability request comes to; the base Agent always refuses. */
  datatype Attempt = Started | Refused(message: string)
}
