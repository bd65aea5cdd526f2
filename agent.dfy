/** The Agent class of Agent.cpp. Its fields change in place; every method is
    tied to the transition function of module AgentModel that specifies it, and
    the notifications the program sends to the registry are appended to the
    ghost log `events`. */
module Agents {
  import opened MovingObject
  import opened AgentModel

  class Agent {
    const name: string
    const speed: real
    var health: int
    var state: State
    var motion: Motion
    /** notify_location / notify_gone calls made by this agent, oldest first. */
    ghost var events: seq<Event>

    /** The agent's fields as one value. */
    function Data(): AgentData
      reads this
    {
      AgentData(name, health, speed, state, motion)
    }

    /** The object invariant: health <= 0 iff not ALIVE, and a dead agent
        "has already been set to not move" (the comment on is_moving). */
    ghost predicate Valid()
      reads this
    {
      Consistent(Data())
    }

    constructor (name: string, location: Point)
      ensures Data() == Construct(name, location)
      ensures Valid() && events == []
    {
      this.name := name;
      motion := Create(location, DEFAULT_SPEED);
      health := DEFAULT_HEALTH;
      speed := DEFAULT_SPEED;
      state := Alive;
      events := [];
    }

    /** get_location: where the movement record says the agent is. */
    function GetLocation(): (p: Point)
      reads this
      ensures p == motion.loc
    {
      motion.loc
    }

    /** is_moving: the movement record's flag, which is false once the agent
        is no longer alive if the invariant holds. */
    function IsMoving(): (b: bool)
      reads this
      ensures b == motion.moving
      ensures Valid() && state != Alive ==> !b
    {
      motion.moving
    }

    /** move_to */
    method MoveTo(dest: Point)
      modifies this
      ensures Data() == AgentModel.MoveTo(old(Data()), dest)
      ensures events == old(events)
      ensures old(Valid()) && old(state) == Alive ==> Valid()
    {
      if dest == motion.loc {
        return;
      }
      motion := StartMoving(motion, dest);
    }

    /** stop */
    method Stop()
      modifies this
      ensures Data() == AgentModel.Stop(old(Data()))
      ensures events == old(events)
      ensures old(Valid()) ==> Valid()
    {
      if motion.moving {
        motion := StopMoving(motion);
      }
    }

    /** take_hit: forwards to lose_health and never looks at the attacker. */
    method TakeHit(attackStrength: int, attacker: Agent?)
      modifies this
      ensures Data() == AgentModel.LoseHealth(old(Data()), attackStrength)
      ensures events == old(events)
      ensures old(Valid()) && attackStrength >= 0 ==> Valid()
    {
      LoseHealth(attackStrength);
    }

    /** lose_health */
    method LoseHealth(attackStrength: int)
      modifies this
      ensures Data() == AgentModel.LoseHealth(old(Data()), attackStrength)
      ensures events == old(events)
      ensures old(Valid()) && attackStrength >= 0 ==> Valid()
    {
      health := health - attackStrength;
      if health <= 0 {
        state := Dying;
        motion := StopMoving(motion);
        return;
      }
    }

    /** update: one tick of the lifecycle; `advanced` is where the movement
        geometry puts an ALIVE agent that does not arrive this tick. */
    method Update(advanced: Point)
      modifies this
      ensures Data() == AgentModel.Update(old(Data()), advanced).agent
      ensures events == old(events) + AgentModel.Update(old(Data()), advanced).events
      ensures old(Valid()) ==> Valid()
    {
      match state
      case Alive =>
        UpdateMovement(advanced);
      case Dying =>
        events := events + [Gone(name)];
        state := Dead;
      case Dead =>
        state := Disappearing;
      case Disappearing =>
    }

    /** update_Movement */
    method UpdateMovement(advanced: Point)
      modifies this
      ensures Data() == AgentModel.UpdateMovement(old(Data()), advanced).agent
      ensures events == old(events) + AgentModel.UpdateMovement(old(Data()), advanced).events
    {
      var progress := UpdateLocation(motion, advanced);
      motion := progress.motion;
      events := events + [Location(name, motion.loc)];
    }

    /** describe, following the layout of Agent.cpp:119-149: the ALIVE report
        (health, then moving or stopped) first, then the switch over the other
        states; proved equal to the report AgentModel.Describe specifies. */
    function Describe(): (r: Report)
      reads this
      ensures r == AgentModel.Describe(Data())
    {
      if state == Alive then
        if IsMoving() then Report(name, motion.loc, AliveWith(health, MovingTo(speed, motion.dest)))
        else Report(name, motion.loc, AliveWith(health, Stopped))
      else
        match state
        case Dying => Report(name, motion.loc, IsDying)
        case Dead => Report(name, motion.loc, IsDead)
        case Disappearing => Report(name, motion.loc, IsDisappearing)
    }

    /** broadcast_current_state: one location notification, nothing else changes. */
    method BroadcastCurrentState()
      modifies this
      ensures Data() == old(Data())
      ensures events == old(events) + [Location(name, motion.loc)]
    {
      events := events + [Location(name, GetLocation())];
    }

    /** start_working: the base Agent cannot work. */
    method StartWorking() returns (r: Attempt)
      ensures r == Refused(CannotWork(name))
    {
      r := Refused(CannotWork(name));
    }

    /** start_attacking: the base Agent cannot attack, whoever the target. */
    method StartAttacking(target: Agent?) returns (r: Attempt)
      ensures r == Refused(CannotAttack(name))
    {
      r := Refused(CannotAttack(name));
    }
  }
}
