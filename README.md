# Agent: a tick-driven lifecycle state machine, in Dafny

This project models the `Agent` of a discrete-time simulation (`Agent.cpp`).
An agent has a name, a health count that starts at 5, a speed of 5, and a
lifecycle state that is one of ALIVE, DYING, DEAD or DISAPPEARING. It also owns
a movement record holding its location, its destination and a moving flag.
The agent accepts these calls:

- `move_to` and `stop` for movement;
- `take_hit` and `lose_health` for damage;
- `update`, once per tick, which moves an ALIVE agent and takes a dead one from
  DYING to DEAD to DISAPPEARING;
- `describe`, a read-only report;
- `broadcast_current_state`, which re-sends the agent's location;
- `start_working` and `start_attacking`, which a base agent always refuses.

The agent tells the simulation's registry two things: its location, and that it
is gone.

Files:

- `moving_object.dfy` (module `MovingObject`): the movement record as a value,
  with `start_moving`, `stop_moving` and `update_location`.
- `agent_model.dfy` (module `AgentModel`): the agent's state as a value, with
  one transition function per operation. It also holds the structured
  `describe` report and the model's two invariants: "health <= 0 iff not
  ALIVE", and "not ALIVE implies not moving", which is what the comment on
  `is_moving` (`Agent.cpp:38`, `Agent.cpp:42`) relies on when it says a dead
  agent "has already been set to not move".
- `agent.dfy` (module `Agents`): class `Agent`. Its fields change in place.
  Each method is proved to leave exactly the state its transition function in
  `AgentModel` gives. The registry calls are appended to a ghost log, `events`.
- `agent_runs.dfy` (module `AgentRuns`): sequences of calls on one agent. It
  proves, by induction over the run, what holds across every run.
- `agent_scenarios.dfy` (module `AgentScenarios`): concrete runs. These are the
  walk from (0,0) to (12,0), a fatal hit, a light hit, and three runs that
  break the call rules `AgentRuns` assumes.

## Behaviour as written

`lose_health` sets the state to DYING whenever health ends at or below zero,
whatever the state was before (`Agent.cpp:71-74`). `move_to` has no liveness
guard (`Agent.cpp:44-52`). The comment on `is_moving` (`Agent.cpp:38`,
`Agent.cpp:42`) takes for granted that an agent that is no longer alive has
been stopped for good, and the lifecycle reads as one-way ALIVE, DYING, DEAD,
DISAPPEARING. The code keeps those properties, and "health <= 0 iff not ALIVE",
only when its callers keep the rules below; the model follows the code and
proves each property under its rule:

- "health <= 0 iff not ALIVE" holds when every hit is non-negative
  (`RunKeepsDeadIffDown`). A negative hit on a DEAD agent breaks it
  (`NegativeHitRaisesTheDead`).
- "not ALIVE implies not moving" holds when `move_to` is only sent to ALIVE
  agents (`RunKeepsStillWhenDown`). `MoveToDyingAgentMoves` shows a DYING agent
  that moves.
- The lifecycle never goes back, and exactly one gone notification is sent per
  death, when `take_hit` is only sent to ALIVE agents (`RunNeverGoesBack`,
  `RunAnnouncesDeathOnce`). A hit on a DEAD agent makes it DYING again, and it
  is announced gone a second time (`HitOnDeadAgentAnnouncesTwice`).

## Model

| member | source | states |
|---|---|---|
| MovingObject.Create | Agent.cpp:22 | the embedded movement record starts at the given location with the given speed, not moving |
| MovingObject.StartMoving | Agent.cpp:51 | start_moving records the new destination and sets moving; location and speed are kept |
| MovingObject.StopMoving | Agent.cpp:58 | stop_moving clears moving and keeps location, destination and speed; on a record that is not moving it changes nothing |
| MovingObject.UpdateLocation | Agent.cpp:105 | returns true exactly when the record was moving and the destination was within one tick's reach; then location equals destination and it is not moving; when not moving, nothing changes; otherwise it is still moving, at the step point |
| AgentModel.Construct | Agent.cpp:15-24 | health 5, speed 5, ALIVE, standing still at the given location; both invariants hold |
| AgentModel.MoveTo | Agent.cpp:44-52 | a target equal to the location changes nothing; any other target makes the agent move there from where it stands, replacing any earlier destination; health and state are kept; an ALIVE consistent agent stays consistent |
| AgentModel.Stop | Agent.cpp:54-60 | afterwards the agent is not moving and is where it was; a standing agent is unchanged, so stop is idempotent; the invariants are kept |
| AgentModel.LoseHealth | Agent.cpp:69-79 | health drops by exactly the hit; above zero, state and movement are unchanged; at or below zero it is DYING and stopped in place, whatever the earlier state; a non-negative hit keeps both invariants |
| AgentModel.UpdateMovement | Agent.cpp:103-113 | state and health are kept; exactly one location notification is sent, carrying the location after the step, whether or not the agent moved; arrival puts the agent exactly on its destination and stops it |
| AgentModel.Update | Agent.cpp:82-99 | ALIVE does exactly what UpdateMovement does (one update_location step, arrival included) and stays ALIVE with one location notification; DYING becomes DEAD with exactly one gone notification; DEAD becomes DISAPPEARING with none; DISAPPEARING changes nothing; health is never touched; the invariants are kept |
| AgentModel.Describe | Agent.cpp:115-150 | the report names the agent and its location. For an ALIVE agent it gives health and either "stopped" or speed and destination. Otherwise it gives exactly which of dying, dead or disappearing the agent is |
| AgentModel.CannotWork | Agent.cpp:157-161 | the start_working error is the agent's name followed by ": Sorry, I can't work!" |
| AgentModel.CannotAttack | Agent.cpp:163-166 | the start_attacking error is the agent's name followed by ": Sorry, I can't attack!" |
| AgentRuns.Step | Agent.cpp:44-155 | one call keeps name and speed and sends only notifications naming the agent. It sends a gone notification exactly on DYING to DEAD. With hits only while ALIVE it moves the lifecycle forward by at most one state. Each rule keeps its invariant |
| AgentRuns.RunNamesTheAgent | Agent.cpp:89-112 | every notification of any run carries the agent's own name |
| AgentRuns.RunKeepsDeadIffDown | Agent.cpp:69-98 | with non-negative hits, health <= 0 iff not ALIVE holds after every run that starts with it |
| AgentRuns.RunKeepsStillWhenDown | Agent.cpp:44-98 | when move_to goes only to ALIVE agents, an agent that is not ALIVE is not moving after every run |
| AgentRuns.RunNeverGoesBack | Agent.cpp:69-98 | with hits only while ALIVE, the lifecycle state at the end of a run is never earlier than at its start |
| AgentRuns.RunAnnouncesDeathOnce | Agent.cpp:88-91 | with hits only while ALIVE, a run sends exactly one gone notification if it takes the agent from ALIVE or DYING to DEAD or later, and none otherwise |
| AgentRuns.ConstructedRunStaysConsistent | Agent.cpp:21-98 | from construction, with non-negative hits and move_to only while ALIVE, both invariants hold after every run |
| AgentScenarios.WalkArrivesOnThirdTick | Agent.cpp:103-113 | from (0,0) at speed 5 toward (12,0), with steps (5,0) and (10,0), arrival is reported on the third call, exactly on (12,0) |
| AgentScenarios.WalkReportsEachStep | Agent.cpp:103-113 | that walk through the agent sends three location notifications, (5,0), (10,0), (12,0), and ends ALIVE and still |
| AgentScenarios.FatalHitMidRoute | Agent.cpp:69-94 | a hit of 5 mid-route leaves health 0, DYING and stopped; the next tick gives DEAD and one gone notification; the one after gives DISAPPEARING |
| AgentScenarios.LightHitMidRoute | Agent.cpp:69-78 | a hit of 3 leaves health 2, ALIVE, with movement unchanged |
| AgentScenarios.HitOnDeadAgentAnnouncesTwice | Agent.cpp:71-91 | a hit on a DEAD agent breaks the only-while-ALIVE rule, and the run then sends two gone notifications |
| AgentScenarios.NegativeHitRaisesTheDead | Agent.cpp:71-73 | a negative hit on a DEAD agent gives health 3 while it stays DEAD, breaking health <= 0 iff not ALIVE |
| AgentScenarios.MoveToDyingAgentMoves | Agent.cpp:44-52 | move_to on a DYING agent makes it move, breaking "not ALIVE implies not moving" |
| Agents.Agent.constructor | Agent.cpp:21-27 | the new agent's fields are those of AgentModel.Construct, the invariant holds and no notification has been sent |
| Agents.Agent.GetLocation | Agent.cpp:34-37 | the location of the movement record |
| Agents.Agent.IsMoving | Agent.cpp:39-42 | the movement record's flag, which is false once a valid agent is not ALIVE |
| Agents.Agent.MoveTo | Agent.cpp:44-52 | the new fields are AgentModel.MoveTo of the old ones; no notification; the invariant is kept for an ALIVE agent |
| Agents.Agent.Stop | Agent.cpp:54-60 | the new fields are AgentModel.Stop of the old ones; no notification; the invariant is kept |
| Agents.Agent.TakeHit | Agent.cpp:62-66 | for any attacker, exactly what lose_health does; no notification; a non-negative hit keeps the invariant |
| Agents.Agent.LoseHealth | Agent.cpp:69-79 | the new fields are AgentModel.LoseHealth of the old ones; no notification; a non-negative hit keeps the invariant |
| Agents.Agent.Update | Agent.cpp:82-99 | the new fields and the appended notifications are those of AgentModel.Update; the invariant is kept |
| Agents.Agent.UpdateMovement | Agent.cpp:103-113 | the new fields and the one appended location notification are those of AgentModel.UpdateMovement |
| Agents.Agent.Describe | Agent.cpp:115-150 | the report built from the fields in the layout of Agent.cpp:119-149, ALIVE first and then each other state, equals AgentModel.Describe |
| Agents.Agent.BroadcastCurrentState | Agent.cpp:152-155 | appends one location notification with the current location; changes no field |
| Agents.Agent.StartWorking | Agent.cpp:157-161 | always refuses, with the agent's name and ": Sorry, I can't work!", and changes no state |
| Agents.Agent.StartAttacking | Agent.cpp:163-166 | always refuses, for any target, with the agent's name and ": Sorry, I can't attack!", and changes no state |

## Left out

- Console output (the status lines, the constructor and destructor messages, and the saving and restoring of output precision) is left out, because it is a side channel. `describe` returns a structured `Report` instead; the two-decimal rendering of speed is not modelled.
- The `Model` singleton is replaced by the ghost log `events`. `notify_location` and `notify_gone` become appended `Location` and `Gone` entries. What the registry does with them is outside the agent.
- AgentModel.LoseHealth: `health` and `attack_strength` are C++ `int`; the model uses unbounded integers, so the 32-bit overflow of `health -= attack_strength` (`Agent.cpp:71`), undefined behaviour in C++, is not modelled, and "health drops by exactly the hit" is promised for every input only in the model.
- The double-valued `speed` of the agent and of its movement record (`Agent.cpp:16`, `Agent.cpp:23`) is a `real`, exact and without rounding.
- Moving_object.cpp is not part of this model. Its header and its geometry, which works on doubles, are not part of this model. Points are pairs of reals. The arrival test compares the squared remaining distance with the squared speed, exactly, without rounding. The intermediate point of a step that does not arrive is a parameter (`advanced`) supplied by the caller. So the property that each non-arriving step shortens the remaining distance by exactly the speed is not stated.
- MovingObject.Create: the destination of a fresh record is set to its location. The initial value Moving_object.cpp gives it is not part of this model; it is never read while not moving.
- The destructor, `shared_ptr`/`weak_ptr` lifetime handling and the `Sim_object` base class are memory and identity plumbing. The name is an immutable field. The attacker of `take_hit` and the target of `start_attacking` are optional `Agent` references that are never read.
- Agents.Agent.StartWorking: the two `Structure` arguments are dropped, because the Structure type is not part of this model and the base agent ignores them.
- The thrown `Error` of `start_working` and `start_attacking` becomes a returned `Refused(message)` value.
- `is_alive()` is declared in Agent.h, which is not part of this model; it is taken to mean "state is ALIVE".
- The `default:` assertion in `describe` (`Agent.cpp:143-148`) cannot be reached: the state type has exactly four values.
