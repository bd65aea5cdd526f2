/** Sequences of calls on one agent, as the scheduler and the command
    dispatcher issue them, and what holds over every such run. */
module AgentRuns {
  import opened MovingObject
  import opened AgentModel

  /** One call on an agent: move_to, stop, take_hit, update (with the point the
      movement geometry produces for that tick) or broadcast_current_state. */
  datatype Order = GoTo(dest: Point) | Halt | Struck(amount: int) | Tick(advanced: Point) | Announce

  /** The number of gone notifications in a log. */
  function GoneCount(es: seq<Event>): (n: nat)
    ensures n <= |es|
  {
    if es == [] then 0 else (if es[0].Gone? then 1 else 0) + GoneCount(es[1..])
  }

  /** The rules a caller may keep, each of which makes one invariant hold. */
  datatype Rule =
    | NonNegativeHits      // every take_hit has a non-negative strength
    | MovesOnlyWhileAlive  // move_to is only issued to an ALIVE agent
    | HitsOnlyWhileAlive   // take_hit is only issued to an ALIVE agent

  predicate Obeys(rule: Rule, a: AgentData, o: Order) {
    match rule
    case NonNegativeHits => o.Struck? ==> o.amount >= 0
    case MovesOnlyWhileAlive => o.GoTo? ==> a.state == Alive
    case HitsOnlyWhileAlive => o.Struck? ==> a.state == Alive
  }

  /** One call and the notifications it sends. */
  function Step(a: AgentData, o: Order): (r: Effect)
    ensures r.agent.name == a.name && r.agent.speed == a.speed
    ensures forall e | e in r.events :: e.name == a.name
    ensures GoneCount(r.events) == if a.state == Dying && r.agent.state == Dead then 1 else 0
    ensures Obeys(HitsOnlyWhileAlive, a, o) ==> Rank(a.state) <= Rank(r.agent.state) <= Rank(a.state) + 1
    ensures Obeys(NonNegativeHits, a, o) && DeadIffDown(a) ==> DeadIffDown(r.agent)
    ensures Obeys(MovesOnlyWhileAlive, a, o) && StillWhenDown(a) ==> StillWhenDown(r.agent)
  {
    match o
    case GoTo(p) => Effect(MoveTo(a, p), [])
    case Halt => Effect(Stop(a), [])
    case Struck(n) => Effect(LoseHealth(a, n), [])
    case Tick(p) => Update(a, p)
    case Announce => Effect(a, [Location(a.name, a.motion.loc)])
  }

  /** The calls one after another; the log is every call's notifications in order. */
  function Run(a: AgentData, os: seq<Order>): Effect
    decreases |os|
  {
    if os == [] then Effect(a, [])
    else
      var first := Step(a, os[0]);
      var rest := Run(first.agent, os[1..]);
      Effect(rest.agent, first.events + rest.events)
  }

  /** A run is its first call followed by the run of the rest. */
  lemma RunCons(a: AgentData, o: Order, os: seq<Order>)
    ensures var first := Step(a, o);
            var rest := Run(first.agent, os);
            Run(a, [o] + os) == Effect(rest.agent, first.events + rest.events)
  {
  }

  /** Every call of the run, in the state it meets, keeps the rule. */
  predicate Follows(rule: Rule, a: AgentData, os: seq<Order>)
    decreases |os|
  {
    os == [] || (Obeys(rule, a, os[0]) && Follows(rule, Step(a, os[0]).agent, os[1..]))
  }

  lemma {:induction false} GoneCountAppend(xs: seq<Event>, ys: seq<Event>)
    ensures GoneCount(xs + ys) == GoneCount(xs) + GoneCount(ys)
  {
    if xs == [] {
      assert xs + ys == ys;
    } else {
      assert (xs + ys)[0] == xs[0];
      assert (xs + ys)[1..] == xs[1..] + ys;
      GoneCountAppend(xs[1..], ys);
    }
  }

  /** Every notification an agent sends carries its own name. */
  lemma {:induction false} RunNamesTheAgent(a: AgentData, os: seq<Order>)
    ensures Run(a, os).agent.name == a.name
    ensures forall e | e in Run(a, os).events :: e.name == a.name
    decreases |os|
  {
    if os != [] {
      RunNamesTheAgent(Step(a, os[0]).agent, os[1..]);
    }
  }

  /** With non-negative hits, health <= 0 iff not ALIVE holds after every run. */
  lemma {:induction false} RunKeepsDeadIffDown(a: AgentData, os: seq<Order>)
    requires DeadIffDown(a)
    requires Follows(NonNegativeHits, a, os)
    ensures DeadIffDown(Run(a, os).agent)
    decreases |os|
  {
    if os != [] {
      RunKeepsDeadIffDown(Step(a, os[0]).agent, os[1..]);
    }
  }

  /** When move_to goes only to ALIVE agents, an agent that is no longer alive
      never moves again. */
  lemma {:induction false} RunKeepsStillWhenDown(a: AgentData, os: seq<Order>)
    requires StillWhenDown(a)
    requires Follows(MovesOnlyWhileAlive, a, os)
    ensures StillWhenDown(Run(a, os).agent)
    decreases |os|
  {
    if os != [] {
      RunKeepsStillWhenDown(Step(a, os[0]).agent, os[1..]);
    }
  }

  /** When take_hit goes only to ALIVE agents, the lifecycle never goes back. */
  lemma {:induction false} RunNeverGoesBack(a: AgentData, os: seq<Order>)
    requires Follows(HitsOnlyWhileAlive, a, os)
    ensures Rank(a.state) <= Rank(Run(a, os).agent.state)
    decreases |os|
  {
    if os != [] {
      RunNeverGoesBack(Step(a, os[0]).agent, os[1..]);
    }
  }

  /** When take_hit goes only to ALIVE agents, a run sends exactly one gone
      notification if it takes the agent from ALIVE or DYING to DEAD or beyond,
      and none otherwise. */
  lemma {:induction false} RunAnnouncesDeathOnce(a: AgentData, os: seq<Order>)
    requires Follows(HitsOnlyWhileAlive, a, os)
    ensures GoneCount(Run(a, os).events) ==
      if Rank(a.state) <= 1 < Rank(Run(a, os).agent.state) then 1 else 0
    decreases |os|
  {
    if os != [] {
      var first := Step(a, os[0]);
      var rest := Run(first.agent, os[1..]);
      RunAnnouncesDeathOnce(first.agent, os[1..]);
      RunNeverGoesBack(first.agent, os[1..]);
      GoneCountAppend(first.events, rest.events);
    }
  }

  /** A consistent agent stays consistent when both rules on move_to and
      take_hit strength are kept; construction is where every agent starts. */
  lemma ConstructedRunStaysConsistent(name: string, loc: Point, os: seq<Order>)
    requires Follows(NonNegativeHits, Construct(name, loc), os)
    requires Follows(MovesOnlyWhileAlive, Construct(name, loc), os)
    ensures Consistent(Run(Construct(name, loc), os).agent)
  {
    RunKeepsDeadIffDown(Construct(name, loc), os);
    RunKeepsStillWhenDown(Construct(name, loc), os);
  }
}
