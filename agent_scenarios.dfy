/** Concrete runs: a walk from (0,0) to (12,0), a fatal hit and a light hit,
    and three runs outside the rules of module AgentRuns that show what each
    rule is for. */
module AgentScenarios {
  import opened MovingObject
  import opened AgentModel
  import opened AgentRuns

  const ORIGIN := Point(0.0, 0.0)
  const TARGET := Point(12.0, 0.0)
  const BOB := Construct("Bob", ORIGIN)

  /** The movement record alone: from (0,0) at speed 5 toward (12,0), the
      geometry's steps are (5,0) and (10,0), and arrival is reported on the
      third call, exactly on the destination. */
  lemma WalkArrivesOnThirdTick()
    ensures var m0 := StartMoving(Create(ORIGIN, DEFAULT_SPEED), TARGET);
            var t1 := UpdateLocation(m0, Point(5.0, 0.0));
            var t2 := UpdateLocation(t1.motion, Point(10.0, 0.0));
            var t3 := UpdateLocation(t2.motion, Point(15.0, 0.0));
            && !t1.arrived && t1.motion.loc == Point(5.0, 0.0)
            && !t2.arrived && t2.motion.loc == Point(10.0, 0.0)
            && t3.arrived && t3.motion.loc == TARGET && !t3.motion.moving
  {
  }

  /** The same walk through the agent: three location notifications. */
  lemma WalkReportsEachStep()
    ensures var r := Run(BOB, [GoTo(TARGET), Tick(Point(5.0, 0.0)), Tick(Point(10.0, 0.0)), Tick(Point(15.0, 0.0))]);
            && r.agent.state == Alive && r.agent.motion.loc == TARGET && !r.agent.motion.moving
            && r.events == [Location("Bob", Point(5.0, 0.0)), Location("Bob", Point(10.0, 0.0)), Location("Bob", TARGET)]
  {
    var a1 := Step(BOB, GoTo(TARGET)).agent;
    var a2 := Step(a1, Tick(Point(5.0, 0.0))).agent;
    var a3 := Step(a2, Tick(Point(10.0, 0.0))).agent;
    assert a3.motion.loc == Point(10.0, 0.0) && a3.motion.moving;
    RunCons(a3, Tick(Point(15.0, 0.0)), []);
    RunCons(a2, Tick(Point(10.0, 0.0)), [Tick(Point(15.0, 0.0))]);
    RunCons(a1, Tick(Point(5.0, 0.0)), [Tick(Point(10.0, 0.0)), Tick(Point(15.0, 0.0))]);
    RunCons(BOB, GoTo(TARGET), [Tick(Point(5.0, 0.0)), Tick(Point(10.0, 0.0)), Tick(Point(15.0, 0.0))]);
  }

  /** A hit of 5 mid-route: health 0, DYING and stopped at once; the next tick
      makes it DEAD with one gone notification; the one after, DISAPPEARING. */
  lemma FatalHitMidRoute()
    ensures var a := Run(BOB, [GoTo(TARGET), Struck(5)]).agent;
            && a.health == 0 && a.state == Dying && !a.motion.moving && a.motion.loc == ORIGIN
            && Run(a, [Tick(ORIGIN)]) == Effect(a.(state := Dead), [Gone("Bob")])
            && Run(a, [Tick(ORIGIN), Tick(ORIGIN)]).agent.state == Disappearing
            && Run(a, [Tick(ORIGIN), Tick(ORIGIN)]).events == [Gone("Bob")]
  {
    var a1 := Step(BOB, GoTo(TARGET)).agent;
    RunCons(a1, Struck(5), []);
    RunCons(BOB, GoTo(TARGET), [Struck(5)]);
    var a := Step(a1, Struck(5)).agent;
    RunCons(a, Tick(ORIGIN), []);
    RunCons(a.(state := Dead), Tick(ORIGIN), []);
    RunCons(a, Tick(ORIGIN), [Tick(ORIGIN)]);
  }

  /** A hit of 3: health 2, still ALIVE, still heading for the same place. */
  lemma LightHitMidRoute()
    ensures var before := Run(BOB, [GoTo(TARGET)]).agent;
            var after := Run(before, [Struck(3)]).agent;
            after == before.(health := 2) && after.state == Alive && after.motion.moving
  {
  }

  /** lose_health as written: a hit on a DEAD agent sends it back to DYING, so
      the next tick announces its death a second time. */
  lemma HitOnDeadAgentAnnouncesTwice()
    ensures var os := [Struck(5), Tick(ORIGIN), Struck(0), Tick(ORIGIN)];
            && !Follows(HitsOnlyWhileAlive, BOB, os)
            && Run(BOB, os).events == [Gone("Bob"), Gone("Bob")]
            && GoneCount(Run(BOB, os).events) == 2
  {
    var a1 := Step(BOB, Struck(5)).agent;
    var a2 := Step(a1, Tick(ORIGIN)).agent;
    var a3 := Step(a2, Struck(0)).agent;
    assert a2.state == Dead && a3.state == Dying;
    RunCons(a3, Tick(ORIGIN), []);
    RunCons(a2, Struck(0), [Tick(ORIGIN)]);
    RunCons(a1, Tick(ORIGIN), [Struck(0), Tick(ORIGIN)]);
    RunCons(BOB, Struck(5), [Tick(ORIGIN), Struck(0), Tick(ORIGIN)]);
    assert [Struck(5), Tick(ORIGIN), Struck(0), Tick(ORIGIN)][1..] == [Tick(ORIGIN), Struck(0), Tick(ORIGIN)];
    assert [Tick(ORIGIN), Struck(0), Tick(ORIGIN)][1..] == [Struck(0), Tick(ORIGIN)];
    assert [Gone("Bob"), Gone("Bob")][1..] == [Gone("Bob")];
    assert !Follows(HitsOnlyWhileAlive, a2, [Struck(0), Tick(ORIGIN)]);
    assert !Follows(HitsOnlyWhileAlive, a1, [Tick(ORIGIN), Struck(0), Tick(ORIGIN)]);
  }

  /** A negative hit on a DEAD agent raises its health above zero while it
      stays DEAD. */
  lemma NegativeHitRaisesTheDead()
    ensures var a := Run(BOB, [Struck(5), Tick(ORIGIN), Struck(-3)]).agent;
            a.state == Dead && a.health == 3 && !DeadIffDown(a)
  {
    var a1 := Step(BOB, Struck(5)).agent;
    var a2 := Step(a1, Tick(ORIGIN)).agent;
    RunCons(a2, Struck(-3), []);
    RunCons(a1, Tick(ORIGIN), [Struck(-3)]);
    RunCons(BOB, Struck(5), [Tick(ORIGIN), Struck(-3)]);
  }

  /** move_to has no liveness guard: a DYING agent told to move is moving. */
  lemma MoveToDyingAgentMoves()
    ensures var a := Run(BOB, [Struck(5), GoTo(TARGET)]).agent;
            a.state == Dying && a.motion.moving && !StillWhenDown(a)
  {
    var a1 := Step(BOB, Struck(5)).agent;
    RunCons(a1, GoTo(TARGET), []);
    RunCons(BOB, Struck(5), [GoTo(TARGET)]);
  }
}
