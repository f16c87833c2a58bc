/**
 * Worked runs of the driver on fresh entities: what a frame loop feeding
 * these elapsed times observes after each call.
 */
module Scenarios {
  import opened Entities
  import opened Easing
  import opened Tasks
  import opened Driver
  import opened TaskLaws

  /** Tick `k + 1` of four of `QuarterTicks`: a quarter of the way further, done on the fourth. */
  lemma QuarterStep(en: Entity, w: World, k: nat)
    requires k < 4 && en in w && w[en].x == 25.0 * k as real && w[en].y == 0.0
    ensures var p := MoveTo(en, Point(100.0, 0.0), 1000.0);
      var n := Next(p, Moving(250.0 * k as real, 0.0, 0.0), w, 250.0);
      n.frame == (if k == 3 then Returned else Moving(250.0 * (k + 1) as real, 0.0, 0.0)) &&
      n.world == w[en := w[en].(x := 25.0 * (k + 1) as real, y := 0.0)] && n.done == (k == 3)
  {
    var p := MoveTo(en, Point(100.0, 0.0), 1000.0);
    var f := Moving(250.0 * k as real, 0.0, 0.0);
    assert Next(p, f, w, 250.0) == Resume(p, f, w, 250.0);
    var u := Progress(250.0 * (k + 1) as real, 1000.0);
    assert u * 1000.0 == 250.0 * (k + 1) as real;
    assert Lerp(0.0, 100.0, u) == 25.0 * (k + 1) as real;
  }

  /**
   * `moveTo(e, {x: 100, y: 0}, 1000)` from the origin, fed four ticks of 250:
   * the entity passes 25, 50, 75 and lands on 100, done only on the fourth.
   */
  method QuarterTicks() returns (xs: seq<real>, ys: seq<real>, dones: seq<bool>)
    ensures xs == [25.0, 50.0, 75.0, 100.0]
    ensures ys == [0.0, 0.0, 0.0, 0.0]
    ensures dones == [false, false, false, true]
  {
    var en := new Entity();
    var c := new Coroutine(MoveTo(en, Point(100.0, 0.0), 1000.0), {en});
    xs, ys, dones := [], [], [];
    var k := 0;
    while k < 4
      invariant 0 <= k <= 4 && |xs| == k && |ys| == k && |dones| == k
      invariant c.Valid() && c.dom == {en} && c.plan == MoveTo(en, Point(100.0, 0.0), 1000.0)
      invariant k < 4 ==> c.frame == Moving(250.0 * k as real, 0.0, 0.0)
      invariant en.x == 25.0 * k as real && en.y == 0.0
      invariant forall j :: 0 <= j < k ==> xs[j] == 25.0 * (j + 1) as real && ys[j] == 0.0
      invariant forall j :: 0 <= j < k ==> dones[j] == (j == 3)
    {
      var d := QuarterTick(c, en, k);
      xs, ys, dones := xs + [en.x], ys + [en.y], dones + [d];
      k := k + 1;
    }
  }

  /** One call of the stepper of `QuarterTicks`. */
  method QuarterTick(c: Coroutine, en: Entity, k: nat) returns (d: bool)
    requires k < 4 && c.Valid() && c.dom == {en} && c.plan == MoveTo(en, Point(100.0, 0.0), 1000.0)
    requires c.frame == Moving(250.0 * k as real, 0.0, 0.0) && en.x == 25.0 * k as real && en.y == 0.0
    modifies c, en
    ensures c.Valid() && c.dom == {en} && c.plan == MoveTo(en, Point(100.0, 0.0), 1000.0)
    ensures k < 3 ==> c.frame == Moving(250.0 * (k + 1) as real, 0.0, 0.0)
    ensures en.x == 25.0 * (k + 1) as real && en.y == 0.0 && d == (k == 3)
  {
    assert Snapshot({en})[en] == PoseOf(en);
    QuarterStep(en, Snapshot({en}), k);
    d := c.Call(250.0);
    assert Snapshot({en})[en] == PoseOf(en);
  }

  /**
   * `sequence(delay(500), moveTo(e, {x: 10, y: 0}, 500))` fed 500 and 500:
   * after the first tick the entity has not moved and the sequence is not
   * done, the move having been started from where the entity stands; after
   * the second it sits on (10, 0) and the sequence is done.
   */
  lemma DelayThenMoveSteps(en: Entity, w: World)
    requires en in w
    ensures var p := Sequence([Delay(500.0), MoveTo(en, Point(10.0, 0.0), 500.0)]);
      var s := Start(p, w);
      var n1 := Next(p, s.frame, w, 500.0);
      var n2 := Next(p, n1.frame, n1.world, 500.0);
      Targets(p) == {en} &&
      s.frame == Chained(0, Timing(0.0)) &&
      n1 == Outcome(Chained(1, Moving(0.0, w[en].x, w[en].y)), w, false) &&
      n2 == Outcome(Returned, w[en := w[en].(x := 10.0, y := 0.0)], true)
  {
    var move := MoveTo(en, Point(10.0, 0.0), 500.0);
    var p := Sequence([Delay(500.0), move]);
    assert move in p.children;
    assert Start(p.children[0], w) == Outcome(Timing(0.0), w, false);
    assert Enter(p, 0, w) == Outcome(Chained(0, Timing(0.0)), w, false);
    assert Next(p.children[0], Timing(0.0), w, 500.0) == Outcome(Returned, w, true);
    assert Start(move, w) == Outcome(Moving(0.0, w[en].x, w[en].y), w, false);
    assert Enter(p, 1, w) == Outcome(Chained(1, Moving(0.0, w[en].x, w[en].y)), w, false);
    var w2 := w[en := w[en].(x := 10.0, y := 0.0)];
    assert Progress(500.0, 500.0) == 1.0;
    assert Next(move, Moving(0.0, w[en].x, w[en].y), w, 500.0) == Outcome(Returned, w2, true);
    assert Enter(p, 2, w2) == Outcome(Returned, w2, true);
  }

  method DelayThenMove(x0: real, y0: real) returns (first: Point, firstDone: bool, second: Point, secondDone: bool)
    ensures first == Point(x0, y0) && !firstDone
    ensures second == Point(10.0, 0.0) && secondDone
  {
    var en := new Entity();
    en.x, en.y := x0, y0;
    var p := Sequence([Delay(500.0), MoveTo(en, Point(10.0, 0.0), 500.0)]);
    DelayThenMoveSteps(en, Snapshot({en}));
    var c := new Coroutine(p, {en});
    firstDone := c.Call(500.0);
    assert Snapshot({en})[en] == PoseOf(en);
    first := Point(en.x, en.y);
    secondDone := c.Call(500.0);
    assert Snapshot({en})[en] == PoseOf(en);
    second := Point(en.x, en.y);
  }

  /**
   * Two chained moves of one entity: the second reads its start position
   * when the first has finished, not when it was created, so half-way
   * through it the entity is half-way along the second leg.
   */
  lemma ChainedMovesFirst(en: Entity, w: World)
    requires en in w && w[en].x == 50.0 && w[en].y == 50.0
    ensures var p := Sequence([MoveTo(en, Point(50.0, 550.0), 1000.0), MoveTo(en, Point(750.0, 550.0), 1000.0)]);
      var s := Start(p, w);
      Targets(p) == {en} &&
      s.frame == Chained(0, Moving(0.0, 50.0, 50.0)) &&
      Next(p, s.frame, w, 1000.0)
        == Outcome(Chained(1, Moving(0.0, 50.0, 550.0)), w[en := w[en].(x := 50.0, y := 550.0)], false)
  {
    var down, right := MoveTo(en, Point(50.0, 550.0), 1000.0), MoveTo(en, Point(750.0, 550.0), 1000.0);
    var p := Sequence([down, right]);
    SoleTarget(p, en, 0);
    var w1 := w[en := w[en].(x := 50.0, y := 550.0)];
    assert Start(down, w) == Outcome(Moving(0.0, 50.0, 50.0), w, false);
    assert Enter(p, 0, w) == Outcome(Chained(0, Moving(0.0, 50.0, 50.0)), w, false);
    assert Progress(1000.0, 1000.0) == 1.0;
    assert Next(down, Moving(0.0, 50.0, 50.0), w, 1000.0) == Resume(down, Moving(0.0, 50.0, 50.0), w, 1000.0);
    assert Next(down, Moving(0.0, 50.0, 50.0), w, 1000.0) == Outcome(Returned, w1, true);
    assert Start(right, w1) == Outcome(Moving(0.0, 50.0, 550.0), w1, false);
    assert Enter(p, 1, w1) == Outcome(Chained(1, Moving(0.0, 50.0, 550.0)), w1, false);
    assert Next(p, Chained(0, Moving(0.0, 50.0, 50.0)), w, 1000.0)
        == Resume(p, Chained(0, Moving(0.0, 50.0, 50.0)), w, 1000.0);
  }

  /** Second tick of the chained moves: half-way along the second leg. */
  lemma ChainedMovesSecond(en: Entity, w: World)
    requires en in w && w[en].x == 50.0 && w[en].y == 550.0
    ensures var p := Sequence([MoveTo(en, Point(50.0, 550.0), 1000.0), MoveTo(en, Point(750.0, 550.0), 1000.0)]);
      Targets(p) == {en} &&
      Next(p, Chained(1, Moving(0.0, 50.0, 550.0)), w, 500.0)
        == Outcome(Chained(1, Moving(500.0, 50.0, 550.0)), w[en := w[en].(x := 400.0, y := 550.0)], false)
  {
    var down, right := MoveTo(en, Point(50.0, 550.0), 1000.0), MoveTo(en, Point(750.0, 550.0), 1000.0);
    var p := Sequence([down, right]);
    SoleTarget(p, en, 0);
    assert Progress(500.0, 1000.0) == 0.5;
    assert Next(right, Moving(0.0, 50.0, 550.0), w, 500.0) == Resume(right, Moving(0.0, 50.0, 550.0), w, 500.0);
    assert Next(right, Moving(0.0, 50.0, 550.0), w, 500.0)
        == Outcome(Moving(500.0, 50.0, 550.0), w[en := w[en].(x := 400.0, y := 550.0)], false);
    assert Next(p, Chained(1, Moving(0.0, 50.0, 550.0)), w, 500.0)
        == Resume(p, Chained(1, Moving(0.0, 50.0, 550.0)), w, 500.0);
  }

  method ChainedMoves() returns (corner: Point, halfway: Point)
    ensures corner == Point(50.0, 550.0)
    ensures halfway == Point(400.0, 550.0)
  {
    var en := new Entity();
    en.x, en.y := 50.0, 50.0;
    var p := Sequence([MoveTo(en, Point(50.0, 550.0), 1000.0), MoveTo(en, Point(750.0, 550.0), 1000.0)]);
    ChainedMovesFirst(en, Snapshot({en}));
    var c := new Coroutine(p, {en});
    var _ := c.Call(1000.0);
    assert Snapshot({en})[en] == PoseOf(en);
    corner := Point(en.x, en.y);
    ChainedMovesSecond(en, Snapshot({en}));
    var _ := c.Call(500.0);
    assert Snapshot({en})[en] == PoseOf(en);
    halfway := Point(en.x, en.y);
  }

  /**
   * A sequence drops the time that overshoots a finished child: two delays
   * of 500 fed 600 and then 400 are not done, although 1000 has elapsed.
   */
  method OvershootDropped() returns (afterTwo: bool, afterThree: bool)
    ensures !afterTwo && afterThree
  {
    var c := new Coroutine(Sequence([Delay(500.0), Delay(500.0)]), {});
    var _ := c.Call(600.0);
    afterTwo := c.Call(400.0);
    afterThree := c.Call(100.0);
  }

  /**
   * The red entity's part of the demo: a rotation, a scale and a delayed
   * move, side by side. The first tick after priming only starts the
   * children and moves nothing; each later tick goes to every child with
   * the same elapsed time.
   */
  function RedDance(en: Entity, angle: real): (p: Plan)
    ensures Targets(p) == {en}
  {
    var mv := MoveTo(en, Point(300.0, 300.0), 500.0);
    var sq := Sequence([Delay(500.0), mv]);
    SoleTarget(sq, en, 1);
    var p := Parallel([RotateTo(en, angle, 1000.0), ScaleTo(en, 2.0, 1000.0), sq]);
    SoleTarget(p, en, 0);
    p
  }

  /** A combinator whose children write at most `en`, one of them `en`, writes exactly `en`. */
  lemma SoleTarget(p: Plan, en: Entity, i: nat)
    requires p.Parallel? || p.Sequence?
    requires forall c :: c in p.children ==> Targets(c) <= {en}
    requires i < |p.children| && en in Targets(p.children[i])
    ensures Targets(p) == {en}
  {
    assert p.children[i] in p.children;
  }

  /** The last turn of the loop of a three-child parallel. */
  lemma SweepLast(p: Plan, kids: seq<Frame>, w: World, e: real, f0: Frame, f1: Frame, r0: bool, r1: bool)
    requires p.Parallel? && |p.children| == 3 && Valid(p, Joined(kids)) && Targets(p) <= w.Keys
    requires Valid(p.children[0], f0) && !f0.Created? && (r0 <==> f0.Returned?)
    requires Valid(p.children[1], f1) && !f1.Created? && (r1 <==> f1.Returned?)
    ensures var n2 := ChildNext(p, 2, kids[2], w, e);
      SweepFrom(p, kids, 2, w, e, [f0, f1], [r0, r1]) == Swept([f0, f1, n2.frame], n2.world, [r0, r1, n2.done])
  {
    var n2 := ChildNext(p, 2, kids[2], w, e);
    assert [f0, f1] + [n2.frame] == [f0, f1, n2.frame] && [r0, r1] + [n2.done] == [r0, r1, n2.done];
  }

  /** The middle turn and the last of the loop of a three-child parallel. */
  lemma SweepMiddle(p: Plan, kids: seq<Frame>, w: World, e: real, f0: Frame, r0: bool)
    requires p.Parallel? && |p.children| == 3 && Valid(p, Joined(kids)) && Targets(p) <= w.Keys
    requires Valid(p.children[0], f0) && !f0.Created? && (r0 <==> f0.Returned?)
    ensures var n1 := ChildNext(p, 1, kids[1], w, e);
      var n2 := ChildNext(p, 2, kids[2], n1.world, e);
      SweepFrom(p, kids, 1, w, e, [f0], [r0]) == Swept([f0, n1.frame, n2.frame], n2.world, [r0, n1.done, n2.done])
  {
    var n1 := ChildNext(p, 1, kids[1], w, e);
    SweepLast(p, kids, n1.world, e, f0, n1.frame, r0, n1.done);
    assert [f0] + [n1.frame] == [f0, n1.frame] && [r0] + [n1.done] == [r0, n1.done];
  }

  /** The loop of a three-child parallel, unrolled. */
  lemma SweepThree(p: Plan, kids: seq<Frame>, w: World, e: real)
    requires p.Parallel? && |p.children| == 3 && Valid(p, Joined(kids)) && Targets(p) <= w.Keys
    ensures var n0 := ChildNext(p, 0, kids[0], w, e);
      var n1 := ChildNext(p, 1, kids[1], n0.world, e);
      var n2 := ChildNext(p, 2, kids[2], n1.world, e);
      SweepFrom(p, kids, 0, w, e, [], [])
        == Swept([n0.frame, n1.frame, n2.frame], n2.world, [n0.done, n1.done, n2.done])
  {
    var n0 := ChildNext(p, 0, kids[0], w, e);
    SweepMiddle(p, kids, n0.world, e, n0.frame, n0.done);
    assert [] + [n0.frame] == [n0.frame] && [] + [n0.done] == [n0.done];
  }

  /** One tick of a three-child parallel, given what each child's `next(e)` gives in turn. */
  lemma ThreeWayTick(p: Plan, kids: seq<Frame>, w: World, e: real, o0: Outcome, o1: Outcome, o2: Outcome)
    requires p.Parallel? && |p.children| == 3 && Valid(p, Joined(kids)) && Targets(p) <= w.Keys
    requires ChildNext(p, 0, kids[0], w, e) == o0
    requires ChildNext(p, 1, kids[1], o0.world, e) == o1
    requires ChildNext(p, 2, kids[2], o1.world, e) == o2
    ensures Next(p, Joined(kids), w, e)
         == if o0.done && o1.done && o2.done then Outcome(Returned, o2.world, true)
            else Outcome(Joined([o0.frame, o1.frame, o2.frame]), o2.world, false)
  {
    SweepThree(p, kids, w, e);
    assert AllDone([o0.done, o1.done, o2.done]) <==> o0.done && o1.done && o2.done;
    assert Next(p, Joined(kids), w, e) == Resume(p, Joined(kids), w, e);
  }

  /** First tick of `RedDance`: every child is started, the elapsed time is discarded. */
  lemma RedDanceFirstTick(p: Plan, en: Entity, w: World, angle: real)
    requires IsRedDance(p, en, angle) && en in w && w[en] == Pose(0.0, 0.0, 0.0, 1.0)
    ensures Next(p, Start(p, w).frame, w, 250.0)
         == Outcome(Joined([Turning(0.0, 0.0), Scaling(0.0, 1.0), Chained(0, Timing(0.0))]), w, false)
  {
    var sq := p.children[2];
    var none := [Created, Created, Created];
    assert Start(p, w).frame == Joined(none);
    assert Targets(sq) <= w.Keys by {
      ChildTargets(p, 2);
    }
    assert Start(sq.children[0], w) == Outcome(Timing(0.0), w, false);
    assert Enter(sq, 0, w) == Outcome(Chained(0, Timing(0.0)), w, false);
    assert Next(p.children[0], Created, w, 250.0) == Outcome(Turning(0.0, 0.0), w, false);
    assert Next(p.children[1], Created, w, 250.0) == Outcome(Scaling(0.0, 1.0), w, false);
    assert Next(sq, Created, w, 250.0) == Outcome(Chained(0, Timing(0.0)), w, false);
    SweepThree(p, none, w, 250.0);
  }

  /** The rotation child of `RedDance` half-way through, then finished. */
  lemma RedDanceRotation(en: Entity, w: World, angle: real)
    requires en in w
    ensures var r := RotateTo(en, angle, 1000.0);
      Next(r, Turning(0.0, 0.0), w, 500.0)
        == Outcome(Turning(500.0, 0.0), w[en := w[en].(rotation := angle / 2.0)], false) &&
      Next(r, Turning(500.0, 0.0), w, 500.0) == Outcome(Returned, w[en := w[en].(rotation := angle)], true)
  {
    var r := RotateTo(en, angle, 1000.0);
    assert Next(r, Turning(0.0, 0.0), w, 500.0) == Resume(r, Turning(0.0, 0.0), w, 500.0);
    assert Next(r, Turning(500.0, 0.0), w, 500.0) == Resume(r, Turning(500.0, 0.0), w, 500.0);
    assert Progress(500.0, 1000.0) == 0.5 && Progress(1000.0, 1000.0) == 1.0;
  }

  /** The scale child of `RedDance` half-way through, then finished. */
  lemma RedDanceScale(en: Entity, w: World)
    requires en in w
    ensures var s := ScaleTo(en, 2.0, 1000.0);
      Next(s, Scaling(0.0, 1.0), w, 500.0) == Outcome(Scaling(500.0, 1.0), w[en := w[en].(scale := 1.5)], false) &&
      Next(s, Scaling(500.0, 1.0), w, 500.0) == Outcome(Returned, w[en := w[en].(scale := 2.0)], true)
  {
    var s := ScaleTo(en, 2.0, 1000.0);
    assert Next(s, Scaling(0.0, 1.0), w, 500.0) == Resume(s, Scaling(0.0, 1.0), w, 500.0);
    assert Next(s, Scaling(500.0, 1.0), w, 500.0) == Resume(s, Scaling(500.0, 1.0), w, 500.0);
    assert Progress(500.0, 1000.0) == 0.5 && Progress(1000.0, 1000.0) == 1.0;
  }

  /** The delayed move of `RedDance`: the delay ends on the second tick, the move on the third. */
  lemma RedDanceDelayedMove(en: Entity, w: World)
    requires en in w && w[en].x == 0.0 && w[en].y == 0.0
    ensures var sq := Sequence([Delay(500.0), MoveTo(en, Point(300.0, 300.0), 500.0)]);
      Targets(sq) == {en} &&
      Next(sq, Chained(0, Timing(0.0)), w, 500.0) == Outcome(Chained(1, Moving(0.0, 0.0, 0.0)), w, false) &&
      Next(sq, Chained(1, Moving(0.0, 0.0, 0.0)), w, 500.0)
        == Outcome(Returned, w[en := w[en].(x := 300.0, y := 300.0)], true)
  {
    var mv := MoveTo(en, Point(300.0, 300.0), 500.0);
    var sq := Sequence([Delay(500.0), mv]);
    SoleTarget(sq, en, 1);
    var w' := w[en := w[en].(x := 300.0, y := 300.0)];
    assert Next(sq.children[0], Timing(0.0), w, 500.0) == Resume(sq.children[0], Timing(0.0), w, 500.0);
    assert Start(mv, w) == Outcome(Moving(0.0, 0.0, 0.0), w, false);
    assert Enter(sq, 1, w) == Outcome(Chained(1, Moving(0.0, 0.0, 0.0)), w, false);
    assert Next(sq, Chained(0, Timing(0.0)), w, 500.0) == Resume(sq, Chained(0, Timing(0.0)), w, 500.0);
    assert Progress(500.0, 500.0) == 1.0;
    assert Next(mv, Moving(0.0, 0.0, 0.0), w, 500.0) == Resume(mv, Moving(0.0, 0.0, 0.0), w, 500.0);
    assert Resume(mv, Moving(0.0, 0.0, 0.0), w, 500.0) == Outcome(Returned, w', true);
    assert Enter(sq, 2, w') == Outcome(Returned, w', true);
    assert Next(sq, Chained(1, Moving(0.0, 0.0, 0.0)), w, 500.0) == Resume(sq, Chained(1, Moving(0.0, 0.0, 0.0)), w, 500.0);
  }

  /** Writing an entity twice leaves only the second write. */
  lemma Overwrite(w: World, en: Entity, a: Pose, b: Pose)
    ensures w[en := a][en := b] == w[en := b]
  {
  }

  /** `p` is made of the parts of `RedDance`. */
  predicate IsRedDance(p: Plan, en: Entity, angle: real)
  {
    p.Parallel? && |p.children| == 3 && Targets(p) == {en} &&
    p.children[0] == RotateTo(en, angle, 1000.0) && p.children[1] == ScaleTo(en, 2.0, 1000.0) &&
    p.children[2] == Sequence([Delay(500.0), MoveTo(en, Point(300.0, 300.0), 500.0)])
  }

  lemma RedDanceShape(en: Entity, angle: real)
    ensures IsRedDance(RedDance(en, angle), en, angle)
  {
  }

  /** The frames `RedDance` is suspended in between the ticks. */
  lemma RedDanceFrames(p: Plan, en: Entity, angle: real)
    requires IsRedDance(p, en, angle)
    ensures Valid(p, Joined([Turning(0.0, 0.0), Scaling(0.0, 1.0), Chained(0, Timing(0.0))]))
    ensures Valid(p, Joined([Turning(500.0, 0.0), Scaling(500.0, 1.0), Chained(1, Moving(0.0, 0.0, 0.0))]))
  {
    assert Valid(p.children[2], Chained(0, Timing(0.0))) && Valid(p.children[2], Chained(1, Moving(0.0, 0.0, 0.0)));
  }

  /** What the rotation and the scale of `RedDance` give on the second tick, in turn. */
  lemma RedDanceSecondTickChildren(p: Plan, en: Entity, w: World, angle: real)
    requires IsRedDance(p, en, angle) && en in w && w[en] == Pose(0.0, 0.0, 0.0, 1.0)
    ensures var wa := w[en := Pose(0.0, 0.0, angle / 2.0, 1.0)];
      ChildNext(p, 0, Turning(0.0, 0.0), w, 500.0) == Outcome(Turning(500.0, 0.0), wa, false) &&
      ChildNext(p, 1, Scaling(0.0, 1.0), wa, 500.0)
        == Outcome(Scaling(500.0, 1.0), w[en := Pose(0.0, 0.0, angle / 2.0, 1.5)], false)
  {
    var wa := w[en := Pose(0.0, 0.0, angle / 2.0, 1.0)];
    RedDanceRotation(en, w, angle);
    RedDanceScale(en, wa);
    Overwrite(w, en, Pose(0.0, 0.0, angle / 2.0, 1.0), Pose(0.0, 0.0, angle / 2.0, 1.5));
  }

  /** The delayed move of `RedDance` on the second tick: the delay ends and the move starts. */
  lemma RedDanceSecondTickMove(p: Plan, en: Entity, w: World, angle: real)
    requires IsRedDance(p, en, angle) && en in w && w[en].x == 0.0 && w[en].y == 0.0
    ensures ChildNext(p, 2, Chained(0, Timing(0.0)), w, 500.0) == Outcome(Chained(1, Moving(0.0, 0.0, 0.0)), w, false)
  {
    RedDanceDelayedMove(en, w);
  }

  /** Second tick: half-way for the rotation and the scale; the delay ends and the move starts. */
  lemma RedDanceSecondTick(p: Plan, en: Entity, w: World, angle: real)
    requires IsRedDance(p, en, angle) && en in w && w[en] == Pose(0.0, 0.0, 0.0, 1.0)
    ensures var k0 := [Turning(0.0, 0.0), Scaling(0.0, 1.0), Chained(0, Timing(0.0))];
      Valid(p, Joined(k0)) &&
      Next(p, Joined(k0), w, 500.0)
        == Outcome(Joined([Turning(500.0, 0.0), Scaling(500.0, 1.0), Chained(1, Moving(0.0, 0.0, 0.0))]),
                   w[en := Pose(0.0, 0.0, angle / 2.0, 1.5)], false)
  {
    var k0 := [Turning(0.0, 0.0), Scaling(0.0, 1.0), Chained(0, Timing(0.0))];
    var wa := w[en := Pose(0.0, 0.0, angle / 2.0, 1.0)];
    var wb := w[en := Pose(0.0, 0.0, angle / 2.0, 1.5)];
    RedDanceFrames(p, en, angle);
    RedDanceSecondTickChildren(p, en, w, angle);
    RedDanceSecondTickMove(p, en, wb, angle);
    ThreeWayTick(p, k0, w, 500.0, Outcome(Turning(500.0, 0.0), wa, false), Outcome(Scaling(500.0, 1.0), wb, false),
                 Outcome(Chained(1, Moving(0.0, 0.0, 0.0)), wb, false));
  }

  /** What each child of `RedDance` gives on the third tick: each lands on its target. */
  lemma RedDanceThirdTickChildren(p: Plan, en: Entity, w: World, angle: real)
    requires IsRedDance(p, en, angle) && en in w && w[en] == Pose(0.0, 0.0, angle / 2.0, 1.5)
    ensures var wc := w[en := Pose(0.0, 0.0, angle, 1.5)];
      var wd := w[en := Pose(0.0, 0.0, angle, 2.0)];
      ChildNext(p, 0, Turning(500.0, 0.0), w, 500.0) == Outcome(Returned, wc, true) &&
      ChildNext(p, 1, Scaling(500.0, 1.0), wc, 500.0) == Outcome(Returned, wd, true) &&
      ChildNext(p, 2, Chained(1, Moving(0.0, 0.0, 0.0)), wd, 500.0)
        == Outcome(Returned, w[en := Pose(300.0, 300.0, angle, 2.0)], true)
  {
    var wc := w[en := Pose(0.0, 0.0, angle, 1.5)];
    var wd := w[en := Pose(0.0, 0.0, angle, 2.0)];
    RedDanceRotation(en, w, angle);
    RedDanceScale(en, wc);
    Overwrite(w, en, Pose(0.0, 0.0, angle, 1.5), Pose(0.0, 0.0, angle, 2.0));
    RedDanceDelayedMove(en, wd);
    Overwrite(w, en, Pose(0.0, 0.0, angle, 2.0), Pose(300.0, 300.0, angle, 2.0));
  }

  /** Third tick: every child completes on its target and the parallel returns. */
  lemma RedDanceThirdTick(p: Plan, en: Entity, w: World, angle: real)
    requires IsRedDance(p, en, angle) && en in w && w[en] == Pose(0.0, 0.0, angle / 2.0, 1.5)
    ensures var k1 := [Turning(500.0, 0.0), Scaling(500.0, 1.0), Chained(1, Moving(0.0, 0.0, 0.0))];
      Valid(p, Joined(k1)) &&
      Next(p, Joined(k1), w, 500.0) == Outcome(Returned, w[en := Pose(300.0, 300.0, angle, 2.0)], true)
  {
    var k1 := [Turning(500.0, 0.0), Scaling(500.0, 1.0), Chained(1, Moving(0.0, 0.0, 0.0))];
    RedDanceFrames(p, en, angle);
    RedDanceThirdTickChildren(p, en, w, angle);
    ThreeWayTick(p, k1, w, 500.0,
                 Outcome(Returned, w[en := Pose(0.0, 0.0, angle, 1.5)], true),
                 Outcome(Returned, w[en := Pose(0.0, 0.0, angle, 2.0)], true),
                 Outcome(Returned, w[en := Pose(300.0, 300.0, angle, 2.0)], true));
  }

  /**
   * The red entity's part of the demo's big parallel: a rotation, a scale
   * and a delayed move of one entity, driven by ticks of 250, 500 and 500.
   * Each task writes its own fields, so all three effects combine.
   */
  method ParallelOnOneEntity(angle: real) returns (start: Pose, mid: Pose, end: Pose, dones: seq<bool>)
    ensures start == Pose(0.0, 0.0, 0.0, 1.0)
    ensures mid == Pose(0.0, 0.0, angle / 2.0, 1.5)
    ensures end == Pose(300.0, 300.0, angle, 2.0)
    ensures dones == [false, false, true]
  {
    var en := new Entity();
    var p := RedDance(en, angle);
    RedDanceShape(en, angle);
    RedDanceFirstTick(p, en, Snapshot({en}), angle);
    var c := new Coroutine(p, {en});
    var d0 := c.Call(250.0);
    assert Snapshot({en})[en] == PoseOf(en);
    start := PoseOf(en);
    RedDanceSecondTick(p, en, Snapshot({en}), angle);
    var d1 := c.Call(500.0);
    assert Snapshot({en})[en] == PoseOf(en);
    mid := PoseOf(en);
    RedDanceThirdTick(p, en, Snapshot({en}), angle);
    var d2 := c.Call(500.0);
    assert Snapshot({en})[en] == PoseOf(en);
    end := PoseOf(en);
    dones := [d0, d1, d2];
  }
}
