/**
 * Properties of the tasks over whole runs of ticks and across combinators.
 */
module TaskLaws {
  import opened Entities
  import opened Easing
  import opened Tasks
  import opened Driver

  /** Total of a run of elapsed times. */
  function Sum(ticks: seq<real>): real
  {
    if ticks == [] then 0.0 else ticks[0] + Sum(ticks[1..])
  }

  /** Starting from `acc`, some prefix of `ticks` brings the accumulator to `d` or more. */
  predicate Reaches(acc: real, ticks: seq<real>, d: real)
  {
    exists k :: 1 <= k <= |ticks| && acc + Sum(ticks[..k]) >= d
  }

  /** `Reaches` unrolled by one tick. */
  lemma ReachesStep(acc: real, ticks: seq<real>, d: real)
    requires ticks != []
    ensures Reaches(acc, ticks, d) <==> acc + ticks[0] >= d || Reaches(acc + ticks[0], ticks[1..], d)
  {
    forall k | 1 <= k <= |ticks|
      ensures acc + Sum(ticks[..k]) == acc + ticks[0] + Sum(ticks[1..][..k - 1])
    {
      assert ticks[..k][1..] == ticks[1..][..k - 1];
    }
    if acc + ticks[0] >= d {
      assert acc + Sum(ticks[..1]) >= d;
    }
    if Reaches(acc + ticks[0], ticks[1..], d) {
      var k :| 1 <= k <= |ticks[1..]| && acc + ticks[0] + Sum(ticks[1..][..k]) >= d;
      assert acc + Sum(ticks[..k + 1]) >= d;
    }
    if Reaches(acc, ticks, d) && acc + ticks[0] < d {
      var k :| 1 <= k <= |ticks| && acc + Sum(ticks[..k]) >= d;
      assert k != 1;
      assert acc + ticks[0] + Sum(ticks[1..][..k - 1]) >= d;
    }
  }

  /** Driving through `a` and then `b` is driving through `a + b`: ticks can be fed in any batches. */
  lemma {:induction false} DriveConcat(p: Plan, f: Frame, w: World, a: seq<real>, b: seq<real>)
    requires Valid(p, f) && Targets(p) <= w.Keys
    ensures var r := Drive(p, f, w, a);
      Drive(p, f, w, a + b) == Drive(p, r.frame, r.world, b)
    decreases |a|
  {
    if a != [] {
      var n := Next(p, f, w, a[0]);
      assert (a + b)[1..] == a[1..] + b;
      DriveConcat(p, n.frame, n.world, a[1..], b);
    } else {
      assert a + b == b;
    }
  }

  /** Once a task has returned, no run of ticks changes it or any entity. */
  lemma {:induction false} DriveAfterReturn(p: Plan, f: Frame, w: World, a: seq<real>, b: seq<real>)
    requires Valid(p, f) && Targets(p) <= w.Keys
    requires Drive(p, f, w, a).done
    ensures Drive(p, f, w, a + b) == Drive(p, f, w, a)
  {
    DriveConcat(p, f, w, a, b);
  }

  /**
   * A running delay reports done at the first tick that brings its
   * accumulator to its length or beyond, and never writes an entity.
   */
  lemma {:induction false} DelayRun(p: Plan, acc: real, w: World, ticks: seq<real>)
    requires p.Delay?
    ensures Drive(p, Timing(acc), w, ticks) ==
      if Reaches(acc, ticks, p.wait) then Outcome(Returned, w, true)
      else Outcome(Timing(acc + Sum(ticks)), w, false)
    decreases |ticks|
  {
    if ticks != [] {
      ReachesStep(acc, ticks, p.wait);
      assert Next(p, Timing(acc), w, ticks[0]) == Resume(p, Timing(acc), w, ticks[0]);
      if acc + ticks[0] < p.wait {
        assert Next(p, Timing(acc), w, ticks[0]) == Outcome(Timing(acc + ticks[0]), w, false);
        DelayRun(p, acc + ticks[0], w, ticks[1..]);
      } else {
        assert Next(p, Timing(acc), w, ticks[0]) == Outcome(Returned, w, true);
      }
    }
  }

  /**
   * A running move writes, after every tick, the blend from the position it
   * read when it started, at the progress of its accumulator; the tick that
   * completes it leaves the entity exactly on the destination. Nothing but
   * `x` and `y` of its own entity changes.
   */
  lemma {:induction false} MoveRun(p: Plan, acc: real, x0: real, y0: real, w: World, ticks: seq<real>)
    requires p.MoveTo? && p.entity in w && ticks != []
    ensures var r := Drive(p, Moving(acc, x0, y0), w, ticks);
      var en := p.entity;
      if Reaches(acc, ticks, p.duration) then
        r == Outcome(Returned, w[en := w[en].(x := p.dest.x, y := p.dest.y)], true)
      else
        var u := Progress(acc + Sum(ticks), p.duration);
        r == Outcome(Moving(acc + Sum(ticks), x0, y0),
                     w[en := w[en].(x := Lerp(x0, p.dest.x, u), y := Lerp(y0, p.dest.y, u))], false)
    decreases |ticks|
  {
    var en, t := p.entity, acc + ticks[0];
    ReachesStep(acc, ticks, p.duration);
    var u := Progress(t, p.duration);
    var w1 := w[en := w[en].(x := Lerp(x0, p.dest.x, u), y := Lerp(y0, p.dest.y, u))];
    assert Next(p, Moving(acc, x0, y0), w, ticks[0]) == Resume(p, Moving(acc, x0, y0), w, ticks[0]);
    assert Next(p, Moving(acc, x0, y0), w, ticks[0]).world == w1;
    if t < p.duration && ticks[1..] != [] {
      MoveRun(p, t, x0, y0, w1, ticks[1..]);
      var u' := Progress(t + Sum(ticks[1..]), p.duration);
      assert w1[en := w1[en].(x := Lerp(x0, p.dest.x, u'), y := Lerp(y0, p.dest.y, u'))]
          == w[en := w[en].(x := Lerp(x0, p.dest.x, u'), y := Lerp(y0, p.dest.y, u'))];
    }
  }

  /**
   * A running rotation: the same law on `rotation` alone, as a plain linear
   * blend with no wrapping of the angle, so any target (four half-turns and
   * more) is reached linearly.
   */
  lemma {:induction false} RotateRun(p: Plan, acc: real, a0: real, w: World, ticks: seq<real>)
    requires p.RotateTo? && p.entity in w && ticks != []
    ensures var r := Drive(p, Turning(acc, a0), w, ticks);
      var en := p.entity;
      if Reaches(acc, ticks, p.duration) then
        r == Outcome(Returned, w[en := w[en].(rotation := p.angle)], true)
      else
        r == Outcome(Turning(acc + Sum(ticks), a0),
                     w[en := w[en].(rotation := Lerp(a0, p.angle, Progress(acc + Sum(ticks), p.duration)))], false)
    decreases |ticks|
  {
    var en, t := p.entity, acc + ticks[0];
    ReachesStep(acc, ticks, p.duration);
    var w1 := w[en := w[en].(rotation := Lerp(a0, p.angle, Progress(t, p.duration)))];
    assert Next(p, Turning(acc, a0), w, ticks[0]) == Resume(p, Turning(acc, a0), w, ticks[0]);
    assert Next(p, Turning(acc, a0), w, ticks[0]).world == w1;
    if t < p.duration && ticks[1..] != [] {
      RotateRun(p, t, a0, w1, ticks[1..]);
      var v := Lerp(a0, p.angle, Progress(t + Sum(ticks[1..]), p.duration));
      assert w1[en := w1[en].(rotation := v)] == w[en := w[en].(rotation := v)];
    }
  }

  /** A running scale: the same law on `scale` alone. */
  lemma {:induction false} ScaleRun(p: Plan, acc: real, s0: real, w: World, ticks: seq<real>)
    requires p.ScaleTo? && p.entity in w && ticks != []
    ensures var r := Drive(p, Scaling(acc, s0), w, ticks);
      var en := p.entity;
      if Reaches(acc, ticks, p.duration) then
        r == Outcome(Returned, w[en := w[en].(scale := p.target)], true)
      else
        r == Outcome(Scaling(acc + Sum(ticks), s0),
                     w[en := w[en].(scale := Lerp(s0, p.target, Progress(acc + Sum(ticks), p.duration)))], false)
    decreases |ticks|
  {
    var en, t := p.entity, acc + ticks[0];
    ReachesStep(acc, ticks, p.duration);
    var w1 := w[en := w[en].(scale := Lerp(s0, p.target, Progress(t, p.duration)))];
    assert Next(p, Scaling(acc, s0), w, ticks[0]) == Resume(p, Scaling(acc, s0), w, ticks[0]);
    assert Next(p, Scaling(acc, s0), w, ticks[0]).world == w1;
    if t < p.duration && ticks[1..] != [] {
      ScaleRun(p, t, s0, w1, ticks[1..]);
      var v := Lerp(s0, p.target, Progress(t + Sum(ticks[1..]), p.duration));
      assert w1[en := w1[en].(scale := v)] == w[en := w[en].(scale := v)];
    }
  }

  /**
   * Start values are read at the first `next()`, from the world as it is
   * then; however the entity changes later, the interpolated field depends
   * only on that snapshot, the target and the accumulated time.
   */
  lemma InterpolationIgnoresCurrentValue(p: Plan, f: Frame, w1: World, w2: World, e: real)
    requires Valid(p, f) && Suspended(f)
    requires p.MoveTo? || p.RotateTo? || p.ScaleTo?
    requires p.entity in w1 && p.entity in w2
    ensures var r1, r2 := Next(p, f, w1, e).world[p.entity], Next(p, f, w2, e).world[p.entity];
      (p.MoveTo? ==> r1.x == r2.x && r1.y == r2.y) &&
      (p.RotateTo? ==> r1.rotation == r2.rotation) &&
      (p.ScaleTo? ==> r1.scale == r2.scale)
  {
    assert Next(p, f, w1, e) == Resume(p, f, w1, e);
    assert Next(p, f, w2, e) == Resume(p, f, w2, e);
  }

  /**
   * Starting an interpolating task reads the entity's current value as its
   * start value and accumulates nothing.
   */
  lemma StartReadsSnapshot(p: Plan, w: World, e: real)
    requires p.MoveTo? || p.RotateTo? || p.ScaleTo?
    requires p.entity in w
    ensures var f := Next(p, Created, w, e).frame;
      (p.MoveTo? ==> f == Moving(0.0, w[p.entity].x, w[p.entity].y)) &&
      (p.RotateTo? ==> f == Turning(0.0, w[p.entity].rotation)) &&
      (p.ScaleTo? ==> f == Scaling(0.0, w[p.entity].scale))
  {
  }

  /**
   * The loop of a parallel over children that have not started yet only
   * starts each of them: the elapsed time is ignored and no entity is written.
   */
  lemma {:induction false} SweepStartsFresh(p: Plan, kids: seq<Frame>, i: nat, w: World, e: real,
                                            frames: seq<Frame>, results: seq<bool>)
    requires p.Parallel? && |kids| == |p.children| && i <= |kids|
    requires |frames| == i && |results| == i
    requires forall j :: 0 <= j < |kids| ==> kids[j] == Created
    requires forall j :: 0 <= j < i ==>
      Valid(p.children[j], frames[j]) && !frames[j].Created? && (results[j] <==> frames[j].Returned?)
    requires Targets(p) <= w.Keys
    ensures var r := SweepFrom(p, kids, i, w, e, frames, results);
      r.world == w &&
      forall j :: i <= j < |kids| ==> ChildStart(p, j, w) == Outcome(r.frames[j], w, r.results[j])
    decreases |kids| - i
  {
    if i < |kids| {
      ChildTargets(p, i);
      var n := Next(p.children[i], kids[i], w, e);
      SweepStartsFresh(p, kids, i + 1, w, e, frames + [n.frame], results + [n.done]);
    }
  }

  /** `Start` of child `i` of a combinator, in a world that holds its targets. */
  function ChildStart(p: Plan, i: nat, w: World): (r: Outcome)
    requires p.Parallel? || p.Sequence?
    requires i < |p.children| && Targets(p) <= w.Keys
    ensures r.world == w
  {
    ChildTargets(p, i);
    Start(p.children[i], w)
  }

  /** `Next` of child `i` of a combinator, in a world that holds its targets. */
  function ChildNext(p: Plan, i: nat, f: Frame, w: World, e: real): (r: Outcome)
    requires p.Parallel? || p.Sequence?
    requires i < |p.children| && Valid(p.children[i], f) && Targets(p) <= w.Keys
    ensures r.world.Keys == w.Keys
  {
    ChildTargets(p, i);
    Next(p.children[i], f, w, e)
  }

  /**
   * The first tick a parallel receives after it was primed starts its
   * children, discarding the elapsed time: every child is left exactly as its
   * own `Start` leaves it, and the parallel is done only if all of them
   * finished on being started.
   */
  lemma ParallelFirstTick(p: Plan, w: World, e: real)
    requires p.Parallel? && Targets(p) <= w.Keys
    ensures var f := Start(p, w).frame;
      var r := Next(p, f, w, e);
      r.world == w &&
      (r.done <==> forall j :: 0 <= j < |p.children| ==> ChildStart(p, j, w).done) &&
      (!r.done ==>
         r.frame.Joined? &&
         forall j :: 0 <= j < |p.children| ==> r.frame.kids[j] == ChildStart(p, j, w).frame)
  {
    var f := Start(p, w).frame;
    SweepStartsFresh(p, f.kids, 0, w, e, [], []);
  }

  /** Every frame has returned. */
  predicate AllReturned(frames: seq<Frame>)
  {
    forall j :: 0 <= j < |frames| ==> frames[j].Returned?
  }

  /**
   * A parallel reports done exactly when every child's frame, after the
   * tick, has returned; a child that had returned before the tick is still
   * returned after it.
   */
  lemma ParallelDoneIffAllChildrenDone(p: Plan, kids: seq<Frame>, w: World, e: real)
    requires Valid(p, Joined(kids)) && Targets(p) <= w.Keys
    ensures var s := SweepFrom(p, kids, 0, w, e, [], []);
      var r := Next(p, Joined(kids), w, e);
      (r.done <==> AllReturned(s.frames)) &&
      (!r.done ==> r.frame == Joined(s.frames)) &&
      r.world == s.world &&
      forall j :: 0 <= j < |kids| && kids[j].Returned? ==> s.frames[j].Returned?
  {
    var s := SweepFrom(p, kids, 0, w, e, [], []);
    assert AllDone(s.results) <==> AllReturned(s.frames);
    assert Next(p, Joined(kids), w, e) == Resume(p, Joined(kids), w, e)
        == if AllDone(s.results) then Outcome(Returned, s.world, true) else Outcome(Joined(s.frames), s.world, false);
  }

  /** The loop of a two-child parallel, unrolled: the second child runs on the world the first left. */
  lemma SweepTwo(p: Plan, kids: seq<Frame>, w: World, e: real)
    requires p.Parallel? && |p.children| == 2 && Valid(p, Joined(kids)) && Targets(p) <= w.Keys
    ensures var n0 := ChildNext(p, 0, kids[0], w, e);
      var n1 := ChildNext(p, 1, kids[1], n0.world, e);
      SweepFrom(p, kids, 0, w, e, [], []) == Swept([n0.frame, n1.frame], n1.world, [n0.done, n1.done])
  {
    var n0 := ChildNext(p, 0, kids[0], w, e);
    var n1 := ChildNext(p, 1, kids[1], n0.world, e);
    assert SweepFrom(p, kids, 1, n0.world, e, [n0.frame], [n0.done])
        == Swept([n0.frame, n1.frame], n1.world, [n0.done, n1.done]) by {
      assert [n0.frame] + [n1.frame] == [n0.frame, n1.frame] && [n0.done] + [n1.done] == [n0.done, n1.done];
    }
    assert [] + [n0.frame] == [n0.frame] && [] + [n0.done] == [n0.done];
  }

  /** What one tick of a running move leaves in its entity. */
  lemma MoveWrites(p: Plan, t: real, x0: real, y0: real, w: World, e: real)
    requires p.MoveTo? && p.entity in w
    ensures var u := Progress(t + e, p.duration);
      Next(p, Moving(t, x0, y0), w, e).world[p.entity] == w[p.entity].(x := Lerp(x0, p.dest.x, u), y := Lerp(y0, p.dest.y, u))
  {
    assert Next(p, Moving(t, x0, y0), w, e) == Resume(p, Moving(t, x0, y0), w, e);
  }

  /**
   * Two children of a parallel that move the same entity in the same tick:
   * the children run in argument order, so the later one's write is what the
   * entity holds after the tick.
   */
  lemma ParallelLaterWriteWins(p: Plan, t0: real, x0: real, y0: real, t1: real, x1: real, y1: real, w: World, e: real)
    requires p.Parallel? && |p.children| == 2
    requires p.children[0].MoveTo? && p.children[1].MoveTo? && p.children[0].entity == p.children[1].entity
    requires p.children[1].entity in w && Targets(p) <= w.Keys
    ensures var b, kids := p.children[1], [Moving(t0, x0, y0), Moving(t1, x1, y1)];
      var u := Progress(t1 + e, b.duration);
      Valid(p, Joined(kids)) &&
      Next(p, Joined(kids), w, e).world[b.entity].x == Lerp(x1, b.dest.x, u) &&
      Next(p, Joined(kids), w, e).world[b.entity].y == Lerp(y1, b.dest.y, u)
  {
    var kids := [Moving(t0, x0, y0), Moving(t1, x1, y1)];
    var b := p.children[1];
    assert Valid(p, Joined(kids));
    SweepTwo(p, kids, w, e);
    var n0 := ChildNext(p, 0, kids[0], w, e);
    MoveWrites(b, t1, x1, y1, n0.world, e);
    assert Next(p, Joined(kids), w, e) == Resume(p, Joined(kids), w, e);
  }

  /**
   * In a running sequence only the current child can write: the children
   * entered after it finishes are only started, and starting writes nothing.
   * The sequence is done only if the current child is, and when the current
   * child is the last one, exactly then.
   */
  lemma SequenceStep(p: Plan, cur: nat, kid: Frame, w: World, e: real)
    requires Valid(p, Chained(cur, kid)) && Targets(p) <= w.Keys
    ensures var n := ChildNext(p, cur, kid, w, e);
      var r := Next(p, Chained(cur, kid), w, e);
      WritesOnly(w, r.world, Targets(p.children[cur])) &&
      (r.done ==> n.done) &&
      (cur == |p.children| - 1 ==> (r.done <==> n.done))
  {
    ChildTargets(p, cur);
    assert Next(p, Chained(cur, kid), w, e) == Resume(p, Chained(cur, kid), w, e);
  }

  /**
   * When the current child of a sequence finishes, the next one is started in
   * the same call, from the world the finished child left: the time that
   * overshot the finished child is not carried over.
   */
  lemma SequenceHandOff(p: Plan, cur: nat, kid: Frame, w: World, e: real)
    requires Valid(p, Chained(cur, kid)) && Targets(p) <= w.Keys
    requires cur + 1 < |p.children|
    ensures var n := ChildNext(p, cur, kid, w, e);
      n.done ==>
        var s := ChildStart(p, cur + 1, n.world);
        !s.done ==> Next(p, Chained(cur, kid), w, e) == Outcome(Chained(cur + 1, s.frame), n.world, false)
  {
    ChildTargets(p, cur);
    ChildTargets(p, cur + 1);
    assert Next(p, Chained(cur, kid), w, e) == Resume(p, Chained(cur, kid), w, e);
  }

  /** An empty sequence is done on its first `next()`, without effect. */
  lemma EmptySequenceDoneAtOnce(w: World, e: real)
    ensures Next(Sequence([]), Created, w, e) == Outcome(Returned, w, true)
  {
  }
}
