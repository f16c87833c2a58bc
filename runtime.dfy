/**
 * The generator bodies as imperative code over `Entity` objects. Each method
 * performs one `next()` and is proved to have exactly the effect that the
 * function of the same role in `Tasks` gives, on the frame, on the `done`
 * flag and on every entity in `dom`.
 */
module Runtime {
  import opened Entities
  import opened Easing
  import opened Tasks

  /**
   * Run a fresh body up to its first `yield`. Reads start values, writes
   * nothing (so it has no `modifies` clause).
   */
  method StartTask(p: Plan, ghost dom: set<Entity>) returns (f: Frame, done: bool)
    requires Targets(p) <= dom
    ensures var r := Start(p, Snapshot(dom)); f == r.frame && done == r.done
    decreases p, 1
  {
    match p
    case Delay(_) =>
      f, done := Timing(0.0), false;
    case MoveTo(en, _, _) =>
      f, done := Moving(0.0, en.x, en.y), false;
    case RotateTo(en, _, _) =>
      f, done := Turning(0.0, en.rotation), false;
    case ScaleTo(en, _, _) =>
      f, done := Scaling(0.0, en.scale), false;
    case Parallel(cs) =>
      f, done := Joined(seq(|cs|, _ => Created)), false;
    case Sequence(_) =>
      f, done := EnterFrom(p, 0, dom);
  }

  /** The `for` loop of a sequence from child `i` on, each child entered by `yield*`. */
  method EnterFrom(p: Plan, i: nat, ghost dom: set<Entity>) returns (f: Frame, done: bool)
    requires p.Sequence? && i <= |p.children| && Targets(p) <= dom
    ensures var r := Enter(p, i, Snapshot(dom)); f == r.frame && done == r.done
    decreases p, 0, 0
  {
    var k := i;
    while k < |p.children|
      invariant i <= k <= |p.children|
      invariant Enter(p, k, Snapshot(dom)) == Enter(p, i, Snapshot(dom))
    {
      ChildTargets(p, k);
      var g, d := StartTask(p.children[k], dom);
      if !d {
        return Chained(k, g), false;
      }
      k := k + 1;
    }
    return Returned, true;
  }

  /** `generator.next(e)` on a task in any state. */
  method NextTask(p: Plan, f: Frame, e: real, ghost dom: set<Entity>) returns (f': Frame, done: bool)
    requires Valid(p, f) && Targets(p) <= dom
    modifies Targets(p)
    ensures var r := Next(p, f, old(Snapshot(dom)), e);
      f' == r.frame && done == r.done && Snapshot(dom) == r.world
    decreases p, 2
  {
    match f
    case Created =>
      f', done := StartTask(p, dom);
    case Returned =>
      f', done := Returned, true;
    case _ =>
      f', done := ResumeTask(p, f, e, dom);
  }

  /** One pass of a suspended body, from the `yield` that receives `e` to the next one. */
  method ResumeTask(p: Plan, f: Frame, e: real, ghost dom: set<Entity>) returns (f': Frame, done: bool)
    requires Valid(p, f) && Suspended(f) && Targets(p) <= dom
    modifies Targets(p)
    ensures var r := Resume(p, f, old(Snapshot(dom)), e);
      f' == r.frame && done == r.done && Snapshot(dom) == r.world
    decreases p, 1
  {
    match f
    case Timing(total) =>
      var t := total + e;
      if t >= p.wait {
        f', done := Returned, true;
      } else {
        f', done := Timing(t), false;
      }
    case Moving(total, x0, y0) =>
      var t := total + e;
      var u := Progress(t, p.duration);
      p.entity.x := Lerp(x0, p.dest.x, u);
      p.entity.y := Lerp(y0, p.dest.y, u);
      if t >= p.duration {
        f', done := Returned, true;
      } else {
        f', done := Moving(t, x0, y0), false;
      }
    case Turning(total, a0) =>
      var t := total + e;
      p.entity.rotation := Lerp(a0, p.angle, Progress(t, p.duration));
      if t >= p.duration {
        f', done := Returned, true;
      } else {
        f', done := Turning(t, a0), false;
      }
    case Scaling(total, s0) =>
      var t := total + e;
      p.entity.scale := Lerp(s0, p.target, Progress(t, p.duration));
      if t >= p.duration {
        f', done := Returned, true;
      } else {
        f', done := Scaling(t, s0), false;
      }
    case Joined(kids) =>
      var frames, results := SweepTasks(p, kids, e, dom);
      if AllDone(results) {
        f', done := Returned, true;
      } else {
        f', done := Joined(frames), false;
      }
    case Chained(cur, kid) =>
      f', done := ChainTask(p, cur, kid, e, dom);
  }

  /** The loop of a parallel: `next(e)` on every child in order, collecting the results. */
  method SweepTasks(p: Plan, kids: seq<Frame>, e: real, ghost dom: set<Entity>)
    returns (frames: seq<Frame>, results: seq<bool>)
    requires p.Parallel? && |kids| == |p.children| && Targets(p) <= dom
    requires forall j :: 0 <= j < |kids| ==> Valid(p.children[j], kids[j])
    modifies Targets(p)
    ensures var s := SweepFrom(p, kids, 0, old(Snapshot(dom)), e, [], []);
      frames == s.frames && results == s.results && Snapshot(dom) == s.world
    decreases p, 0
  {
    ghost var w0 := Snapshot(dom);
    frames, results := [], [];
    var i := 0;
    while i < |kids|
      invariant 0 <= i <= |kids| && |frames| == i && |results| == i
      invariant forall j :: 0 <= j < i ==>
        Valid(p.children[j], frames[j]) && !frames[j].Created? && (results[j] <==> frames[j].Returned?)
      invariant SweepFrom(p, kids, i, Snapshot(dom), e, frames, results)
             == SweepFrom(p, kids, 0, w0, e, [], [])
    {
      ChildTargets(p, i);
      var g, d := NextTask(p.children[i], kids[i], e, dom);
      frames := frames + [g];
      results := results + [d];
      i := i + 1;
    }
  }

  /** A sequence inside `yield*` of child `cur`: resume that child, and go on to the next when it returns. */
  method ChainTask(p: Plan, cur: nat, kid: Frame, e: real, ghost dom: set<Entity>) returns (f: Frame, done: bool)
    requires Valid(p, Chained(cur, kid)) && Targets(p) <= dom
    modifies Targets(p)
    ensures var r := Resume(p, Chained(cur, kid), old(Snapshot(dom)), e);
      f == r.frame && done == r.done && Snapshot(dom) == r.world
    decreases p, 0, 1
  {
    ChildTargets(p, cur);
    var g, d := NextTask(p.children[cur], kid, e, dom);
    if d {
      f, done := EnterFrom(p, cur + 1, dom);
    } else {
      f, done := Chained(cur, g), false;
    }
  }
}
