/**
 * The animation tasks as a state machine.
 *
 * A task is a generator: the arguments it was created with (a `Plan`) and the
 * point at which its body is suspended (a `Frame`). Calling a task factory
 * such as `moveTo(...)` only builds the plan; nothing is read or written until
 * the first `next()`. The functions below give the effect of one `next()` on
 * a frame and on the entities (`World`), and their contracts state the
 * invariants every step keeps.
 */
module Tasks {
  import opened Entities
  import opened Easing

  /** A strictly positive duration: the interpolating tasks divide by it. */
  type Span = d: real | d > 0.0 witness 1.0

  /** What a task was created with. */
  datatype Plan =
    | Delay(wait: real)
    | MoveTo(entity: Entity, dest: Point, duration: Span)
    | RotateTo(entity: Entity, angle: real, duration: Span)
    | ScaleTo(entity: Entity, target: real, duration: Span)
    | Parallel(children: seq<Plan>)
    | Sequence(children: seq<Plan>)

  /**
   * Where a task's body is suspended. `Created`: the body has not been
   * entered. The primitive frames hold the time accumulator and the start
   * values read on entry. `Joined` is a parallel waiting at its `yield` with
   * the frames of all its children; `Chained(i, kid)` is a sequence inside
   * `yield*` of child `i` (children before `i` have returned, children after
   * it are untouched). `Returned`: the body has finished.
   */
  datatype Frame =
    | Created
    | Timing(total: real)
    | Moving(total: real, fromX: real, fromY: real)
    | Turning(total: real, fromAngle: real)
    | Scaling(total: real, fromScale: real)
    | Joined(kids: seq<Frame>)
    | Chained(current: nat, kid: Frame)
    | Returned

  /** The result of one `next()`: the new frame, the new entities, the `done` flag. */
  datatype Outcome = Outcome(frame: Frame, world: World, done: bool)

  /** The result of the loop of a parallel over its children. */
  datatype Swept = Swept(frames: seq<Frame>, world: World, results: seq<bool>)

  /** The body is waiting at a `yield`. */
  predicate Suspended(f: Frame)
  {
    !f.Created? && !f.Returned?
  }

  /** The frame is one the plan's body can be suspended in. */
  predicate Valid(p: Plan, f: Frame)
  {
    match f
    case Created => true
    case Returned => true
    case Timing(_) => p.Delay?
    case Moving(_, _, _) => p.MoveTo?
    case Turning(_, _) => p.RotateTo?
    case Scaling(_, _) => p.ScaleTo?
    case Joined(kids) =>
      p.Parallel? && |kids| == |p.children| &&
      forall i :: 0 <= i < |kids| ==> Valid(p.children[i], kids[i])
    case Chained(cur, kid) =>
      p.Sequence? && cur < |p.children| && Suspended(kid) && Valid(p.children[cur], kid)
  }

  /** The entities a task may write. */
  function Targets(p: Plan): set<Entity>
  {
    match p
    case Delay(_) => {}
    case MoveTo(en, _, _) => {en}
    case RotateTo(en, _, _) => {en}
    case ScaleTo(en, _, _) => {en}
    case Parallel(cs) => set c, en | c in cs && en in Targets(c) :: en
    case Sequence(cs) => set c, en | c in cs && en in Targets(c) :: en
  }

  lemma ChildTargets(p: Plan, i: nat)
    requires p.Parallel? || p.Sequence?
    requires i < |p.children|
    ensures Targets(p.children[i]) <= Targets(p)
  {
    assert p.children[i] in p.children;
  }

  /** Only entities in `s` may differ between `w` and `w'`, and no entity is added or dropped. */
  predicate WritesOnly(w: World, w': World, s: set<Entity>)
  {
    w'.Keys == w.Keys && forall en :: en in w && en !in s ==> w'[en] == w[en]
  }

  /** Every result reported `done`. */
  predicate AllDone(results: seq<bool>)
  {
    forall i :: 0 <= i < |results| ==> results[i]
  }

  /**
   * The first `next()` of a fresh generator: run the body up to its first
   * `yield`. The primitives read their start values here; a parallel reaches
   * its `yield` at once; a sequence enters `yield*` of its first child.
   * Starting never writes an entity.
   */
  function Start(p: Plan, w: World): (r: Outcome)
    requires Targets(p) <= w.Keys
    ensures r.world == w
    ensures r.done <==> r.frame.Returned?
    ensures Valid(p, r.frame) && !r.frame.Created?
    ensures p.Delay? || p.MoveTo? || p.RotateTo? || p.ScaleTo? || p.Parallel? ==> !r.done
    decreases p, 1
  {
    match p
    case Delay(_) => Outcome(Timing(0.0), w, false)
    case MoveTo(en, _, _) => Outcome(Moving(0.0, w[en].x, w[en].y), w, false)
    case RotateTo(en, _, _) => Outcome(Turning(0.0, w[en].rotation), w, false)
    case ScaleTo(en, _, _) => Outcome(Scaling(0.0, w[en].scale), w, false)
    case Parallel(cs) => Outcome(Joined(seq(|cs|, _ => Created)), w, false)
    case Sequence(_) => Enter(p, 0, w)
  }

  /**
   * The `for` loop of a sequence, continued at child `i`: `yield*` starts
   * each child in turn, in the same call, until one suspends; when none is
   * left the sequence returns.
   */
  function Enter(p: Plan, i: nat, w: World): (r: Outcome)
    requires p.Sequence? && i <= |p.children| && Targets(p) <= w.Keys
    ensures r.world == w
    ensures r.done <==> r.frame.Returned?
    ensures Valid(p, r.frame) && !r.frame.Created?
    ensures r.frame.Chained? ==> i <= r.frame.current
    ensures i == |p.children| ==> r.done
    decreases p, 0, |p.children| - i
  {
    if i == |p.children| then Outcome(Returned, w, true)
    else
      ChildTargets(p, i);
      var s := Start(p.children[i], w);
      if s.done then Enter(p, i + 1, s.world)
      else Outcome(Chained(i, s.frame), s.world, false)
  }

  /**
   * `generator.next(e)`. A fresh generator is started and `e` is discarded;
   * a finished one reports done and changes nothing; a suspended one is
   * resumed with `e`. Only the task's own targets are written.
   */
  function Next(p: Plan, f: Frame, w: World, e: real): (r: Outcome)
    requires Valid(p, f) && Targets(p) <= w.Keys
    ensures WritesOnly(w, r.world, Targets(p))
    ensures r.done <==> r.frame.Returned?
    ensures Valid(p, r.frame) && !r.frame.Created?
    ensures f.Created? ==> r.world == w
    ensures f.Returned? ==> r == Outcome(Returned, w, true)
    decreases p, 2
  {
    match f
    case Created => Start(p, w)
    case Returned => Outcome(Returned, w, true)
    case _ => Resume(p, f, w, e)
  }

  /**
   * One pass of a suspended body: the value `e` arrives at the `yield`, the
   * body runs to its next `yield` or to its end.
   */
  function Resume(p: Plan, f: Frame, w: World, e: real): (r: Outcome)
    requires Valid(p, f) && Suspended(f) && Targets(p) <= w.Keys
    ensures WritesOnly(w, r.world, Targets(p))
    ensures r.done <==> r.frame.Returned?
    ensures Valid(p, r.frame) && !r.frame.Created?
    decreases p, 1
  {
    match f
    case Timing(total) =>
      var t := total + e;
      if t >= p.wait then Outcome(Returned, w, true) else Outcome(Timing(t), w, false)
    case Moving(total, x0, y0) =>
      var t := total + e;
      var u := Progress(t, p.duration);
      var w' := w[p.entity := w[p.entity].(x := Lerp(x0, p.dest.x, u), y := Lerp(y0, p.dest.y, u))];
      if t >= p.duration then Outcome(Returned, w', true) else Outcome(Moving(t, x0, y0), w', false)
    case Turning(total, a0) =>
      var t := total + e;
      var w' := w[p.entity := w[p.entity].(rotation := Lerp(a0, p.angle, Progress(t, p.duration)))];
      if t >= p.duration then Outcome(Returned, w', true) else Outcome(Turning(t, a0), w', false)
    case Scaling(total, s0) =>
      var t := total + e;
      var w' := w[p.entity := w[p.entity].(scale := Lerp(s0, p.target, Progress(t, p.duration)))];
      if t >= p.duration then Outcome(Returned, w', true) else Outcome(Scaling(t, s0), w', false)
    case Joined(kids) =>
      var s := SweepFrom(p, kids, 0, w, e, [], []);
      if AllDone(s.results) then Outcome(Returned, s.world, true)
      else Outcome(Joined(s.frames), s.world, false)
    case Chained(cur, kid) =>
      ChildTargets(p, cur);
      var n := Next(p.children[cur], kid, w, e);
      if n.done then Enter(p, cur + 1, n.world)
      else Outcome(Chained(cur, n.frame), n.world, false)
  }

  /**
   * The loop of a parallel from child `i` on: each child in turn gets
   * `next(e)` with the same `e`, and its result is pushed onto `results`.
   */
  function SweepFrom(p: Plan, kids: seq<Frame>, i: nat, w: World, e: real,
                     frames: seq<Frame>, results: seq<bool>): (r: Swept)
    requires p.Parallel? && |kids| == |p.children| && i <= |kids|
    requires |frames| == i && |results| == i
    requires forall j :: 0 <= j < |kids| ==> Valid(p.children[j], kids[j])
    requires forall j :: 0 <= j < i ==>
      Valid(p.children[j], frames[j]) && !frames[j].Created? && (results[j] <==> frames[j].Returned?)
    requires Targets(p) <= w.Keys
    ensures |r.frames| == |kids| && |r.results| == |kids|
    ensures r.frames[..i] == frames && r.results[..i] == results
    ensures forall j :: 0 <= j < |kids| ==>
      Valid(p.children[j], r.frames[j]) && !r.frames[j].Created? && (r.results[j] <==> r.frames[j].Returned?)
    ensures forall j :: i <= j < |kids| && kids[j].Returned? ==> r.frames[j].Returned?
    ensures WritesOnly(w, r.world, Targets(p))
    decreases p, 0, |kids| - i
  {
    if i == |kids| then Swept(frames, w, results)
    else
      ChildTargets(p, i);
      var n := Next(p.children[i], kids[i], w, e);
      SweepFrom(p, kids, i + 1, n.world, e, frames + [n.frame], results + [n.done])
  }
}
