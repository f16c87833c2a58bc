/**
 * The driver that turns a task into a stepper called once per frame, and the
 * effect of feeding it a whole sequence of elapsed times.
 */
module Driver {
  import opened Entities
  import opened Tasks
  import Runtime

  /**
   * The task after `next(e)` for each `e` of `ticks` in order, as the frame
   * loop feeds them. With no ticks, `done` is whether the task has returned.
   */
  function Drive(p: Plan, f: Frame, w: World, ticks: seq<real>): (r: Outcome)
    requires Valid(p, f) && Targets(p) <= w.Keys
    ensures Valid(p, r.frame) && WritesOnly(w, r.world, Targets(p))
    ensures r.done <==> r.frame.Returned?
    ensures f.Returned? ==> r == Outcome(Returned, w, true)
    ensures ticks != [] ==> !r.frame.Created?
    decreases |ticks|
  {
    if ticks == [] then Outcome(f, w, f.Returned?)
    else
      var n := Next(p, f, w, ticks[0]);
      Drive(p, n.frame, n.world, ticks[1..])
  }

  /**
   * A primed task and the callable that advances it: `coroutine(g)` starts
   * `g` once and returns `x => g.next(x)`.
   */
  class Coroutine {
    const plan: Plan
    ghost const dom: set<Entity>
    var frame: Frame

    ghost predicate Valid()
      reads this
    {
      Tasks.Valid(plan, frame) && Targets(plan) <= dom && !frame.Created?
    }

    /** Instantiate and run to the first `yield`; no entity is written. */
    constructor (p: Plan, ghost dom: set<Entity>)
      requires Targets(p) <= dom
      ensures Valid() && plan == p && this.dom == dom
      ensures frame == Start(p, Snapshot(dom)).frame
    {
      var f, _ := Runtime.StartTask(p, dom);
      plan := p;
      this.dom := dom;
      frame := f;
    }

    /** One tick: resume the task with `e` and report whether it has finished. */
    method Call(e: real) returns (done: bool)
      requires Valid()
      modifies this, Targets(plan)
      ensures Valid()
      ensures var r := Next(plan, old(frame), old(Snapshot(dom)), e);
        frame == r.frame && done == r.done && Snapshot(dom) == r.world
      ensures old(frame).Returned? ==> done && frame == Returned && Snapshot(dom) == old(Snapshot(dom))
    {
      var f;
      f, done := Runtime.NextTask(plan, frame, e, dom);
      frame := f;
    }

    /**
     * The frame loop: call the stepper once per elapsed time of `ticks`, in
     * order. `done` is the flag of the last call (whether the task had
     * already returned, when there is no tick).
     */
    method Feed(ticks: seq<real>) returns (done: bool)
      requires Valid()
      modifies this, Targets(plan)
      ensures Valid()
      ensures var r := Drive(plan, old(frame), old(Snapshot(dom)), ticks);
        frame == r.frame && done == r.done && Snapshot(dom) == r.world
    {
      done := frame.Returned?;
      var i := 0;
      while i < |ticks|
        invariant 0 <= i <= |ticks| && Valid() && done == frame.Returned?
        invariant Drive(plan, frame, Snapshot(dom), ticks[i..]) == Drive(plan, old(frame), old(Snapshot(dom)), ticks)
      {
        assert ticks[i..][1..] == ticks[i + 1..];
        done := Call(ticks[i]);
        i := i + 1;
      }
    }
  }
}
