/**
 * What the tour promises: a direct, transition-by-transition description of
 * the step, proved equal to the table-driven one, and the facts about runs
 * that follow from it.
 */
module TourProperties {
  import opened Outcomes
  import opened TourTypes
  import opened Guards
  import opened TourMachine

  /** `n` copies of the `todo.added` event. */
  function AddedTimes(n: nat): (es: seq<Event>)
    ensures |es| == n
    ensures forall i :: 0 <= i < n ==> es[i] == Added
  {
    if n == 0 then [] else [Added] + AddedTimes(n - 1)
  }

  /** The transitions the tour declares, written out state by state. */
  function RefStep(c: Config, e: Event): Config {
    match c.state
    case Start => if e.Added? then Config(TodoAdded, c.ctx) else c
    case TodoAdded => if e.Updated? && e.todo.completed then Config(TodoCompleted, c.ctx) else c
    case TodoCompleted =>
      // on arrival in `todo removed` its eventless transition is checked at once
      if e.Removed? then Config(if c.ctx.count >= 10 then Expert else TodoRemoved, c.ctx) else c
    case TodoRemoved =>
      var n := if e.Added? then c.ctx.count + 1 else c.ctx.count;
      Config(if n >= 10 then Expert else TodoRemoved, Context(n))
    case Expert => c
    case GotStuff => c
  }

  /** Guards of the table are only evaluated where they cannot fail. */
  lemma TableGuardsNeverFail(c: Config, e: Event)
    ensures var on := Node(c.state).on;
      e.Type() in on && on[e.Type()].guard.Some? ==> Eval(on[e.Type()].guard.value, c.ctx, Some(e)).Ok?
    ensures Node(c.state).always.Some? && Node(c.state).always.value.guard.Some? ==>
      Eval(Node(c.state).always.value.guard.value, c.ctx, None).Ok?
  {
  }

  /** At most one eventless transition is ever taken in a row, so any bound of one or more settles. */
  lemma SettleSucceeds(c: Config, fuel: nat)
    requires fuel >= 1
    ensures Settle(c, fuel).Some?
  {
    match AlwaysSelected(c)
    case None =>
    case Some(t) =>
      assert Take(c, t).state == Expert;
      assert AlwaysSelected(Take(c, t)) == None;
  }

  /** The table-driven step agrees with the written-out transitions on every configuration and event. */
  lemma StepMatchesReference(c: Config, e: Event)
    ensures Step(c, e) == RefStep(c, e)
  {
    var mid := match OnSelected(c, e) case Some(t) => Take(c, t) case None => c;
    SettleSucceeds(mid, MaxEventless);
    TodoGuardOnEvent(c.ctx, e);
    match c.state
    case TodoRemoved =>
      var n := if e.Added? then c.ctx.count + 1 else c.ctx.count;
      assert mid == Config(TodoRemoved, Context(n));
      if n >= 10 {
        var t := AlwaysSelected(mid).value;
        assert Take(mid, t) == Config(Expert, Context(n));
        assert AlwaysSelected(Take(mid, t)) == None;
      } else {
        assert AlwaysSelected(mid) == None;
      }
    case TodoCompleted =>
      if e.Removed? && c.ctx.count >= 10 {
        var t := AlwaysSelected(mid).value;
        assert Take(mid, t) == Config(Expert, c.ctx);
        assert AlwaysSelected(Take(mid, t)) == None;
      } else {
        assert AlwaysSelected(mid) == None;
      }
    case _ =>
      assert AlwaysSelected(mid) == None;
      assert mid == RefStep(c, e);
  }

  /** In `start`, `todo.added` moves to `todo added` with the count kept; any other event is ignored. */
  lemma StartAwaitsAdded(ctx: Context, e: Event)
    ensures Step(Config(Start, ctx), e) == (if e.Added? then Config(TodoAdded, ctx) else Config(Start, ctx))
  {
    StepMatchesReference(Config(Start, ctx), e);
  }

  /** In `todo added`, only a `todo.updated` whose todo is completed moves on, to `todo completed`. */
  lemma TodoAddedAwaitsCompletion(ctx: Context, e: Event)
    ensures Step(Config(TodoAdded, ctx), e).state == TodoCompleted <==> e.Updated? && e.todo.completed
    ensures Step(Config(TodoAdded, ctx), e).state != TodoCompleted ==> Step(Config(TodoAdded, ctx), e) == Config(TodoAdded, ctx)
    ensures Step(Config(TodoAdded, ctx), e).ctx == ctx
  {
    StepMatchesReference(Config(TodoAdded, ctx), e);
  }

  /**
   * In `todo completed`, `todo.removed` moves to `todo removed`, whose
   * eventless transition is checked at once (it fires only from count 10 on,
   * which no run reaches); any other event is ignored.
   */
  lemma TodoCompletedAwaitsRemoved(ctx: Context, e: Event)
    ensures e.Removed? ==> Step(Config(TodoCompleted, ctx), e) == Config(if ctx.count >= 10 then Expert else TodoRemoved, ctx)
    ensures !e.Removed? ==> Step(Config(TodoCompleted, ctx), e) == Config(TodoCompleted, ctx)
  {
    StepMatchesReference(Config(TodoCompleted, ctx), e);
  }

  /**
   * In `todo removed`, `todo.added` adds exactly one to the count without a
   * transition of its own; the eventless transition then moves to `expert`
   * exactly when the new count is at least 10. Any other event only lets the
   * eventless transition be checked again.
   */
  lemma TodoRemovedCountsAdds(n: int, e: Event)
    ensures e.Added? ==> Step(Config(TodoRemoved, Context(n)), e) == Config(if n + 1 >= 10 then Expert else TodoRemoved, Context(n + 1))
    ensures !e.Added? ==> Step(Config(TodoRemoved, Context(n)), e) == Config(if n >= 10 then Expert else TodoRemoved, Context(n))
  {
    StepMatchesReference(Config(TodoRemoved, Context(n)), e);
  }

  /** What holds of every configuration the tour can reach. */
  predicate Inv(c: Config) {
    && 0 <= c.ctx.count <= 10
    && (c.state == Expert <==> c.ctx.count == 10)
    && c.state != GotStuff
    && (c.state in {Start, TodoAdded, TodoCompleted} ==> c.ctx.count == 0)
  }

  lemma StepPreservesInv(c: Config, e: Event)
    requires Inv(c)
    ensures Inv(Step(c, e))
  {
    StepMatchesReference(c, e);
  }

  lemma {:induction false} RunPreservesInv(c: Config, events: seq<Event>)
    requires Inv(c)
    ensures Inv(Run(c, events))
    decreases |events|
  {
    if |events| > 0 {
      StepPreservesInv(c, events[0]);
      RunPreservesInv(Step(c, events[0]), events[1..]);
    }
  }

  /** Running `a ++ b` is running `a`, then `b`. */
  lemma {:induction false} RunAppend(c: Config, a: seq<Event>, b: seq<Event>)
    ensures Run(c, a + b) == Run(Run(c, a), b)
    decreases |a|
  {
    if |a| > 0 {
      assert (a + b)[0] == a[0];
      assert (a + b)[1..] == a[1..] + b;
      RunAppend(Step(c, a[0]), a[1..], b);
    } else {
      assert a + b == b;
    }
  }

  /** Every configuration reachable from the start: count between 0 and 10, `expert` exactly at 10, never `got stuff`. */
  lemma ReachableInvariant(events: seq<Event>)
    ensures var c := Run(Initial(), events);
      && 0 <= c.ctx.count <= 10
      && (c.state == Expert <==> c.ctx.count == 10)
      && !(c.state == TodoRemoved && c.ctx.count >= 10)
      && c.state != GotStuff
  {
    RunPreservesInv(Initial(), events);
  }

  /** The count never decreases along a run. */
  lemma {:induction false} RunCountMonotone(c: Config, events: seq<Event>, k: nat)
    requires k <= |events|
    ensures Run(c, events[..k]).ctx.count <= Run(c, events).ctx.count
    decreases |events| - k
  {
    if k < |events| {
      RunCountMonotone(c, events, k + 1);
      assert events[..k + 1] == events[..k] + [events[k]];
      RunAppend(c, events[..k], [events[k]]);
    } else {
      assert events[..k] == events;
    }
  }

  /** `todo.added` in `todo removed` counts; the tenth count moves to `expert`. */
  lemma {:induction false} AddedCountsToExpert(n: int, k: nat)
    requires 0 <= n < 10
    ensures Run(Config(TodoRemoved, Context(n)), AddedTimes(k))
      == if n + k >= 10 then Config(Expert, Context(10)) else Config(TodoRemoved, Context(n + k))
    decreases k
  {
    if k > 0 {
      var es := AddedTimes(k);
      StepMatchesReference(Config(TodoRemoved, Context(n)), Added);
      assert es[1..] == AddedTimes(k - 1);
      if n + 1 >= 10 {
        TerminalRun(Config(Expert, Context(10)), es[1..]);
      } else {
        AddedCountsToExpert(n + 1, k - 1);
      }
    }
  }

  /** From `todo removed` with count 0 it takes exactly ten `todo.added` events to reach `expert`. */
  lemma TenAddedReachExpert(k: nat)
    ensures Run(Config(TodoRemoved, Context(0)), AddedTimes(k)).state == Expert <==> k >= 10
  {
    AddedCountsToExpert(0, k);
  }

  /** `expert` and `got stuff` ignore every sequence of events. */
  lemma {:induction false} TerminalRun(c: Config, events: seq<Event>)
    requires c.state in {Expert, GotStuff}
    ensures Run(c, events) == c
    decreases |events|
  {
    if |events| > 0 {
      TerminalRun(Step(c, events[0]), events[1..]);
    }
  }

  /** Which events are not no-ops in a reachable configuration: exactly those the table handles. */
  predicate Handles(s: State, e: Event) {
    || (s == Start && e.Added?)
    || (s == TodoAdded && e.Updated? && e.todo.completed)
    || (s == TodoCompleted && e.Removed?)
    || (s == TodoRemoved && e.Added?)
  }

  /** `Handles` lists exactly the events for which the table has an enabled `on` transition. */
  lemma HandlesIsSelected(c: Config, e: Event)
    ensures Handles(c.state, e) <==> OnSelected(c, e).Some?
  {
    TodoGuardOnEvent(c.ctx, e);
  }

  lemma NoOpIffUnhandled(c: Config, e: Event)
    requires Inv(c)
    ensures Step(c, e) == c <==> !Handles(c.state, e)
  {
    StepMatchesReference(c, e);
  }

  /** The opening of the tour: add, a non-completing update, a completing update, remove. */
  lemma TourOpening()
    ensures Run(Initial(), [Added]) == Config(TodoAdded, Context(0))
    ensures Run(Initial(), [Added, Updated(Todo(false))]) == Config(TodoAdded, Context(0))
    ensures Run(Initial(), [Added, Updated(Todo(false)), Updated(Todo(true))]) == Config(TodoCompleted, Context(0))
    ensures Run(Initial(), TourOpeningEvents()) == Config(TodoRemoved, Context(0))
  {
    var c0 := Initial();
    var c1 := Config(TodoAdded, Context(0));
    var c3 := Config(TodoCompleted, Context(0));
    var a := [Added];
    var b := a + [Updated(Todo(false))];
    var d := b + [Updated(Todo(true))];
    StepMatchesReference(c0, Added);
    RunOne(c0, Added);
    StepMatchesReference(c1, Updated(Todo(false)));
    RunOne(c1, Updated(Todo(false)));
    RunAppend(c0, a, [Updated(Todo(false))]);
    StepMatchesReference(c1, Updated(Todo(true)));
    RunOne(c1, Updated(Todo(true)));
    RunAppend(c0, b, [Updated(Todo(true))]);
    StepMatchesReference(c3, Removed);
    RunOne(c3, Removed);
    RunAppend(c0, d, [Removed]);
  }

  function TourOpeningEvents(): seq<Event> {
    [Added, Updated(Todo(false)), Updated(Todo(true)), Removed]
  }

  /** The whole tour: the opening, then ten adds, ends in `expert` with count 10. */
  lemma TourEndToEnd()
    ensures Run(Initial(), TourOpeningEvents() + AddedTimes(10)) == Config(Expert, Context(10))
  {
    TourOpening();
    RunAppend(Initial(), TourOpeningEvents(), AddedTimes(10));
    AddedCountsToExpert(0, 10);
  }

  lemma RunOne(c: Config, e: Event)
    ensures Run(c, [e]) == Step(c, e)
  {
    assert [e][1..] == [];
  }

  /** The `greet` entry action never runs, so entering the machine never changes the context. */
  lemma GreetNeverRuns(ctx: Context, ev: Option<Event>)
    ensures EntryActions(ctx, ev) == []
    ensures ApplyAll(EntryActions(ctx, ev), ctx) == ctx
  {
    EntryGuardNeverPasses(ctx, ev);
  }
}
