/**
 * Guard expressions of the tour machine as a tagged tree, and their
 * short-circuit evaluation against a context and the triggering event.
 */
module Guards {
  import opened Outcomes
  import opened TourTypes

  /** Why a guard could not be evaluated. */
  datatype GuardError =
    | ParamsMissing  // the named guard was referenced without `params`
    | TodoMissing    // the params builder read `event.todo` from an event without one

  /** Where the `params` of a `todoIsCompleted` reference come from. */
  datatype ParamSource =
    | NoParams     // `{ type: 'todoIsCompleted' }`
    | TodoOfEvent  // `params: ({ event }) => ({ todo: event.todo })`

  datatype Guard =
    | TodoIsCompleted(params: ParamSource)  // the named guard of the `guards` registry
    | CountAtLeast(bound: int)              // inline `({ context }) => context.count >= bound`
    | Never                                 // inline `() => false`
    | And(conjuncts: seq<Guard>)            // the `and([...])` combinator

  /**
   * Whether evaluating `g` for `ev` can reach a `todoIsCompleted` reference
   * without a todo to read: one without params, or one whose params come
   * from an event that carries no todo.
   */
  predicate MayLackTodo(g: Guard, ev: Option<Event>)
    decreases g
  {
    match g
    case TodoIsCompleted(p) => p == NoParams || !(ev.Some? && ev.value.Updated?)
    case CountAtLeast(_) => false
    case Never => false
    case And(cs) => exists i :: 0 <= i < |cs| && MayLackTodo(cs[i], ev)
  }

  /**
   * Evaluates `g`; `ev` is None when no event triggers the evaluation
   * (machine entry and eventless transitions). Evaluation fails only where
   * `todoIsCompleted` has no todo to read.
   */
  function Eval(g: Guard, ctx: Context, ev: Option<Event>): (r: Result<bool, GuardError>)
    ensures !MayLackTodo(g, ev) ==> r.Ok?
    decreases g
  {
    match g
    case TodoIsCompleted(p) =>
      (match p
       case NoParams => Err(ParamsMissing)
       case TodoOfEvent =>
         (match ev
          case Some(Updated(t)) => Ok(t.completed)
          case _ => Err(TodoMissing)))
    case CountAtLeast(b) => Ok(ctx.count >= b)
    case Never => Ok(false)
    case And(cs) => EvalAnd(cs, ctx, ev)
  }

  /** Left-to-right conjunction that stops at the first conjunct not evaluating to true. */
  function EvalAnd(cs: seq<Guard>, ctx: Context, ev: Option<Event>): (r: Result<bool, GuardError>)
    ensures |cs| == 0 ==> r == Ok(true)
    ensures (forall i :: 0 <= i < |cs| ==> !MayLackTodo(cs[i], ev)) ==> r.Ok?
    decreases cs
  {
    if |cs| == 0 then Ok(true)
    else
      match Eval(cs[0], ctx, ev)
      case Ok(true) => EvalAnd(cs[1..], ctx, ev)
      case other => other
  }

  /** A guard passes only when it evaluates, without error, to true. */
  predicate Passes(g: Guard, ctx: Context, ev: Option<Event>) {
    Eval(g, ctx, ev) == Ok(true)
  }

  /** `and` is true exactly when every conjunct is true; in particular `and([])` is true. */
  lemma {:induction false} AndPassesIffAll(cs: seq<Guard>, ctx: Context, ev: Option<Event>)
    ensures Passes(And(cs), ctx, ev) <==> forall i :: 0 <= i < |cs| ==> Passes(cs[i], ctx, ev)
    decreases cs
  {
    assert Eval(And(cs), ctx, ev) == EvalAnd(cs, ctx, ev);
    if |cs| > 0 {
      AndPassesIffAll(cs[1..], ctx, ev);
      assert Eval(And(cs[1..]), ctx, ev) == EvalAnd(cs[1..], ctx, ev);
      assert forall i :: 1 <= i < |cs| ==> cs[i] == cs[1..][i - 1];
    }
  }

  /**
   * Short-circuit: the value of `and` is the value of its first conjunct that
   * is not true, so later conjuncts (and their errors) are never reached.
   */
  lemma {:induction false} AndStopsAtFirstNonTrue(cs: seq<Guard>, k: nat, ctx: Context, ev: Option<Event>)
    requires k < |cs|
    requires forall i :: 0 <= i < k ==> Passes(cs[i], ctx, ev)
    requires !Passes(cs[k], ctx, ev)
    ensures Eval(And(cs), ctx, ev) == Eval(cs[k], ctx, ev)
    decreases k
  {
    if k > 0 {
      assert Passes(cs[0], ctx, ev);
      AndStopsAtFirstNonTrue(cs[1..], k - 1, ctx, ev);
    }
  }

  /** An `and` with a constant-false conjunct anywhere never passes, whatever the others do. */
  lemma AndWithNeverNeverPasses(cs: seq<Guard>, ctx: Context, ev: Option<Event>)
    requires Never in cs
    ensures !Passes(And(cs), ctx, ev)
  {
    var j :| 0 <= j < |cs| && cs[j] == Never;
    AndPassesIffAll(cs, ctx, ev);
    assert !Passes(cs[j], ctx, ev);
  }

  /** The guard of the machine-level `greet` entry action. */
  const EntryGuard: Guard := And([TodoIsCompleted(NoParams), Never])

  /**
   * The entry guard never passes. Its first conjunct names `todoIsCompleted`
   * without params, so evaluation stops there with an error before the
   * constant-false conjunct is reached.
   */
  lemma EntryGuardNeverPasses(ctx: Context, ev: Option<Event>)
    ensures !Passes(EntryGuard, ctx, ev)
    ensures Eval(EntryGuard, ctx, ev) == Err(ParamsMissing)
  {
    AndWithNeverNeverPasses(EntryGuard.conjuncts, ctx, ev);
    AndStopsAtFirstNonTrue(EntryGuard.conjuncts, 0, ctx, ev);
  }

  /**
   * `todoIsCompleted` with params built from the event passes exactly when
   * the event is `todo.updated` with a completed todo, and it fails with an
   * error only on events that carry no todo.
   */
  lemma TodoGuardOnEvent(ctx: Context, e: Event)
    ensures Passes(TodoIsCompleted(TodoOfEvent), ctx, Some(e)) <==> e.Updated? && e.todo.completed
    ensures Eval(TodoIsCompleted(TodoOfEvent), ctx, Some(e)).Err? <==> !e.Updated?
  {
  }
}
