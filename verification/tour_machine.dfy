/**
 * The `tourMachine` declaration as data, and the run-to-completion step that
 * drives it: on an event, take the first enabled `on` transition for the
 * event's type (or none), then take enabled eventless (`always`)
 * transitions until none is enabled.
 */
module TourMachine {
  import opened Outcomes
  import opened TourTypes
  import opened Guards

  /** The two actions the machine uses. */
  datatype Action =
    | IncrementCount         // `assign({ count: ({ context }) => context.count + 1 })`
    | Greet(message: string) // the `greet` effect; its body is empty

  /**
   * A transition: optional guard, optional target (a state name; none means
   * stay), and the actions run while taking it.
   */
  datatype Transition = Transition(guard: Option<Guard>, target: Option<string>, actions: seq<Action>)

  /** One entry of the `states` table: `on` keyed by event type, and `always`. */
  datatype StateNode = StateNode(on: map<string, Transition>, always: Option<Transition>)

  /** A snapshot of the running machine: the current state and the context. */
  datatype Config = Config(state: State, ctx: Context)

  /** A transition target that names a declared state other than `got stuff`. */
  predicate TargetDeclared(t: Transition) {
    t.target.Some? ==> StateNamed(t.target.value).Some? && StateNamed(t.target.value) != Some(GotStuff)
  }

  /**
   * The `states` table of the declaration. Every target names a declared
   * state and none names `got stuff`; a state has no transitions at all
   * exactly when it is `expert` or `got stuff`; only `todo removed` has an
   * eventless transition.
   */
  function Node(s: State): (n: StateNode)
    ensures forall t :: t in n.on.Values ==> TargetDeclared(t)
    ensures n.always.Some? ==> TargetDeclared(n.always.value)
    ensures |n.on| == 0 && n.always.None? <==> s in {Expert, GotStuff}
    ensures n.always.Some? <==> s == TodoRemoved
  {
    match s
    case Start =>
      StateNode(map["todo.added" := Transition(None, Some("todo added"), [])], None)
    case TodoAdded =>
      StateNode(map["todo.updated" := Transition(Some(TodoIsCompleted(TodoOfEvent)), Some("todo completed"), [])], None)
    case TodoCompleted =>
      StateNode(map["todo.removed" := Transition(None, Some("todo removed"), [])], None)
    case TodoRemoved =>
      StateNode(map["todo.added" := Transition(None, None, [IncrementCount])],
                Some(Transition(Some(CountAtLeast(10)), Some("expert"), [])))
    case Expert => StateNode(map[], None)
    case GotStuff => StateNode(map[], None)
  }

  /** The `initial` key. */
  const InitialName: string := "start"

  /** The machine-level entry action and its guard. */
  const EntryAction: Action := Greet("Hello, World!")

  /** Bound on eventless transitions taken in one step (see `SettleSucceeds`). */
  const MaxEventless: nat := 6

  /** Only the `assign` changes the context, and it raises the count by exactly one; `greet` is a pure effect. */
  function Apply(a: Action, ctx: Context): (r: Context)
    ensures r != ctx <==> a == IncrementCount
    ensures ctx.count <= r.count <= ctx.count + 1
  {
    match a
    case IncrementCount => Context(ctx.count + 1)
    case Greet(_) => ctx
  }

  /** Running a list of actions raises the count by the number of `assign` increments in it. */
  function ApplyAll(actions: seq<Action>, ctx: Context): (r: Context)
    ensures r.count == ctx.count + multiset(actions)[IncrementCount]
    decreases |actions|
  {
    if |actions| == 0 then ctx
    else
      assert actions == [actions[0]] + actions[1..];
      ApplyAll(actions[1..], Apply(actions[0], ctx))
  }

  /** A transition is enabled when it has no guard or its guard passes; a failing guard disables it. */
  predicate Enabled(t: Transition, ctx: Context, ev: Option<Event>) {
    t.guard.None? || Passes(t.guard.value, ctx, ev)
  }

  /** The `on` transition `e` selects in configuration `c`, if any. */
  function OnSelected(c: Config, e: Event): Option<Transition> {
    var on := Node(c.state).on;
    if e.Type() in on && Enabled(on[e.Type()], c.ctx, Some(e)) then Some(on[e.Type()]) else None
  }

  /** The eventless transition enabled in configuration `c`, if any. */
  function AlwaysSelected(c: Config): Option<Transition> {
    match Node(c.state).always
    case Some(t) => if Enabled(t, c.ctx, None) then Some(t) else None
    case None => None
  }

  /** Takes `t` from `c`: runs its actions, then moves to its target (a targetless transition stays). */
  function Take(c: Config, t: Transition): Config {
    var ctx := ApplyAll(t.actions, c.ctx);
    match t.target
    case None => Config(c.state, ctx)
    case Some(n) =>
      match StateNamed(n)
      case Some(s) => Config(s, ctx)
      case None => Config(c.state, ctx)
  }

  /**
   * Takes enabled eventless transitions until none is enabled; None when more
   * than `fuel` of them would be needed.
   */
  function Settle(c: Config, fuel: nat): (r: Option<Config>)
    ensures r.Some? ==> AlwaysSelected(r.value) == None
    ensures r.Some? ==> c.ctx.count <= r.value.ctx.count
    ensures AlwaysSelected(c) == None ==> r == Some(c)
    decreases fuel
  {
    match AlwaysSelected(c)
    case None => Some(c)
    case Some(t) => if fuel == 0 then None else Settle(Take(c, t), fuel - 1)
  }

  /**
   * Processes one event to completion. Should the eventless transitions not
   * settle within the bound, the machine stays where the event found it.
   */
  function Step(c: Config, e: Event): (r: Config)
    ensures c.ctx.count <= r.ctx.count <= c.ctx.count + 1
    ensures c.state in {Expert, GotStuff} ==> r == c
  {
    var mid := match OnSelected(c, e) case Some(t) => Take(c, t) case None => c;
    match Settle(mid, MaxEventless)
    case Some(r) => r
    case None => c
  }

  /** The actions the machine-level entry runs for context `ctx` and triggering event `ev`. */
  /**
   * The actions the machine-level entry runs for context `ctx` and
   * triggering event `ev`: `greet` when the entry guard passes, and so never
   * any.
   */
  function EntryActions(ctx: Context, ev: Option<Event>): (r: seq<Action>)
    ensures r == []
  {
    EntryGuardNeverPasses(ctx, ev);
    if Passes(EntryGuard, ctx, ev) then [EntryAction] else []
  }

  /**
   * Starting the machine: run the guarded entry action on the initial
   * context, enter the initial state, then settle.
   */
  function Initial(): (c: Config)
    ensures c == Config(Start, Context(0))
  {
    var ctx := ApplyAll(EntryActions(InitialContext, None), InitialContext);
    var s := match StateNamed(InitialName) case Some(s) => s case None => Start;
    match Settle(Config(s, ctx), MaxEventless)
    case Some(r) => r
    case None => Config(s, ctx)
  }

  /**
   * Feeds `events` to the machine one at a time, in order. Each event adds at
   * most one to the count and none lowers it; `expert` and `got stuff` are
   * never left.
   */
  function Run(c: Config, events: seq<Event>): (r: Config)
    ensures c.ctx.count <= r.ctx.count <= c.ctx.count + |events|
    ensures c.state in {Expert, GotStuff} ==> r == c
    decreases |events|
  {
    if |events| == 0 then c else Run(Step(c, events[0]), events[1..])
  }
}
