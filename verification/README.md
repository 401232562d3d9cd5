# The onboarding tour state machine, in Dafny

This project models `tourMachine`, the small statechart that guides a user
through the todo app: add a todo, complete it, remove it, then keep adding
until the app calls you an expert. The machine has six states (`start`,
`todo added`, `todo completed`, `todo removed`, `expert`, `got stuff`) and
three events (`todo.added`, `todo.updated` carrying a todo, `todo.removed`).
Its context is a single `count` that starts at 0.

The declaration is kept as data, and a small step function executes it:

- `TourTypes` holds the events, the state names with their lookup, and the context.
- `Guards` holds the guard language the machine uses: the named `todoIsCompleted`
  guard with its params source, two inline predicates, and the `and` combinator.
  Evaluation returns a `Result`, so a guard that cannot be evaluated is told
  apart from one that is false.
- `TourMachine` holds the `states` table (`Node`), the `assign` increment and the
  `greet` effect, and the run-to-completion `Step`. A step takes the enabled
  `on` transition for the event's type, if any. A targetless transition runs its
  actions and stays put. Enabled `always` transitions are then taken until none
  is enabled (`Settle`).
- `TourProperties` writes the transitions out state by state (`RefStep`) and
  proves the table-driven step equal to it on every configuration and event.
  Everything else is proved from that: the reachable-state invariant, counting,
  terminal states and the end-to-end tour.

Semantics assumed for the statechart runtime, which is not part of this model:
- A guard whose evaluation fails disables its transition.
- Eventless transitions are re-checked after every event. This happens whether
  the event took a transition with a target, a targetless one, or none at all.
  So in `todo removed` with a count of 10 or more, any event moves to `expert`.
  No run reaches that configuration, but the step is defined on it. The
  re-check is what lets the count-driven `always` fire after the targetless
  increment. If eventless transitions were checked only once, on entering a
  state, then `todo removed` would never reach `expert`.
- `and` evaluates its conjuncts left to right and stops at the first one that
  is not true.
- The `guard` key on the machine-level `entry` action object gates that
  action: `greet` runs only if the guard passes. The declaration writes the
  guard there, but whether the runtime honours a guard in that position is not
  visible in the source. `EntryActions` and `GreetNeverRuns` rest on this.
- The invoked fetch in `todo removed` never rejects (see "## Left out").

## Model

| member | source | states |
|---|---|---|
| TourTypes.StateNamed | src/tourMachine.ts:47-98 | a target name resolves to the state declared under exactly that key, and to nothing when no state has that key; the six keys are distinct |
| TourTypes.TypeIdentifiesKind | src/tourMachine.ts:15-18 | two events have the same `type` string exactly when they are the same kind of event, so the `on` tables can be keyed by type |
| Guards.AndPassesIffAll | src/tourMachine.ts:37-42 | `and([...])` passes exactly when every conjunct passes; `and([])` passes |
| Guards.Eval | src/tourMachine.ts:27-42 | evaluating a guard never fails unless it reaches a `todoIsCompleted` reference with no todo to read (no params, or params built from an event without a todo) |
| Guards.EvalAnd | src/tourMachine.ts:37-42 | `and([])` is true, and an `and` none of whose conjuncts can lack a todo always yields a boolean |
| Guards.AndStopsAtFirstNonTrue | src/tourMachine.ts:37-42 | `and` short-circuits: its value is the value of the first conjunct that does not pass, and later conjuncts are never reached |
| Guards.AndWithNeverNeverPasses | src/tourMachine.ts:37-42 | an `and` with a constant-false conjunct never passes, whatever the other conjuncts, context and event |
| Guards.EntryGuardNeverPasses | src/tourMachine.ts:27-44 | the entry guard never passes for any context or event; its `todoIsCompleted` conjunct has no params and fails before `() => false` is reached |
| Guards.TodoGuardOnEvent | src/tourMachine.ts:27-29 | `todoIsCompleted` with the todo taken from the event passes exactly for a `todo.updated` whose todo is completed, and fails only for events that carry no todo |
| TourMachine.Settle | src/tourMachine.ts:83-86 | when eventless processing settles, no eventless transition is enabled in the result and the count has not gone down; a configuration with none enabled is left as it is |
| TourMachine.Node | src/tourMachine.ts:47-98 | every target in the `states` table names a declared state and none names `got stuff`; a state has no transitions exactly when it is `expert` or `got stuff`; only `todo removed` has an eventless transition |
| TourMachine.Apply | src/tourMachine.ts:80 | only the `assign` action changes the context, raising the count by exactly one; `greet` leaves it unchanged |
| TourMachine.ApplyAll | src/tourMachine.ts:79-81 | running a list of actions raises the count by exactly the number of `assign` increments in it |
| TourMachine.EntryActions | src/tourMachine.ts:35-44 | the guarded machine-level entry schedules no action for any context or event |
| TourMachine.Step | src/tourMachine.ts:47-98 | one event raises the count by at most one and never lowers it; in `expert` and `got stuff` every event leaves state and count unchanged |
| TourMachine.Initial | src/tourMachine.ts:32-46 | the machine starts in `start` with `count = 0` |
| TourMachine.Run | src/tourMachine.ts:47-98 | feeding a sequence of events raises the count by at most one per event and never lowers it; `expert` and `got stuff` are never left |
| TourProperties.TableGuardsNeverFail | src/tourMachine.ts:59-86 | the guards of the table never fail where they are evaluated, so "disabled" always means "false" |
| TourProperties.SettleSucceeds | src/tourMachine.ts:83-94 | at most one eventless transition is taken per step, so any bound of one or more settles |
| TourProperties.StepMatchesReference | src/tourMachine.ts:47-98 | the table-driven step equals the written-out transition relation on every configuration and event |
| TourProperties.StartAwaitsAdded | src/tourMachine.ts:48-54 | in `start`, `todo.added` moves to `todo added` with the count kept; any other event leaves state and count unchanged |
| TourProperties.TodoAddedAwaitsCompletion | src/tourMachine.ts:56-66 | in `todo added`, the machine moves to `todo completed` exactly on a `todo.updated` whose todo is completed; otherwise nothing changes; the count never changes |
| TourProperties.TodoCompletedAwaitsRemoved | src/tourMachine.ts:68-74 | in `todo completed`, `todo.removed` moves to `todo removed` (straight on to `expert` if the count is already 10 or more, which no run reaches); any other event leaves state and count unchanged |
| TourProperties.TodoRemovedCountsAdds | src/tourMachine.ts:76-86 | in `todo removed`, `todo.added` adds exactly one to the count with no transition of its own, and the eventless transition then moves to `expert` exactly when the new count is at least 10; any other event keeps the count and moves to `expert` only if the count is already at least 10 |
| TourProperties.StepPreservesInv | src/tourMachine.ts:32-98 | one step keeps the invariant: 0 <= count <= 10, `expert` exactly when count is 10, never `got stuff`, count 0 before `todo removed` |
| TourProperties.RunPreservesInv | src/tourMachine.ts:32-98 | every sequence of events keeps that invariant |
| TourProperties.ReachableInvariant | src/tourMachine.ts:80-97 | in every configuration reachable from the start: 0 <= count <= 10, in `expert` exactly when count is 10, never in `todo removed` with count >= 10, never in `got stuff` |
| TourProperties.RunCountMonotone | src/tourMachine.ts:80 | along any run the count never decreases: the count after a prefix is at most the count after the whole run |
| TourProperties.AddedCountsToExpert | src/tourMachine.ts:76-86 | from `todo removed` with count n < 10, k `todo.added` events give count n + k in `todo removed` while n + k < 10, and `expert` with count 10 after that |
| TourProperties.TenAddedReachExpert | src/tourMachine.ts:79-86 | from `todo removed` with count 0, k `todo.added` events reach `expert` exactly when k >= 10 |
| TourProperties.TerminalRun | src/tourMachine.ts:92-97 | `expert` and `got stuff` have no transitions: every sequence of events leaves them unchanged |
| TourProperties.HandlesIsSelected | src/tourMachine.ts:47-98 | the events `Handles` lists are exactly those for which the current state's `on` table has an enabled transition |
| TourProperties.NoOpIffUnhandled | src/tourMachine.ts:47-98 | in a reachable configuration, an event changes nothing exactly when `Handles` does not list it, that is, when the current state has no enabled transition for it |
| TourProperties.TourOpening | src/tourMachine.ts:46-77 | the opening of the tour: add, then an update with an uncompleted todo (ignored), then one with a completed todo, then remove, visiting `todo added`, `todo added`, `todo completed`, `todo removed` with count 0 |
| TourProperties.TourEndToEnd | src/tourMachine.ts:46-94 | after that opening, ten `todo.added` events end the tour in `expert` with count 10 |
| TourProperties.GreetNeverRuns | src/tourMachine.ts:23-44 | the guarded `greet` entry action never runs, so entering the machine never changes the context |

## Left out

- `fetchLogic` and the `invoke` of `todo removed` (src/tourMachine.ts:3-7, 87-90): an asynchronous network fetch with no `onDone` or `onError` handler. The model assumes the fetch never rejects, and leaves it out. If the fetch did reject (no network, or `response.json()` failing at line 5), the runtime would put the machine into an error status with no handling transition, and it would stop processing events. That run is not modelled: `TenAddedReachExpert` and `TourEndToEnd` describe runs in which the fetch succeeds or is still pending.
- The body of `greet` (src/tourMachine.ts:24) is empty. `greet` is modelled as an effect that leaves the context unchanged.
- The `description` strings, the machine `id` and the TypeScript type declarations carry no behaviour.
- The statechart runtime itself (`setup`, `createMachine`, actors, the event queue, subscriptions) is foreign code. Only the behaviour listed under the assumptions above is relied on.
- TourMachine.Settle: the runtime places no bound on eventless transitions. The model bounds them at `MaxEventless` so that `Settle` is total, and `Step` keeps the previous configuration if the bound is exceeded. `SettleSucceeds` shows the bound is never reached for this machine.
- `count` is a JavaScript number. The model uses an unbounded integer. Reachable counts stay within 0..10, so no rounding can occur.
- The entry guard: whether the runtime reports its failing `todoIsCompleted` conjunct as an error or as false is not modelled. Either way the guard does not pass, and that is all the model relies on.
