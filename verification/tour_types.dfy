/**
 * The vocabulary of the tour machine: its events, its named states and its
 * one-field context.
 */
module TourTypes {
  import opened Outcomes

  /** A todo item as the tour sees it: only the completion flag is read. */
  datatype Todo = Todo(completed: bool)

  /** The three events the machine declares; only `todo.updated` carries a payload. */
  datatype Event = Added | Updated(todo: Todo) | Removed
  {
    /** The event's `type` string, the key of the `on` tables. */
    function Type(): string {
      match this
      case Added => "todo.added"
      case Updated(_) => "todo.updated"
      case Removed => "todo.removed"
    }
  }

  /** Two events share a `type` string exactly when they are of the same kind. */
  lemma TypeIdentifiesKind(e1: Event, e2: Event)
    ensures e1.Type() == e2.Type() <==> (e1.Added? && e2.Added?) || (e1.Updated? && e2.Updated?) || (e1.Removed? && e2.Removed?)
  {
  }

  /** The six states of the `states` table. */
  datatype State = Start | TodoAdded | TodoCompleted | TodoRemoved | Expert | GotStuff

  /** The key under which a state is declared. */
  function Name(s: State): string {
    match s
    case Start => "start"
    case TodoAdded => "todo added"
    case TodoCompleted => "todo completed"
    case TodoRemoved => "todo removed"
    case Expert => "expert"
    case GotStuff => "got stuff"
  }

  /**
   * The state a name (a transition `target` or the `initial` key) refers to,
   * or None when no state is declared under that name.
   */
  function StateNamed(n: string): (r: Option<State>)
    ensures r.Some? ==> Name(r.value) == n
    ensures forall s :: Name(s) == n ==> r == Some(s)
  {
    if n == "start" then Some(Start)
    else if n == "todo added" then Some(TodoAdded)
    else if n == "todo completed" then Some(TodoCompleted)
    else if n == "todo removed" then Some(TodoRemoved)
    else if n == "expert" then Some(Expert)
    else if n == "got stuff" then Some(GotStuff)
    else None
  }

  /** The machine's context. */
  datatype Context = Context(count: int)

  /** The declared initial context, `{ count: 0 }`. */
  const InitialContext: Context := Context(0)
}
