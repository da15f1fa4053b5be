/** The `TaskState` enumeration of backend/logging/taskstate.js: the values stored in the
    `Result` column of the task log and held by the deletion-rules task. */
module TaskStates {
  import opened Wrappers

  datatype TaskState = Success | Failed | Running | Error | Stopped | Completed

  /** The string each state is stored as. */
  function Name(s: TaskState): string
  {
    match s
    case Success => "Success"
    case Failed => "Failed"
    case Running => "Running"
    case Error => "Error"
    case Stopped => "Stopped"
    case Completed => "Completed"
  }

  /** Reads a stored `Result` string back: a string names at most one state, and every state is named. */
  function Parse(str: string): (r: Option<TaskState>)
    ensures r.Some? ==> Name(r.value) == str
    ensures r.None? ==> forall s: TaskState :: Name(s) != str
  {
    if str == "Success" then Some(Success)
    else if str == "Failed" then Some(Failed)
    else if str == "Running" then Some(Running)
    else if str == "Error" then Some(Error)
    else if str == "Stopped" then Some(Stopped)
    else if str == "Completed" then Some(Completed)
    else None
  }

  /** Decoding a stored name gives back the state it was written from, so the six names are pairwise distinct. */
  lemma ParseName(s: TaskState)
    ensures Parse(Name(s)) == Some(s)
  {
  }

  /** Two states with the same stored name are the same state; in particular Failed and Error differ. */
  lemma NameInjective(a: TaskState, b: TaskState)
    requires Name(a) == Name(b)
    ensures a == b
  {
    ParseName(a);
    ParseName(b);
  }
}
