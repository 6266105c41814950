/** Optional values, and what can become of a call to an API server. */
module Calls {

  datatype Option<+T> = None | Some(value: T)

  /** What becomes of a write: never arrives, succeeds, or takes effect with its answer lost. */
  datatype Fate = Lost | Acknowledged | Unacknowledged

  /** Any fate is possible, except in calm runs, where every write succeeds. */
  method DrawFate(calm: bool) returns (fate: Fate)
    ensures calm ==> fate == Acknowledged
  {
    fate := *;
    if calm {
      fate := Acknowledged;
    }
  }

  /** Any call may fail, except in calm runs. */
  method DrawFailure(calm: bool) returns (fails: bool)
    ensures calm ==> !fails
  {
    fails := *;
    if calm {
      fails := false;
    }
  }
}
