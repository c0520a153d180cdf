/** Small value types shared by the modules of this project. */
module Prelude {

  datatype Option<+T> = None | Some(value: T)
  {
    function GetOr(other: T): T { if Some? then value else other }
  }

  datatype Result<+T, +E> = Ok(value: T) | Err(error: E)

  /** How one call to a remote store or API ends: it may take effect and report
      success, take effect but report an error, or fail without any effect. */
  datatype Outcome = Done | DoneButRaised | Raised
  {
    predicate Effect() { !Raised? }
  }
}
