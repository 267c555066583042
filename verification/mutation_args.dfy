/**
 The confirmation policy carried by every super-token mutation.

 The mutation argument shape declares `waitForConfirmation` as
 `boolean | undefined`: `true` blocks until the first confirmation, `false`
 returns right after broadcast, and `undefined` leaves the choice to the
 transaction dispatcher. Here the three cases are an explicit enumeration,
 converted to and from the optional boolean without merging "unset" into
 "false".
 */
module MutationArgs {
  import opened Wrappers

  datatype WaitForConfirmation = Wait | NoWait | UseDefault

  /** Reads the optional boolean as a policy; `None` stands for `undefined`. */
  function FromOptionalBool(b: Option<bool>): (w: WaitForConfirmation)
    ensures w == UseDefault <==> b == None
    ensures w == NoWait <==> b == Some(false)
  {
    match b
    case None => UseDefault
    case Some(true) => Wait
    case Some(false) => NoWait
  }

  /** Writes a policy back as the optional boolean, undoing `FromOptionalBool`. */
  function ToOptionalBool(w: WaitForConfirmation): (b: Option<bool>)
    ensures FromOptionalBool(b) == w
    ensures b == None <==> w == UseDefault
  {
    match w
    case Wait => Some(true)
    case NoWait => Some(false)
    case UseDefault => None
  }

  /** The other direction of the round trip: every optional boolean survives. */
  lemma OptionalBoolRoundTrip(b: Option<bool>)
    ensures ToOptionalBool(FromOptionalBool(b)) == b
  {
  }
}
