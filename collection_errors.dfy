/**
 * The errors the fixed-capacity collections of `hell_core::collections`
 * report. `HellErrorHelper::add_to_full_msg_err` and
 * `remove_from_empty_msg_err` are not defined in `hell_core/src/error.rs`;
 * both are modelled as `GenericError` message errors, so they differ only
 * in the message each call site passes.
 */
module CollectionErrors {
  import opened HellErrors

  /** `HellErrorHelper::add_to_full_msg_err`: adding to a full collection. */
  function AddToFullMsgErr(msg: string): (e: HellError)
    ensures e.kind == GenericError && e.content == Message(msg)
  {
    HellError(GenericError, Message(msg))
  }

  /** `HellErrorHelper::remove_from_empty_msg_err`: removing from an empty collection. */
  function RemoveFromEmptyMsgErr(msg: string): (e: HellError)
    ensures e.kind == GenericError && e.content == Message(msg)
  {
    HellError(GenericError, Message(msg))
  }

  /** `HellHandle`: a slot index handed out by a collection. */
  datatype HellHandle = HellHandle(value: nat)
}
