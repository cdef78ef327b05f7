/** One key's slot in the in-flight map (src/inflight.rs). The step model reads
    and writes slots of entry ids, the class `Inflight` slots of entry objects. */
module Slots {
  import opened Prelude

  datatype Permit<+E> = Leader(entry: E) | Follower(entry: E)

  function AcquireSlot<E>(slot: Option<E>, candidate: E): (Option<E>, Permit<E>) {
    match slot
    case Some(existing) => (slot, Follower(existing))
    case None => (Some(candidate), Leader(candidate))
  }

  /** The pointer comparison of `release`. */
  predicate Releases<E(==)>(slot: Option<E>, entry: E) {
    slot == Some(entry)
  }

  function ReleaseSlot<E(==)>(slot: Option<E>, entry: E): Option<E> {
    if Releases(slot, entry) then None else slot
  }
}
