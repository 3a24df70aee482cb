/** The pickup event payloads of `src/events/pickup.rs`. */
module PickupEvents {
  import opened Base

  /** `PickupPickAttemptEvent`. */
  datatype PickupPickAttemptEvent = PickupPickAttemptEvent(pickupId: I32, playerId: I32)

  /** `From<...> for PickupPickAttemptEvent`: each field from the tuple position of the same rank, unchanged. */
  function PickupPickAttemptOf(value: (I32, I32)): (e: PickupPickAttemptEvent)
    ensures e.pickupId == value.0
    ensures e.playerId == value.1
  {
    PickupPickAttemptEvent(value.0, value.1)
  }

  /** `PickupPickedEvent`. */
  datatype PickupPickedEvent = PickupPickedEvent(pickupId: I32, playerId: I32)

  /** `From<...> for PickupPickedEvent`: each field from the tuple position of the same rank, unchanged. */
  function PickupPickedOf(value: (I32, I32)): (e: PickupPickedEvent)
    ensures e.pickupId == value.0
    ensures e.playerId == value.1
  {
    PickupPickedEvent(value.0, value.1)
  }

  /** `PickupRespawnEvent`. */
  datatype PickupRespawnEvent = PickupRespawnEvent(pickupId: I32)

  /** `From<i32> for PickupRespawnEvent`: each field from the tuple position of the same rank, unchanged. */
  function PickupRespawnOf(value: I32): (e: PickupRespawnEvent)
    ensures e.pickupId == value
  {
    PickupRespawnEvent(value)
  }
}
