/** The vehicle event payloads of `src/events/vehicle.rs`. */
module VehicleEvents {
  import opened Base

  /** `VehicleUpdateEvent`. */
  datatype VehicleUpdateEvent = VehicleUpdateEvent(vehicleId: I32, updateType: I32)

  /** `From<...> for VehicleUpdateEvent`: each field from the tuple position of the same rank, unchanged. */
  function VehicleUpdateOf(value: (I32, I32)): (e: VehicleUpdateEvent)
    ensures e.vehicleId == value.0
    ensures e.updateType == value.1
  {
    VehicleUpdateEvent(value.0, value.1)
  }

  /** `VehicleExplodeEvent`. */
  datatype VehicleExplodeEvent = VehicleExplodeEvent(vehicleId: I32)

  /** `From<i32> for VehicleExplodeEvent`: each field from the tuple position of the same rank, unchanged. */
  function VehicleExplodeOf(value: I32): (e: VehicleExplodeEvent)
    ensures e.vehicleId == value
  {
    VehicleExplodeEvent(value)
  }

  /** `VehicleRespawnEvent`. */
  datatype VehicleRespawnEvent = VehicleRespawnEvent(vehicleId: I32)

  /** `From<i32> for VehicleRespawnEvent`: each field from the tuple position of the same rank, unchanged. */
  function VehicleRespawnOf(value: I32): (e: VehicleRespawnEvent)
    ensures e.vehicleId == value
  {
    VehicleRespawnEvent(value)
  }
}
