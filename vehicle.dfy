/**
 * The vehicle calls of `src/func/vehicle.rs`: creation and deletion, the
 * named vehicle options, the setters whose host code becomes a
 * `VcmpResult`, and the queries.
 */
module Vehicle {
  import opened Base
  import opened Errors
  import opened Options
  import opened Utils
  import opened Hosts
  import Func

  /** `create_vehicle`: the host's answer, which is the new vehicle's id, is returned unchanged. */
  function CreateVehicle(host: Host, model: I32, world: I32, position: Vector, angle: F32,
                         primaryColour: I32, secondaryColour: I32): (id: I32)
    ensures id == host.ret(Call("CreateVehicle", [Int(model), Int(world), Float(position.x), Float(position.y),
      Float(position.z), Float(angle), Int(primaryColour), Int(secondaryColour)]))
  {
    host.ret(Call("CreateVehicle", [Int(model), Int(world), Float(position.x), Float(position.y),
      Float(position.z), Float(angle), Int(primaryColour), Int(secondaryColour)]))
  }

  /** `delete_vehicle`. */
  function DeleteVehicle(host: Host, vehicle: I32): (r: VcmpResult<()>)
    ensures Reports(r, host.ret(Call("DeleteVehicle", [Int(vehicle)])))
  {
    CheckCode(host.ret(Call("DeleteVehicle", [Int(vehicle)])))
  }

  /** `is_vehicle_3d_arrow_for_player`. */
  function IsVehicle3dArrowForPlayer(host: Host, vehicle: I32, player: I32): (b: bool)
    ensures b <==> host.ret(Call("GetVehicle3DArrowForPlayer", [Int(vehicle), Int(player)])) != 0
  {
    host.ret(Call("GetVehicle3DArrowForPlayer", [Int(vehicle), Int(player)])) != 0
  }

  /** `set_vehicle_3d_arrow_for_player`. */
  function SetVehicle3dArrowForPlayer(host: Host, vehicle: I32, player: I32, show: bool): (r: VcmpResult<()>)
    ensures Reports(r, host.ret(Call("SetVehicle3DArrowForPlayer", [Int(vehicle), Int(player), Flag(if show then 1 else 0)])))
  {
    CheckCode(host.ret(Call("SetVehicle3DArrowForPlayer", [Int(vehicle), Int(player), Flag(ByteOfBool(show))])))
  }

  // Each named vehicle option goes through `get_vehicle_option` or
  // `set_vehicle_option` with the `VehicleOption` of the same name; the
  // contracts name the code that reaches the host.

  /** `get_vehicle_option_doors_locked`. */
  function GetVehicleOptionDoorsLocked(host: Host, vehicle: I32): (b: bool)
    ensures b <==> host.ret(Call("GetVehicleOption", [Int(vehicle), Int(0)])) != 0
  {
    Func.GetVehicleOption(host, vehicle, VehicleOption.DoorsLocked)
  }

  /** `get_vehicle_option_alarm`. */
  function GetVehicleOptionAlarm(host: Host, vehicle: I32): (b: bool)
    ensures b <==> host.ret(Call("GetVehicleOption", [Int(vehicle), Int(1)])) != 0
  {
    Func.GetVehicleOption(host, vehicle, VehicleOption.Alarm)
  }

  /** `get_vehicle_option_lights`. */
  function GetVehicleOptionLights(host: Host, vehicle: I32): (b: bool)
    ensures b <==> host.ret(Call("GetVehicleOption", [Int(vehicle), Int(2)])) != 0
  {
    Func.GetVehicleOption(host, vehicle, VehicleOption.Lights)
  }

  /** `get_vehicle_option_radio_locked`. */
  function GetVehicleOptionRadioLocked(host: Host, vehicle: I32): (b: bool)
    ensures b <==> host.ret(Call("GetVehicleOption", [Int(vehicle), Int(3)])) != 0
  {
    Func.GetVehicleOption(host, vehicle, VehicleOption.RadioLocked)
  }

  /** `get_vehicle_option_ghost`. */
  function GetVehicleOptionGhost(host: Host, vehicle: I32): (b: bool)
    ensures b <==> host.ret(Call("GetVehicleOption", [Int(vehicle), Int(4)])) != 0
  {
    Func.GetVehicleOption(host, vehicle, VehicleOption.Ghost)
  }

  /** `get_vehicle_option_siren`. */
  function GetVehicleOptionSiren(host: Host, vehicle: I32): (b: bool)
    ensures b <==> host.ret(Call("GetVehicleOption", [Int(vehicle), Int(5)])) != 0
  {
    Func.GetVehicleOption(host, vehicle, VehicleOption.Siren)
  }

  /** `get_vehicle_option_single_use`. */
  function GetVehicleOptionSingleUse(host: Host, vehicle: I32): (b: bool)
    ensures b <==> host.ret(Call("GetVehicleOption", [Int(vehicle), Int(6)])) != 0
  {
    Func.GetVehicleOption(host, vehicle, VehicleOption.SingleUse)
  }

  /** `get_vehicle_option_engine_disabled`. */
  function GetVehicleOptionEngineDisabled(host: Host, vehicle: I32): (b: bool)
    ensures b <==> host.ret(Call("GetVehicleOption", [Int(vehicle), Int(7)])) != 0
  {
    Func.GetVehicleOption(host, vehicle, VehicleOption.EngineDisabled)
  }

  /** `get_vehicle_option_boot_open`. */
  function GetVehicleOptionBootOpen(host: Host, vehicle: I32): (b: bool)
    ensures b <==> host.ret(Call("GetVehicleOption", [Int(vehicle), Int(8)])) != 0
  {
    Func.GetVehicleOption(host, vehicle, VehicleOption.BootOpen)
  }

  /** `get_vehicle_option_bonnet_open`. */
  function GetVehicleOptionBonnetOpen(host: Host, vehicle: I32): (b: bool)
    ensures b <==> host.ret(Call("GetVehicleOption", [Int(vehicle), Int(9)])) != 0
  {
    Func.GetVehicleOption(host, vehicle, VehicleOption.BonnetOpen)
  }

  /** `set_vehicle_option_doors_locked`. */
  function SetVehicleOptionDoorsLocked(host: Host, vehicle: I32, toggle: bool): (r: VcmpResult<()>)
    ensures Reports(r, host.ret(Call("SetVehicleOption", [Int(vehicle), Int(0), Flag(if toggle then 1 else 0)])))
  {
    Func.SetVehicleOption(host, vehicle, VehicleOption.DoorsLocked, toggle)
  }

  /** `set_vehicle_option_alarm`. */
  function SetVehicleOptionAlarm(host: Host, vehicle: I32, toggle: bool): (r: VcmpResult<()>)
    ensures Reports(r, host.ret(Call("SetVehicleOption", [Int(vehicle), Int(1), Flag(if toggle then 1 else 0)])))
  {
    Func.SetVehicleOption(host, vehicle, VehicleOption.Alarm, toggle)
  }

  /** `set_vehicle_option_lights`. */
  function SetVehicleOptionLights(host: Host, vehicle: I32, toggle: bool): (r: VcmpResult<()>)
    ensures Reports(r, host.ret(Call("SetVehicleOption", [Int(vehicle), Int(2), Flag(if toggle then 1 else 0)])))
  {
    Func.SetVehicleOption(host, vehicle, VehicleOption.Lights, toggle)
  }

  /** `set_vehicle_option_radio_locked`. */
  function SetVehicleOptionRadioLocked(host: Host, vehicle: I32, toggle: bool): (r: VcmpResult<()>)
    ensures Reports(r, host.ret(Call("SetVehicleOption", [Int(vehicle), Int(3), Flag(if toggle then 1 else 0)])))
  {
    Func.SetVehicleOption(host, vehicle, VehicleOption.RadioLocked, toggle)
  }

  /** `set_vehicle_option_ghost`. */
  function SetVehicleOptionGhost(host: Host, vehicle: I32, toggle: bool): (r: VcmpResult<()>)
    ensures Reports(r, host.ret(Call("SetVehicleOption", [Int(vehicle), Int(4), Flag(if toggle then 1 else 0)])))
  {
    Func.SetVehicleOption(host, vehicle, VehicleOption.Ghost, toggle)
  }

  /** `set_vehicle_option_siren`. */
  function SetVehicleOptionSiren(host: Host, vehicle: I32, toggle: bool): (r: VcmpResult<()>)
    ensures Reports(r, host.ret(Call("SetVehicleOption", [Int(vehicle), Int(5), Flag(if toggle then 1 else 0)])))
  {
    Func.SetVehicleOption(host, vehicle, VehicleOption.Siren, toggle)
  }

  /** `set_vehicle_option_single_use`. */
  function SetVehicleOptionSingleUse(host: Host, vehicle: I32, toggle: bool): (r: VcmpResult<()>)
    ensures Reports(r, host.ret(Call("SetVehicleOption", [Int(vehicle), Int(6), Flag(if toggle then 1 else 0)])))
  {
    Func.SetVehicleOption(host, vehicle, VehicleOption.SingleUse, toggle)
  }

  /** `set_vehicle_option_engine_disabled`. */
  function SetVehicleOptionEngineDisabled(host: Host, vehicle: I32, toggle: bool): (r: VcmpResult<()>)
    ensures Reports(r, host.ret(Call("SetVehicleOption", [Int(vehicle), Int(7), Flag(if toggle then 1 else 0)])))
  {
    Func.SetVehicleOption(host, vehicle, VehicleOption.EngineDisabled, toggle)
  }

  /** `set_vehicle_option_boot_open`. */
  function SetVehicleOptionBootOpen(host: Host, vehicle: I32, toggle: bool): (r: VcmpResult<()>)
    ensures Reports(r, host.ret(Call("SetVehicleOption", [Int(vehicle), Int(8), Flag(if toggle then 1 else 0)])))
  {
    Func.SetVehicleOption(host, vehicle, VehicleOption.BootOpen, toggle)
  }

  /** `set_vehicle_option_bonnet_open`. */
  function SetVehicleOptionBonnetOpen(host: Host, vehicle: I32, toggle: bool): (r: VcmpResult<()>)
    ensures Reports(r, host.ret(Call("SetVehicleOption", [Int(vehicle), Int(9), Flag(if toggle then 1 else 0)])))
  {
    Func.SetVehicleOption(host, vehicle, VehicleOption.BonnetOpen, toggle)
  }

  /** `set_vehicle_world`. */
  function SetVehicleWorld(host: Host, vehicle: I32, world: I32): (r: VcmpResult<()>)
    ensures Reports(r, host.ret(Call("SetVehicleWorld", [Int(vehicle), Int(world)])))
  {
    CheckCode(host.ret(Call("SetVehicleWorld", [Int(vehicle), Int(world)])))
  }

  /** `respawn_vehicle`. */
  function RespawnVehicle(host: Host, vehicle: I32): (r: VcmpResult<()>)
    ensures Reports(r, host.ret(Call("RespawnVehicle", [Int(vehicle)])))
  {
    CheckCode(host.ret(Call("RespawnVehicle", [Int(vehicle)])))
  }

  /** `set_vehicle_immunity`. */
  function SetVehicleImmunity(host: Host, vehicle: I32, immunity: U32): (r: VcmpResult<()>)
    ensures Reports(r, host.ret(Call("SetVehicleImmunityFlags", [Int(vehicle), Word(immunity)])))
  {
    CheckCode(host.ret(Call("SetVehicleImmunityFlags", [Int(vehicle), Word(immunity)])))
  }

  /** `explode_vehicle`. */
  function ExplodeVehicle(host: Host, vehicle: I32): (r: VcmpResult<()>)
    ensures Reports(r, host.ret(Call("ExplodeVehicle", [Int(vehicle)])))
  {
    CheckCode(host.ret(Call("ExplodeVehicle", [Int(vehicle)])))
  }

  /** `set_vehicle_position`: occupants are removed only for `Some(true)`; `None` sends 0. */
  function SetVehiclePosition(host: Host, vehicle: I32, position: Vector, removeOccupants: Option<bool>): (r: VcmpResult<()>)
    ensures Reports(r, host.ret(Call("SetVehiclePosition", [Int(vehicle), Float(position.x), Float(position.y),
      Float(position.z), Flag(if removeOccupants == Some(true) then 1 else 0)])))
  {
    var remove := if removeOccupants.Some? then removeOccupants.value else false;
    CheckCode(host.ret(Call("SetVehiclePosition", [Int(vehicle), Float(position.x), Float(position.y),
      Float(position.z), Flag(ByteOfBool(remove))])))
  }

  /** `set_vehicle_rotation`. */
  function SetVehicleRotation(host: Host, vehicle: I32, rotation: Quaternion): (r: VcmpResult<()>)
    ensures Reports(r, host.ret(Call("SetVehicleRotation", [Int(vehicle), Float(rotation.x), Float(rotation.y), Float(rotation.z), Float(rotation.w)])))
  {
    CheckCode(host.ret(Call("SetVehicleRotation", [Int(vehicle), Float(rotation.x), Float(rotation.y), Float(rotation.z), Float(rotation.w)])))
  }

  /** `set_vehicle_rotation_euler`. */
  function SetVehicleRotationEuler(host: Host, vehicle: I32, rotation: Vector): (r: VcmpResult<()>)
    ensures Reports(r, host.ret(Call("SetVehicleRotationEuler", [Int(vehicle), Float(rotation.x), Float(rotation.y), Float(rotation.z)])))
  {
    CheckCode(host.ret(Call("SetVehicleRotationEuler", [Int(vehicle), Float(rotation.x), Float(rotation.y), Float(rotation.z)])))
  }

  /** The call behind every speed setter: the vector and the (add, relative) flags. */
  function SpeedSetCall(entry: string, vehicle: I32, speed: Vector, add: bool, relative: bool): (c: Call)
    ensures c.entry == entry && |c.args| == 6 && c.args[0] == Int(vehicle)
    ensures c.args[4..] == [Flag(if add then 1 else 0), Flag(if relative then 1 else 0)]
  {
    Call(entry, [Int(vehicle), Float(speed.x), Float(speed.y), Float(speed.z), Flag(ByteOfBool(add)), Flag(ByteOfBool(relative))])
  }

  /** `set_vehicle_speed`: add flag 0, relative flag 0. */
  function SetVehicleSpeed(host: Host, vehicle: I32, speed: Vector): (r: VcmpResult<()>)
    ensures Reports(r, host.ret(Call("SetVehicleSpeed", [Int(vehicle), Float(speed.x), Float(speed.y), Float(speed.z), Flag(0), Flag(0)])))
  {
    CheckCode(host.ret(SpeedSetCall("SetVehicleSpeed", vehicle, speed, false, false)))
  }

  /** `set_vehicle_rel_speed`: add flag 0, relative flag 1. */
  function SetVehicleRelSpeed(host: Host, vehicle: I32, speed: Vector): (r: VcmpResult<()>)
    ensures Reports(r, host.ret(Call("SetVehicleSpeed", [Int(vehicle), Float(speed.x), Float(speed.y), Float(speed.z), Flag(0), Flag(1)])))
  {
    CheckCode(host.ret(SpeedSetCall("SetVehicleSpeed", vehicle, speed, false, true)))
  }

  /** `set_vehicle_turn_speed`: add flag 0, relative flag 0. */
  function SetVehicleTurnSpeed(host: Host, vehicle: I32, speed: Vector): (r: VcmpResult<()>)
    ensures Reports(r, host.ret(Call("SetVehicleTurnSpeed", [Int(vehicle), Float(speed.x), Float(speed.y), Float(speed.z), Flag(0), Flag(0)])))
  {
    CheckCode(host.ret(SpeedSetCall("SetVehicleTurnSpeed", vehicle, speed, false, false)))
  }

  /** `set_vehicle_rel_turn_speed`: add flag 0, relative flag 1. */
  function SetVehicleRelTurnSpeed(host: Host, vehicle: I32, speed: Vector): (r: VcmpResult<()>)
    ensures Reports(r, host.ret(Call("SetVehicleTurnSpeed", [Int(vehicle), Float(speed.x), Float(speed.y), Float(speed.z), Flag(0), Flag(1)])))
  {
    CheckCode(host.ret(SpeedSetCall("SetVehicleTurnSpeed", vehicle, speed, false, true)))
  }

  /** `set_vehicle_add_speed`: add flag 1, relative flag 0. */
  function SetVehicleAddSpeed(host: Host, vehicle: I32, speed: Vector): (r: VcmpResult<()>)
    ensures Reports(r, host.ret(Call("SetVehicleSpeed", [Int(vehicle), Float(speed.x), Float(speed.y), Float(speed.z), Flag(1), Flag(0)])))
  {
    CheckCode(host.ret(SpeedSetCall("SetVehicleSpeed", vehicle, speed, true, false)))
  }

  /** `set_vehicle_add_rel_speed`: add flag 1, relative flag 1. */
  function SetVehicleAddRelSpeed(host: Host, vehicle: I32, speed: Vector): (r: VcmpResult<()>)
    ensures Reports(r, host.ret(Call("SetVehicleSpeed", [Int(vehicle), Float(speed.x), Float(speed.y), Float(speed.z), Flag(1), Flag(1)])))
  {
    CheckCode(host.ret(SpeedSetCall("SetVehicleSpeed", vehicle, speed, true, true)))
  }

  /** `set_vehicle_add_turn_speed`: add flag 1, relative flag 0. */
  function SetVehicleAddTurnSpeed(host: Host, vehicle: I32, speed: Vector): (r: VcmpResult<()>)
    ensures Reports(r, host.ret(Call("SetVehicleTurnSpeed", [Int(vehicle), Float(speed.x), Float(speed.y), Float(speed.z), Flag(1), Flag(0)])))
  {
    CheckCode(host.ret(SpeedSetCall("SetVehicleTurnSpeed", vehicle, speed, true, false)))
  }

  /** `set_vehicle_add_rel_turn_speed`: add flag 1, relative flag 1. */
  function SetVehicleAddRelTurnSpeed(host: Host, vehicle: I32, speed: Vector): (r: VcmpResult<()>)
    ensures Reports(r, host.ret(Call("SetVehicleTurnSpeed", [Int(vehicle), Float(speed.x), Float(speed.y), Float(speed.z), Flag(1), Flag(1)])))
  {
    CheckCode(host.ret(SpeedSetCall("SetVehicleTurnSpeed", vehicle, speed, true, true)))
  }

  /** `set_vehicle_spawn_position`. */
  function SetVehicleSpawnPosition(host: Host, vehicle: I32, position: Vector): (r: VcmpResult<()>)
    ensures Reports(r, host.ret(Call("SetVehicleSpawnPosition", [Int(vehicle), Float(position.x), Float(position.y), Float(position.z)])))
  {
    CheckCode(host.ret(Call("SetVehicleSpawnPosition", [Int(vehicle), Float(position.x), Float(position.y), Float(position.z)])))
  }

  /** `set_vehicle_spawn_rotation`. */
  function SetVehicleSpawnRotation(host: Host, vehicle: I32, rotation: Quaternion): (r: VcmpResult<()>)
    ensures Reports(r, host.ret(Call("SetVehicleSpawnRotation", [Int(vehicle), Float(rotation.x), Float(rotation.y), Float(rotation.z), Float(rotation.w)])))
  {
    CheckCode(host.ret(Call("SetVehicleSpawnRotation", [Int(vehicle), Float(rotation.x), Float(rotation.y), Float(rotation.z), Float(rotation.w)])))
  }

  /** `set_vehicle_spawn_rotation_euler`. */
  function SetVehicleSpawnRotationEuler(host: Host, vehicle: I32, rotation: Vector): (r: VcmpResult<()>)
    ensures Reports(r, host.ret(Call("SetVehicleSpawnRotationEuler", [Int(vehicle), Float(rotation.x), Float(rotation.y), Float(rotation.z)])))
  {
    CheckCode(host.ret(Call("SetVehicleSpawnRotationEuler", [Int(vehicle), Float(rotation.x), Float(rotation.y), Float(rotation.z)])))
  }

  /** `set_vehicle_idle_respawn_timer`. */
  function SetVehicleIdleRespawnTimer(host: Host, vehicle: I32, timer: U32): (r: VcmpResult<()>)
    ensures Reports(r, host.ret(Call("SetVehicleIdleRespawnTimer", [Int(vehicle), Word(timer)])))
  {
    CheckCode(host.ret(Call("SetVehicleIdleRespawnTimer", [Int(vehicle), Word(timer)])))
  }

  /** `set_vehicle_health`. */
  function SetVehicleHealth(host: Host, vehicle: I32, health: F32): (r: VcmpResult<()>)
    ensures Reports(r, host.ret(Call("SetVehicleHealth", [Int(vehicle), Float(health)])))
  {
    CheckCode(host.ret(Call("SetVehicleHealth", [Int(vehicle), Float(health)])))
  }

  /** `set_vehicle_color`. */
  function SetVehicleColor(host: Host, vehicle: I32, primary: I32, secondary: I32): (r: VcmpResult<()>)
    ensures Reports(r, host.ret(Call("SetVehicleColour", [Int(vehicle), Int(primary), Int(secondary)])))
  {
    CheckCode(host.ret(Call("SetVehicleColour", [Int(vehicle), Int(primary), Int(secondary)])))
  }

  /** `set_vehicle_part_status`. */
  function SetVehiclePartStatus(host: Host, vehicle: I32, part: I32, status: I32): (r: VcmpResult<()>)
    ensures Reports(r, host.ret(Call("SetVehiclePartStatus", [Int(vehicle), Int(part), Int(status)])))
  {
    CheckCode(host.ret(Call("SetVehiclePartStatus", [Int(vehicle), Int(part), Int(status)])))
  }

  /** `set_vehicle_tyre_status`. */
  function SetVehicleTyreStatus(host: Host, vehicle: I32, tyre: I32, status: I32): (r: VcmpResult<()>)
    ensures Reports(r, host.ret(Call("SetVehicleTyreStatus", [Int(vehicle), Int(tyre), Int(status)])))
  {
    CheckCode(host.ret(Call("SetVehicleTyreStatus", [Int(vehicle), Int(tyre), Int(status)])))
  }

  /** `set_vehicle_damage_data`. */
  function SetVehicleDamageData(host: Host, vehicle: I32, data: U32): (r: VcmpResult<()>)
    ensures Reports(r, host.ret(Call("SetVehicleDamageData", [Int(vehicle), Word(data)])))
  {
    CheckCode(host.ret(Call("SetVehicleDamageData", [Int(vehicle), Word(data)])))
  }

  /** `set_vehicle_radio`. */
  function SetVehicleRadio(host: Host, vehicle: I32, radio: I32): (r: VcmpResult<()>)
    ensures Reports(r, host.ret(Call("SetVehicleRadio", [Int(vehicle), Int(radio)])))
  {
    CheckCode(host.ret(Call("SetVehicleRadio", [Int(vehicle), Int(radio)])))
  }

  /** `set_vehicle_lights_data`. */
  function SetVehicleLightsData(host: Host, vehicle: I32, data: U32): (r: VcmpResult<()>)
    ensures Reports(r, host.ret(Call("SetVehicleLightsData", [Int(vehicle), Word(data)])))
  {
    CheckCode(host.ret(Call("SetVehicleLightsData", [Int(vehicle), Word(data)])))
  }

  /** `is_vehicle_alive`: asks whether the entity exists in the `Vehicle` pool. */
  function IsVehicleAlive(host: Host, vehicle: I32): (b: bool)
    ensures b <==> host.ret(Call("CheckEntityExists", [Int(1), Int(vehicle)])) != 0
  {
    host.ret(ExistsCall(EntityPoolCode(EntityPool.Vehicle), vehicle)) != 0
  }

  /** `is_vehicle_streamed_for_player`. */
  function IsVehicleStreamedForPlayer(host: Host, player: I32, vehicle: I32): (b: bool)
    ensures b <==> host.ret(Call("IsVehicleStreamedForPlayer", [Int(player), Int(vehicle)])) != 0
  {
    host.ret(Call("IsVehicleStreamedForPlayer", [Int(player), Int(vehicle)])) != 0
  }

  /** `is_vehicle_wrecked`. */
  function IsVehicleWrecked(host: Host, vehicle: I32): (b: bool)
    ensures b <==> host.ret(Call("IsVehicleWrecked", [Int(vehicle)])) != 0
  {
    host.ret(Call("IsVehicleWrecked", [Int(vehicle)])) != 0
  }

  /** `get_vehicle_part_status`. */
  function GetVehiclePartStatus(host: Host, vehicle: I32, part: I32): (b: bool)
    ensures b <==> host.ret(Call("GetVehiclePartStatus", [Int(vehicle), Int(part)])) != 0
  {
    host.ret(Call("GetVehiclePartStatus", [Int(vehicle), Int(part)])) != 0
  }

  /** `get_vehicle_tyre_status`. */
  function GetVehicleTyreStatus(host: Host, vehicle: I32, tyre: I32): (b: bool)
    ensures b <==> host.ret(Call("GetVehicleTyreStatus", [Int(vehicle), Int(tyre)])) != 0
  {
    host.ret(Call("GetVehicleTyreStatus", [Int(vehicle), Int(tyre)])) != 0
  }

  /** `get_vehicle_position`: the out-parameters; the host code is ignored. */
  function GetVehiclePosition(host: Host, vehicle: I32): (v: Vector)
    ensures v == host.vector(Call("GetVehiclePosition", [Int(vehicle)])).1
  {
    host.vector(Call("GetVehiclePosition", [Int(vehicle)])).1
  }

  /** `get_vehicle_rotation`: the out-parameters; the host code is ignored. */
  function GetVehicleRotation(host: Host, vehicle: I32): (v: Quaternion)
    ensures v == host.quaternion(Call("GetVehicleRotation", [Int(vehicle)])).1
  {
    host.quaternion(Call("GetVehicleRotation", [Int(vehicle)])).1
  }

  /** `get_vehicle_rotation_euler`: the out-parameters; the host code is ignored. */
  function GetVehicleRotationEuler(host: Host, vehicle: I32): (v: Vector)
    ensures v == host.vector(Call("GetVehicleRotationEuler", [Int(vehicle)])).1
  {
    host.vector(Call("GetVehicleRotationEuler", [Int(vehicle)])).1
  }

  /** `get_vehicle_spawn_position`: the out-parameters; the host code is ignored. */
  function GetVehicleSpawnPosition(host: Host, vehicle: I32): (v: Vector)
    ensures v == host.vector(Call("GetVehicleSpawnPosition", [Int(vehicle)])).1
  {
    host.vector(Call("GetVehicleSpawnPosition", [Int(vehicle)])).1
  }

  /** `get_vehicle_spawn_rotation`: the out-parameters; the host code is ignored. */
  function GetVehicleSpawnRotation(host: Host, vehicle: I32): (v: Quaternion)
    ensures v == host.quaternion(Call("GetVehicleSpawnRotation", [Int(vehicle)])).1
  {
    host.quaternion(Call("GetVehicleSpawnRotation", [Int(vehicle)])).1
  }

  /** `get_vehicle_spawn_rotation_euler`: the out-parameters; the host code is ignored. */
  function GetVehicleSpawnRotationEuler(host: Host, vehicle: I32): (v: Vector)
    ensures v == host.vector(Call("GetVehicleSpawnRotationEuler", [Int(vehicle)])).1
  {
    host.vector(Call("GetVehicleSpawnRotationEuler", [Int(vehicle)])).1
  }

  /** The call behind every speed query: which speed, and the relative flag. */
  function SpeedQueryCall(entry: string, vehicle: I32, relative: bool): (c: Call)
    ensures c.entry == entry && |c.args| == 2 && c.args[0] == Int(vehicle)
    ensures c.args[1] == Flag(if relative then 1 else 0)
  {
    Call(entry, [Int(vehicle), Flag(ByteOfBool(relative))])
  }

  /** `get_vehicle_speed`: the non-relative speed (flag 0). */
  function GetVehicleSpeed(host: Host, vehicle: I32): (v: Vector)
    ensures v == host.vector(Call("GetVehicleSpeed", [Int(vehicle), Flag(0)])).1
  {
    host.vector(SpeedQueryCall("GetVehicleSpeed", vehicle, false)).1
  }

  /**
   * `get_vehicle_rel_speed` as written: it passes relative flag 0, so it
   * asks the host the very same question as `get_vehicle_speed`.
   */
  function GetVehicleRelSpeedAsWritten(host: Host, vehicle: I32): (v: Vector)
    ensures v == host.vector(Call("GetVehicleSpeed", [Int(vehicle), Flag(0)])).1
  {
    host.vector(SpeedQueryCall("GetVehicleSpeed", vehicle, false)).1
  }

  /**
   * `get_vehicle_rel_speed` as evidently intended: relative flag 1, the flag
   * `set_vehicle_rel_speed` sends and `get_vehicle_rel_turn_speed` reads with.
   */
  function GetVehicleRelSpeed(host: Host, vehicle: I32): (v: Vector)
    ensures v == host.vector(Call("GetVehicleSpeed", [Int(vehicle), Flag(1)])).1
  {
    host.vector(SpeedQueryCall("GetVehicleSpeed", vehicle, true)).1
  }

  /** `get_vehicle_turn_speed`: the non-relative turn speed (flag 0). */
  function GetVehicleTurnSpeed(host: Host, vehicle: I32): (v: Vector)
    ensures v == host.vector(Call("GetVehicleTurnSpeed", [Int(vehicle), Flag(0)])).1
  {
    host.vector(SpeedQueryCall("GetVehicleTurnSpeed", vehicle, false)).1
  }

  /** `get_vehicle_rel_turn_speed`: the relative turn speed (flag 1). */
  function GetVehicleRelTurnSpeed(host: Host, vehicle: I32): (v: Vector)
    ensures v == host.vector(Call("GetVehicleTurnSpeed", [Int(vehicle), Flag(1)])).1
  {
    host.vector(SpeedQueryCall("GetVehicleTurnSpeed", vehicle, true)).1
  }

  /**
   * Each relative getter reads with the relative flag its setter writes
   * with, and each plain getter with the plain setter's flag.
   */
  lemma SpeedFlagsMatchSetters(vehicle: I32, speed: Vector)
    ensures SpeedQueryCall("GetVehicleSpeed", vehicle, true).args[1] ==
            SpeedSetCall("SetVehicleSpeed", vehicle, speed, false, true).args[5] == Flag(1)
    ensures SpeedQueryCall("GetVehicleTurnSpeed", vehicle, true).args[1] ==
            SpeedSetCall("SetVehicleTurnSpeed", vehicle, speed, false, true).args[5] == Flag(1)
    ensures SpeedQueryCall("GetVehicleSpeed", vehicle, false).args[1] ==
            SpeedSetCall("SetVehicleSpeed", vehicle, speed, false, false).args[5] == Flag(0)
  {
  }

  /** A host whose answers depend only on whether the query carries relative flag 1. */
  function SpeedHost(plain: Vector, relative: Vector): Host {
    Host(
      (c: Call) => 0, (c: Call) => 0, (c: Call) => F64(0),
      (c: Call) => (0, if Flag(1) in c.args then relative else plain),
      (c: Call) => (0, Quaternion(F32(0), F32(0), F32(0), F32(0))),
      (c: Call) => (0, 0, 0, 0, 0), (c: Call) => (0, 0, 0, 0, 0),
      (c: Call) => (0, plain, 0, 0, 0), (c: Call) => (0, 0, F32(0), F32(0), 0, 0, 0),
      (c: Call) => [], (c: Call, p: PluginInfos.PluginInfo) => (0, p),
      (c: Call, s: Settings.ServerSettings) => (0, s))
  }

  /**
   * The discrepancy: on a host whose relative and plain speeds differ, the
   * relative getter as written returns the plain speed, while the corrected
   * getter returns the relative one.
   */
  lemma RelSpeedAsWrittenReadsPlainSpeed(plain: Vector, relative: Vector, vehicle: I32)
    requires plain != relative
    ensures GetVehicleRelSpeedAsWritten(SpeedHost(plain, relative), vehicle) == plain
    ensures GetVehicleRelSpeed(SpeedHost(plain, relative), vehicle) == relative
    ensures GetVehicleRelSpeedAsWritten(SpeedHost(plain, relative), vehicle) !=
            GetVehicleRelSpeed(SpeedHost(plain, relative), vehicle)
  {
    assert Flag(1) !in [Int(vehicle), Flag(0)];
    assert Flag(1) in [Int(vehicle), Flag(1)];
  }

  /** As written, the relative getter agrees with the plain getter on every host. */
  lemma RelSpeedAsWrittenIsPlainSpeed(host: Host, vehicle: I32)
    ensures GetVehicleRelSpeedAsWritten(host, vehicle) == GetVehicleSpeed(host, vehicle)
  {
  }

}
