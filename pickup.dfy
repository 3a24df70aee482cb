/** The pickup calls of `src/func/pickup.rs`. */
module Pickup {
  import opened Base
  import opened Errors
  import opened Options
  import opened Utils
  import opened Hosts

  /** `is_pickup_alive`: asks whether the entity exists in the `Pickup` pool. */
  function IsPickupAlive(host: Host, pickup: I32): (b: bool)
    ensures b <==> host.ret(Call("CheckEntityExists", [Int(3), Int(pickup)])) != 0
  {
    host.ret(ExistsCall(EntityPoolCode(EntityPool.Pickup), pickup)) != 0
  }

  /** `create_pickup`: the host's answer, the new pickup's id, unchanged; the automatic flag travels as 1 or 0. */
  function CreatePickup(host: Host, model: I32, world: I32, quantity: I32, position: Vector, alpha: I32, isAutomatic: bool): (id: I32)
    ensures id == host.ret(Call("CreatePickup", [Int(model), Int(world), Int(quantity), Float(position.x), Float(position.y), Float(position.z), Int(alpha), Flag(if isAutomatic then 1 else 0)]))
  {
    host.ret(Call("CreatePickup", [Int(model), Int(world), Int(quantity), Float(position.x), Float(position.y), Float(position.z), Int(alpha), Flag(ByteOfBool(isAutomatic))]))
  }

  /** `delete_pickup`. */
  function DeletePickup(host: Host, pickup: I32): (r: VcmpResult<()>)
    ensures Reports(r, host.ret(Call("DeletePickup", [Int(pickup)])))
  {
    CheckCode(host.ret(Call("DeletePickup", [Int(pickup)])))
  }

  /** `is_pickup_streamed_for_player`. */
  function IsPickupStreamedForPlayer(host: Host, pickup: I32, player: I32): (b: bool)
    ensures b <==> host.ret(Call("IsPickupStreamedForPlayer", [Int(pickup), Int(player)])) != 0
  {
    host.ret(Call("IsPickupStreamedForPlayer", [Int(pickup), Int(player)])) != 0
  }

  /** `set_pickup_world`. */
  function SetPickupWorld(host: Host, pickup: I32, world: I32): (r: VcmpResult<()>)
    ensures Reports(r, host.ret(Call("SetPickupWorld", [Int(pickup), Int(world)])))
  {
    CheckCode(host.ret(Call("SetPickupWorld", [Int(pickup), Int(world)])))
  }

  /** `set_pickup_alpha`. */
  function SetPickupAlpha(host: Host, pickup: I32, alpha: I32): (r: VcmpResult<()>)
    ensures Reports(r, host.ret(Call("SetPickupAlpha", [Int(pickup), Int(alpha)])))
  {
    CheckCode(host.ret(Call("SetPickupAlpha", [Int(pickup), Int(alpha)])))
  }

  /** `set_pickup_automatic`. */
  function SetPickupAutomatic(host: Host, pickup: I32, toggle: bool): (r: VcmpResult<()>)
    ensures Reports(r, host.ret(Call("SetPickupIsAutomatic", [Int(pickup), Flag(if toggle then 1 else 0)])))
  {
    CheckCode(host.ret(Call("SetPickupIsAutomatic", [Int(pickup), Flag(ByteOfBool(toggle))])))
  }

  /** `set_pickup_auto_timer`. */
  function SetPickupAutoTimer(host: Host, pickup: I32, duration: U32): (r: VcmpResult<()>)
    ensures Reports(r, host.ret(Call("SetPickupAutoTimer", [Int(pickup), Word(duration)])))
  {
    CheckCode(host.ret(Call("SetPickupAutoTimer", [Int(pickup), Word(duration)])))
  }

  /** `refresh_pickup`. */
  function RefreshPickup(host: Host, pickup: I32): (r: VcmpResult<()>)
    ensures Reports(r, host.ret(Call("RefreshPickup", [Int(pickup)])))
  {
    CheckCode(host.ret(Call("RefreshPickup", [Int(pickup)])))
  }

  /** `set_pickup_position`. */
  function SetPickupPosition(host: Host, pickup: I32, position: Vector): (r: VcmpResult<()>)
    ensures Reports(r, host.ret(Call("SetPickupPosition", [Int(pickup), Float(position.x), Float(position.y), Float(position.z)])))
  {
    CheckCode(host.ret(Call("SetPickupPosition", [Int(pickup), Float(position.x), Float(position.y), Float(position.z)])))
  }

  /** `is_pickup_automatic`. */
  function IsPickupAutomatic(host: Host, pickup: I32): (b: bool)
    ensures b <==> host.ret(Call("IsPickupAutomatic", [Int(pickup)])) != 0
  {
    host.ret(Call("IsPickupAutomatic", [Int(pickup)])) != 0
  }

  /** `get_pickup_position`: the out-parameters on success. */
  function GetPickupPosition(host: Host, pickup: I32): (r: VcmpResult<Vector>)
    ensures Reports(r, host.vector(Call("GetPickupPosition", [Int(pickup)])).0)
    ensures r.Ok? ==> r.value == host.vector(Call("GetPickupPosition", [Int(pickup)])).1
  {
    var (code, outputs) := host.vector(Call("GetPickupPosition", [Int(pickup)]));
    CheckCodeWith(code, outputs)
  }

  /** `is_pickup_single_use`: the option index it passes is the single-use option's code. */
  function IsPickupSingleUse(host: Host, pickup: I32): (b: bool)
    ensures b <==> host.ret(Call("GetPickupOption", [Int(pickup), Int(PickupOptionCode(PickupOption.SingleUse))])) != 0
  {
    host.ret(Call("GetPickupOption", [Int(pickup), Int(0)])) != 0
  }

  /** `set_pickup_single_use`: the same option index, and the toggle as 1 or 0. */
  function SetPickupSingleUse(host: Host, pickup: I32, toggle: bool): (r: VcmpResult<()>)
    ensures Reports(r, host.ret(Call("SetPickupOption",
      [Int(pickup), Int(PickupOptionCode(PickupOption.SingleUse)), Flag(if toggle then 1 else 0)])))
  {
    CheckCode(host.ret(Call("SetPickupOption", [Int(pickup), Int(0), Flag(ByteOfBool(toggle))])))
  }
}
