/** The object calls of `src/func/object.rs`. */
module Object {
  import opened Base
  import opened Errors
  import opened Options
  import opened Utils
  import opened Hosts

  /** `is_object_alive`: asks whether the entity exists in the `Object` pool. */
  function IsObjectAlive(host: Host, obj: I32): (b: bool)
    ensures b <==> host.ret(Call("CheckEntityExists", [Int(2), Int(obj)])) != 0
  {
    host.ret(ExistsCall(EntityPoolCode(EntityPool.Object), obj)) != 0
  }

  /** `create_object`: the host's answer, the new object's id, unchanged. */
  function CreateObject(host: Host, model: I32, world: I32, position: Vector, alpha: I32): (id: I32)
    ensures id == host.ret(Call("CreateObject", [Int(model), Int(world), Float(position.x), Float(position.y), Float(position.z), Int(alpha)]))
  {
    host.ret(Call("CreateObject", [Int(model), Int(world), Float(position.x), Float(position.y), Float(position.z), Int(alpha)]))
  }

  /** `delete_object`. */
  function DeleteObject(host: Host, obj: I32): (r: VcmpResult<()>)
    ensures Reports(r, host.ret(Call("DeleteObject", [Int(obj)])))
  {
    CheckCode(host.ret(Call("DeleteObject", [Int(obj)])))
  }

  /** `is_object_streamed_for_player`. */
  function IsObjectStreamedForPlayer(host: Host, obj: I32, player: I32): (b: bool)
    ensures b <==> host.ret(Call("IsObjectStreamedForPlayer", [Int(obj), Int(player)])) != 0
  {
    host.ret(Call("IsObjectStreamedForPlayer", [Int(obj), Int(player)])) != 0
  }

  /** `set_object_world`. */
  function SetObjectWorld(host: Host, obj: I32, world: I32): (r: VcmpResult<()>)
    ensures Reports(r, host.ret(Call("SetObjectWorld", [Int(obj), Int(world)])))
  {
    CheckCode(host.ret(Call("SetObjectWorld", [Int(obj), Int(world)])))
  }

  /** `set_object_alpha`. */
  function SetObjectAlpha(host: Host, obj: I32, alpha: I32, duration: U32): (r: VcmpResult<()>)
    ensures Reports(r, host.ret(Call("SetObjectAlpha", [Int(obj), Int(alpha), Word(duration)])))
  {
    CheckCode(host.ret(Call("SetObjectAlpha", [Int(obj), Int(alpha), Word(duration)])))
  }

  /** `move_object_to`. */
  function MoveObjectTo(host: Host, obj: I32, position: Vector, duration: U32): (r: VcmpResult<()>)
    ensures Reports(r, host.ret(Call("MoveObjectTo", [Int(obj), Float(position.x), Float(position.y), Float(position.z), Word(duration)])))
  {
    CheckCode(host.ret(Call("MoveObjectTo", [Int(obj), Float(position.x), Float(position.y), Float(position.z), Word(duration)])))
  }

  /** `move_object_by`. */
  function MoveObjectBy(host: Host, obj: I32, position: Vector, duration: U32): (r: VcmpResult<()>)
    ensures Reports(r, host.ret(Call("MoveObjectBy", [Int(obj), Float(position.x), Float(position.y), Float(position.z), Word(duration)])))
  {
    CheckCode(host.ret(Call("MoveObjectBy", [Int(obj), Float(position.x), Float(position.y), Float(position.z), Word(duration)])))
  }

  /** `set_object_position`. */
  function SetObjectPosition(host: Host, obj: I32, position: Vector): (r: VcmpResult<()>)
    ensures Reports(r, host.ret(Call("SetObjectPosition", [Int(obj), Float(position.x), Float(position.y), Float(position.z)])))
  {
    CheckCode(host.ret(Call("SetObjectPosition", [Int(obj), Float(position.x), Float(position.y), Float(position.z)])))
  }

  /** `rotate_object_to`. */
  function RotateObjectTo(host: Host, obj: I32, rotation: Quaternion, duration: U32): (r: VcmpResult<()>)
    ensures Reports(r, host.ret(Call("RotateObjectTo", [Int(obj), Float(rotation.x), Float(rotation.y), Float(rotation.z), Float(rotation.w), Word(duration)])))
  {
    CheckCode(host.ret(Call("RotateObjectTo", [Int(obj), Float(rotation.x), Float(rotation.y), Float(rotation.z), Float(rotation.w), Word(duration)])))
  }

  /** `rotate_object_to_euler`. */
  function RotateObjectToEuler(host: Host, obj: I32, rotation: Vector, duration: U32): (r: VcmpResult<()>)
    ensures Reports(r, host.ret(Call("RotateObjectToEuler", [Int(obj), Float(rotation.x), Float(rotation.y), Float(rotation.z), Word(duration)])))
  {
    CheckCode(host.ret(Call("RotateObjectToEuler", [Int(obj), Float(rotation.x), Float(rotation.y), Float(rotation.z), Word(duration)])))
  }

  /** `rotate_object_by`. */
  function RotateObjectBy(host: Host, obj: I32, rotation: Quaternion, duration: U32): (r: VcmpResult<()>)
    ensures Reports(r, host.ret(Call("RotateObjectBy", [Int(obj), Float(rotation.x), Float(rotation.y), Float(rotation.z), Float(rotation.w), Word(duration)])))
  {
    CheckCode(host.ret(Call("RotateObjectBy", [Int(obj), Float(rotation.x), Float(rotation.y), Float(rotation.z), Float(rotation.w), Word(duration)])))
  }

  /** `rotate_object_by_euler`. */
  function RotateObjectByEuler(host: Host, obj: I32, rotation: Vector, duration: U32): (r: VcmpResult<()>)
    ensures Reports(r, host.ret(Call("RotateObjectByEuler", [Int(obj), Float(rotation.x), Float(rotation.y), Float(rotation.z), Word(duration)])))
  {
    CheckCode(host.ret(Call("RotateObjectByEuler", [Int(obj), Float(rotation.x), Float(rotation.y), Float(rotation.z), Word(duration)])))
  }

  /** `set_object_shot_report_enabled`. */
  function SetObjectShotReportEnabled(host: Host, obj: I32, toggle: bool): (r: VcmpResult<()>)
    ensures Reports(r, host.ret(Call("SetObjectShotReportEnabled", [Int(obj), Flag(if toggle then 1 else 0)])))
  {
    CheckCode(host.ret(Call("SetObjectShotReportEnabled", [Int(obj), Flag(ByteOfBool(toggle))])))
  }

  /** `set_object_touched_report_enabled`. */
  function SetObjectTouchedReportEnabled(host: Host, obj: I32, toggle: bool): (r: VcmpResult<()>)
    ensures Reports(r, host.ret(Call("SetObjectTouchedReportEnabled", [Int(obj), Flag(if toggle then 1 else 0)])))
  {
    CheckCode(host.ret(Call("SetObjectTouchedReportEnabled", [Int(obj), Flag(ByteOfBool(toggle))])))
  }

  /** `get_object_position`: the out-parameters on success. */
  function GetObjectPosition(host: Host, obj: I32): (r: VcmpResult<Vector>)
    ensures Reports(r, host.vector(Call("GetObjectPosition", [Int(obj)])).0)
    ensures r.Ok? ==> r.value == host.vector(Call("GetObjectPosition", [Int(obj)])).1
  {
    var (code, outputs) := host.vector(Call("GetObjectPosition", [Int(obj)]));
    CheckCodeWith(code, outputs)
  }

  /** `get_object_rotation`: the out-parameters on success. */
  function GetObjectRotation(host: Host, obj: I32): (r: VcmpResult<Quaternion>)
    ensures Reports(r, host.quaternion(Call("GetObjectRotation", [Int(obj)])).0)
    ensures r.Ok? ==> r.value == host.quaternion(Call("GetObjectRotation", [Int(obj)])).1
  {
    var (code, outputs) := host.quaternion(Call("GetObjectRotation", [Int(obj)]));
    CheckCodeWith(code, outputs)
  }

  /** `get_object_rotation_euler`: the out-parameters on success. */
  function GetObjectRotationEuler(host: Host, obj: I32): (r: VcmpResult<Vector>)
    ensures Reports(r, host.vector(Call("GetObjectRotationEuler", [Int(obj)])).0)
    ensures r.Ok? ==> r.value == host.vector(Call("GetObjectRotationEuler", [Int(obj)])).1
  {
    var (code, outputs) := host.vector(Call("GetObjectRotationEuler", [Int(obj)]));
    CheckCodeWith(code, outputs)
  }

  /** `is_object_shot_report_enabled`. */
  function IsObjectShotReportEnabled(host: Host, obj: I32): (b: bool)
    ensures b <==> host.ret(Call("IsObjectShotReportEnabled", [Int(obj)])) != 0
  {
    host.ret(Call("IsObjectShotReportEnabled", [Int(obj)])) != 0
  }

  /** `is_object_touched_report_enabled`. */
  function IsObjectTouchedReportEnabled(host: Host, obj: I32): (b: bool)
    ensures b <==> host.ret(Call("IsObjectTouchedReportEnabled", [Int(obj)])) != 0
  {
    host.ret(Call("IsObjectTouchedReportEnabled", [Int(obj)])) != 0
  }

}
