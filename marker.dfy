/** The map-marker (coordinate blip) calls of `src/func/marker.rs`. */
module Markers {
  import opened Base
  import opened Errors
  import opened Options
  import opened Utils
  import opened Hosts

  /** `is_marker_alive`: asks whether the entity exists in the `Marker` pool. */
  function IsMarkerAlive(host: Host, marker: I32): (b: bool)
    ensures b <==> host.ret(Call("CheckEntityExists", [Int(7), Int(marker)])) != 0
  {
    host.ret(ExistsCall(EntityPoolCode(EntityPool.Marker), marker)) != 0
  }

  /**
   * The call `create_marker` makes: an absent index travels as -1 and the
   * colour packed as RGBA, from which the host can unpack it again.
   */
  function CreateMarkerCall(world: I32, position: Vector, scale: I32, color: Color, sprite: I32, index: Option<I32>): (c: Call)
    ensures c.entry == "CreateCoordBlip" && |c.args| == 8
    ensures c.args[0] == Int(if index.Some? then index.value else -1)
    ensures c.args[1..6] == [Int(world), Float(position.x), Float(position.y), Float(position.z), Int(scale)]
    ensures c.args[6].Word? && FromRgba(c.args[6].w) == color
    ensures c.args[7] == Int(sprite)
  {
    RgbaRoundTrip(color);
    var idx := match index case Some(i) => i case None => -1;
    Call("CreateCoordBlip",
      [Int(idx), Int(world), Float(position.x), Float(position.y), Float(position.z), Int(scale), Word(AsRgba(color)), Int(sprite)])
  }

  /** `create_marker`: the host's answer to that call, the new marker's id, unchanged. */
  function CreateMarker(host: Host, world: I32, position: Vector, scale: I32, color: Color, sprite: I32, index: Option<I32>): (id: I32)
    ensures id == host.ret(CreateMarkerCall(world, position, scale, color, sprite, index))
  {
    host.ret(CreateMarkerCall(world, position, scale, color, sprite, index))
  }

  /** `destory_marker`: the call it makes; the host's return value is discarded. */
  function DestroyMarkerCall(marker: I32): (c: Call)
    ensures c.entry == "DestroyCoordBlip" && c.args == [Int(marker)]
  {
    Call("DestroyCoordBlip", [Int(marker)])
  }

  /**
   * `get_marker_info`: the id asked for, with the host's out-parameters; the
   * packed colour is unpacked as RGBA, so packing the result gives back the
   * host's word.  The host's return code is ignored.
   */
  function GetMarkerInfo(host: Host, marker: I32): (m: Marker)
    ensures var (world, position, scale, color, sprite) := host.marker(Call("GetCoordBlipInfo", [Int(marker)]));
      && m.marker == marker && m.world == world && m.position == position
      && m.scale == scale && AsRgba(m.color) == color && m.sprite == sprite
  {
    var (world, position, scale, color, sprite) := host.marker(Call("GetCoordBlipInfo", [Int(marker)]));
    Utils.Marker(marker, world, position, scale, FromRgba(color), sprite)
  }

  /**
   * A host that reports back the values `create_marker` sent, for the id it
   * answered, gives back the marker as it was created.
   */
  lemma CreateThenGetMarker(host: Host, world: I32, position: Vector, scale: I32, color: Color, sprite: I32, index: Option<I32>)
    requires var c := CreateMarkerCall(world, position, scale, color, sprite, index);
      host.marker(Call("GetCoordBlipInfo", [Int(CreateMarker(host, world, position, scale, color, sprite, index))]))
        == (world, position, scale, c.args[6].w, sprite)
    ensures var id := CreateMarker(host, world, position, scale, color, sprite, index);
      GetMarkerInfo(host, id) == Utils.Marker(id, world, position, scale, color, sprite)
  {
    var c := CreateMarkerCall(world, position, scale, color, sprite, index);
    var id := CreateMarker(host, world, position, scale, color, sprite, index);
    var m := GetMarkerInfo(host, id);
    assert AsRgba(m.color) == c.args[6].w;
    RgbaRoundTrip(m.color);
  }
}
