/** The checkpoint calls of `src/func/checkpoint.rs`. */
module Checkpoint {
  import opened Base
  import opened Errors
  import opened Options
  import opened Utils
  import opened Hosts

  /**
   * `x as u8` on an `i32`: keeps the low eight bits of the two's-complement
   * value, so the result is the byte congruent to `x` modulo 256, and a value
   * already in 0..255 is kept as it is.
   */
  function Narrow(x: I32): (b: Byte)
    ensures (x - b as int) % 256 == 0
    ensures 0 <= x < 256 ==> b as int == x
  {
    ByteOf(x % 256)
  }

  /** The four colour components widened to `i32` (`color.r as i32`, ...), red first. */
  function ColourArgs(color: Color): (args: seq<Arg>)
    ensures |args| == 4
    ensures args[0].Int? && args[1].Int? && args[2].Int? && args[3].Int?
    ensures 0 <= args[0].i < 256 && 0 <= args[1].i < 256 && 0 <= args[2].i < 256 && 0 <= args[3].i < 256
  {
    ByteInt(color.r);
    ByteInt(color.g);
    ByteInt(color.b);
    ByteInt(color.a);
    [Int(color.r as int), Int(color.g as int), Int(color.b as int), Int(color.a as int)]
  }

  /** Narrowing the four components that were sent rebuilds the colour. */
  lemma ColourArgsNarrow(color: Color)
    ensures var args := ColourArgs(color);
      Color(Narrow(args[0].i), Narrow(args[1].i), Narrow(args[2].i), Narrow(args[3].i)) == color
  {
    NarrowWiden(color.r);
    NarrowWiden(color.g);
    NarrowWiden(color.b);
    NarrowWiden(color.a);
  }

  /** Narrowing a widened byte gives the byte back. */
  lemma NarrowWiden(b: Byte)
    ensures 0 <= b as int < 256
    ensures Narrow(b as int) == b
  {
    ByteInt(b);
    var c := Narrow(b as int);
    assert c as int == b as int;
    ByteInt(c);
  }

  /** `is_checkpoint_alive`: asks whether the entity exists in the `CheckPoint` pool. */
  function IsCheckpointAlive(host: Host, checkpoint: I32): (b: bool)
    ensures b <==> host.ret(Call("CheckEntityExists", [Int(8), Int(checkpoint)])) != 0
  {
    host.ret(ExistsCall(EntityPoolCode(EntityPool.CheckPoint), checkpoint)) != 0
  }

  /**
   * `create_checkpoint`: an absent owner travels as -1, the sphere flag as 1
   * or 0 and the colour as four widened components; the host's answer, the
   * new checkpoint's id, is returned unchanged.
   */
  function CreateCheckpoint(host: Host, player: Option<I32>, world: I32, isSphere: bool,
                            position: Vector, color: Color, radius: F32): (id: I32)
    ensures id == host.ret(Call("CreateCheckPoint",
      [Int(if player.Some? then player.value else -1), Int(world), Flag(if isSphere then 1 else 0),
       Float(position.x), Float(position.y), Float(position.z)] + ColourArgs(color) + [Float(radius)]))
  {
    var owner := match player case Some(p) => p case None => -1;
    host.ret(Call("CreateCheckPoint",
      [Int(owner), Int(world), Flag(ByteOfBool(isSphere)), Float(position.x), Float(position.y), Float(position.z)]
      + ColourArgs(color) + [Float(radius)]))
  }

  /** `delete_checkpoint`. */
  function DeleteCheckpoint(host: Host, checkpoint: I32): (r: VcmpResult<()>)
    ensures Reports(r, host.ret(Call("DeleteCheckPoint", [Int(checkpoint)])))
  {
    CheckCode(host.ret(Call("DeleteCheckPoint", [Int(checkpoint)])))
  }

  /** `is_checkpoint_streamed_for_player`. */
  function IsCheckpointStreamedForPlayer(host: Host, checkpoint: I32, player: I32): (b: bool)
    ensures b <==> host.ret(Call("IsCheckPointStreamedForPlayer", [Int(checkpoint), Int(player)])) != 0
  {
    host.ret(Call("IsCheckPointStreamedForPlayer", [Int(checkpoint), Int(player)])) != 0
  }

  /** `is_checkpoint_sphere`. */
  function IsCheckpointSphere(host: Host, checkpoint: I32): (b: bool)
    ensures b <==> host.ret(Call("IsCheckPointSphere", [Int(checkpoint)])) != 0
  {
    host.ret(Call("IsCheckPointSphere", [Int(checkpoint)])) != 0
  }

  /** `set_checkpoint_world`. */
  function SetCheckpointWorld(host: Host, checkpoint: I32, world: I32): (r: VcmpResult<()>)
    ensures Reports(r, host.ret(Call("SetCheckPointWorld", [Int(checkpoint), Int(world)])))
  {
    CheckCode(host.ret(Call("SetCheckPointWorld", [Int(checkpoint), Int(world)])))
  }

  /** `get_checkpoint_world`: the host's answer, unchanged. */
  function GetCheckpointWorld(host: Host, checkpoint: I32): (id: I32)
    ensures id == host.ret(Call("GetCheckPointWorld", [Int(checkpoint)]))
  {
    host.ret(Call("GetCheckPointWorld", [Int(checkpoint)]))
  }

  /** `set_checkpoint_colour`: the four widened components. */
  function SetCheckpointColour(host: Host, checkpoint: I32, color: Color): (r: VcmpResult<()>)
    ensures Reports(r, host.ret(Call("SetCheckPointColour", [Int(checkpoint)] + ColourArgs(color))))
  {
    CheckCode(host.ret(Call("SetCheckPointColour", [Int(checkpoint)] + ColourArgs(color))))
  }

  /**
   * `get_checkpoint_colour`: on success each `i32` out-parameter narrowed to
   * a byte.
   */
  function GetCheckpointColour(host: Host, checkpoint: I32): (r: VcmpResult<Color>)
    ensures var (code, red, green, blue, alpha) := host.channels(Call("GetCheckPointColour", [Int(checkpoint)]));
      && Reports(r, code)
      && (r.Ok? ==> r.value == Color(Narrow(red), Narrow(green), Narrow(blue), Narrow(alpha)))
  {
    var (code, red, green, blue, alpha) := host.channels(Call("GetCheckPointColour", [Int(checkpoint)]));
    if code != 0 then Err(FromCode(code))
    else Ok(Color(Narrow(red), Narrow(green), Narrow(blue), Narrow(alpha)))
  }

  /**
   * A host that reports back the components `set_checkpoint_colour` sent
   * gives back the colour that was set.
   */
  lemma CheckpointColourRoundTrip(host: Host, checkpoint: I32, color: Color)
    requires var args := ColourArgs(color);
      host.channels(Call("GetCheckPointColour", [Int(checkpoint)])) == (0, args[0].i, args[1].i, args[2].i, args[3].i)
    ensures GetCheckpointColour(host, checkpoint) == Ok(color)
  {
    ColourArgsNarrow(color);
  }

  /** `set_checkpoint_position`. */
  function SetCheckpointPosition(host: Host, checkpoint: I32, position: Vector): (r: VcmpResult<()>)
    ensures Reports(r, host.ret(Call("SetCheckPointPosition", [Int(checkpoint), Float(position.x), Float(position.y), Float(position.z)])))
  {
    CheckCode(host.ret(Call("SetCheckPointPosition", [Int(checkpoint), Float(position.x), Float(position.y), Float(position.z)])))
  }

  /** `get_checkpoint_position`: the out-parameters on success. */
  function GetCheckpointPosition(host: Host, checkpoint: I32): (r: VcmpResult<Vector>)
    ensures Reports(r, host.vector(Call("GetCheckPointPosition", [Int(checkpoint)])).0)
    ensures r.Ok? ==> r.value == host.vector(Call("GetCheckPointPosition", [Int(checkpoint)])).1
  {
    var (code, outputs) := host.vector(Call("GetCheckPointPosition", [Int(checkpoint)]));
    CheckCodeWith(code, outputs)
  }

  /** `set_checkpoint_radius`. */
  function SetCheckpointRadius(host: Host, checkpoint: I32, radius: F32): (r: VcmpResult<()>)
    ensures Reports(r, host.ret(Call("SetCheckPointRadius", [Int(checkpoint), Float(radius)])))
  {
    CheckCode(host.ret(Call("SetCheckPointRadius", [Int(checkpoint), Float(radius)])))
  }

  /** `get_checkpoint_owner`: the host's answer, unchanged. */
  function GetCheckpointOwner(host: Host, checkpoint: I32): (id: I32)
    ensures id == host.ret(Call("GetCheckPointOwner", [Int(checkpoint)]))
  {
    host.ret(Call("GetCheckPointOwner", [Int(checkpoint)]))
  }

}
