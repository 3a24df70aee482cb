/**
 * The host side of the C ABI.  The host's function table (`PluginFuncs`) is
 * modelled as a value of type `Host`: for each entry point, identified by
 * its field name in the table and the exact arguments it receives, the host
 * answers with its return value and whatever it writes through out-pointers.
 * Different entry points answer in different shapes, so `Host` has one
 * field per shape.
 */
module Hosts {
  import opened Base
  import opened Errors
  import opened Utils
  import opened PluginInfos
  import opened Settings

  /** One argument as it crosses the C ABI. */
  datatype Arg =
    | Int(i: I32)          // i32
    | Word(w: U32)         // u32
    | Short(h: U16)        // u16
    | Flag(b: Byte)        // u8, which carries every bool as 0 or 1
    | Float(f: F32)        // f32
    | Bytes(bytes: seq<Byte>)  // a pointer to bytes, given by the bytes it points to
    | Size(n: nat)         // usize

  /** A call of the entry point named `entry` with `args`; out-pointers are not listed. */
  datatype Call = Call(entry: string, args: seq<Arg>)

  datatype Host = Host(
    /** The `i32` (or `u8`, widened) return value. */
    ret: Call -> I32,
    /** The `u32` return value. */
    word: Call -> U32,
    /** The `f64` return value. */
    double: Call -> F64,
    /** The return code and three `f32` out-parameters. */
    vector: Call -> (I32, Vector),
    /** The return code and four `f32` out-parameters. */
    quaternion: Call -> (I32, Quaternion),
    /** The return code and four `i32` out-parameters. */
    channels: Call -> (I32, I32, I32, I32, I32),
    /** The return code and a key bind's release byte and three keys. */
    keyBind: Call -> (I32, Byte, I32, I32, I32),
    /** A marker's world, position, scale, packed colour and sprite. */
    marker: Call -> (I32, Vector, I32, U32, I32),
    /** The seven wasted-screen out-parameters. */
    wasted: Call -> (U32, U32, F32, F32, U32, U32, U32),
    /**
     * The caller's zeroed 1024-byte text buffer after the call. The length is
     * not constrained: the text getters' contracts hold for a reply of any length.
     */
    buffer: Call -> seq<Byte>,
    /** The return code and the plugin record after the host filled in the one it was given. */
    pluginInfo: (Call, PluginInfo) -> (I32, PluginInfo),
    /** The return code and the settings record after the host filled in the one it was given. */
    settings: (Call, ServerSettings) -> (I32, ServerSettings))

  /** The size of the text buffers the bindings hand to the host. */
  const TextBufferSize := 1024

  /**
   * `r` reports the host code `code` the way every fallible call does:
   * `Ok` exactly when the code is 0, and otherwise the decoded error, which
   * is never `VcmpError::None` and encodes back to the code.
   */
  ghost predicate Reports<T>(r: VcmpResult<T>, code: I32) {
    && (r.Ok? <==> code == 0)
    && (r.Err? ==> r.error == FromCode(code) && r.error != VcmpError.None && ToCode(r.error) == code)
  }

  /** `if code != 0 { Err(VcmpError::from(code)) } else { Ok(()) }`. */
  function CheckCode(code: I32): (r: VcmpResult<()>)
    ensures Reports(r, code)
  {
    if code != 0 then Err(FromCode(code)) else Ok(())
  }

  /** The same branch for a getter whose outputs are returned on success. */
  function CheckCodeWith<T>(code: I32, outputs: T): (r: VcmpResult<T>)
    ensures Reports(r, code)
    ensures r.Ok? ==> r.value == outputs
  {
    if code != 0 then Err(FromCode(code)) else Ok(outputs)
  }

  /** The call behind every `is_*_alive` query: does entity `id` exist in the pool coded `pool`? */
  function ExistsCall(pool: I32, id: I32): Call {
    Call("CheckEntityExists", [Int(pool), Int(id)])
  }
}
