/** The key-bind calls of `src/func/keybind.rs`. */
module Keybinds {
  import opened Base
  import opened Errors
  import opened Utils
  import opened Hosts

  /** The arguments of `RegisterKeyBind` for the bind `k`: slot, release flag as 1 or 0, the three keys. */
  function KeybindArgs(k: Keybind): seq<Arg> {
    [Int(k.slot), Flag(ByteOfBool(k.canRelease)), Int(k.key), Int(k.key2), Int(k.key3)]
  }

  /** `get_key_bind_unused_slot`: the host's answer, unchanged. */
  function GetKeyBindUnusedSlot(host: Host): (slot: I32)
    ensures slot == host.ret(Call("GetKeyBindUnusedSlot", []))
  {
    host.ret(Call("GetKeyBindUnusedSlot", []))
  }

  /**
   * `register_key_bind`: takes the slot the host reports unused, defaults the
   * missing keys to 0, registers the bind (discarding the host's code) and
   * returns the bind it registered, together with the registering call.
   */
  function RegisterKeyBind(host: Host, release: bool, key1: I32, key2: Option<I32>, key3: Option<I32>): (result: (Keybind, Call))
    ensures result.0.slot == host.ret(Call("GetKeyBindUnusedSlot", []))
    ensures result.0.canRelease == release && result.0.key == key1
    ensures result.0.key2 == (if key2.Some? then key2.value else 0)
    ensures result.0.key3 == (if key3.Some? then key3.value else 0)
    ensures result.1 == Call("RegisterKeyBind",
      [Int(result.0.slot), Flag(if release then 1 else 0), Int(key1), Int(result.0.key2), Int(result.0.key3)])
  {
    var slot := GetKeyBindUnusedSlot(host);
    var k2 := match key2 case Some(k) => k case None => 0;
    var k3 := match key3 case Some(k) => k case None => 0;
    var bind := Keybind(slot, release, key1, k2, k3);
    (bind, Call("RegisterKeyBind", KeybindArgs(bind)))
  }

  /** `get_key_bind_data`: on success the bind in `slot`, releasable exactly when the host's byte is nonzero. */
  function GetKeyBindData(host: Host, slot: I32): (r: VcmpResult<Keybind>)
    ensures var (code, release, key, key2, key3) := host.keyBind(Call("GetKeyBindData", [Int(slot)]));
      && Reports(r, code)
      && (r.Ok? ==> r.value.slot == slot && (r.value.canRelease <==> release != 0))
      && (r.Ok? ==> r.value.key == key && r.value.key2 == key2 && r.value.key3 == key3)
  {
    var (code, release, key, key2, key3) := host.keyBind(Call("GetKeyBindData", [Int(slot)]));
    if code != 0 then Err(FromCode(code)) else Ok(Keybind(slot, release != 0, key, key2, key3))
  }

  /**
   * A host that reports back what `register_key_bind` sent, for the slot it
   * used, gives back the very bind that `register_key_bind` returned.
   */
  lemma RegisterThenGetKeyBind(host: Host, release: bool, key1: I32, key2: Option<I32>, key3: Option<I32>,
                               bind: Keybind, sent: Call)
    requires (bind, sent) == RegisterKeyBind(host, release, key1, key2, key3)
    requires host.keyBind(Call("GetKeyBindData", [sent.args[0]]))
      == (0, sent.args[1].b, sent.args[2].i, sent.args[3].i, sent.args[4].i)
    ensures GetKeyBindData(host, bind.slot) == Ok(bind)
  {
  }
}
