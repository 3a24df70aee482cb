/** The plugin calls of `src/func/plugin.rs`. */
module Plugins {
  import opened Base
  import opened Errors
  import opened Text
  import opened PluginInfos
  import opened Hosts

  /** `get_plugin_count`: the host's answer, unchanged. */
  function GetPluginCount(host: Host): (n: U32)
    ensures n == host.word(Call("GetNumberOfPlugins", []))
  {
    host.word(Call("GetNumberOfPlugins", []))
  }

  /**
   * `get_plugin_info`: hands the host an empty record (structure size 48)
   * to fill; the filled record when the host answers 0, and nothing otherwise.
   */
  function GetPluginInfo(host: Host, id: I32): (r: Option<PluginInfo>)
    ensures var (code, filled) := host.pluginInfo(Call("GetPluginInfo", [Int(id)]), NewEmptyPluginInfo());
      && (r.None? <==> code != 0)
      && (r.Some? ==> r.value == filled)
  {
    var info := NewEmptyPluginInfo();
    var (code, filled) := host.pluginInfo(Call("GetPluginInfo", [Int(id)]), info);
    if code != 0 then Option.None else Some(filled)
  }

  /**
   * `find_plugin`: the name goes out as UTF-8 with a terminating NUL, so a
   * name without NULs reaches the host whole; -1 means not found, any other
   * answer is the plugin's id.
   */
  function FindPlugin(host: Host, name: string): (r: Option<I32>)
    ensures var res := host.ret(Call("FindPlugin", [Bytes(Utf8(name) + [0])]));
      && (r.None? <==> res == -1)
      && (r.Some? ==> r.value == res)
    ensures '\0' !in name ==> CStr(Utf8(name) + [0]) == Utf8(name)
  {
    Utf8Terminated(name);
    assert '\0' !in name ==> CStr(Utf8(name) + [0]) == Utf8(name) by {
      if '\0' !in name { Utf8CStr(name); }
    }
    var res := host.ret(Call("FindPlugin", [Bytes(Utf8(name + "\0"))]));
    if res == -1 then Option.None else Some(res)
  }

  /** `send_plugin_command`: the identifier as `u32` and the command as NUL-terminated UTF-8. */
  function SendPluginCommand(host: Host, identifier: U32, command: string): (r: VcmpResult<()>)
    ensures Reports(r, host.ret(Call("SendPluginCommand", [Word(identifier), Bytes(Utf8(command) + [0])])))
  {
    Utf8Terminated(command);
    CheckCode(host.ret(Call("SendPluginCommand", [Word(identifier), Bytes(Utf8(command + "\0"))])))
  }

  /**
   * The lookups `get_plugins` makes: one per id from 0 below the plugin
   * count, each id converted with `as i32`.
   */
  function PluginLookups(host: Host): (lookups: seq<Option<PluginInfo>>)
    ensures |lookups| == GetPluginCount(host) as int
    ensures forall k | 0 <= k < |lookups| :: lookups[k] == GetPluginInfo(host, WrapI32(k))
  {
    seq(GetPluginCount(host) as int, k => GetPluginInfo(host, WrapI32(k)))
  }

  /** `get_plugins`: the records of the lookups that succeed, in id order. */
  function GetPlugins(host: Host): (plugins: seq<PluginInfo>)
    ensures |plugins| <= GetPluginCount(host) as int
  {
    Somes(PluginLookups(host))
  }

  /** Every record `get_plugins` returns is the one some lookup below the count returned. */
  lemma GetPluginsFound(host: Host, info: PluginInfo)
    requires info in GetPlugins(host)
    ensures exists k | 0 <= k < GetPluginCount(host) as int :: GetPluginInfo(host, WrapI32(k)) == Some(info)
  {
    var lookups := PluginLookups(host);
    SomesFrom(lookups, info);
    var k :| 0 <= k < |lookups| && lookups[k] == Some(info);
  }

  /**
   * A successful lookup of id `k` is kept, after exactly the successful
   * lookups of the ids before it.
   */
  lemma GetPluginsKeeps(host: Host, k: nat)
    requires k < GetPluginCount(host) as int && GetPluginInfo(host, WrapI32(k)).Some?
    ensures var before := Somes(PluginLookups(host)[..k]);
      |before| < |GetPlugins(host)| && GetPlugins(host)[|before|] == GetPluginInfo(host, WrapI32(k)).value
  {
    SomesRank(PluginLookups(host), k);
  }

  /** When every lookup succeeds, `get_plugins` returns one record per plugin. */
  lemma GetPluginsAll(host: Host)
    requires forall k | 0 <= k < GetPluginCount(host) as int :: GetPluginInfo(host, WrapI32(k)).Some?
    ensures |GetPlugins(host)| == GetPluginCount(host) as int
  {
    var lookups := PluginLookups(host);
    assert forall k | 0 <= k < |lookups| :: lookups[k].Some?;
  }
}
