/** The plugin-information record the host fills in (`VcmpPluginInfo`). */
module PluginInfos {
  import opened Base
  import opened Text

  /**
   * `raw::PluginInfo`.  The host reads `structSize` to learn which layout the
   * caller expects; `name` is a 32-byte C character buffer.  The accessors
   * `plugin_id`, `plugin_version`, `api_major_version` and
   * `api_minor_version` are the fields themselves.
   */
  datatype PluginInfo = PluginInfo(
    structSize: U32,
    pluginId: U32,
    name: seq<Byte>,
    pluginVersion: U32,
    apiMajorVersion: U16,
    apiMinorVersion: U16)

  const PluginInfoStructSize: U32 := 48
  const PluginNameLength := 32

  /** `VcmpPluginInfo::new_empty`: the record handed to the host to fill. */
  function NewEmptyPluginInfo(): (info: PluginInfo)
    ensures info.structSize == 48
    ensures info.pluginId == 0 && info.pluginVersion == 0
    ensures info.apiMajorVersion == 0 && info.apiMinorVersion == 0
    ensures |info.name| == PluginNameLength && forall i | 0 <= i < |info.name| :: info.name[i] == 0
  {
    PluginInfo(PluginInfoStructSize, 0, seq(PluginNameLength, _ => 0), 0, 0, 0)
  }

  /** `VcmpPluginInfo::name`: the decoded name buffer without its trailing NULs. */
  function PluginName(gbk: Gbk, info: PluginInfo): (name: string)
    ensures TrimmedOf(name, gbk.decode(info.name))
    ensures name == [] || name[|name| - 1] != '\0'
  {
    TrimEndNul(gbk.decode(info.name))
  }
}
