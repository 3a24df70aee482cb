/** The server-settings record the host fills in (`VcmpServerSettings`). */
module Settings {
  import opened Base
  import opened Text

  /**
   * `raw::ServerSettings`, which `VcmpServerSettings` wraps unchanged (the
   * `From<raw::ServerSettings>` conversion is therefore the identity here).
   * `serverName` is a 128-byte C character buffer.  The accessors `port`,
   * `max_players` and `flags` are the fields themselves.
   */
  datatype ServerSettings = ServerSettings(
    structSize: U32,
    serverName: seq<Byte>,
    maxPlayers: U32,
    port: U32,
    flags: U32)

  const ServerNameLength := 128

  /**
   * `VcmpServerSettings::new_empty`.  Unlike the plugin-information record,
   * its `structSize` is left at 0.
   */
  function NewEmptyServerSettings(): (settings: ServerSettings)
    ensures settings.structSize == 0
    ensures settings.maxPlayers == 0 && settings.port == 0 && settings.flags == 0
    ensures |settings.serverName| == ServerNameLength
    ensures forall i | 0 <= i < |settings.serverName| :: settings.serverName[i] == 0
  {
    ServerSettings(0, seq(ServerNameLength, _ => 0), 0, 0, 0)
  }

  /** `VcmpServerSettings::server_name`: the decoded name buffer without its trailing NULs. */
  function ServerName(gbk: Gbk, settings: ServerSettings): (name: string)
    ensures TrimmedOf(name, gbk.decode(settings.serverName))
  {
    TrimEndNul(gbk.decode(settings.serverName))
  }
}
