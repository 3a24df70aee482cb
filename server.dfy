/** The server calls of `src/func/server.rs`. */
module Server {
  import opened Base
  import opened Errors
  import opened Text
  import opened Settings
  import opened Hosts

  /**
   * The setters' shared steps: the text is GBK-encoded into a fresh buffer,
   * a 0 is pushed onto the buffer, and the buffer goes to the host entry
   * `entry`, whose code is turned into a result.
   */
  method SetText(gbk: Gbk, host: Host, entry: string, text: string) returns (r: VcmpResult<()>)
    ensures Reports(r, host.ret(Call(entry, [Bytes(gbk.encode(text) + [0])])))
    ensures 0 !in gbk.encode(text) ==> CStr(gbk.encode(text) + [0]) == gbk.encode(text)
  {
    var buffer := gbk.encode(text);
    buffer := buffer + [0];
    if 0 !in gbk.encode(text) {
      CStrOfTerminated(gbk.encode(text), []);
      assert gbk.encode(text) + [0] + [] == buffer;
    }
    var code := host.ret(Call(entry, [Bytes(buffer)]));
    r := CheckCode(code);
  }

  /** `set_server_name`. */
  method SetServerName(gbk: Gbk, host: Host, name: string) returns (r: VcmpResult<()>)
    ensures Reports(r, host.ret(Call("SetServerName", [Bytes(gbk.encode(name) + [0])])))
  {
    r := SetText(gbk, host, "SetServerName", name);
  }

  /** `set_server_password`. */
  method SetServerPassword(gbk: Gbk, host: Host, password: string) returns (r: VcmpResult<()>)
    ensures Reports(r, host.ret(Call("SetServerPassword", [Bytes(gbk.encode(password) + [0])])))
  {
    r := SetText(gbk, host, "SetServerPassword", password);
  }

  /** `set_gamemode`. */
  method SetGamemode(gbk: Gbk, host: Host, gamemode: string) returns (r: VcmpResult<()>)
    ensures Reports(r, host.ret(Call("SetGameModeText", [Bytes(gbk.encode(gamemode) + [0])])))
  {
    r := SetText(gbk, host, "SetGameModeText", gamemode);
  }

  /** `get_max_players`: the host's answer, unchanged. */
  function GetMaxPlayers(host: Host): (n: U32)
    ensures n == host.word(Call("GetMaxPlayers", []))
  {
    host.word(Call("GetMaxPlayers", []))
  }

  /** `set_max_players`. */
  function SetMaxPlayers(host: Host, maxPlayers: U32): (r: VcmpResult<()>)
    ensures Reports(r, host.ret(Call("SetMaxPlayers", [Word(maxPlayers)])))
  {
    CheckCode(host.ret(Call("SetMaxPlayers", [Word(maxPlayers)])))
  }

  /** `server_version`: the host's answer, unchanged. */
  function ServerVersion(host: Host): (v: U32)
    ensures v == host.word(Call("GetServerVersion", []))
  {
    host.word(Call("GetServerVersion", []))
  }

  /**
   * `server_settings`: hands the host an empty settings record (structure
   * size 0) to fill, and returns it whatever code the host answers.
   */
  function GetServerSettings(host: Host): (s: ServerSettings)
    ensures s == host.settings(Call("GetServerSettings", []), NewEmptyServerSettings()).1
  {
    var settings := NewEmptyServerSettings();
    host.settings(Call("GetServerSettings", []), settings).1
  }

  /**
   * `get_server_name`: the settings record's name, trimmed of trailing NULs
   * once by the record's accessor and once more here; the second trim
   * changes nothing.
   */
  function GetServerName(gbk: Gbk, host: Host): (name: string)
    ensures TrimmedOf(name, gbk.decode(GetServerSettings(host).serverName))
    ensures name == ServerName(gbk, GetServerSettings(host))
  {
    var once := ServerName(gbk, GetServerSettings(host));
    TrimEndNulIdempotent(gbk.decode(GetServerSettings(host).serverName));
    TrimEndNul(once)
  }

  /** The text the host writes into a zeroed 1024-byte buffer, decoded and trimmed of trailing NULs. */
  function ReadServerText(gbk: Gbk, host: Host, entry: string): (s: string)
    ensures TrimmedOf(s, gbk.decode(host.buffer(Call(entry, [Size(TextBufferSize)]))))
  {
    TrimEndNul(gbk.decode(host.buffer(Call(entry, [Size(TextBufferSize)]))))
  }

  /** `get_server_password`. */
  function GetServerPassword(gbk: Gbk, host: Host): (password: string)
    ensures TrimmedOf(password, gbk.decode(host.buffer(Call("GetServerPassword", [Size(1024)]))))
    ensures password == [] || password[|password| - 1] != '\0'
  {
    ReadServerText(gbk, host, "GetServerPassword")
  }

  /** `get_gamemode`. */
  function GetGamemode(gbk: Gbk, host: Host): (gamemode: string)
    ensures TrimmedOf(gamemode, gbk.decode(host.buffer(Call("GetGameModeText", [Size(1024)]))))
    ensures gamemode == [] || gamemode[|gamemode| - 1] != '\0'
  {
    ReadServerText(gbk, host, "GetGameModeText")
  }

  /**
   * A host whose password buffer decodes to a text followed by NULs is read
   * back as that text, provided the text does not end with a NUL itself.
   */
  lemma GetServerPasswordOfPadded(gbk: Gbk, host: Host, password: string, pad: string)
    requires gbk.decode(host.buffer(Call("GetServerPassword", [Size(1024)]))) == password + pad
    requires password == [] || password[|password| - 1] != '\0'
    requires forall i | 0 <= i < |pad| :: pad[i] == '\0'
    ensures GetServerPassword(gbk, host) == password
  {
    TrimmedOfUnique(GetServerPassword(gbk, host), password, password + pad);
  }

  /** The same for the game-mode text. */
  lemma GetGamemodeOfPadded(gbk: Gbk, host: Host, gamemode: string, pad: string)
    requires gbk.decode(host.buffer(Call("GetGameModeText", [Size(1024)]))) == gamemode + pad
    requires gamemode == [] || gamemode[|gamemode| - 1] != '\0'
    requires forall i | 0 <= i < |pad| :: pad[i] == '\0'
    ensures GetGamemode(gbk, host) == gamemode
  {
    TrimmedOfUnique(GetGamemode(gbk, host), gamemode, gamemode + pad);
  }

  /** The same for the server name, read from the settings record. */
  lemma GetServerNameOfPadded(gbk: Gbk, host: Host, name: string, pad: string)
    requires gbk.decode(GetServerSettings(host).serverName) == name + pad
    requires name == [] || name[|name| - 1] != '\0'
    requires forall i | 0 <= i < |pad| :: pad[i] == '\0'
    ensures GetServerName(gbk, host) == name
  {
    TrimmedOfUnique(GetServerName(gbk, host), name, name + pad);
  }
}
