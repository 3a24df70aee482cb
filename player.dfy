/**
 * `PlayerMethods` (`src/func/player.rs`): messages, text getters, state,
 * colour, and the calls whose host code becomes a `VcmpResult`.
 */
module Player {
  import opened Base
  import opened Errors
  import opened Options
  import opened States
  import opened Utils
  import opened Text
  import opened Hosts

  /** `send_client_script_data`: the bytes and their length. */
  function SendClientScriptData(host: Host, player: I32, data: seq<Byte>): (r: VcmpResult<()>)
    ensures Reports(r, host.ret(Call("SendClientScriptData", [Int(player), Bytes(data), Size(|data|)])))
  {
    CheckCode(host.ret(Call("SendClientScriptData", [Int(player), Bytes(data), Size(|data|)])))
  }

  /** The colour `send_client_message` sends: the RGBA packing with alpha forced to 255. */
  function MessageColour(color: Color): (v: U32)
    ensures FromRgba(v) == Color(color.r, color.g, color.b, 255)
  {
    ForceOpaque(color);
    (AsRgba(color) & 0xFFFF_FF00) | 0xFF
  }

  /**
   * `send_client_message`: the text goes out as its UTF-8 bytes with one 0
   * appended (it is not GBK-encoded).
   */
  function SendClientMessage(host: Host, player: I32, color: Color, message: string): (r: VcmpResult<()>)
    ensures Reports(r, host.ret(Call("SendClientMessage",
      [Int(player), Word(MessageColour(color)), Bytes(Utf8(message) + [0])])))
  {
    Utf8Terminated(message);
    CheckCode(host.ret(Call("SendClientMessage",
      [Int(player), Word(MessageColour(color)), Bytes(Utf8(message + "\0"))])))
  }

  /** `send_announce`: the same terminated UTF-8 text, with the announcement type. */
  function SendAnnounce(host: Host, player: I32, announceType: I32, message: string): (r: VcmpResult<()>)
    ensures Reports(r, host.ret(Call("SendGameMessage",
      [Int(player), Int(announceType), Bytes(Utf8(message) + [0])])))
  {
    Utf8Terminated(message);
    CheckCode(host.ret(Call("SendGameMessage",
      [Int(player), Int(announceType), Bytes(Utf8(message + "\0"))])))
  }

  /**
   * `set_player_name`: the call it makes.  The name travels as its UTF-8
   * bytes and one 0; a name without NULs is exactly what the host reads.
   */
  function SetPlayerNameCall(player: I32, name: string): (c: Call)
    ensures c.entry == "SetPlayerName" && |c.args| == 2 && c.args[0] == Int(player)
    ensures c.args[1] == Bytes(Utf8(name) + [0])
    ensures '\0' !in name ==> CStr(c.args[1].bytes) == Utf8(name)
  {
    Utf8Terminated(name);
    assert '\0' !in name ==> CStr(Utf8(name) + [0]) == Utf8(name) by {
      if '\0' !in name {
        Utf8CStr(name);
      }
    }
    Call("SetPlayerName", [Int(player), Bytes(Utf8(name + "\0"))])
  }

  /**
   * A text getter: the host fills the caller's zeroed 1024-byte buffer; the
   * result is the GBK-decoded buffer without its trailing NULs.  The host's
   * return code is ignored.
   */
  function ReadText(gbk: Gbk, host: Host, entry: string, player: I32): (s: string)
    ensures TrimmedOf(s, gbk.decode(host.buffer(Call(entry, [Int(player), Size(TextBufferSize)]))))
  {
    TrimEndNul(gbk.decode(host.buffer(Call(entry, [Int(player), Size(TextBufferSize)]))))
  }

  /** `get_player_ip`. */
  function GetPlayerIp(gbk: Gbk, host: Host, player: I32): (s: string)
    ensures TrimmedOf(s, gbk.decode(host.buffer(Call("GetPlayerIP", [Int(player), Size(1024)]))))
    ensures s == [] || s[|s| - 1] != '\0'
  {
    ReadText(gbk, host, "GetPlayerIP", player)
  }

  /** `get_player_uid`. */
  function GetPlayerUid(gbk: Gbk, host: Host, player: I32): (s: string)
    ensures TrimmedOf(s, gbk.decode(host.buffer(Call("GetPlayerUID", [Int(player), Size(1024)]))))
    ensures s == [] || s[|s| - 1] != '\0'
  {
    ReadText(gbk, host, "GetPlayerUID", player)
  }

  /** `get_player_uid2`. */
  function GetPlayerUid2(gbk: Gbk, host: Host, player: I32): (s: string)
    ensures TrimmedOf(s, gbk.decode(host.buffer(Call("GetPlayerUID2", [Int(player), Size(1024)]))))
    ensures s == [] || s[|s| - 1] != '\0'
  {
    ReadText(gbk, host, "GetPlayerUID2", player)
  }

  /** `get_player_name`. */
  function GetPlayerName(gbk: Gbk, host: Host, player: I32): (s: string)
    ensures TrimmedOf(s, gbk.decode(host.buffer(Call("GetPlayerName", [Int(player), Size(1024)]))))
    ensures s == [] || s[|s| - 1] != '\0'
  {
    ReadText(gbk, host, "GetPlayerName", player)
  }

  /**
   * A host that writes a name followed by NULs is read back as that name,
   * provided the name does not end with a NUL itself.
   */
  lemma GetPlayerNameOfPadded(gbk: Gbk, host: Host, player: I32, name: string, pad: string)
    requires gbk.decode(host.buffer(Call("GetPlayerName", [Int(player), Size(1024)]))) == name + pad
    requires name == [] || name[|name| - 1] != '\0'
    requires forall i | 0 <= i < |pad| :: pad[i] == '\0'
    ensures GetPlayerName(gbk, host, player) == name
  {
    TrimmedOfUnique(GetPlayerName(gbk, host, player), name, name + pad);
  }

  /** `get_player_state`: the host code decoded; codes outside 0..8 give `None`. */
  function GetPlayerState(host: Host, player: I32): (s: PlayerState)
    ensures var code := host.ret(Call("GetPlayerState", [Int(player)]));
      && (0 <= code <= 8 ==> s == AllPlayerStates[code])
      && (!(0 <= code <= 8) ==> s == PlayerState.None)
  {
    PlayerStateOf(host.ret(Call("GetPlayerState", [Int(player)])))
  }

  /** `set_player_option`: the call it makes; the host's return value is discarded. */
  function SetPlayerOptionCall(player: I32, option: PlayerOption, value: bool): (c: Call)
    ensures c.entry == "SetPlayerOption" && |c.args| == 3 && c.args[0] == Int(player)
    ensures c.args[1] == Int(PlayerOptionCode(option)) && PlayerOptionOf(c.args[1].i) == option
    ensures c.args[2] == Flag(if value then 1 else 0)
  {
    PlayerOptionRoundTrip(option);
    Call("SetPlayerOption", [Int(player), Int(PlayerOptionCode(option)), Flag(ByteOfBool(value))])
  }

  /** `get_player_option`. */
  function GetPlayerOption(host: Host, player: I32, option: PlayerOption): (b: bool)
    ensures b <==> host.ret(Call("GetPlayerOption", [Int(player), Int(PlayerOptionCode(option))])) != 0
  {
    host.ret(Call("GetPlayerOption", [Int(player), Int(PlayerOptionCode(option))])) != 0
  }

  /** `set_player_admin`: the call it makes; the host's return value is discarded. */
  function SetPlayerAdminCall(player: I32, admin: bool): (c: Call)
    ensures c.entry == "SetPlayerAdmin" && c.args == [Int(player), Flag(if admin then 1 else 0)]
  {
    Call("SetPlayerAdmin", [Int(player), Flag(ByteOfBool(admin))])
  }

  /** `set_player_color`: only the 24-bit RGB packing reaches the host. */
  function SetPlayerColor(host: Host, player: I32, color: Color): (r: VcmpResult<()>)
    ensures var sent := AsRgb(color);
      && sent < 0x100_0000 && FromRgb(sent, Some(color.a)) == color
      && Reports(r, host.ret(Call("SetPlayerColour", [Int(player), Word(sent)])))
  {
    RgbRoundTrip(color);
    CheckCode(host.ret(Call("SetPlayerColour", [Int(player), Word(AsRgb(color))])))
  }

  /** `get_player_color`: alpha is always 255, and the host value's top byte is ignored. */
  function GetPlayerColor(host: Host, player: I32): (c: Color)
    ensures c.a == 255
    ensures AsRgb(c) == host.word(Call("GetPlayerColour", [Int(player)])) & 0xFF_FFFF
  {
    FromRgb(host.word(Call("GetPlayerColour", [Int(player)])), Option.None)
  }

  /** A host that keeps the colour it was sent reads it back with alpha 255. */
  lemma PlayerColorRoundTrip(host: Host, player: I32, color: Color)
    requires host.word(Call("GetPlayerColour", [Int(player)])) == AsRgb(color)
    ensures GetPlayerColor(host, player) == color.(a := 255)
  {
    RgbRoundTrip(color.(a := 255));
  }

  /** `is_player_admin`. */
  function IsPlayerAdmin(host: Host, player: I32): (b: bool)
    ensures b <==> host.ret(Call("IsPlayerAdmin", [Int(player)])) != 0
  {
    host.ret(Call("IsPlayerAdmin", [Int(player)])) != 0
  }

  /** `is_player_connected`. */
  function IsPlayerConnected(host: Host, player: I32): (b: bool)
    ensures b <==> host.ret(Call("IsPlayerConnected", [Int(player)])) != 0
  {
    host.ret(Call("IsPlayerConnected", [Int(player)])) != 0
  }

  /** `is_player_streamed_for_target`. */
  function IsPlayerStreamedForTarget(host: Host, player: I32, target: I32): (b: bool)
    ensures b <==> host.ret(Call("IsPlayerStreamedForPlayer", [Int(player), Int(target)])) != 0
  {
    host.ret(Call("IsPlayerStreamedForPlayer", [Int(player), Int(target)])) != 0
  }

  /** `is_player_world_compatible`. */
  function IsPlayerWorldCompatible(host: Host, player: I32, world: I32): (b: bool)
    ensures b <==> host.ret(Call("IsPlayerWorldCompatible", [Int(player), Int(world)])) != 0
  {
    host.ret(Call("IsPlayerWorldCompatible", [Int(player), Int(world)])) != 0
  }

  /** `is_player_spawned`. */
  function IsPlayerSpawned(host: Host, player: I32): (b: bool)
    ensures b <==> host.ret(Call("IsPlayerSpawned", [Int(player)])) != 0
  {
    host.ret(Call("IsPlayerSpawned", [Int(player)])) != 0
  }

  /** `is_player_typing`. */
  function IsPlayerTyping(host: Host, player: I32): (b: bool)
    ensures b <==> host.ret(Call("IsPlayerTyping", [Int(player)])) != 0
  {
    host.ret(Call("IsPlayerTyping", [Int(player)])) != 0
  }

  /** `is_player_on_fire`. */
  function IsPlayerOnFire(host: Host, player: I32): (b: bool)
    ensures b <==> host.ret(Call("IsPlayerOnFire", [Int(player)])) != 0
  {
    host.ret(Call("IsPlayerOnFire", [Int(player)])) != 0
  }

  /** `is_player_crouching`. */
  function IsPlayerCrouching(host: Host, player: I32): (b: bool)
    ensures b <==> host.ret(Call("IsPlayerCrouching", [Int(player)])) != 0
  {
    host.ret(Call("IsPlayerCrouching", [Int(player)])) != 0
  }

  /** `is_camera_locked`. */
  function IsCameraLocked(host: Host, player: I32): (b: bool)
    ensures b <==> host.ret(Call("IsCameraLocked", [Int(player)])) != 0
  {
    host.ret(Call("IsCameraLocked", [Int(player)])) != 0
  }

  /** `is_player_away`. */
  function IsPlayerAway(host: Host, player: I32): (b: bool)
    ensures b <==> host.ret(Call("IsPlayerAway", [Int(player)])) != 0
  {
    host.ret(Call("IsPlayerAway", [Int(player)])) != 0
  }

  /** `get_player_drunk_visuals`. */
  function GetPlayerDrunkVisuals(host: Host, player: I32): (b: bool)
    ensures b <==> host.ret(Call("GetPlayerDrunkVisuals", [Int(player)])) != 0
  {
    host.ret(Call("GetPlayerDrunkVisuals", [Int(player)])) != 0
  }

  /** `is_player_3d_arrow_for_target`. */
  function IsPlayer3dArrowForTarget(host: Host, player: I32, target: I32): (b: bool)
    ensures b <==> host.ret(Call("GetPlayer3DArrowForPlayer", [Int(player), Int(target)])) != 0
  {
    host.ret(Call("GetPlayer3DArrowForPlayer", [Int(player), Int(target)])) != 0
  }

  /** `get_player_position`: the out-parameters on success. */
  function GetPlayerPosition(host: Host, player: I32): (r: VcmpResult<Vector>)
    ensures Reports(r, host.vector(Call("GetPlayerPosition", [Int(player)])).0)
    ensures r.Ok? ==> r.value == host.vector(Call("GetPlayerPosition", [Int(player)])).1
  {
    var (code, outputs) := host.vector(Call("GetPlayerPosition", [Int(player)]));
    CheckCodeWith(code, outputs)
  }

  /** `get_player_speed`: the out-parameters on success. */
  function GetPlayerSpeed(host: Host, player: I32): (r: VcmpResult<Vector>)
    ensures Reports(r, host.vector(Call("GetPlayerSpeed", [Int(player)])).0)
    ensures r.Ok? ==> r.value == host.vector(Call("GetPlayerSpeed", [Int(player)])).1
  {
    var (code, outputs) := host.vector(Call("GetPlayerSpeed", [Int(player)]));
    CheckCodeWith(code, outputs)
  }

  /** `get_player_aim_position`: the out-parameters on success. */
  function GetPlayerAimPosition(host: Host, player: I32): (r: VcmpResult<Vector>)
    ensures Reports(r, host.vector(Call("GetPlayerAimPosition", [Int(player)])).0)
    ensures r.Ok? ==> r.value == host.vector(Call("GetPlayerAimPosition", [Int(player)])).1
  {
    var (code, outputs) := host.vector(Call("GetPlayerAimPosition", [Int(player)]));
    CheckCodeWith(code, outputs)
  }

  /** `get_player_aim_direction`: the out-parameters on success. */
  function GetPlayerAimDirection(host: Host, player: I32): (r: VcmpResult<Vector>)
    ensures Reports(r, host.vector(Call("GetPlayerAimDirection", [Int(player)])).0)
    ensures r.Ok? ==> r.value == host.vector(Call("GetPlayerAimDirection", [Int(player)])).1
  {
    var (code, outputs) := host.vector(Call("GetPlayerAimDirection", [Int(player)]));
    CheckCodeWith(code, outputs)
  }

  /** `set_player_world`. */
  function SetPlayerWorld(host: Host, player: I32, world: I32): (r: VcmpResult<()>)
    ensures Reports(r, host.ret(Call("SetPlayerWorld", [Int(player), Int(world)])))
  {
    CheckCode(host.ret(Call("SetPlayerWorld", [Int(player), Int(world)])))
  }

  /** `set_player_secondary_world`. */
  function SetPlayerSecondaryWorld(host: Host, player: I32, world: I32): (r: VcmpResult<()>)
    ensures Reports(r, host.ret(Call("SetPlayerSecondaryWorld", [Int(player), Int(world)])))
  {
    CheckCode(host.ret(Call("SetPlayerSecondaryWorld", [Int(player), Int(world)])))
  }

  /** `set_player_team`. */
  function SetPlayerTeam(host: Host, player: I32, team: I32): (r: VcmpResult<()>)
    ensures Reports(r, host.ret(Call("SetPlayerTeam", [Int(player), Int(team)])))
  {
    CheckCode(host.ret(Call("SetPlayerTeam", [Int(player), Int(team)])))
  }

  /** `set_player_skin`. */
  function SetPlayerSkin(host: Host, player: I32, skin: I32): (r: VcmpResult<()>)
    ensures Reports(r, host.ret(Call("SetPlayerSkin", [Int(player), Int(skin)])))
  {
    CheckCode(host.ret(Call("SetPlayerSkin", [Int(player), Int(skin)])))
  }

  /** `spawn_player`. */
  function SpawnPlayer(host: Host, player: I32): (r: VcmpResult<()>)
    ensures Reports(r, host.ret(Call("ForcePlayerSpawn", [Int(player)])))
  {
    CheckCode(host.ret(Call("ForcePlayerSpawn", [Int(player)])))
  }

  /** `force_player_select`. */
  function ForcePlayerSelect(host: Host, player: I32): (r: VcmpResult<()>)
    ensures Reports(r, host.ret(Call("ForcePlayerSelect", [Int(player)])))
  {
    CheckCode(host.ret(Call("ForcePlayerSelect", [Int(player)])))
  }

  /** `give_player_money`. */
  function GivePlayerMoney(host: Host, player: I32, amount: I32): (r: VcmpResult<()>)
    ensures Reports(r, host.ret(Call("GivePlayerMoney", [Int(player), Int(amount)])))
  {
    CheckCode(host.ret(Call("GivePlayerMoney", [Int(player), Int(amount)])))
  }

  /** `set_player_money`. */
  function SetPlayerMoney(host: Host, player: I32, amount: I32): (r: VcmpResult<()>)
    ensures Reports(r, host.ret(Call("SetPlayerMoney", [Int(player), Int(amount)])))
  {
    CheckCode(host.ret(Call("SetPlayerMoney", [Int(player), Int(amount)])))
  }

  /** `set_player_score`. */
  function SetPlayerScore(host: Host, player: I32, score: I32): (r: VcmpResult<()>)
    ensures Reports(r, host.ret(Call("SetPlayerScore", [Int(player), Int(score)])))
  {
    CheckCode(host.ret(Call("SetPlayerScore", [Int(player), Int(score)])))
  }

  /** `set_player_wanted_level`. */
  function SetPlayerWantedLevel(host: Host, player: I32, level: I32): (r: VcmpResult<()>)
    ensures Reports(r, host.ret(Call("SetPlayerWantedLevel", [Int(player), Int(level)])))
  {
    CheckCode(host.ret(Call("SetPlayerWantedLevel", [Int(player), Int(level)])))
  }

  /** `set_player_health`. */
  function SetPlayerHealth(host: Host, player: I32, health: F32): (r: VcmpResult<()>)
    ensures Reports(r, host.ret(Call("SetPlayerHealth", [Int(player), Float(health)])))
  {
    CheckCode(host.ret(Call("SetPlayerHealth", [Int(player), Float(health)])))
  }

  /** `set_player_armour`. */
  function SetPlayerArmour(host: Host, player: I32, armour: F32): (r: VcmpResult<()>)
    ensures Reports(r, host.ret(Call("SetPlayerArmour", [Int(player), Float(armour)])))
  {
    CheckCode(host.ret(Call("SetPlayerArmour", [Int(player), Float(armour)])))
  }

  /** `set_player_immunity`. */
  function SetPlayerImmunity(host: Host, player: I32, flags: U32): (r: VcmpResult<()>)
    ensures Reports(r, host.ret(Call("SetPlayerImmunityFlags", [Int(player), Word(flags)])))
  {
    CheckCode(host.ret(Call("SetPlayerImmunityFlags", [Int(player), Word(flags)])))
  }

  /** `set_player_position`. */
  function SetPlayerPosition(host: Host, player: I32, position: Vector): (r: VcmpResult<()>)
    ensures Reports(r, host.ret(Call("SetPlayerPosition", [Int(player), Float(position.x), Float(position.y), Float(position.z)])))
  {
    CheckCode(host.ret(Call("SetPlayerPosition", [Int(player), Float(position.x), Float(position.y), Float(position.z)])))
  }

  /** `set_player_speed`. */
  function SetPlayerSpeed(host: Host, player: I32, speed: Vector): (r: VcmpResult<()>)
    ensures Reports(r, host.ret(Call("SetPlayerSpeed", [Int(player), Float(speed.x), Float(speed.y), Float(speed.z)])))
  {
    CheckCode(host.ret(Call("SetPlayerSpeed", [Int(player), Float(speed.x), Float(speed.y), Float(speed.z)])))
  }

  /** `add_player_speed`. */
  function AddPlayerSpeed(host: Host, player: I32, speed: Vector): (r: VcmpResult<()>)
    ensures Reports(r, host.ret(Call("AddPlayerSpeed", [Int(player), Float(speed.x), Float(speed.y), Float(speed.z)])))
  {
    CheckCode(host.ret(Call("AddPlayerSpeed", [Int(player), Float(speed.x), Float(speed.y), Float(speed.z)])))
  }

  /** `set_player_angle`. */
  function SetPlayerAngle(host: Host, player: I32, angle: F32): (r: VcmpResult<()>)
    ensures Reports(r, host.ret(Call("SetPlayerHeading", [Int(player), Float(angle)])))
  {
    CheckCode(host.ret(Call("SetPlayerHeading", [Int(player), Float(angle)])))
  }

  /** `set_player_alpha`. */
  function SetPlayerAlpha(host: Host, player: I32, alpha: I32, fadeTime: U32): (r: VcmpResult<()>)
    ensures Reports(r, host.ret(Call("SetPlayerAlpha", [Int(player), Int(alpha), Word(fadeTime)])))
  {
    CheckCode(host.ret(Call("SetPlayerAlpha", [Int(player), Int(alpha), Word(fadeTime)])))
  }

  /** `put_player_in_vehicle`. */
  function PutPlayerInVehicle(host: Host, player: I32, vehicle: I32, slotIndex: I32, makeRoom: Byte, warp: Byte): (r: VcmpResult<()>)
    ensures Reports(r, host.ret(Call("PutPlayerInVehicle", [Int(player), Int(vehicle), Int(slotIndex), Flag(makeRoom), Flag(warp)])))
  {
    CheckCode(host.ret(Call("PutPlayerInVehicle", [Int(player), Int(vehicle), Int(slotIndex), Flag(makeRoom), Flag(warp)])))
  }

  /** `remove_player_from_vehicle`. */
  function RemovePlayerFromVehicle(host: Host, player: I32): (r: VcmpResult<()>)
    ensures Reports(r, host.ret(Call("RemovePlayerFromVehicle", [Int(player)])))
  {
    CheckCode(host.ret(Call("RemovePlayerFromVehicle", [Int(player)])))
  }

  /** `give_player_weapon`. */
  function GivePlayerWeapon(host: Host, player: I32, weapon: I32, ammo: I32): (r: VcmpResult<()>)
    ensures Reports(r, host.ret(Call("GivePlayerWeapon", [Int(player), Int(weapon), Int(ammo)])))
  {
    CheckCode(host.ret(Call("GivePlayerWeapon", [Int(player), Int(weapon), Int(ammo)])))
  }

  /** `set_player_weapon`. */
  function SetPlayerWeapon(host: Host, player: I32, weapon: I32, ammo: I32): (r: VcmpResult<()>)
    ensures Reports(r, host.ret(Call("SetPlayerWeapon", [Int(player), Int(weapon), Int(ammo)])))
  {
    CheckCode(host.ret(Call("SetPlayerWeapon", [Int(player), Int(weapon), Int(ammo)])))
  }

  /** `set_player_weapon_slot`. */
  function SetPlayerWeaponSlot(host: Host, player: I32, slot: I32): (r: VcmpResult<()>)
    ensures Reports(r, host.ret(Call("SetPlayerWeaponSlot", [Int(player), Int(slot)])))
  {
    CheckCode(host.ret(Call("SetPlayerWeaponSlot", [Int(player), Int(slot)])))
  }

  /** `remove_player_weapon`. */
  function RemovePlayerWeapon(host: Host, player: I32, weapon: I32): (r: VcmpResult<()>)
    ensures Reports(r, host.ret(Call("RemovePlayerWeapon", [Int(player), Int(weapon)])))
  {
    CheckCode(host.ret(Call("RemovePlayerWeapon", [Int(player), Int(weapon)])))
  }

  /** `remove_all_weapons`. */
  function RemoveAllWeapons(host: Host, player: I32): (r: VcmpResult<()>)
    ensures Reports(r, host.ret(Call("RemoveAllWeapons", [Int(player)])))
  {
    CheckCode(host.ret(Call("RemoveAllWeapons", [Int(player)])))
  }

  /** `set_camera_position`. */
  function SetCameraPosition(host: Host, player: I32, position: Vector, look: Vector): (r: VcmpResult<()>)
    ensures Reports(r, host.ret(Call("SetCameraPosition", [Int(player), Float(position.x), Float(position.y), Float(position.z), Float(look.x), Float(look.y), Float(look.z)])))
  {
    CheckCode(host.ret(Call("SetCameraPosition", [Int(player), Float(position.x), Float(position.y), Float(position.z), Float(look.x), Float(look.y), Float(look.z)])))
  }

  /** `restore_camera`. */
  function RestoreCamera(host: Host, player: I32): (r: VcmpResult<()>)
    ensures Reports(r, host.ret(Call("RestoreCamera", [Int(player)])))
  {
    CheckCode(host.ret(Call("RestoreCamera", [Int(player)])))
  }

  /** `set_player_animation`. */
  function SetPlayerAnimation(host: Host, player: I32, group: I32, animation: I32): (r: VcmpResult<()>)
    ensures Reports(r, host.ret(Call("SetPlayerAnimation", [Int(player), Int(group), Int(animation)])))
  {
    CheckCode(host.ret(Call("SetPlayerAnimation", [Int(player), Int(group), Int(animation)])))
  }

  /** `set_player_spectate_target`. */
  function SetPlayerSpectateTarget(host: Host, player: I32, target: I32): (r: VcmpResult<()>)
    ensures Reports(r, host.ret(Call("SetPlayerSpectateTarget", [Int(player), Int(target)])))
  {
    CheckCode(host.ret(Call("SetPlayerSpectateTarget", [Int(player), Int(target)])))
  }

  /** `get_player_module_list`. */
  function GetPlayerModuleList(host: Host, player: I32): (r: VcmpResult<()>)
    ensures Reports(r, host.ret(Call("GetPlayerModuleList", [Int(player)])))
  {
    CheckCode(host.ret(Call("GetPlayerModuleList", [Int(player)])))
  }

  /** `kill_player`. */
  function KillPlayer(host: Host, player: I32): (r: VcmpResult<()>)
    ensures Reports(r, host.ret(Call("KillPlayer", [Int(player)])))
  {
    CheckCode(host.ret(Call("KillPlayer", [Int(player)])))
  }

  /** `set_player_drunk_handling`. */
  function SetPlayerDrunkHandling(host: Host, player: I32, level: U32): (r: VcmpResult<()>)
    ensures Reports(r, host.ret(Call("SetPlayerDrunkHandling", [Int(player), Word(level)])))
  {
    CheckCode(host.ret(Call("SetPlayerDrunkHandling", [Int(player), Word(level)])))
  }

  /** `set_player_drunk_visuals`. */
  function SetPlayerDrunkVisuals(host: Host, player: I32, drunk: bool): (r: VcmpResult<()>)
    ensures Reports(r, host.ret(Call("SetPlayerDrunkVisuals", [Int(player), Flag(if drunk then 1 else 0)])))
  {
    CheckCode(host.ret(Call("SetPlayerDrunkVisuals", [Int(player), Flag(ByteOfBool(drunk))])))
  }

  /** `set_player_3d_arrow_for_target`. */
  function SetPlayer3dArrowForTarget(host: Host, player: I32, target: I32, show: bool): (r: VcmpResult<()>)
    ensures Reports(r, host.ret(Call("SetPlayer3DArrowForPlayer", [Int(player), Int(target), Flag(if show then 1 else 0)])))
  {
    CheckCode(host.ret(Call("SetPlayer3DArrowForPlayer", [Int(player), Int(target), Flag(ByteOfBool(show))])))
  }

  /** `interpolate_camera_look_at`. */
  function InterpolateCameraLookAt(host: Host, player: I32, look: Vector, time: U32): (r: VcmpResult<()>)
    ensures Reports(r, host.ret(Call("InterpolateCameraLookAt", [Int(player), Float(look.x), Float(look.y), Float(look.z), Word(time)])))
  {
    CheckCode(host.ret(Call("InterpolateCameraLookAt", [Int(player), Float(look.x), Float(look.y), Float(look.z), Word(time)])))
  }

  /**
   * `CString::new`: refuses bytes that hold a NUL (the caller's `unwrap`
   * then panics), otherwise owns the bytes followed by one terminating NUL.
   * `None` stands for the refusal.
   */
  function CStringNew(bytes: seq<Byte>): (r: Option<seq<Byte>>)
    ensures r.None? <==> 0 in bytes
    ensures r.Some? ==> r.value == bytes + [0] && CStr(r.value) == bytes
  {
    if 0 in bytes then Option.None
    else
      CStrOfTerminated(bytes, []);
      assert bytes + [0] + [] == bytes + [0];
      Some(bytes + [0])
  }

  /** The bytes a `CString` owns, once its construction has succeeded. */
  function Owned(c: Option<seq<Byte>>): seq<Byte> {
    match c
    case Some(bytes) => bytes
    case None => []
  }

  /** The host call of `redirect_player_to_server` once its four texts are C strings. */
  function RedirectCall(player: I32, ip: seq<Byte>, port: U32, nick: seq<Byte>,
                        serverPassword: seq<Byte>, userPassword: seq<Byte>): Call
  {
    Call("RedirectPlayerToServer",
      [Int(player), Bytes(ip), Word(port), Bytes(nick), Bytes(serverPassword), Bytes(userPassword)])
  }

  /**
   * `redirect_player_to_server` as written: each text is formatted with a
   * trailing NUL and then handed to `CString::new`, whose refusal is
   * unwrapped.  `None` is that panic.  Since the formatted text always
   * holds a NUL, the call never reaches the host.
   */
  function RedirectPlayerToServerAsWritten(host: Host, player: I32, ip: string, port: U32, nick: string,
                                           serverPassword: string, userPassword: string): (r: Option<VcmpResult<()>>)
    ensures r == Option.None
  {
    Utf8Terminated(ip);
    var cIp := CStringNew(Utf8(ip + "\0"));
    var cNick := CStringNew(Utf8(nick + "\0"));
    var cServer := CStringNew(Utf8(serverPassword + "\0"));
    var cUser := CStringNew(Utf8(userPassword + "\0"));
    assert (Utf8(ip) + [0])[|Utf8(ip)|] == 0;
    if cIp.None? || cNick.None? || cServer.None? || cUser.None? then Option.None
    else Some(CheckCode(host.ret(RedirectCall(player, Owned(cIp), port, Owned(cNick), Owned(cServer), Owned(cUser)))))
  }

  /** A plain redirect to `127.0.0.1:8192` with ordinary texts already panics as written. */
  lemma RedirectAsWrittenPanicsOnPlainInput(host: Host)
    ensures RedirectPlayerToServerAsWritten(host, 0, "127.0.0.1", 8192, "player", "", "") == Option.None
    ensures RedirectPlayerToServer(host, 0, "127.0.0.1", 8192, "player", "", "").Some?
  {
    RedirectPlayerToServerReachesHost(host, 0, "127.0.0.1", 8192, "player", "", "");
  }

  /**
   * `redirect_player_to_server` as evidently intended: each text becomes a
   * C string of its own UTF-8 bytes.  It panics only for a text with an
   * interior NUL; otherwise the host gets the four terminated texts and its
   * code becomes the result.
   */
  function RedirectPlayerToServer(host: Host, player: I32, ip: string, port: U32, nick: string,
                                  serverPassword: string, userPassword: string): (r: Option<VcmpResult<()>>)
    ensures r.None? <==> '\0' in ip || '\0' in nick || '\0' in serverPassword || '\0' in userPassword
    ensures r.Some? ==> Reports(r.value, host.ret(RedirectCall(player,
      Utf8(ip) + [0], port, Utf8(nick) + [0], Utf8(serverPassword) + [0], Utf8(userPassword) + [0])))
  {
    Utf8NulFree(ip);
    Utf8NulFree(nick);
    Utf8NulFree(serverPassword);
    Utf8NulFree(userPassword);
    var cIp := CStringNew(Utf8(ip));
    var cNick := CStringNew(Utf8(nick));
    var cServer := CStringNew(Utf8(serverPassword));
    var cUser := CStringNew(Utf8(userPassword));
    if cIp.None? || cNick.None? || cServer.None? || cUser.None? then Option.None
    else Some(CheckCode(host.ret(RedirectCall(player, Owned(cIp), port, Owned(cNick), Owned(cServer), Owned(cUser)))))
  }

  /**
   * With NUL-free texts the corrected redirect reaches the host, and each
   * text the host reads back up to its terminator is the text's UTF-8.
   */
  lemma RedirectPlayerToServerReachesHost(host: Host, player: I32, ip: string, port: U32, nick: string,
                                          serverPassword: string, userPassword: string)
    requires '\0' !in ip && '\0' !in nick && '\0' !in serverPassword && '\0' !in userPassword
    ensures RedirectPlayerToServer(host, player, ip, port, nick, serverPassword, userPassword).Some?
    ensures CStr(Utf8(ip) + [0]) == Utf8(ip) && CStr(Utf8(nick) + [0]) == Utf8(nick)
    ensures CStr(Utf8(serverPassword) + [0]) == Utf8(serverPassword)
    ensures CStr(Utf8(userPassword) + [0]) == Utf8(userPassword)
  {
    Utf8CStr(ip);
    Utf8CStr(nick);
    Utf8CStr(serverPassword);
    Utf8CStr(userPassword);
  }
}
