/** The player event payloads of `src/events/player.rs`. */
module PlayerEvents {
  import opened Base
  import opened Text

  /**
   * A raw C string is given by the memory that starts at its pointer (see
   * `CStr`); `to_string_lossy` is the decoder `lossy`.
   */
  function CText(lossy: LossyDecoder, mem: seq<Byte>): string {
    lossy(CStr(mem))
  }

  /** `IncomingConnectionEvent`. */
  datatype IncomingConnectionEvent = IncomingConnectionEvent(playerName: string, password: string, ip: string)

  /**
   * `From<(*mut c_char, usize, *const c_char, *const c_char)> for
   * IncomingConnectionEvent`: name, password and address are the C strings
   * of arguments 0, 2 and 3, decoded and without trailing NULs; the buffer
   * size in argument 1 is not used.
   */
  function IncomingConnectionOf(lossy: LossyDecoder, value: (seq<Byte>, nat, seq<Byte>, seq<Byte>)): (e: IncomingConnectionEvent)
    ensures TrimmedOf(e.playerName, CText(lossy, value.0))
    ensures TrimmedOf(e.password, CText(lossy, value.2))
    ensures TrimmedOf(e.ip, CText(lossy, value.3))
  {
    IncomingConnectionEvent(
      TrimEndNul(CText(lossy, value.0)), TrimEndNul(CText(lossy, value.2)), TrimEndNul(CText(lossy, value.3)))
  }

  /** The buffer size never changes the event, and none of its texts ends with a NUL. */
  lemma IncomingConnectionIgnoresSize(lossy: LossyDecoder, name: seq<Byte>, size1: nat, size2: nat, password: seq<Byte>, ip: seq<Byte>)
    ensures IncomingConnectionOf(lossy, (name, size1, password, ip)) == IncomingConnectionOf(lossy, (name, size2, password, ip))
    ensures var e := IncomingConnectionOf(lossy, (name, size1, password, ip));
      && (e.playerName == [] || e.playerName[|e.playerName| - 1] != '\0')
      && (e.password == [] || e.password[|e.password| - 1] != '\0')
      && (e.ip == [] || e.ip[|e.ip| - 1] != '\0')
  {
  }

  /** `ClientScriptDataEvent`. */
  datatype ClientScriptDataEvent = ClientScriptDataEvent(playerId: I32, data: seq<Byte>)

  /**
   * `From<(i32, *const u8, usize)> for ClientScriptDataEvent`: a copy of the
   * `value.2` bytes at the pointer, which the host guarantees are readable.
   */
  function ClientScriptDataOf(value: (I32, seq<Byte>, nat)): (e: ClientScriptDataEvent)
    requires value.2 <= |value.1|
    ensures e.playerId == value.0
    ensures |e.data| == value.2
    ensures forall i | 0 <= i < value.2 :: e.data[i] == value.1[i]
  {
    ClientScriptDataEvent(value.0, value.1[..value.2])
  }

  /** `PlayerConnectEvent`. */
  datatype PlayerConnectEvent = PlayerConnectEvent(playerId: I32)

  /** `From<i32> for PlayerConnectEvent`: each field from the tuple position of the same rank, unchanged. */
  function PlayerConnectOf(value: I32): (e: PlayerConnectEvent)
    ensures e.playerId == value
  {
    PlayerConnectEvent(value)
  }

  /** `PlayerDisconnectEvent`. */
  datatype PlayerDisconnectEvent = PlayerDisconnectEvent(playerId: I32, reason: I32)

  /** `From<...> for PlayerDisconnectEvent`: each field from the tuple position of the same rank, unchanged. */
  function PlayerDisconnectOf(value: (I32, I32)): (e: PlayerDisconnectEvent)
    ensures e.playerId == value.0
    ensures e.reason == value.1
  {
    PlayerDisconnectEvent(value.0, value.1)
  }

  /** `PlayerRequestClassEvent`. */
  datatype PlayerRequestClassEvent = PlayerRequestClassEvent(playerId: I32, classId: I32)

  /** `From<...> for PlayerRequestClassEvent`: each field from the tuple position of the same rank, unchanged. */
  function PlayerRequestClassOf(value: (I32, I32)): (e: PlayerRequestClassEvent)
    ensures e.playerId == value.0
    ensures e.classId == value.1
  {
    PlayerRequestClassEvent(value.0, value.1)
  }

  /** `PlayerSpawnEvent`. */
  datatype PlayerSpawnEvent = PlayerSpawnEvent(playerId: I32)

  /** `From<i32> for PlayerSpawnEvent`: each field from the tuple position of the same rank, unchanged. */
  function PlayerSpawnOf(value: I32): (e: PlayerSpawnEvent)
    ensures e.playerId == value
  {
    PlayerSpawnEvent(value)
  }

  /** `PlayerRequestSpawnEvent`. */
  datatype PlayerRequestSpawnEvent = PlayerRequestSpawnEvent(playerId: I32)

  /** `From<i32> for PlayerRequestSpawnEvent`: each field from the tuple position of the same rank, unchanged. */
  function PlayerRequestSpawnOf(value: I32): (e: PlayerRequestSpawnEvent)
    ensures e.playerId == value
  {
    PlayerRequestSpawnEvent(value)
  }

  /** `PlayerDeathEvent`. */
  datatype PlayerDeathEvent = PlayerDeathEvent(playerId: I32, killerId: I32, reason: I32, body: I32)

  /** `From<...> for PlayerDeathEvent`: each field from the tuple position of the same rank, unchanged. */
  function PlayerDeathOf(value: (I32, I32, I32, I32)): (e: PlayerDeathEvent)
    ensures e.playerId == value.0
    ensures e.killerId == value.1
    ensures e.reason == value.2
    ensures e.body == value.3
  {
    PlayerDeathEvent(value.0, value.1, value.2, value.3)
  }

  /** `PlayerUpdateEvent`. */
  datatype PlayerUpdateEvent = PlayerUpdateEvent(playerId: I32, update: I32)

  /** `From<...> for PlayerUpdateEvent`: each field from the tuple position of the same rank, unchanged. */
  function PlayerUpdateOf(value: (I32, I32)): (e: PlayerUpdateEvent)
    ensures e.playerId == value.0
    ensures e.update == value.1
  {
    PlayerUpdateEvent(value.0, value.1)
  }

  /** `PlayerRequestEnterVehicleEvent`. */
  datatype PlayerRequestEnterVehicleEvent = PlayerRequestEnterVehicleEvent(playerId: I32, vehicleId: I32, slotIndex: I32)

  /** `From<...> for PlayerRequestEnterVehicleEvent`: each field from the tuple position of the same rank, unchanged. */
  function PlayerRequestEnterVehicleOf(value: (I32, I32, I32)): (e: PlayerRequestEnterVehicleEvent)
    ensures e.playerId == value.0
    ensures e.vehicleId == value.1
    ensures e.slotIndex == value.2
  {
    PlayerRequestEnterVehicleEvent(value.0, value.1, value.2)
  }

  /** `PlayerEnterVehicleEvent`. */
  datatype PlayerEnterVehicleEvent = PlayerEnterVehicleEvent(playerId: I32, vehicleId: I32, slotIndex: I32)

  /** `From<...> for PlayerEnterVehicleEvent`: each field from the tuple position of the same rank, unchanged. */
  function PlayerEnterVehicleOf(value: (I32, I32, I32)): (e: PlayerEnterVehicleEvent)
    ensures e.playerId == value.0
    ensures e.vehicleId == value.1
    ensures e.slotIndex == value.2
  {
    PlayerEnterVehicleEvent(value.0, value.1, value.2)
  }

  /** `PlayerExitVehicleEvent`. */
  datatype PlayerExitVehicleEvent = PlayerExitVehicleEvent(playerId: I32, vehicleId: I32)

  /** `From<...> for PlayerExitVehicleEvent`: each field from the tuple position of the same rank, unchanged. */
  function PlayerExitVehicleOf(value: (I32, I32)): (e: PlayerExitVehicleEvent)
    ensures e.playerId == value.0
    ensures e.vehicleId == value.1
  {
    PlayerExitVehicleEvent(value.0, value.1)
  }

  /** `PlayerNameChangeEvent`. */
  datatype PlayerNameChangeEvent = PlayerNameChangeEvent(playerId: I32, oldName: string, newName: string)

  /** `From<...> for PlayerNameChangeEvent`: the two names are the decoded C strings of arguments 1 and 2. */
  function PlayerNameChangeOf(lossy: LossyDecoder, value: (I32, seq<Byte>, seq<Byte>)): (e: PlayerNameChangeEvent)
    ensures e.playerId == value.0
    ensures e.oldName == CText(lossy, value.1)
    ensures e.newName == CText(lossy, value.2)
  {
    PlayerNameChangeEvent(value.0, CText(lossy, value.1), CText(lossy, value.2))
  }

  /** `PlayerStateChangeEvent`. */
  datatype PlayerStateChangeEvent = PlayerStateChangeEvent(playerId: I32, oldState: I32, newState: I32)

  /** `From<...> for PlayerStateChangeEvent`: each field from the tuple position of the same rank, unchanged. */
  function PlayerStateChangeOf(value: (I32, I32, I32)): (e: PlayerStateChangeEvent)
    ensures e.playerId == value.0
    ensures e.oldState == value.1
    ensures e.newState == value.2
  {
    PlayerStateChangeEvent(value.0, value.1, value.2)
  }

  /** `PlayerActionChangeEvent`. */
  datatype PlayerActionChangeEvent = PlayerActionChangeEvent(playerId: I32, oldAction: I32, newAction: I32)

  /** `From<...> for PlayerActionChangeEvent`: each field from the tuple position of the same rank, unchanged. */
  function PlayerActionChangeOf(value: (I32, I32, I32)): (e: PlayerActionChangeEvent)
    ensures e.playerId == value.0
    ensures e.oldAction == value.1
    ensures e.newAction == value.2
  {
    PlayerActionChangeEvent(value.0, value.1, value.2)
  }

  /** `PlayerOnFireChangeEvent`. */
  datatype PlayerOnFireChangeEvent = PlayerOnFireChangeEvent(playerId: I32, isOnFire: bool)

  /** `From<...> for PlayerOnFireChangeEvent`: the flag is true exactly when its byte is nonzero. */
  function PlayerOnFireChangeOf(value: (I32, Byte)): (e: PlayerOnFireChangeEvent)
    ensures e.playerId == value.0
    ensures e.isOnFire <==> value.1 != 0
  {
    PlayerOnFireChangeEvent(value.0, value.1 != 0)
  }

  /** `PlayerCrouchChangeEvent`. */
  datatype PlayerCrouchChangeEvent = PlayerCrouchChangeEvent(playerId: I32, isCrouching: bool)

  /** `From<...> for PlayerCrouchChangeEvent`: the flag is true exactly when its byte is nonzero. */
  function PlayerCrouchChangeOf(value: (I32, Byte)): (e: PlayerCrouchChangeEvent)
    ensures e.playerId == value.0
    ensures e.isCrouching <==> value.1 != 0
  {
    PlayerCrouchChangeEvent(value.0, value.1 != 0)
  }

  /** `PlayerGameKeysChangeEvent`. */
  datatype PlayerGameKeysChangeEvent = PlayerGameKeysChangeEvent(playerId: I32, oldKeys: U32, newKeys: U32)

  /** `From<...> for PlayerGameKeysChangeEvent`: each field from the tuple position of the same rank, unchanged. */
  function PlayerGameKeysChangeOf(value: (I32, U32, U32)): (e: PlayerGameKeysChangeEvent)
    ensures e.playerId == value.0
    ensures e.oldKeys == value.1
    ensures e.newKeys == value.2
  {
    PlayerGameKeysChangeEvent(value.0, value.1, value.2)
  }

  /** `PlayerBeginTypingEvent`. */
  datatype PlayerBeginTypingEvent = PlayerBeginTypingEvent(playerId: I32)

  /** `From<i32> for PlayerBeginTypingEvent`: each field from the tuple position of the same rank, unchanged. */
  function PlayerBeginTypingOf(value: I32): (e: PlayerBeginTypingEvent)
    ensures e.playerId == value
  {
    PlayerBeginTypingEvent(value)
  }

  /** `PlayerEndTypingEvent`. */
  datatype PlayerEndTypingEvent = PlayerEndTypingEvent(playerId: I32)

  /** `From<i32> for PlayerEndTypingEvent`: each field from the tuple position of the same rank, unchanged. */
  function PlayerEndTypingOf(value: I32): (e: PlayerEndTypingEvent)
    ensures e.playerId == value
  {
    PlayerEndTypingEvent(value)
  }

  /** `PlayerAwayChangeEvent`. */
  datatype PlayerAwayChangeEvent = PlayerAwayChangeEvent(playerId: I32, isAway: bool)

  /** `From<...> for PlayerAwayChangeEvent`: the flag is true exactly when its byte is nonzero. */
  function PlayerAwayChangeOf(value: (I32, Byte)): (e: PlayerAwayChangeEvent)
    ensures e.playerId == value.0
    ensures e.isAway <==> value.1 != 0
  {
    PlayerAwayChangeEvent(value.0, value.1 != 0)
  }

  /** A flag sent as `b as u8` arrives as `b` in each of the three flag events. */
  lemma FlagEventsRoundTrip(player: I32, b: bool)
    ensures PlayerOnFireChangeOf((player, ByteOfBool(b))).isOnFire == b
    ensures PlayerCrouchChangeOf((player, ByteOfBool(b))).isCrouching == b
    ensures PlayerAwayChangeOf((player, ByteOfBool(b))).isAway == b
  {
  }

  /** `PlayerMessageEvent`. */
  datatype PlayerMessageEvent = PlayerMessageEvent(playerId: I32, message: string)

  /** `From<...> for PlayerMessageEvent`: the message is the decoded C string of argument 1. */
  function PlayerMessageOf(lossy: LossyDecoder, value: (I32, seq<Byte>)): (e: PlayerMessageEvent)
    ensures e.playerId == value.0
    ensures e.message == CText(lossy, value.1)
  {
    PlayerMessageEvent(value.0, CText(lossy, value.1))
  }

  /** `PlayerCommandEvent`. */
  datatype PlayerCommandEvent = PlayerCommandEvent(playerId: I32, command: string, text: string)

  /**
   * `From<(i32, *const c_char)> for PlayerCommandEvent`: the decoded line is
   * split at its first space into the command and the rest; a line without a
   * space is all command, with an empty text.
   */
  function PlayerCommandOf(lossy: LossyDecoder, value: (I32, seq<Byte>)): (e: PlayerCommandEvent)
    ensures e.playerId == value.0
    ensures var line := CText(lossy, value.1);
      && ' ' !in e.command
      && (' ' in line ==> e.command + " " + e.text == line)
      && (' ' !in line ==> e.command == line && e.text == "")
  {
    var (command, text) := SplitCommand(CText(lossy, value.1));
    PlayerCommandEvent(value.0, command, text)
  }

  /**
   * The command and text are the only ones that fit: a command without
   * spaces, a space, and the text make up the line.
   */
  lemma PlayerCommandOfUnique(lossy: LossyDecoder, value: (I32, seq<Byte>), command: string, text: string)
    requires ' ' !in command && command + " " + text == CText(lossy, value.1)
    ensures PlayerCommandOf(lossy, value) == PlayerCommandEvent(value.0, command, text)
  {
    SplitCommandUnique(CText(lossy, value.1), command, text);
  }

  /** An empty line gives an empty command and an empty text. */
  lemma PlayerCommandOfEmpty(lossy: LossyDecoder, value: (I32, seq<Byte>))
    requires CText(lossy, value.1) == ""
    ensures PlayerCommandOf(lossy, value).command == "" && PlayerCommandOf(lossy, value).text == ""
  {
  }

  /** `PlayerPrivateMessageEvent`. */
  datatype PlayerPrivateMessageEvent = PlayerPrivateMessageEvent(playerId: I32, targetId: I32, message: string)

  /** `From<...> for PlayerPrivateMessageEvent`: the target is argument 1 and the message the decoded C string of argument 2. */
  function PlayerPrivateMessageOf(lossy: LossyDecoder, value: (I32, I32, seq<Byte>)): (e: PlayerPrivateMessageEvent)
    ensures e.playerId == value.0
    ensures e.targetId == value.1
    ensures e.message == CText(lossy, value.2)
  {
    PlayerPrivateMessageEvent(value.0, value.1, CText(lossy, value.2))
  }

  /** `PlayerKeyBindDownEvent`. */
  datatype PlayerKeyBindDownEvent = PlayerKeyBindDownEvent(playerId: I32, bindId: I32)

  /** `From<...> for PlayerKeyBindDownEvent`: each field from the tuple position of the same rank, unchanged. */
  function PlayerKeyBindDownOf(value: (I32, I32)): (e: PlayerKeyBindDownEvent)
    ensures e.playerId == value.0
    ensures e.bindId == value.1
  {
    PlayerKeyBindDownEvent(value.0, value.1)
  }

  /** `PlayerKeyBindUpEvent`. */
  datatype PlayerKeyBindUpEvent = PlayerKeyBindUpEvent(playerId: I32, bindId: I32)

  /** `From<...> for PlayerKeyBindUpEvent`: each field from the tuple position of the same rank, unchanged. */
  function PlayerKeyBindUpOf(value: (I32, I32)): (e: PlayerKeyBindUpEvent)
    ensures e.playerId == value.0
    ensures e.bindId == value.1
  {
    PlayerKeyBindUpEvent(value.0, value.1)
  }

  /** `PlayerSpectateEvent`. */
  datatype PlayerSpectateEvent = PlayerSpectateEvent(playerId: I32, targetId: I32)

  /** `From<...> for PlayerSpectateEvent`: each field from the tuple position of the same rank, unchanged. */
  function PlayerSpectateOf(value: (I32, I32)): (e: PlayerSpectateEvent)
    ensures e.playerId == value.0
    ensures e.targetId == value.1
  {
    PlayerSpectateEvent(value.0, value.1)
  }

  /** `PlayerCrashReportEvent`. */
  datatype PlayerCrashReportEvent = PlayerCrashReportEvent(playerId: I32, report: string)

  /** `From<...> for PlayerCrashReportEvent`: the report is the decoded C string of argument 1. */
  function PlayerCrashReportOf(lossy: LossyDecoder, value: (I32, seq<Byte>)): (e: PlayerCrashReportEvent)
    ensures e.playerId == value.0
    ensures e.report == CText(lossy, value.1)
  {
    PlayerCrashReportEvent(value.0, CText(lossy, value.1))
  }

  /** `PlayerModuleListEvent`. */
  datatype PlayerModuleListEvent = PlayerModuleListEvent(playerId: I32, modules: string)

  /** `From<...> for PlayerModuleListEvent`: the module list is the decoded C string of argument 1. */
  function PlayerModuleListOf(lossy: LossyDecoder, value: (I32, seq<Byte>)): (e: PlayerModuleListEvent)
    ensures e.playerId == value.0
    ensures e.modules == CText(lossy, value.1)
  {
    PlayerModuleListEvent(value.0, CText(lossy, value.1))
  }
}
