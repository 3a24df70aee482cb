/** The event enumeration and the entity and plugin-command events of `src/events/mod.rs`. */
module Events {
  import opened Base
  import opened Text
  import opened Options
  import opened CheckpointEvents
  import opened ObjectEvents
  import opened PickupEvents
  import opened PlayerEvents
  import opened ServerEvents
  import opened VehicleEvents

  /** `VcmpEventType`: one tag per kind of event. */
  datatype VcmpEventType =
    | PluginCommand
    | EntityStreaming
    | EntityPool
    | CheckpointEntered
    | CheckpointExited
    | ObjectShot
    | ObjectTouched
    | PickupPicked
    | PickupPickAttempt
    | PickupRespawn
    | IncomingConnection
    | ClientScriptData
    | PlayerConnect
    | PlayerDisconnect
    | PlayerRequestClass
    | PlayerSpawn
    | PlayerRequestSpawn
    | PlayerDeath
    | PlayerUpdate
    | PlayerRequestEnterVehicle
    | PlayerEnterVehicle
    | PlayerExitVehicle
    | PlayerNameChange
    | PlayerStateChange
    | PlayerActionChange
    | PlayerOnFireChange
    | PlayerCrouchChange
    | PlayerGameKeysChange
    | PlayerBeginTyping
    | PlayerEndTyping
    | PlayerAwayChange
    | PlayerMessage
    | PlayerCommand
    | PlayerPrivateMessage
    | PlayerKeyBindDown
    | PlayerKeyBindUp
    | PlayerSpectate
    | PlayerCrashReport
    | PlayerModuleList
    | ServerInitialise
    | ServerShutdown
    | ServerFrame
    | ServerPerformanceReport
    | VehicleUpdate
    | VehicleExplode
    | VehicleRespawn

  /** `PluginCommandEvent`. */
  datatype PluginCommandEvent = PluginCommandEvent(identifier: U32, message: string)

  /** `EntityStreamingChangeEvent`. */
  datatype EntityStreamingChangeEvent = EntityStreamingChangeEvent(
    playerId: I32, entityId: I32, entityType: EntityPool, deleted: bool)

  /** `EntityPoolChangeEvent`. */
  datatype EntityPoolChangeEvent = EntityPoolChangeEvent(entityType: EntityPool, entityId: I32, deleted: bool)

  /** `VcmpEvent`: an event with its payload. */
  datatype VcmpEvent =
    | PluginCommand(PluginCommandEvent)
    | EntityStreaming(EntityStreamingChangeEvent)
    | EntityPool(EntityPoolChangeEvent)
    | CheckpointEntered(CheckpointEvents.CheckpointEnteredEvent)
    | CheckpointExited(CheckpointEvents.CheckpointExitedEvent)
    | ObjectShot(ObjectEvents.ObjectShotEvent)
    | ObjectTouched(ObjectEvents.ObjectTouchedEvent)
    | PickupPicked(PickupEvents.PickupPickedEvent)
    | PickupPickAttempt(PickupEvents.PickupPickAttemptEvent)
    | PickupRespawn(PickupEvents.PickupRespawnEvent)
    | IncomingConnection(PlayerEvents.IncomingConnectionEvent)
    | ClientScriptData(PlayerEvents.ClientScriptDataEvent)
    | PlayerConnect(PlayerEvents.PlayerConnectEvent)
    | PlayerDisconnect(PlayerEvents.PlayerDisconnectEvent)
    | PlayerRequestClass(PlayerEvents.PlayerRequestClassEvent)
    | PlayerSpawn(PlayerEvents.PlayerSpawnEvent)
    | PlayerRequestSpawn(PlayerEvents.PlayerRequestSpawnEvent)
    | PlayerDeath(PlayerEvents.PlayerDeathEvent)
    | PlayerUpdate(PlayerEvents.PlayerUpdateEvent)
    | PlayerRequestEnterVehicle(PlayerEvents.PlayerRequestEnterVehicleEvent)
    | PlayerEnterVehicle(PlayerEvents.PlayerEnterVehicleEvent)
    | PlayerExitVehicle(PlayerEvents.PlayerExitVehicleEvent)
    | PlayerNameChange(PlayerEvents.PlayerNameChangeEvent)
    | PlayerStateChange(PlayerEvents.PlayerStateChangeEvent)
    | PlayerActionChange(PlayerEvents.PlayerActionChangeEvent)
    | PlayerOnFireChange(PlayerEvents.PlayerOnFireChangeEvent)
    | PlayerCrouchChange(PlayerEvents.PlayerCrouchChangeEvent)
    | PlayerGameKeysChange(PlayerEvents.PlayerGameKeysChangeEvent)
    | PlayerBeginTyping(PlayerEvents.PlayerBeginTypingEvent)
    | PlayerEndTyping(PlayerEvents.PlayerEndTypingEvent)
    | PlayerAwayChange(PlayerEvents.PlayerAwayChangeEvent)
    | PlayerMessage(PlayerEvents.PlayerMessageEvent)
    | PlayerCommand(PlayerEvents.PlayerCommandEvent)
    | PlayerPrivateMessage(PlayerEvents.PlayerPrivateMessageEvent)
    | PlayerKeyBindDown(PlayerEvents.PlayerKeyBindDownEvent)
    | PlayerKeyBindUp(PlayerEvents.PlayerKeyBindUpEvent)
    | PlayerSpectate(PlayerEvents.PlayerSpectateEvent)
    | PlayerCrashReport(PlayerEvents.PlayerCrashReportEvent)
    | PlayerModuleList(PlayerEvents.PlayerModuleListEvent)
    | ServerInitialise(ServerEvents.ServerInitialiseEvent)
    | ServerShutdown(ServerEvents.ServerShutdownEvent)
    | ServerFrame(ServerEvents.ServerFrameEvent)
    | ServerPerformanceReport(ServerEvents.ServerPerformanceReportEvent)
    | VehicleUpdate(VehicleEvents.VehicleUpdateEvent)
    | VehicleExplode(VehicleEvents.VehicleExplodeEvent)
    | VehicleRespawn(VehicleEvents.VehicleRespawnEvent)

  /**
   * `From<VcmpEvent> for VcmpEventType`: the tag of the same name, whatever
   * the payload.
   */
  function TypeOf(event: VcmpEvent): (t: VcmpEventType)
    ensures Tags(event, t)
  {
    TagTableTags(event);
    TagTable(event)
  }

  /** The match arms of `From<VcmpEvent> for VcmpEventType`, one per variant. */
  function TagTable(event: VcmpEvent): VcmpEventType
  {
    match event
    case PluginCommand(_) => VcmpEventType.PluginCommand
    case EntityStreaming(_) => VcmpEventType.EntityStreaming
    case EntityPool(_) => VcmpEventType.EntityPool
    case CheckpointEntered(_) => VcmpEventType.CheckpointEntered
    case CheckpointExited(_) => VcmpEventType.CheckpointExited
    case ObjectShot(_) => VcmpEventType.ObjectShot
    case ObjectTouched(_) => VcmpEventType.ObjectTouched
    case PickupPicked(_) => VcmpEventType.PickupPicked
    case PickupPickAttempt(_) => VcmpEventType.PickupPickAttempt
    case PickupRespawn(_) => VcmpEventType.PickupRespawn
    case IncomingConnection(_) => VcmpEventType.IncomingConnection
    case ClientScriptData(_) => VcmpEventType.ClientScriptData
    case PlayerConnect(_) => VcmpEventType.PlayerConnect
    case PlayerDisconnect(_) => VcmpEventType.PlayerDisconnect
    case PlayerRequestClass(_) => VcmpEventType.PlayerRequestClass
    case PlayerSpawn(_) => VcmpEventType.PlayerSpawn
    case PlayerRequestSpawn(_) => VcmpEventType.PlayerRequestSpawn
    case PlayerDeath(_) => VcmpEventType.PlayerDeath
    case PlayerUpdate(_) => VcmpEventType.PlayerUpdate
    case PlayerRequestEnterVehicle(_) => VcmpEventType.PlayerRequestEnterVehicle
    case PlayerEnterVehicle(_) => VcmpEventType.PlayerEnterVehicle
    case PlayerExitVehicle(_) => VcmpEventType.PlayerExitVehicle
    case PlayerNameChange(_) => VcmpEventType.PlayerNameChange
    case PlayerStateChange(_) => VcmpEventType.PlayerStateChange
    case PlayerActionChange(_) => VcmpEventType.PlayerActionChange
    case PlayerOnFireChange(_) => VcmpEventType.PlayerOnFireChange
    case PlayerCrouchChange(_) => VcmpEventType.PlayerCrouchChange
    case PlayerGameKeysChange(_) => VcmpEventType.PlayerGameKeysChange
    case PlayerBeginTyping(_) => VcmpEventType.PlayerBeginTyping
    case PlayerEndTyping(_) => VcmpEventType.PlayerEndTyping
    case PlayerAwayChange(_) => VcmpEventType.PlayerAwayChange
    case PlayerMessage(_) => VcmpEventType.PlayerMessage
    case PlayerCommand(_) => VcmpEventType.PlayerCommand
    case PlayerPrivateMessage(_) => VcmpEventType.PlayerPrivateMessage
    case PlayerKeyBindDown(_) => VcmpEventType.PlayerKeyBindDown
    case PlayerKeyBindUp(_) => VcmpEventType.PlayerKeyBindUp
    case PlayerSpectate(_) => VcmpEventType.PlayerSpectate
    case PlayerCrashReport(_) => VcmpEventType.PlayerCrashReport
    case PlayerModuleList(_) => VcmpEventType.PlayerModuleList
    case ServerInitialise(_) => VcmpEventType.ServerInitialise
    case ServerShutdown(_) => VcmpEventType.ServerShutdown
    case ServerFrame(_) => VcmpEventType.ServerFrame
    case ServerPerformanceReport(_) => VcmpEventType.ServerPerformanceReport
    case VehicleUpdate(_) => VcmpEventType.VehicleUpdate
    case VehicleExplode(_) => VcmpEventType.VehicleExplode
    case VehicleRespawn(_) => VcmpEventType.VehicleRespawn
  }
  /** Each arm of the table gives the tag named like its variant. */
  lemma TagTableTags(event: VcmpEvent)
    ensures Tags(event, TagTable(event))
  {
    match event
    case PluginCommand(_) =>
    case EntityStreaming(_) =>
    case EntityPool(_) =>
    case CheckpointEntered(_) =>
    case CheckpointExited(_) =>
    case ObjectShot(_) =>
    case ObjectTouched(_) =>
    case PickupPicked(_) =>
    case PickupPickAttempt(_) =>
    case PickupRespawn(_) =>
    case IncomingConnection(_) =>
    case ClientScriptData(_) =>
    case PlayerConnect(_) =>
    case PlayerDisconnect(_) =>
    case PlayerRequestClass(_) =>
    case PlayerSpawn(_) =>
    case PlayerRequestSpawn(_) =>
    case PlayerDeath(_) =>
    case PlayerUpdate(_) =>
    case PlayerRequestEnterVehicle(_) =>
    case PlayerEnterVehicle(_) =>
    case PlayerExitVehicle(_) =>
    case PlayerNameChange(_) =>
    case PlayerStateChange(_) =>
    case PlayerActionChange(_) =>
    case PlayerOnFireChange(_) =>
    case PlayerCrouchChange(_) =>
    case PlayerGameKeysChange(_) =>
    case PlayerBeginTyping(_) =>
    case PlayerEndTyping(_) =>
    case PlayerAwayChange(_) =>
    case PlayerMessage(_) =>
    case PlayerCommand(_) =>
    case PlayerPrivateMessage(_) =>
    case PlayerKeyBindDown(_) =>
    case PlayerKeyBindUp(_) =>
    case PlayerSpectate(_) =>
    case PlayerCrashReport(_) =>
    case PlayerModuleList(_) =>
    case ServerInitialise(_) =>
    case ServerShutdown(_) =>
    case ServerFrame(_) =>
    case ServerPerformanceReport(_) =>
    case VehicleUpdate(_) =>
    case VehicleExplode(_) =>
    case VehicleRespawn(_) =>
  }


  /**
   * The inverse reading of the tag table: the tag `t` names the variant
   * that `event` is, written from the tag's side.
   */
  predicate Tags(event: VcmpEvent, t: VcmpEventType) {
    match t
    case PluginCommand => event.PluginCommand?
    case EntityStreaming => event.EntityStreaming?
    case EntityPool => event.EntityPool?
    case CheckpointEntered => event.CheckpointEntered?
    case CheckpointExited => event.CheckpointExited?
    case ObjectShot => event.ObjectShot?
    case ObjectTouched => event.ObjectTouched?
    case PickupPicked => event.PickupPicked?
    case PickupPickAttempt => event.PickupPickAttempt?
    case PickupRespawn => event.PickupRespawn?
    case IncomingConnection => event.IncomingConnection?
    case ClientScriptData => event.ClientScriptData?
    case PlayerConnect => event.PlayerConnect?
    case PlayerDisconnect => event.PlayerDisconnect?
    case PlayerRequestClass => event.PlayerRequestClass?
    case PlayerSpawn => event.PlayerSpawn?
    case PlayerRequestSpawn => event.PlayerRequestSpawn?
    case PlayerDeath => event.PlayerDeath?
    case PlayerUpdate => event.PlayerUpdate?
    case PlayerRequestEnterVehicle => event.PlayerRequestEnterVehicle?
    case PlayerEnterVehicle => event.PlayerEnterVehicle?
    case PlayerExitVehicle => event.PlayerExitVehicle?
    case PlayerNameChange => event.PlayerNameChange?
    case PlayerStateChange => event.PlayerStateChange?
    case PlayerActionChange => event.PlayerActionChange?
    case PlayerOnFireChange => event.PlayerOnFireChange?
    case PlayerCrouchChange => event.PlayerCrouchChange?
    case PlayerGameKeysChange => event.PlayerGameKeysChange?
    case PlayerBeginTyping => event.PlayerBeginTyping?
    case PlayerEndTyping => event.PlayerEndTyping?
    case PlayerAwayChange => event.PlayerAwayChange?
    case PlayerMessage => event.PlayerMessage?
    case PlayerCommand => event.PlayerCommand?
    case PlayerPrivateMessage => event.PlayerPrivateMessage?
    case PlayerKeyBindDown => event.PlayerKeyBindDown?
    case PlayerKeyBindUp => event.PlayerKeyBindUp?
    case PlayerSpectate => event.PlayerSpectate?
    case PlayerCrashReport => event.PlayerCrashReport?
    case PlayerModuleList => event.PlayerModuleList?
    case ServerInitialise => event.ServerInitialise?
    case ServerShutdown => event.ServerShutdown?
    case ServerFrame => event.ServerFrame?
    case ServerPerformanceReport => event.ServerPerformanceReport?
    case VehicleUpdate => event.VehicleUpdate?
    case VehicleExplode => event.VehicleExplode?
    case VehicleRespawn => event.VehicleRespawn?
  }

  /** An event has one tag only: any tag named like its variant is the one `TypeOf` gives. */
  lemma TagsUnique(event: VcmpEvent, t: VcmpEventType)
    requires Tags(event, t)
    ensures t == TypeOf(event)
  {
    match t
    case PluginCommand =>
    case EntityStreaming =>
    case EntityPool =>
    case CheckpointEntered =>
    case CheckpointExited =>
    case ObjectShot =>
    case ObjectTouched =>
    case PickupPicked =>
    case PickupPickAttempt =>
    case PickupRespawn =>
    case IncomingConnection =>
    case ClientScriptData =>
    case PlayerConnect =>
    case PlayerDisconnect =>
    case PlayerRequestClass =>
    case PlayerSpawn =>
    case PlayerRequestSpawn =>
    case PlayerDeath =>
    case PlayerUpdate =>
    case PlayerRequestEnterVehicle =>
    case PlayerEnterVehicle =>
    case PlayerExitVehicle =>
    case PlayerNameChange =>
    case PlayerStateChange =>
    case PlayerActionChange =>
    case PlayerOnFireChange =>
    case PlayerCrouchChange =>
    case PlayerGameKeysChange =>
    case PlayerBeginTyping =>
    case PlayerEndTyping =>
    case PlayerAwayChange =>
    case PlayerMessage =>
    case PlayerCommand =>
    case PlayerPrivateMessage =>
    case PlayerKeyBindDown =>
    case PlayerKeyBindUp =>
    case PlayerSpectate =>
    case PlayerCrashReport =>
    case PlayerModuleList =>
    case ServerInitialise =>
    case ServerShutdown =>
    case ServerFrame =>
    case ServerPerformanceReport =>
    case VehicleUpdate =>
    case VehicleExplode =>
    case VehicleRespawn =>
  }


  /**
   * Two events share a tag exactly when the second is of the kind the
   * first one's tag names: different kinds never share a tag.
   */
  lemma TypeOfSameKind(e1: VcmpEvent, e2: VcmpEvent)
    ensures TypeOf(e1) == TypeOf(e2) <==> Tags(e2, TypeOf(e1))
  {
    if Tags(e2, TypeOf(e1)) {
      TagsUnique(e2, TypeOf(e1));
    }
  }

  /**
   * `From<(u32, *const c_char)> for PluginCommandEvent`: the identifier as
   * given, and the message decoded from the bytes before the first NUL.
   */
  function PluginCommandOf(lossy: LossyDecoder, value: (U32, seq<Byte>)): (e: PluginCommandEvent)
    ensures e.identifier == value.0
    ensures e.message == lossy(CStr(value.1))
  {
    PluginCommandEvent(value.0, lossy(CStr(value.1)))
  }

  /**
   * `From<(i32, i32, i32, u8)> for EntityStreamingChangeEvent`: player and
   * entity as given, the pool decoded from argument 2, and `deleted` true
   * exactly when argument 3 is nonzero.
   */
  function EntityStreamingOf(value: (I32, I32, I32, Byte)): (e: EntityStreamingChangeEvent)
    ensures e.playerId == value.0 && e.entityId == value.1
    ensures 1 <= value.2 <= 8 ==> e.entityType == AllEntityPools[value.2 - 1]
    ensures !(1 <= value.2 <= 8) ==> e.entityType == EntityPool.Reserved1
    ensures e.deleted <==> value.3 != 0
  {
    EntityStreamingChangeEvent(value.0, value.1, EntityPoolOf(value.2), value.3 != 0)
  }

  /**
   * `From<(i32, i32, u8)> for EntityPoolChangeEvent`: the pool decoded from
   * argument 0, the entity from argument 1, and `deleted` true exactly when
   * argument 2 is nonzero.
   */
  function EntityPoolChangeOf(value: (I32, I32, Byte)): (e: EntityPoolChangeEvent)
    ensures 1 <= value.0 <= 8 ==> e.entityType == AllEntityPools[value.0 - 1]
    ensures !(1 <= value.0 <= 8) ==> e.entityType == EntityPool.Reserved1
    ensures e.entityId == value.1
    ensures e.deleted <==> value.2 != 0
  {
    EntityPoolChangeEvent(EntityPoolOf(value.0), value.1, value.2 != 0)
  }

  /** A pool sent as its code arrives as that pool, in both entity events. */
  lemma EntityEventsRoundTrip(player: I32, entity: I32, pool: EntityPool, deleted: bool)
    ensures EntityStreamingOf((player, entity, EntityPoolCode(pool), ByteOfBool(deleted)))
      == EntityStreamingChangeEvent(player, entity, pool, deleted)
    ensures EntityPoolChangeOf((EntityPoolCode(pool), entity, ByteOfBool(deleted)))
      == EntityPoolChangeEvent(pool, entity, deleted)
  {
    EntityPoolRoundTrip(pool);
  }

}
