/**
 * The integer-coded enumerations the host exchanges with the bindings:
 * network-statistic selectors, server, player, vehicle and pickup options,
 * and entity pools.  Each has an encoder (its declaration index, or the
 * explicit discriminant for entity pools) and a total decoder that maps
 * every code outside the range to one fixed variant.
 */
module Options {
  import opened Base

  /** `VcmpNetworkStatisticsQueryOption`. */
  datatype NetworkStatisticsOption =
    | DataSentPerSecond
    | DataResentPerSecond
    | DataReceivedPerSecond
    | DataDiscardedPerSecond
    | AllBytesSentPerSecond
    | AllBytesReceivedPerSecond
    | DataSentTotal
    | DataResentTotal
    | DataReceivedTotal
    | DataDiscardedTotal
    | AllBytesSentTotal
    | AllBytesReceivedTotal
    | MessagesWaiting
    | MessagesResending
    | BytesResending
    | PacketLossPerSecond
    | PacketLossTotal

  /** Every `NetworkStatisticsOption`, in declaration order: the variant with code `k` is at index `k`. */
  const AllNetworkStatisticsOptions: seq<NetworkStatisticsOption> := [
    NetworkStatisticsOption.DataSentPerSecond, NetworkStatisticsOption.DataResentPerSecond,
    NetworkStatisticsOption.DataReceivedPerSecond,
    NetworkStatisticsOption.DataDiscardedPerSecond,
    NetworkStatisticsOption.AllBytesSentPerSecond,
    NetworkStatisticsOption.AllBytesReceivedPerSecond, NetworkStatisticsOption.DataSentTotal,
    NetworkStatisticsOption.DataResentTotal, NetworkStatisticsOption.DataReceivedTotal,
    NetworkStatisticsOption.DataDiscardedTotal, NetworkStatisticsOption.AllBytesSentTotal,
    NetworkStatisticsOption.AllBytesReceivedTotal, NetworkStatisticsOption.MessagesWaiting,
    NetworkStatisticsOption.MessagesResending, NetworkStatisticsOption.BytesResending,
    NetworkStatisticsOption.PacketLossPerSecond, NetworkStatisticsOption.PacketLossTotal
  ]

  /** `From<VcmpNetworkStatisticsQueryOption> for i32`. */
  function NetworkStatisticsOptionCode(o: NetworkStatisticsOption): (c: I32)
    ensures 0 <= c <= 16 && AllNetworkStatisticsOptions[c] == o
  {
    match o
    case DataSentPerSecond => 0
    case DataResentPerSecond => 1
    case DataReceivedPerSecond => 2
    case DataDiscardedPerSecond => 3
    case AllBytesSentPerSecond => 4
    case AllBytesReceivedPerSecond => 5
    case DataSentTotal => 6
    case DataResentTotal => 7
    case DataReceivedTotal => 8
    case DataDiscardedTotal => 9
    case AllBytesSentTotal => 10
    case AllBytesReceivedTotal => 11
    case MessagesWaiting => 12
    case MessagesResending => 13
    case BytesResending => 14
    case PacketLossPerSecond => 15
    case PacketLossTotal => 16
  }

  /** `From<i32> for VcmpNetworkStatisticsQueryOption`: total, with `DataSentPerSecond` for every code outside 0..16. */
  function NetworkStatisticsOptionOf(c: I32): (o: NetworkStatisticsOption)
    ensures 0 <= c <= 16 ==> o == AllNetworkStatisticsOptions[c]
    ensures !(0 <= c <= 16) ==> o == NetworkStatisticsOption.DataSentPerSecond
  {
    match c
    case 0 => NetworkStatisticsOption.DataSentPerSecond
    case 1 => NetworkStatisticsOption.DataResentPerSecond
    case 2 => NetworkStatisticsOption.DataReceivedPerSecond
    case 3 => NetworkStatisticsOption.DataDiscardedPerSecond
    case 4 => NetworkStatisticsOption.AllBytesSentPerSecond
    case 5 => NetworkStatisticsOption.AllBytesReceivedPerSecond
    case 6 => NetworkStatisticsOption.DataSentTotal
    case 7 => NetworkStatisticsOption.DataResentTotal
    case 8 => NetworkStatisticsOption.DataReceivedTotal
    case 9 => NetworkStatisticsOption.DataDiscardedTotal
    case 10 => NetworkStatisticsOption.AllBytesSentTotal
    case 11 => NetworkStatisticsOption.AllBytesReceivedTotal
    case 12 => NetworkStatisticsOption.MessagesWaiting
    case 13 => NetworkStatisticsOption.MessagesResending
    case 14 => NetworkStatisticsOption.BytesResending
    case 15 => NetworkStatisticsOption.PacketLossPerSecond
    case 16 => NetworkStatisticsOption.PacketLossTotal
    case _ => NetworkStatisticsOption.DataSentPerSecond
  }

  /** Decoding the code of any `NetworkStatisticsOption` gives it back. */
  lemma NetworkStatisticsOptionRoundTrip(o: NetworkStatisticsOption)
    ensures NetworkStatisticsOptionOf(NetworkStatisticsOptionCode(o)) == o
  {
  }

  /** Every code in 0..16 is the code of the variant it decodes to. */
  lemma NetworkStatisticsOptionCodeRoundTrip(c: I32)
    requires 0 <= c <= 16
    ensures NetworkStatisticsOptionCode(NetworkStatisticsOptionOf(c)) == c
  {
    match c
    case 0 =>
    case 1 =>
    case 2 =>
    case 3 =>
    case 4 =>
    case 5 =>
    case 6 =>
    case 7 =>
    case 8 =>
    case 9 =>
    case 10 =>
    case 11 =>
    case 12 =>
    case 13 =>
    case 14 =>
    case 15 =>
    case _ =>
      assert c == 16;
  }

  /** Distinct variants have distinct codes. */
  lemma NetworkStatisticsOptionCodeInjective(o1: NetworkStatisticsOption, o2: NetworkStatisticsOption)
    requires NetworkStatisticsOptionCode(o1) == NetworkStatisticsOptionCode(o2)
    ensures o1 == o2
  {
    NetworkStatisticsOptionRoundTrip(o1);
    NetworkStatisticsOptionRoundTrip(o2);
  }

  /** `VcmpServerOption`. */
  datatype ServerOption =
    | SyncFrameLimiter
    | FrameLimiter
    | TaxiBoostJump
    | DriveOnWater
    | FastSwitch
    | FriendlyFire
    | DisableDriveBy
    | PerfectHandling
    | FlyingCars
    | JumpSwitch
    | ShowMarkers
    | OnlyShowTeamMarkers
    | StuntBike
    | ShootInAir
    | ShowNameTags
    | JoinMessages
    | DeathMessages
    | ChatTagsEnabled
    | UseClasses
    | WallGlitch
    | DisableBackfaceCulling
    | DisableHeliBladeDamage
    | DisableCrouch

  /** Every `ServerOption`, in declaration order: the variant with code `k` is at index `k`. */
  const AllServerOptions: seq<ServerOption> := [
    ServerOption.SyncFrameLimiter, ServerOption.FrameLimiter, ServerOption.TaxiBoostJump,
    ServerOption.DriveOnWater, ServerOption.FastSwitch, ServerOption.FriendlyFire,
    ServerOption.DisableDriveBy, ServerOption.PerfectHandling, ServerOption.FlyingCars,
    ServerOption.JumpSwitch, ServerOption.ShowMarkers, ServerOption.OnlyShowTeamMarkers,
    ServerOption.StuntBike, ServerOption.ShootInAir, ServerOption.ShowNameTags,
    ServerOption.JoinMessages, ServerOption.DeathMessages, ServerOption.ChatTagsEnabled,
    ServerOption.UseClasses, ServerOption.WallGlitch, ServerOption.DisableBackfaceCulling,
    ServerOption.DisableHeliBladeDamage, ServerOption.DisableCrouch
  ]

  /** `From<VcmpServerOption> for i32`. */
  function ServerOptionCode(o: ServerOption): (c: I32)
    ensures 0 <= c <= 22 && AllServerOptions[c] == o
  {
    match o
    case SyncFrameLimiter => 0
    case FrameLimiter => 1
    case TaxiBoostJump => 2
    case DriveOnWater => 3
    case FastSwitch => 4
    case FriendlyFire => 5
    case DisableDriveBy => 6
    case PerfectHandling => 7
    case FlyingCars => 8
    case JumpSwitch => 9
    case ShowMarkers => 10
    case OnlyShowTeamMarkers => 11
    case StuntBike => 12
    case ShootInAir => 13
    case ShowNameTags => 14
    case JoinMessages => 15
    case DeathMessages => 16
    case ChatTagsEnabled => 17
    case UseClasses => 18
    case WallGlitch => 19
    case DisableBackfaceCulling => 20
    case DisableHeliBladeDamage => 21
    case DisableCrouch => 22
  }

  /** `From<i32> for VcmpServerOption`: total, with `SyncFrameLimiter` for every code outside 0..22. */
  function ServerOptionOf(c: I32): (o: ServerOption)
    ensures 0 <= c <= 22 ==> o == AllServerOptions[c]
    ensures !(0 <= c <= 22) ==> o == ServerOption.SyncFrameLimiter
  {
    match c
    case 0 => ServerOption.SyncFrameLimiter
    case 1 => ServerOption.FrameLimiter
    case 2 => ServerOption.TaxiBoostJump
    case 3 => ServerOption.DriveOnWater
    case 4 => ServerOption.FastSwitch
    case 5 => ServerOption.FriendlyFire
    case 6 => ServerOption.DisableDriveBy
    case 7 => ServerOption.PerfectHandling
    case 8 => ServerOption.FlyingCars
    case 9 => ServerOption.JumpSwitch
    case 10 => ServerOption.ShowMarkers
    case 11 => ServerOption.OnlyShowTeamMarkers
    case 12 => ServerOption.StuntBike
    case 13 => ServerOption.ShootInAir
    case 14 => ServerOption.ShowNameTags
    case 15 => ServerOption.JoinMessages
    case 16 => ServerOption.DeathMessages
    case 17 => ServerOption.ChatTagsEnabled
    case 18 => ServerOption.UseClasses
    case 19 => ServerOption.WallGlitch
    case 20 => ServerOption.DisableBackfaceCulling
    case 21 => ServerOption.DisableHeliBladeDamage
    case 22 => ServerOption.DisableCrouch
    case _ => ServerOption.SyncFrameLimiter
  }

  /** Decoding the code of any `ServerOption` gives it back. */
  lemma ServerOptionRoundTrip(o: ServerOption)
    ensures ServerOptionOf(ServerOptionCode(o)) == o
  {
  }

  /** Every code in 0..22 is the code of the variant it decodes to. */
  lemma ServerOptionCodeRoundTrip(c: I32)
    requires 0 <= c <= 22
    ensures ServerOptionCode(ServerOptionOf(c)) == c
  {
    match c
    case 0 =>
    case 1 =>
    case 2 =>
    case 3 =>
    case 4 =>
    case 5 =>
    case 6 =>
    case 7 =>
    case 8 =>
    case 9 =>
    case 10 =>
    case 11 =>
    case 12 =>
    case 13 =>
    case 14 =>
    case 15 =>
    case 16 =>
    case 17 =>
    case 18 =>
    case 19 =>
    case 20 =>
    case 21 =>
    case _ =>
      assert c == 22;
  }

  /** Distinct variants have distinct codes. */
  lemma ServerOptionCodeInjective(o1: ServerOption, o2: ServerOption)
    requires ServerOptionCode(o1) == ServerOptionCode(o2)
    ensures o1 == o2
  {
    ServerOptionRoundTrip(o1);
    ServerOptionRoundTrip(o2);
  }

  /** `VcmpPlayerOption`. */
  datatype PlayerOption =
    | Controllable
    | DriveBy
    | WhiteScanlines
    | GreenScanlines
    | Widescreen
    | ShowMarkers
    | CanAttack
    | HasMarker
    | ChatTagsEnabled
    | DrunkEffectsDeprecated
    | Bleeding

  /** Every `PlayerOption`, in declaration order: the variant with code `k` is at index `k`. */
  const AllPlayerOptions: seq<PlayerOption> := [
    PlayerOption.Controllable, PlayerOption.DriveBy, PlayerOption.WhiteScanlines,
    PlayerOption.GreenScanlines, PlayerOption.Widescreen, PlayerOption.ShowMarkers,
    PlayerOption.CanAttack, PlayerOption.HasMarker, PlayerOption.ChatTagsEnabled,
    PlayerOption.DrunkEffectsDeprecated, PlayerOption.Bleeding
  ]

  /** `From<VcmpPlayerOption> for i32`. */
  function PlayerOptionCode(o: PlayerOption): (c: I32)
    ensures 0 <= c <= 10 && AllPlayerOptions[c] == o
  {
    match o
    case Controllable => 0
    case DriveBy => 1
    case WhiteScanlines => 2
    case GreenScanlines => 3
    case Widescreen => 4
    case ShowMarkers => 5
    case CanAttack => 6
    case HasMarker => 7
    case ChatTagsEnabled => 8
    case DrunkEffectsDeprecated => 9
    case Bleeding => 10
  }

  /** `From<i32> for VcmpPlayerOption`: total, with `Controllable` for every code outside 0..10. */
  function PlayerOptionOf(c: I32): (o: PlayerOption)
    ensures 0 <= c <= 10 ==> o == AllPlayerOptions[c]
    ensures !(0 <= c <= 10) ==> o == PlayerOption.Controllable
  {
    match c
    case 0 => PlayerOption.Controllable
    case 1 => PlayerOption.DriveBy
    case 2 => PlayerOption.WhiteScanlines
    case 3 => PlayerOption.GreenScanlines
    case 4 => PlayerOption.Widescreen
    case 5 => PlayerOption.ShowMarkers
    case 6 => PlayerOption.CanAttack
    case 7 => PlayerOption.HasMarker
    case 8 => PlayerOption.ChatTagsEnabled
    case 9 => PlayerOption.DrunkEffectsDeprecated
    case 10 => PlayerOption.Bleeding
    case _ => PlayerOption.Controllable
  }

  /** Decoding the code of any `PlayerOption` gives it back. */
  lemma PlayerOptionRoundTrip(o: PlayerOption)
    ensures PlayerOptionOf(PlayerOptionCode(o)) == o
  {
  }

  /** Every code in 0..10 is the code of the variant it decodes to. */
  lemma PlayerOptionCodeRoundTrip(c: I32)
    requires 0 <= c <= 10
    ensures PlayerOptionCode(PlayerOptionOf(c)) == c
  {
  }

  /** Distinct variants have distinct codes. */
  lemma PlayerOptionCodeInjective(o1: PlayerOption, o2: PlayerOption)
    requires PlayerOptionCode(o1) == PlayerOptionCode(o2)
    ensures o1 == o2
  {
    PlayerOptionRoundTrip(o1);
    PlayerOptionRoundTrip(o2);
  }

  /** `VcmpVehicleOption`. */
  datatype VehicleOption =
    | DoorsLocked
    | Alarm
    | Lights
    | RadioLocked
    | Ghost
    | Siren
    | SingleUse
    | EngineDisabled
    | BootOpen
    | BonnetOpen

  /** Every `VehicleOption`, in declaration order: the variant with code `k` is at index `k`. */
  const AllVehicleOptions: seq<VehicleOption> := [
    VehicleOption.DoorsLocked, VehicleOption.Alarm, VehicleOption.Lights,
    VehicleOption.RadioLocked, VehicleOption.Ghost, VehicleOption.Siren,
    VehicleOption.SingleUse, VehicleOption.EngineDisabled, VehicleOption.BootOpen,
    VehicleOption.BonnetOpen
  ]

  /** `From<VcmpVehicleOption> for i32`. */
  function VehicleOptionCode(o: VehicleOption): (c: I32)
    ensures 0 <= c <= 9 && AllVehicleOptions[c] == o
  {
    match o
    case DoorsLocked => 0
    case Alarm => 1
    case Lights => 2
    case RadioLocked => 3
    case Ghost => 4
    case Siren => 5
    case SingleUse => 6
    case EngineDisabled => 7
    case BootOpen => 8
    case BonnetOpen => 9
  }

  /** `From<i32> for VcmpVehicleOption`: total, with `DoorsLocked` for every code outside 0..9. */
  function VehicleOptionOf(c: I32): (o: VehicleOption)
    ensures 0 <= c <= 9 ==> o == AllVehicleOptions[c]
    ensures !(0 <= c <= 9) ==> o == VehicleOption.DoorsLocked
  {
    match c
    case 0 => VehicleOption.DoorsLocked
    case 1 => VehicleOption.Alarm
    case 2 => VehicleOption.Lights
    case 3 => VehicleOption.RadioLocked
    case 4 => VehicleOption.Ghost
    case 5 => VehicleOption.Siren
    case 6 => VehicleOption.SingleUse
    case 7 => VehicleOption.EngineDisabled
    case 8 => VehicleOption.BootOpen
    case 9 => VehicleOption.BonnetOpen
    case _ => VehicleOption.DoorsLocked
  }

  /** Decoding the code of any `VehicleOption` gives it back. */
  lemma VehicleOptionRoundTrip(o: VehicleOption)
    ensures VehicleOptionOf(VehicleOptionCode(o)) == o
  {
  }

  /** Every code in 0..9 is the code of the variant it decodes to. */
  lemma VehicleOptionCodeRoundTrip(c: I32)
    requires 0 <= c <= 9
    ensures VehicleOptionCode(VehicleOptionOf(c)) == c
  {
  }

  /** Distinct variants have distinct codes. */
  lemma VehicleOptionCodeInjective(o1: VehicleOption, o2: VehicleOption)
    requires VehicleOptionCode(o1) == VehicleOptionCode(o2)
    ensures o1 == o2
  {
    VehicleOptionRoundTrip(o1);
    VehicleOptionRoundTrip(o2);
  }

  /** `VcmpEntityPool`. */
  datatype EntityPool =
    | Vehicle
    | Object
    | Pickup
    | Radio
    | Player
    | Reserved1
    | Marker
    | CheckPoint

  /** Every `EntityPool`, in declaration order: the variant with code `k` is at index `k - 1`. */
  const AllEntityPools: seq<EntityPool> := [
    EntityPool.Vehicle, EntityPool.Object, EntityPool.Pickup, EntityPool.Radio,
    EntityPool.Player, EntityPool.Reserved1, EntityPool.Marker, EntityPool.CheckPoint
  ]

  /** `From<VcmpEntityPool> for i32`. */
  function EntityPoolCode(o: EntityPool): (c: I32)
    ensures 1 <= c <= 8 && AllEntityPools[c - 1] == o
  {
    match o
    case Vehicle => 1
    case Object => 2
    case Pickup => 3
    case Radio => 4
    case Player => 5
    case Reserved1 => 6
    case Marker => 7
    case CheckPoint => 8
  }

  /** `From<i32> for VcmpEntityPool`: total, with `Reserved1` for every code outside 1..8. */
  function EntityPoolOf(c: I32): (o: EntityPool)
    ensures 1 <= c <= 8 ==> o == AllEntityPools[c - 1]
    ensures !(1 <= c <= 8) ==> o == EntityPool.Reserved1
  {
    match c
    case 1 => EntityPool.Vehicle
    case 2 => EntityPool.Object
    case 3 => EntityPool.Pickup
    case 4 => EntityPool.Radio
    case 5 => EntityPool.Player
    case 6 => EntityPool.Reserved1
    case 7 => EntityPool.Marker
    case 8 => EntityPool.CheckPoint
    case _ => EntityPool.Reserved1
  }

  /** Decoding the code of any `EntityPool` gives it back. */
  lemma EntityPoolRoundTrip(o: EntityPool)
    ensures EntityPoolOf(EntityPoolCode(o)) == o
  {
  }

  /** Every code in 1..8 is the code of the variant it decodes to. */
  lemma EntityPoolCodeRoundTrip(c: I32)
    requires 1 <= c <= 8
    ensures EntityPoolCode(EntityPoolOf(c)) == c
  {
  }

  /** Distinct variants have distinct codes. */
  lemma EntityPoolCodeInjective(o1: EntityPool, o2: EntityPool)
    requires EntityPoolCode(o1) == EntityPoolCode(o2)
    ensures o1 == o2
  {
    EntityPoolRoundTrip(o1);
    EntityPoolRoundTrip(o2);
  }

  /** `VcmpPickupOption`: the host defines a single pickup option. */
  datatype PickupOption = SingleUse

  /** `From<VcmpPickupOption> for i32`. */
  function PickupOptionCode(o: PickupOption): (c: I32)
    ensures c == 0
  {
    match o
    case SingleUse => 0
  }

  /** `From<i32> for VcmpPickupOption`: every code, known or not, is `SingleUse`. */
  function PickupOptionOf(c: I32): (o: PickupOption)
    ensures o == PickupOption.SingleUse
    ensures PickupOptionCode(o) == 0
  {
    PickupOption.SingleUse
  }
}
