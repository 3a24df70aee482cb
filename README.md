# vcmp_bindings in Dafny

A model of `vcmp_bindings`, the Rust layer between the Vice City
Multiplayer server (a C host that hands a plugin a table of function
pointers and calls it back with raw event tuples) and typed plugin code.
The model covers the four things that layer decides for itself:

- **Error codes and integer-coded enumerations.** `VcmpError` and its two
  conversions, the option enumerations, entity pools and player states, each
  with its total decoder, its fallback variant and its encoder
  (`errors.dfy`, `options.dfy`, `states.dfy`).
- **Colours.** The RGBA, ARGB and RGB packings of `Color` and the
  default colour (`utils.dfy`).
- **The call facade.** Each wrapper of `VcmpFunctions` (`func.dfy` and one
  file per `src/func/*.rs` trait) is modelled against `Host`, a value
  whose fields stand for the host's entry points. A wrapper builds a `Call`
  holding the host function's name and the exact arguments it passes, and the
  reply is the host field applied to that call. The model states:
  - the argument encoding: defaults for absent arguments, flags as 0 or 1,
    packed colours, texts plus one NUL;
  - how a reply becomes a result: code 0 gives `Ok`, any other code gives
    `Err(VcmpError::from(code))`, a nonzero value is `true`, and
    out-parameters are copied;
  - what reads back after a write.
- **Event converters.** The conversions from the host's raw event tuples
  to the typed events of `src/events/*.rs`, and the event-to-tag mapping
  (`*_events.dfy`, `events.dfy`).

Two small stateful parts are imperative:
- the write-once global function table of `src/lib.rs` is a class, `Lib.FuncCell`;
- the text setters of `src/func/server.rs` build their NUL-terminated buffers in methods.

Conventions:
- **Integers.** `i32` is the integer subset `I32`. `u8`, `u16`, `u32` and
  `u64` are bit-vectors. Rust's wrapping arithmetic, truncating division and
  remainder are spelled out (`WrapI32`, `TDiv`, `TRem`).
- **Floats.** `f32` and `f64` are opaque values: they are carried along and
  compared, never computed with.
- **Text.** Outgoing texts are the UTF-8 bytes of a Rust `&str`. Incoming
  texts read up to the first NUL (`CStr`) and are decoded by a lossy
  UTF-8 decoder given as a parameter. The GBK codec of `src/encodes.rs` is
  also a parameter, `Gbk(encode, decode)`.
- **Code versus design.** Where the code and its comments disagree, the model
  follows the code. For example, an unknown entity-pool code decodes to
  `Reserved1`, not to the first variant the comment names.

Other behaviour worth knowing:
- **Text encodings.** The player, plugin and command texts go out as UTF-8
  bytes with no GBK step. Only the server-text setters and `log_message`
  encode GBK.
- **`get_server_name`** trims trailing NULs twice: once inside
  `VcmpServerSettings::server_name` and once more itself. The model proves
  the second trim changes nothing.
- **`set_time`** with a negative count sends a negative hour and minute, as
  Rust's truncating `/` and `%` do. `get_time` wraps on overflow as a
  release build does.
- **Empty records.** `VcmpPluginInfo::new_empty` declares a struct size of
  48. `VcmpServerSettings::new_empty` declares 0.
- **Constructors.** `Keybind::new`, `Marker::new` and the events' `new`
  constructors are the constructors of the corresponding datatypes. The
  field accessors of `VcmpPluginInfo` and `VcmpServerSettings` are those
  datatypes' fields, and `From<raw::ServerSettings>` is the identity on the
  record.

## Model

| member | source | states |
|---|---|---|
| Base.ByteOfBool | src/func.rs:93 | `bool as u8`: nonzero exactly when the flag is true, and then 1 |
| Base.ByteOf | src/func/checkpoint.rs:134-137 | the byte whose value is the given number in 0..255 (`n as u8` without truncation) |
| Base.WrapI32 | src/func/environment.rs:409-411 | Rust's wrapping `i32` arithmetic: congruent to the exact value modulo 2^32 and equal to it whenever it fits |
| Base.TDiv | src/func/environment.rs:353-359 | Rust's `/`: rounds toward zero, so floor division for a non-negative dividend and the negated quotient of the magnitude otherwise |
| Base.TRem | src/func/environment.rs:353-359 | Rust's `%` on `i32`: the sign follows the dividend and `a == b * TDiv(a, b) + TRem(a, b)` |
| Base.Somes | src/func/plugin.rs:67-71 | `filter_map` over options: never longer than its input, and as long exactly when every entry is present |
| Base.SomesAppend | src/func/plugin.rs:67-71 | filtering a concatenation concatenates the filtered parts |
| Base.SomesRank | src/events/server.rs:33-50 | a present entry appears in the result at the position counted by the present entries before it |
| Base.SomesFrom | src/events/server.rs:33-50 | every kept value came from a present entry of the input |
| Text.Utf8Char | src/func/player.rs:188-206 | the UTF-8 encoding of one character: 1 to 4 bytes, a NUL byte only for the NUL character, and ASCII as itself |
| Text.Utf8 | src/func/player.rs:188-206 | the UTF-8 bytes of a text: at least one and at most four bytes per character |
| Text.Utf8Append | src/func/player.rs:188-206 | encoding a concatenation concatenates the encodings |
| Text.Utf8NulFree | src/func/player.rs:188-206 | the encoding holds a NUL byte exactly when the text holds a NUL character |
| Text.Utf8Terminated | src/func/player.rs:188-206 | formatting a text with a trailing `\0` sends its bytes followed by exactly one NUL |
| Text.CStr | src/events/mod.rs:205 | `CStr::from_ptr`: the longest NUL-free prefix of the memory, stopping at its first NUL |
| Text.CStrOfTerminated | src/events/mod.rs:205 | reading a C string from NUL-free bytes followed by a NUL gives those bytes, whatever follows |
| Text.Utf8CStr | src/func/plugin.rs:40-45 | a NUL-free text sent with one terminating NUL is read back by the host as its own UTF-8 bytes |
| Text.CStrStopsAt | src/events/mod.rs:205 | the C string ends at the first NUL of the memory |
| Text.TrimEndNul | src/events/player.rs:29-37 | `trim_end_matches('\0')`: the text with its trailing NULs removed, and no NUL left at its end |
| Text.TrimmedOfUnique | src/events/player.rs:29-37 | a text has one trimmed form |
| Text.TrimEndNulIdempotent | src/func/server.rs:71-76 | trimming twice is the same as trimming once |
| Text.TrimEndNulNoop | src/func/server.rs:77-82 | a text that does not end in NUL is unchanged by trimming |
| Text.TrimEndNulOfPadded | src/func/server.rs:77-82 | trimming a text padded with NULs gives the text back |
| Text.IndexOf | src/events/player.rs:373-390 | `find`: the position of the first occurrence of the character, or none when it does not occur |
| Text.IndexOfFirst | src/events/player.rs:373-390 | a position holding the character with no earlier occurrence is what the search finds |
| Text.SplitCommand | src/events/player.rs:373-390 | a command line splits at its first space into a space-free command and the rest; without a space the whole line is the command and the text is empty |
| Text.SplitCommandUnique | src/events/player.rs:373-390 | a space-free command, a space and a text that form the line are what the split gives |
| Text.SplitCommandEmpty | src/events/player.rs:373-390 | an empty line gives an empty command and an empty text |
| Errors.FromCode | src/error.rs:20-36 | codes 0..8 give their named error, `i32::MAX` gives ForceSize, every other code is `Unknown` of itself, and the error encodes back to the code |
| Errors.ToCode | src/error.rs:38-54 | named errors map to their reserved code and `Unknown(c)` to `c` |
| Errors.FromCodeToCode | src/error.rs:20-54 | decoding the encoding of an error gives it back exactly when it is not an `Unknown` that carries a reserved code |
| Errors.FromCodeInjective | src/error.rs:20-36 | two codes that decode to the same error are equal |
| Errors.NatDecimal | src/error.rs:71 | the decimal digits of a natural number: non-empty, without leading zeros, and read back to the number |
| Errors.IntDecimal | src/error.rs:71 | `{code}` formatting: a minus sign exactly for negative codes, followed by the decimal digits of the magnitude |
| Errors.Message | src/error.rs:58-74 | every error has a non-empty message and the message of `Unknown(c)` ends with the decimal text of `c` |
| States.PlayerStateOf | src/states.rs:14-29 | codes 0..8 give the states in declaration order and every other code gives `None` |
| States.PlayerStateOfInjective | src/states.rs:14-29 | distinct codes in 0..8 give distinct states |
| States.PlayerStateNoneCodes | src/states.rs:14-29 | the state is `None` exactly for codes outside 1..8 |
| Options.NetworkStatisticsOptionCode | src/options.rs:219-223 | each variant has its code in 0..16, and the code indexes that variant in declaration order |
| Options.NetworkStatisticsOptionOf | src/options.rs:22-45 | codes 0..16 give the variant they index; every other code gives `DataSentPerSecond` |
| Options.NetworkStatisticsOptionRoundTrip | src/options.rs:22-45 | decoding the code of a variant gives the variant back |
| Options.NetworkStatisticsOptionCodeRoundTrip | src/options.rs:219-223 | encoding the decoding of a code in 0..16 gives the code back |
| Options.NetworkStatisticsOptionCodeInjective | src/options.rs:219-223 | distinct variants have distinct codes |
| Options.ServerOptionCode | src/options.rs:225-229 | each variant has its code in 0..22, and the code indexes that variant in declaration order |
| Options.ServerOptionOf | src/options.rs:74-103 | codes 0..22 give the variant they index; every other code gives `SyncFrameLimiter` |
| Options.ServerOptionRoundTrip | src/options.rs:74-103 | decoding the code of a variant gives the variant back |
| Options.ServerOptionCodeRoundTrip | src/options.rs:225-229 | encoding the decoding of a code in 0..22 gives the code back |
| Options.ServerOptionCodeInjective | src/options.rs:225-229 | distinct variants have distinct codes |
| Options.PlayerOptionCode | src/options.rs:231-235 | each variant has its code in 0..10, and the code indexes that variant in declaration order |
| Options.PlayerOptionOf | src/options.rs:120-137 | codes 0..10 give the variant they index; every other code gives `Controllable` |
| Options.PlayerOptionRoundTrip | src/options.rs:120-137 | decoding the code of a variant gives the variant back |
| Options.PlayerOptionCodeRoundTrip | src/options.rs:231-235 | encoding the decoding of a code in 0..10 gives the code back |
| Options.PlayerOptionCodeInjective | src/options.rs:231-235 | distinct variants have distinct codes |
| Options.VehicleOptionCode | src/options.rs:237-241 | each variant has its code in 0..9, and the code indexes that variant in declaration order |
| Options.VehicleOptionOf | src/options.rs:153-169 | codes 0..9 give the variant they index; every other code gives `DoorsLocked` |
| Options.VehicleOptionRoundTrip | src/options.rs:153-169 | decoding the code of a variant gives the variant back |
| Options.VehicleOptionCodeRoundTrip | src/options.rs:237-241 | encoding the decoding of a code in 0..9 gives the code back |
| Options.VehicleOptionCodeInjective | src/options.rs:237-241 | distinct variants have distinct codes |
| Options.EntityPoolCode | src/options.rs:204-208 | each variant has its code in 1..8, and the code indexes that variant in declaration order |
| Options.EntityPoolOf | src/options.rs:188-202 | codes 1..8 give the variant they index; every other code gives `Reserved1` |
| Options.EntityPoolRoundTrip | src/options.rs:188-202 | decoding the code of a variant gives the variant back |
| Options.EntityPoolCodeRoundTrip | src/options.rs:204-208 | encoding the decoding of a code in 1..8 gives the code back |
| Options.EntityPoolCodeInjective | src/options.rs:204-208 | distinct variants have distinct codes |
| Options.PickupOptionCode | src/options.rs:243-247 | the only pickup option, SingleUse, has code 0 |
| Options.PickupOptionOf | src/options.rs:210-217 | every code decodes to SingleUse |
| Utils.AsRgba | src/utils.rs:41-43 | red, green, blue and alpha in the packed word's bytes from the top down |
| Utils.FromRgba | src/utils.rs:25-32 | the colour whose RGBA packing is the given word (so every word is some colour's packing) |
| Utils.AsArgb | src/utils.rs:44-46 | alpha, red, green and blue in the packed word's bytes from the top down |
| Utils.FromArgb | src/utils.rs:33-40 | the colour whose ARGB packing is the given word |
| Utils.AsRgb | src/utils.rs:47-49 | red, green and blue in the low three bytes from the top down; the top byte is 0, so alpha is dropped |
| Utils.FromRgb | src/utils.rs:17-24 | the low 24 bits are the colour's RGB packing and alpha is the given one or 255 |
| Utils.RgbaRoundTrip | src/utils.rs:25-43 | unpacking an RGBA packing gives the colour back |
| Utils.ArgbRoundTrip | src/utils.rs:33-46 | unpacking an ARGB packing gives the colour back |
| Utils.RgbRoundTrip | src/utils.rs:17-49 | unpacking an RGB packing with the colour's own alpha gives the colour back |
| Utils.ForceOpaque | src/func/player.rs:194-196 | replacing the alpha byte of an RGBA word by 255 keeps red, green and blue and makes the colour opaque |
| Utils.DefaultColor | src/utils.rs:62-71 | the default colour is opaque white (all four bytes 255) |
| Hosts.CheckCode | src/func.rs:93-98 | host code 0 gives `Ok(())`; any other code gives `Err` of the decoded error, which is never `VcmpError::None` and encodes back to the code |
| Hosts.CheckCodeWith | src/func/checkpoint.rs:153-163 | host code 0 gives `Ok` of the outputs the host wrote; any other code gives `Err` of the decoded error, never `VcmpError::None` |
| PluginInfos.NewEmptyPluginInfo | src/plugin_info.rs:11-22 | the record handed to the host: struct size 48, all numbers 0 and 32 NUL name bytes |
| PluginInfos.PluginName | src/plugin_info.rs:33-42 | the decoded name bytes with the trailing NULs trimmed |
| Settings.NewEmptyServerSettings | src/setting.rs:11-21 | the record handed to the host: struct size 0, all numbers 0 and 128 NUL name bytes |
| Settings.ServerName | src/setting.rs:23-32 | the decoded server-name bytes with the trailing NULs trimmed |
| Func.GetLastError | src/func.rs:74-76 | the host's last error code, decoded: `None` exactly for code 0, and the error encodes back to the code |
| Func.LogMessageCall | src/func.rs:78-83 | the message is sent as the GBK encoding of the message followed by a NUL |
| Func.LogMessageAscii | src/func.rs:78-83 | for a NUL-free ASCII message the bytes sent are its UTF-8 bytes plus one NUL, and the host reads back the message |
| Func.SetVehicleOption | src/func.rs:87-99 | the option's code and the flag as 0 or 1 are sent; Ok exactly when the host answers 0 |
| Func.GetVehicleOption | src/func.rs:102-104 | true exactly when the host answers nonzero for the option's code |
| Func.GetNetworkStatistics | src/func.rs:108-114 | the host's value for the player and the option's code |
| Func.GetServerOption | src/func.rs:120-122 | true exactly when the host answers nonzero for the option's code |
| Func.SetServerOptionCall | src/func.rs:126-128 | the option's code and the flag as 0 or 1 |
| Environment.GetSyncFrameLimiter | src/func/environment.rs:31-33 | true exactly when the host answers nonzero for server option 0 (SyncFrameLimiter) |
| Environment.GetFrameLimiter | src/func/environment.rs:34-36 | true exactly when the host answers nonzero for server option 1 (FrameLimiter) |
| Environment.GetTaxiBoostJump | src/func/environment.rs:37-39 | true exactly when the host answers nonzero for server option 2 (TaxiBoostJump) |
| Environment.GetDriveOnWater | src/func/environment.rs:40-42 | true exactly when the host answers nonzero for server option 3 (DriveOnWater) |
| Environment.GetFastSwitch | src/func/environment.rs:43-45 | true exactly when the host answers nonzero for server option 4 (FastSwitch) |
| Environment.GetFriendlyFire | src/func/environment.rs:46-48 | true exactly when the host answers nonzero for server option 5 (FriendlyFire) |
| Environment.GetDisableDriveBy | src/func/environment.rs:49-51 | true exactly when the host answers nonzero for server option 6 (DisableDriveBy) |
| Environment.GetPerfectHandling | src/func/environment.rs:52-54 | true exactly when the host answers nonzero for server option 7 (PerfectHandling) |
| Environment.GetFlyingCars | src/func/environment.rs:55-57 | true exactly when the host answers nonzero for server option 8 (FlyingCars) |
| Environment.GetJumpSwitch | src/func/environment.rs:58-60 | true exactly when the host answers nonzero for server option 9 (JumpSwitch) |
| Environment.GetShowMarkers | src/func/environment.rs:61-63 | true exactly when the host answers nonzero for server option 10 (ShowMarkers) |
| Environment.GetOnlyShowTeamMarkers | src/func/environment.rs:64-66 | true exactly when the host answers nonzero for server option 11 (OnlyShowTeamMarkers) |
| Environment.GetStuntBike | src/func/environment.rs:67-69 | true exactly when the host answers nonzero for server option 12 (StuntBike) |
| Environment.GetShootInAir | src/func/environment.rs:70-72 | true exactly when the host answers nonzero for server option 13 (ShootInAir) |
| Environment.GetShowNameTags | src/func/environment.rs:73-75 | true exactly when the host answers nonzero for server option 14 (ShowNameTags) |
| Environment.GetJoinMessages | src/func/environment.rs:76-78 | true exactly when the host answers nonzero for server option 15 (JoinMessages) |
| Environment.GetDeathMessages | src/func/environment.rs:79-81 | true exactly when the host answers nonzero for server option 16 (DeathMessages) |
| Environment.GetChatTagsEnabled | src/func/environment.rs:82-84 | true exactly when the host answers nonzero for server option 17 (ChatTagsEnabled) |
| Environment.GetUseClasses | src/func/environment.rs:85-87 | true exactly when the host answers nonzero for server option 18 (UseClasses) |
| Environment.GetWallGlitch | src/func/environment.rs:88-90 | true exactly when the host answers nonzero for server option 19 (WallGlitch) |
| Environment.GetDisableBackfaceCulling | src/func/environment.rs:91-93 | true exactly when the host answers nonzero for server option 20 (DisableBackfaceCulling) |
| Environment.GetDisableHeliBladeDamage | src/func/environment.rs:94-96 | true exactly when the host answers nonzero for server option 21 (DisableHeliBladeDamage) |
| Environment.GetDisableCrouch | src/func/environment.rs:97-99 | true exactly when the host answers nonzero for server option 22 (DisableCrouch) |
| Environment.SetSyncFrameLimiterCall | src/func/environment.rs:132-134 | server option 0 (SyncFrameLimiter) with the flag as 0 or 1 |
| Environment.SetFrameLimiterCall | src/func/environment.rs:135-137 | server option 1 (FrameLimiter) with the flag as 0 or 1 |
| Environment.SetTaxiBoostJumpCall | src/func/environment.rs:138-140 | server option 2 (TaxiBoostJump) with the flag as 0 or 1 |
| Environment.SetDriveOnWaterCall | src/func/environment.rs:141-143 | server option 3 (DriveOnWater) with the flag as 0 or 1 |
| Environment.SetFastSwitchCall | src/func/environment.rs:144-146 | server option 4 (FastSwitch) with the flag as 0 or 1 |
| Environment.SetFriendlyFireCall | src/func/environment.rs:147-149 | server option 5 (FriendlyFire) with the flag as 0 or 1 |
| Environment.SetDisableDriveByCall | src/func/environment.rs:150-152 | server option 6 (DisableDriveBy) with the flag as 0 or 1 |
| Environment.SetPerfectHandlingCall | src/func/environment.rs:153-155 | server option 7 (PerfectHandling) with the flag as 0 or 1 |
| Environment.SetFlyingCarsCall | src/func/environment.rs:156-158 | server option 8 (FlyingCars) with the flag as 0 or 1 |
| Environment.SetJumpSwitchCall | src/func/environment.rs:159-161 | server option 9 (JumpSwitch) with the flag as 0 or 1 |
| Environment.SetShowMarkersCall | src/func/environment.rs:162-164 | server option 10 (ShowMarkers) with the flag as 0 or 1 |
| Environment.SetOnlyShowTeamMarkersCall | src/func/environment.rs:165-167 | server option 11 (OnlyShowTeamMarkers) with the flag as 0 or 1 |
| Environment.SetStuntBikeCall | src/func/environment.rs:168-170 | server option 12 (StuntBike) with the flag as 0 or 1 |
| Environment.SetShootInAirCall | src/func/environment.rs:171-173 | server option 13 (ShootInAir) with the flag as 0 or 1 |
| Environment.SetShowNameTagsCall | src/func/environment.rs:174-176 | server option 14 (ShowNameTags) with the flag as 0 or 1 |
| Environment.SetJoinMessagesCall | src/func/environment.rs:177-179 | server option 15 (JoinMessages) with the flag as 0 or 1 |
| Environment.SetDeathMessagesCall | src/func/environment.rs:180-182 | server option 16 (DeathMessages) with the flag as 0 or 1 |
| Environment.SetChatTagsEnabledCall | src/func/environment.rs:183-185 | server option 17 (ChatTagsEnabled) with the flag as 0 or 1 |
| Environment.SetUseClassesCall | src/func/environment.rs:186-188 | server option 18 (UseClasses) with the flag as 0 or 1 |
| Environment.SetWallGlitchCall | src/func/environment.rs:189-191 | server option 19 (WallGlitch) with the flag as 0 or 1 |
| Environment.SetDisableBackfaceCullingCall | src/func/environment.rs:192-194 | server option 20 (DisableBackfaceCulling) with the flag as 0 or 1 |
| Environment.SetDisableHeliBladeDamageCall | src/func/environment.rs:195-197 | server option 21 (DisableHeliBladeDamage) with the flag as 0 or 1 |
| Environment.SetDisableCrouchCall | src/func/environment.rs:198-200 | server option 22 (DisableCrouch) with the flag as 0 or 1 |
| Environment.SetFallTimerCall | src/func/environment.rs:201-203 | the timer is passed to the host unchanged |
| Environment.TimeOfDay | src/func/environment.rs:353-359 | hour and minute of a minute count: hour * 60 + minute is the count modulo a day (Rust remainder), for a non-negative count 0 <= hour < 24 and 0 <= minute < 60, and for a negative count -24 < hour <= 0 and -60 < minute <= 0 |
| Environment.TDivNested | src/func/environment.rs:353-359 | dividing by 60 and then by 24 truncates like one division by 1440, for either sign |
| Environment.TimeOfDayPeriodic | src/func/environment.rs:353-359 | a count one day later gives the same hour and minute |
| Environment.SetTimeCalls | src/func/environment.rs:353-359 | `set_time` issues SetHour and then SetMinute with the time of day of the count |
| Environment.GetTime | src/func/environment.rs:409-411 | hour * 60 + minute from the host, with `i32` wrap-around |
| Environment.SetThenGetTime | src/func/environment.rs:353-411 | reading the time back after `set_time(t)` gives t modulo a day (t itself for 0 <= t < 1440) |
| Environment.DisableKillCommandDelayCall | src/func/environment.rs:384-386 | the kill-command delay is set to `i32::MAX` |
| Environment.AddPlayerClassCall | src/func/environment.rs:287-316 | team, the colour packed so that it unpacks as RGBA to itself, skin, position, angle and three weapons (an absent one as 0, 0) in the host's argument order |
| Environment.GetWastedSettings | src/func/environment.rs:246-275 | the seven values the host writes, with the fade colour unpacked from RGB with alpha 255 |
| Environment.SetWastedSettingsCall | src/func/environment.rs:276-286 | the seven values in the host's order, with the fade colour packed as RGB (no alpha byte) |
| Environment.WastedSettingsRoundTrip | src/func/environment.rs:246-286 | settings the host stores as sent are read back unchanged except that the fade colour comes back opaque |
| Player.CStringNew | src/func/player.rs:815-818 | `CString::new` refuses exactly the bytes holding a NUL; otherwise it owns the bytes plus one NUL, read back as the bytes |
| Player.RedirectPlayerToServerAsWritten | src/func/player.rs:804-834 | as written the formatted texts always hold a NUL, so the call always panics |
| Player.RedirectAsWrittenPanicsOnPlainInput | src/func/player.rs:804-834 | a redirect to 127.0.0.1:8192 with ordinary texts panics as written and reaches the host once corrected |
| Player.RedirectPlayerToServer | src/func/player.rs:804-834 | corrected: panics exactly for a text with an interior NUL; otherwise the four texts go as UTF-8 plus NUL and Ok exactly when the host answers 0 |
| Player.RedirectPlayerToServerReachesHost | src/func/player.rs:804-834 | with NUL-free texts the corrected call reaches the host and each text is read back as its UTF-8 |
| Player.SendClientScriptData | src/func/player.rs:177-185 | Ok exactly when the host answers 0 to the bytes and their length, otherwise the decoded error |
| Player.MessageColour | src/func/player.rs:194-196 | unpacking the colour sent gives the given colour with alpha 255 |
| Player.SendClientMessage | src/func/player.rs:188-206 | the text is sent as its UTF-8 bytes plus one 0; Ok exactly when the host answers 0 |
| Player.SendAnnounce | src/func/player.rs:209-224 | the text is sent as its UTF-8 bytes plus one 0; Ok exactly when the host answers 0 |
| Player.SetPlayerNameCall | src/func/player.rs:297-301 | the name is sent as its UTF-8 bytes plus one 0, and a NUL-free name is read back whole as a C string |
| Player.GetPlayerIp | src/func/player.rs:254-259 | the decoded 1024-byte buffer without its trailing NULs, which never ends with a NUL |
| Player.GetPlayerUid | src/func/player.rs:260-265 | the decoded 1024-byte buffer without its trailing NULs, which never ends with a NUL |
| Player.GetPlayerUid2 | src/func/player.rs:266-271 | the decoded 1024-byte buffer without its trailing NULs, which never ends with a NUL |
| Player.GetPlayerName | src/func/player.rs:290-295 | the decoded 1024-byte buffer without its trailing NULs, which never ends with a NUL |
| Player.GetPlayerNameOfPadded | src/func/player.rs:290-295 | a name padded with NULs by the host is returned exactly |
| Player.GetPlayerState | src/func/player.rs:303-305 | codes 0..8 give the states in declaration order, every other code gives `None` |
| Player.SetPlayerOptionCall | src/func/player.rs:307-309 | the option's own code (`option.into()`) is sent, the code `get_player_option` queries and that decodes back to the option; the value as 1 or 0 |
| Player.GetPlayerOption | src/func/player.rs:311-313 | true exactly when the host answers nonzero for the option's code |
| Player.SetPlayerAdminCall | src/func/player.rs:250-252 | the flag is sent as 1 or 0 |
| Player.SetPlayerColor | src/func/player.rs:379-386 | sends a value below 2^24 from which the colour's channels are recovered; Ok exactly when the host answers 0 |
| Player.GetPlayerColor | src/func/player.rs:388-390 | alpha is 255 and the channels are the low 24 bits of the host value |
| Player.PlayerColorRoundTrip | src/func/player.rs:379-390 | a colour stored and read back loses only its alpha, which becomes 255 |
| Player.IsPlayerAdmin | src/func/player.rs:246-248 | true exactly when `IsPlayerAdmin` answers nonzero |
| Player.IsPlayerConnected | src/func/player.rs:279-281 | true exactly when `IsPlayerConnected` answers nonzero |
| Player.IsPlayerStreamedForTarget | src/func/player.rs:282-284 | true exactly when `IsPlayerStreamedForPlayer` answers nonzero |
| Player.IsPlayerWorldCompatible | src/func/player.rs:345-347 | true exactly when `IsPlayerWorldCompatible` answers nonzero |
| Player.IsPlayerSpawned | src/func/player.rs:392-394 | true exactly when `IsPlayerSpawned` answers nonzero |
| Player.IsPlayerTyping | src/func/player.rs:418-420 | true exactly when `IsPlayerTyping` answers nonzero |
| Player.IsPlayerOnFire | src/func/player.rs:618-620 | true exactly when `IsPlayerOnFire` answers nonzero |
| Player.IsPlayerCrouching | src/func/player.rs:622-624 | true exactly when `IsPlayerCrouching` answers nonzero |
| Player.IsCameraLocked | src/func/player.rs:761-763 | true exactly when `IsCameraLocked` answers nonzero |
| Player.IsPlayerAway | src/func/player.rs:787-789 | true exactly when `IsPlayerAway` answers nonzero |
| Player.GetPlayerDrunkVisuals | src/func/player.rs:874-876 | true exactly when `GetPlayerDrunkVisuals` answers nonzero |
| Player.IsPlayer3dArrowForTarget | src/func/player.rs:878-880 | true exactly when `GetPlayer3DArrowForPlayer` answers nonzero |
| Player.GetPlayerPosition | src/func/player.rs:526-536 | Ok with the host's out-parameters exactly when `GetPlayerPosition` answers 0, otherwise the decoded error |
| Player.GetPlayerSpeed | src/func/player.rs:547-557 | Ok with the host's out-parameters exactly when `GetPlayerSpeed` answers 0, otherwise the decoded error |
| Player.GetPlayerAimPosition | src/func/player.rs:594-604 | Ok with the host's out-parameters exactly when `GetPlayerAimPosition` answers 0, otherwise the decoded error |
| Player.GetPlayerAimDirection | src/func/player.rs:606-616 | Ok with the host's out-parameters exactly when `GetPlayerAimDirection` answers 0, otherwise the decoded error |
| Player.SetPlayerWorld | src/func/player.rs:315-322 | Ok exactly when `SetPlayerWorld` answers 0, otherwise the decoded error (never `None`) |
| Player.SetPlayerSecondaryWorld | src/func/player.rs:328-335 | Ok exactly when `SetPlayerSecondaryWorld` answers 0, otherwise the decoded error (never `None`) |
| Player.SetPlayerTeam | src/func/player.rs:353-360 | Ok exactly when `SetPlayerTeam` answers 0, otherwise the decoded error (never `None`) |
| Player.SetPlayerSkin | src/func/player.rs:366-373 | Ok exactly when `SetPlayerSkin` answers 0, otherwise the decoded error (never `None`) |
| Player.SpawnPlayer | src/func/player.rs:396-403 | Ok exactly when `ForcePlayerSpawn` answers 0, otherwise the decoded error (never `None`) |
| Player.ForcePlayerSelect | src/func/player.rs:405-412 | Ok exactly when `ForcePlayerSelect` answers 0, otherwise the decoded error (never `None`) |
| Player.GivePlayerMoney | src/func/player.rs:422-429 | Ok exactly when `GivePlayerMoney` answers 0, otherwise the decoded error (never `None`) |
| Player.SetPlayerMoney | src/func/player.rs:431-438 | Ok exactly when `SetPlayerMoney` answers 0, otherwise the decoded error (never `None`) |
| Player.SetPlayerScore | src/func/player.rs:444-451 | Ok exactly when `SetPlayerScore` answers 0, otherwise the decoded error (never `None`) |
| Player.SetPlayerWantedLevel | src/func/player.rs:457-464 | Ok exactly when `SetPlayerWantedLevel` answers 0, otherwise the decoded error (never `None`) |
| Player.SetPlayerHealth | src/func/player.rs:478-485 | Ok exactly when `SetPlayerHealth` answers 0, otherwise the decoded error (never `None`) |
| Player.SetPlayerArmour | src/func/player.rs:491-498 | Ok exactly when `SetPlayerArmour` answers 0, otherwise the decoded error (never `None`) |
| Player.SetPlayerImmunity | src/func/player.rs:504-511 | Ok exactly when `SetPlayerImmunityFlags` answers 0, otherwise the decoded error (never `None`) |
| Player.SetPlayerPosition | src/func/player.rs:517-524 | Ok exactly when `SetPlayerPosition` answers 0, otherwise the decoded error (never `None`) |
| Player.SetPlayerSpeed | src/func/player.rs:538-545 | Ok exactly when `SetPlayerSpeed` answers 0, otherwise the decoded error (never `None`) |
| Player.AddPlayerSpeed | src/func/player.rs:559-566 | Ok exactly when `AddPlayerSpeed` answers 0, otherwise the decoded error (never `None`) |
| Player.SetPlayerAngle | src/func/player.rs:568-575 | Ok exactly when `SetPlayerHeading` answers 0, otherwise the decoded error (never `None`) |
| Player.SetPlayerAlpha | src/func/player.rs:581-588 | Ok exactly when `SetPlayerAlpha` answers 0, otherwise the decoded error (never `None`) |
| Player.PutPlayerInVehicle | src/func/player.rs:634-648 | Ok exactly when `PutPlayerInVehicle` answers 0, otherwise the decoded error (never `None`) |
| Player.RemovePlayerFromVehicle | src/func/player.rs:650-657 | Ok exactly when `RemovePlayerFromVehicle` answers 0, otherwise the decoded error (never `None`) |
| Player.GivePlayerWeapon | src/func/player.rs:671-678 | Ok exactly when `GivePlayerWeapon` answers 0, otherwise the decoded error (never `None`) |
| Player.SetPlayerWeapon | src/func/player.rs:680-687 | Ok exactly when `SetPlayerWeapon` answers 0, otherwise the decoded error (never `None`) |
| Player.SetPlayerWeaponSlot | src/func/player.rs:697-704 | Ok exactly when `SetPlayerWeaponSlot` answers 0, otherwise the decoded error (never `None`) |
| Player.RemovePlayerWeapon | src/func/player.rs:718-725 | Ok exactly when `RemovePlayerWeapon` answers 0, otherwise the decoded error (never `None`) |
| Player.RemoveAllWeapons | src/func/player.rs:727-734 | Ok exactly when `RemoveAllWeapons` answers 0, otherwise the decoded error (never `None`) |
| Player.SetCameraPosition | src/func/player.rs:736-750 | Ok exactly when `SetCameraPosition` answers 0, otherwise the decoded error (never `None`) |
| Player.RestoreCamera | src/func/player.rs:752-759 | Ok exactly when `RestoreCamera` answers 0, otherwise the decoded error (never `None`) |
| Player.SetPlayerAnimation | src/func/player.rs:765-777 | Ok exactly when `SetPlayerAnimation` answers 0, otherwise the decoded error (never `None`) |
| Player.SetPlayerSpectateTarget | src/func/player.rs:795-802 | Ok exactly when `SetPlayerSpectateTarget` answers 0, otherwise the decoded error (never `None`) |
| Player.GetPlayerModuleList | src/func/player.rs:836-843 | Ok exactly when `GetPlayerModuleList` answers 0, otherwise the decoded error (never `None`) |
| Player.KillPlayer | src/func/player.rs:844-851 | Ok exactly when `KillPlayer` answers 0, otherwise the decoded error (never `None`) |
| Player.SetPlayerDrunkHandling | src/func/player.rs:852-859 | Ok exactly when `SetPlayerDrunkHandling` answers 0, otherwise the decoded error (never `None`) |
| Player.SetPlayerDrunkVisuals | src/func/player.rs:865-872 | Ok exactly when `SetPlayerDrunkVisuals` answers 0, otherwise the decoded error (never `None`) |
| Player.SetPlayer3dArrowForTarget | src/func/player.rs:882-894 | Ok exactly when `SetPlayer3DArrowForPlayer` answers 0, otherwise the decoded error (never `None`) |
| Player.InterpolateCameraLookAt | src/func/player.rs:896-908 | Ok exactly when `InterpolateCameraLookAt` answers 0, otherwise the decoded error (never `None`) |
| Vehicle.CreateVehicle | src/func/vehicle.rs:28-47 | the host's answer to `CreateVehicle`, with no error channel |
| Vehicle.DeleteVehicle | src/func/vehicle.rs:48-55 | Ok exactly when `DeleteVehicle` answers 0, otherwise the decoded error (never `None`) |
| Vehicle.IsVehicle3dArrowForPlayer | src/func/vehicle.rs:57-59 | true exactly when `GetVehicle3DArrowForPlayer` answers nonzero |
| Vehicle.SetVehicle3dArrowForPlayer | src/func/vehicle.rs:61-73 | Ok exactly when `SetVehicle3DArrowForPlayer` answers 0, otherwise the decoded error (never `None`) |
| Vehicle.GetVehicleOptionDoorsLocked | src/func/vehicle.rs:89-91 | true exactly when the host answers nonzero for option code 0 (`DoorsLocked`) |
| Vehicle.GetVehicleOptionAlarm | src/func/vehicle.rs:92-94 | true exactly when the host answers nonzero for option code 1 (`Alarm`) |
| Vehicle.GetVehicleOptionLights | src/func/vehicle.rs:95-97 | true exactly when the host answers nonzero for option code 2 (`Lights`) |
| Vehicle.GetVehicleOptionRadioLocked | src/func/vehicle.rs:98-100 | true exactly when the host answers nonzero for option code 3 (`RadioLocked`) |
| Vehicle.GetVehicleOptionGhost | src/func/vehicle.rs:101-103 | true exactly when the host answers nonzero for option code 4 (`Ghost`) |
| Vehicle.GetVehicleOptionSiren | src/func/vehicle.rs:104-106 | true exactly when the host answers nonzero for option code 5 (`Siren`) |
| Vehicle.GetVehicleOptionSingleUse | src/func/vehicle.rs:107-109 | true exactly when the host answers nonzero for option code 6 (`SingleUse`) |
| Vehicle.GetVehicleOptionEngineDisabled | src/func/vehicle.rs:110-112 | true exactly when the host answers nonzero for option code 7 (`EngineDisabled`) |
| Vehicle.GetVehicleOptionBootOpen | src/func/vehicle.rs:113-115 | true exactly when the host answers nonzero for option code 8 (`BootOpen`) |
| Vehicle.GetVehicleOptionBonnetOpen | src/func/vehicle.rs:116-118 | true exactly when the host answers nonzero for option code 9 (`BonnetOpen`) |
| Vehicle.SetVehicleOptionDoorsLocked | src/func/vehicle.rs:150-156 | sends option code 0 (`DoorsLocked`) and the toggle as 1 or 0; Ok exactly when the host answers 0 |
| Vehicle.SetVehicleOptionAlarm | src/func/vehicle.rs:157-159 | sends option code 1 (`Alarm`) and the toggle as 1 or 0; Ok exactly when the host answers 0 |
| Vehicle.SetVehicleOptionLights | src/func/vehicle.rs:160-162 | sends option code 2 (`Lights`) and the toggle as 1 or 0; Ok exactly when the host answers 0 |
| Vehicle.SetVehicleOptionRadioLocked | src/func/vehicle.rs:163-169 | sends option code 3 (`RadioLocked`) and the toggle as 1 or 0; Ok exactly when the host answers 0 |
| Vehicle.SetVehicleOptionGhost | src/func/vehicle.rs:170-172 | sends option code 4 (`Ghost`) and the toggle as 1 or 0; Ok exactly when the host answers 0 |
| Vehicle.SetVehicleOptionSiren | src/func/vehicle.rs:173-175 | sends option code 5 (`Siren`) and the toggle as 1 or 0; Ok exactly when the host answers 0 |
| Vehicle.SetVehicleOptionSingleUse | src/func/vehicle.rs:176-182 | sends option code 6 (`SingleUse`) and the toggle as 1 or 0; Ok exactly when the host answers 0 |
| Vehicle.SetVehicleOptionEngineDisabled | src/func/vehicle.rs:183-189 | sends option code 7 (`EngineDisabled`) and the toggle as 1 or 0; Ok exactly when the host answers 0 |
| Vehicle.SetVehicleOptionBootOpen | src/func/vehicle.rs:190-192 | sends option code 8 (`BootOpen`) and the toggle as 1 or 0; Ok exactly when the host answers 0 |
| Vehicle.SetVehicleOptionBonnetOpen | src/func/vehicle.rs:193-195 | sends option code 9 (`BonnetOpen`) and the toggle as 1 or 0; Ok exactly when the host answers 0 |
| Vehicle.SetVehicleWorld | src/func/vehicle.rs:273-280 | Ok exactly when `SetVehicleWorld` answers 0, otherwise the decoded error (never `None`) |
| Vehicle.RespawnVehicle | src/func/vehicle.rs:281-288 | Ok exactly when `RespawnVehicle` answers 0, otherwise the decoded error (never `None`) |
| Vehicle.SetVehicleImmunity | src/func/vehicle.rs:289-296 | Ok exactly when `SetVehicleImmunityFlags` answers 0, otherwise the decoded error (never `None`) |
| Vehicle.ExplodeVehicle | src/func/vehicle.rs:297-304 | Ok exactly when `ExplodeVehicle` answers 0, otherwise the decoded error (never `None`) |
| Vehicle.SetVehiclePosition | src/func/vehicle.rs:305-323 | sends 1 for removing occupants exactly when asked with `Some(true)`; Ok exactly when the host answers 0 |
| Vehicle.SetVehicleRotation | src/func/vehicle.rs:324-337 | Ok exactly when `SetVehicleRotation` answers 0, otherwise the decoded error (never `None`) |
| Vehicle.SetVehicleRotationEuler | src/func/vehicle.rs:338-350 | Ok exactly when `SetVehicleRotationEuler` answers 0, otherwise the decoded error (never `None`) |
| Vehicle.SetVehicleSpeed | src/func/vehicle.rs:351-358 | sends `SetVehicleSpeed` with (add, relative) flags (0, 0); Ok exactly when the host answers 0 |
| Vehicle.SetVehicleRelSpeed | src/func/vehicle.rs:359-366 | sends `SetVehicleSpeed` with (add, relative) flags (0, 1); Ok exactly when the host answers 0 |
| Vehicle.SetVehicleTurnSpeed | src/func/vehicle.rs:367-374 | sends `SetVehicleTurnSpeed` with (add, relative) flags (0, 0); Ok exactly when the host answers 0 |
| Vehicle.SetVehicleRelTurnSpeed | src/func/vehicle.rs:375-386 | sends `SetVehicleTurnSpeed` with (add, relative) flags (0, 1); Ok exactly when the host answers 0 |
| Vehicle.SetVehicleAddSpeed | src/func/vehicle.rs:387-394 | sends `SetVehicleSpeed` with (add, relative) flags (1, 0); Ok exactly when the host answers 0 |
| Vehicle.SetVehicleAddRelSpeed | src/func/vehicle.rs:395-402 | sends `SetVehicleSpeed` with (add, relative) flags (1, 1); Ok exactly when the host answers 0 |
| Vehicle.SetVehicleAddTurnSpeed | src/func/vehicle.rs:403-414 | sends `SetVehicleTurnSpeed` with (add, relative) flags (1, 0); Ok exactly when the host answers 0 |
| Vehicle.SetVehicleAddRelTurnSpeed | src/func/vehicle.rs:415-426 | sends `SetVehicleTurnSpeed` with (add, relative) flags (1, 1); Ok exactly when the host answers 0 |
| Vehicle.SetVehicleSpawnPosition | src/func/vehicle.rs:427-439 | Ok exactly when `SetVehicleSpawnPosition` answers 0, otherwise the decoded error (never `None`) |
| Vehicle.SetVehicleSpawnRotation | src/func/vehicle.rs:440-453 | Ok exactly when `SetVehicleSpawnRotation` answers 0, otherwise the decoded error (never `None`) |
| Vehicle.SetVehicleSpawnRotationEuler | src/func/vehicle.rs:454-467 | Ok exactly when `SetVehicleSpawnRotationEuler` answers 0, otherwise the decoded error (never `None`) |
| Vehicle.SetVehicleIdleRespawnTimer | src/func/vehicle.rs:468-475 | Ok exactly when `SetVehicleIdleRespawnTimer` answers 0, otherwise the decoded error (never `None`) |
| Vehicle.SetVehicleHealth | src/func/vehicle.rs:476-483 | Ok exactly when `SetVehicleHealth` answers 0, otherwise the decoded error (never `None`) |
| Vehicle.SetVehicleColor | src/func/vehicle.rs:484-496 | Ok exactly when `SetVehicleColour` answers 0, otherwise the decoded error (never `None`) |
| Vehicle.SetVehiclePartStatus | src/func/vehicle.rs:497-509 | Ok exactly when `SetVehiclePartStatus` answers 0, otherwise the decoded error (never `None`) |
| Vehicle.SetVehicleTyreStatus | src/func/vehicle.rs:510-522 | Ok exactly when `SetVehicleTyreStatus` answers 0, otherwise the decoded error (never `None`) |
| Vehicle.SetVehicleDamageData | src/func/vehicle.rs:523-530 | Ok exactly when `SetVehicleDamageData` answers 0, otherwise the decoded error (never `None`) |
| Vehicle.SetVehicleRadio | src/func/vehicle.rs:531-538 | Ok exactly when `SetVehicleRadio` answers 0, otherwise the decoded error (never `None`) |
| Vehicle.SetVehicleLightsData | src/func/vehicle.rs:540-547 | Ok exactly when `SetVehicleLightsData` answers 0, otherwise the decoded error (never `None`) |
| Vehicle.IsVehicleAlive | src/func/vehicle.rs:582-584 | true exactly when the host answers nonzero for pool code 1 (Vehicle) |
| Vehicle.IsVehicleStreamedForPlayer | src/func/vehicle.rs:585-587 | true exactly when `IsVehicleStreamedForPlayer` answers nonzero |
| Vehicle.IsVehicleWrecked | src/func/vehicle.rs:605-607 | true exactly when `IsVehicleWrecked` answers nonzero |
| Vehicle.GetVehiclePartStatus | src/func/vehicle.rs:706-708 | true exactly when `GetVehiclePartStatus` answers nonzero |
| Vehicle.GetVehicleTyreStatus | src/func/vehicle.rs:710-712 | true exactly when `GetVehicleTyreStatus` answers nonzero |
| Vehicle.GetVehiclePosition | src/func/vehicle.rs:609-615 | the out-parameters `GetVehiclePosition` writes, whatever its return code |
| Vehicle.GetVehicleRotation | src/func/vehicle.rs:617-624 | the out-parameters `GetVehicleRotation` writes, whatever its return code |
| Vehicle.GetVehicleRotationEuler | src/func/vehicle.rs:626-632 | the out-parameters `GetVehicleRotationEuler` writes, whatever its return code |
| Vehicle.GetVehicleSpawnPosition | src/func/vehicle.rs:666-672 | the out-parameters `GetVehicleSpawnPosition` writes, whatever its return code |
| Vehicle.GetVehicleSpawnRotation | src/func/vehicle.rs:674-681 | the out-parameters `GetVehicleSpawnRotation` writes, whatever its return code |
| Vehicle.GetVehicleSpawnRotationEuler | src/func/vehicle.rs:683-689 | the out-parameters `GetVehicleSpawnRotationEuler` writes, whatever its return code |
| Vehicle.GetVehicleSpeed | src/func/vehicle.rs:634-640 | the speed the host reports for relative flag 0 |
| Vehicle.GetVehicleRelSpeedAsWritten | src/func/vehicle.rs:642-648 | as written: the speed for relative flag 0, the same query as `get_vehicle_speed` |
| Vehicle.GetVehicleRelSpeed | src/func/vehicle.rs:642-648 | corrected: the speed the host reports for relative flag 1 |
| Vehicle.GetVehicleTurnSpeed | src/func/vehicle.rs:650-656 | the turn speed the host reports for relative flag 0 |
| Vehicle.GetVehicleRelTurnSpeed | src/func/vehicle.rs:658-664 | the turn speed the host reports for relative flag 1 |
| Vehicle.SpeedFlagsMatchSetters | src/func/vehicle.rs:634-664 | the corrected relative getters read with the relative flag (1) their setters write with |
| Vehicle.RelSpeedAsWrittenReadsPlainSpeed | src/func/vehicle.rs:642-648 | on a host with distinct plain and relative speeds, the as-written getter returns the plain one and the corrected getter the relative one |
| Vehicle.RelSpeedAsWrittenIsPlainSpeed | src/func/vehicle.rs:634-648 | the as-written relative getter equals `get_vehicle_speed` for every host |
| Object.IsObjectAlive | src/func/object.rs:77-79 | true exactly when the host answers nonzero for pool code 2 (Object) |
| Object.CreateObject | src/func/object.rs:81-90 | the host's answer to `CreateObject`, unchanged and with no error channel |
| Object.DeleteObject | src/func/object.rs:92-99 | Ok exactly when `DeleteObject` answers 0, otherwise the decoded error (never `None`) |
| Object.IsObjectStreamedForPlayer | src/func/object.rs:101-103 | true exactly when `IsObjectStreamedForPlayer` answers nonzero |
| Object.SetObjectWorld | src/func/object.rs:109-116 | Ok exactly when `SetObjectWorld` answers 0, otherwise the decoded error (never `None`) |
| Object.SetObjectAlpha | src/func/object.rs:122-129 | Ok exactly when `SetObjectAlpha` answers 0, otherwise the decoded error (never `None`) |
| Object.MoveObjectTo | src/func/object.rs:135-143 | Ok exactly when `MoveObjectTo` answers 0, otherwise the decoded error (never `None`) |
| Object.MoveObjectBy | src/func/object.rs:145-153 | Ok exactly when `MoveObjectBy` answers 0, otherwise the decoded error (never `None`) |
| Object.SetObjectPosition | src/func/object.rs:155-162 | Ok exactly when `SetObjectPosition` answers 0, otherwise the decoded error (never `None`) |
| Object.RotateObjectTo | src/func/object.rs:176-190 | Ok exactly when `RotateObjectTo` answers 0, otherwise the decoded error (never `None`) |
| Object.RotateObjectToEuler | src/func/object.rs:192-206 | Ok exactly when `RotateObjectToEuler` answers 0, otherwise the decoded error (never `None`) |
| Object.RotateObjectBy | src/func/object.rs:208-222 | Ok exactly when `RotateObjectBy` answers 0, otherwise the decoded error (never `None`) |
| Object.RotateObjectByEuler | src/func/object.rs:224-238 | Ok exactly when `RotateObjectByEuler` answers 0, otherwise the decoded error (never `None`) |
| Object.SetObjectShotReportEnabled | src/func/object.rs:265-272 | Ok exactly when `SetObjectShotReportEnabled` answers 0, otherwise the decoded error (never `None`) |
| Object.SetObjectTouchedReportEnabled | src/func/object.rs:278-285 | Ok exactly when `SetObjectTouchedReportEnabled` answers 0, otherwise the decoded error (never `None`) |
| Object.GetObjectPosition | src/func/object.rs:164-174 | Ok with the host's out-parameters exactly when `GetObjectPosition` answers 0, otherwise the decoded error |
| Object.GetObjectRotation | src/func/object.rs:240-251 | Ok with the host's out-parameters exactly when `GetObjectRotation` answers 0, otherwise the decoded error |
| Object.GetObjectRotationEuler | src/func/object.rs:253-263 | Ok with the host's out-parameters exactly when `GetObjectRotationEuler` answers 0, otherwise the decoded error |
| Object.IsObjectShotReportEnabled | src/func/object.rs:274-276 | true exactly when `IsObjectShotReportEnabled` answers nonzero |
| Object.IsObjectTouchedReportEnabled | src/func/object.rs:287-289 | true exactly when `IsObjectTouchedReportEnabled` answers nonzero |
| Pickup.IsPickupAlive | src/func/pickup.rs:54-56 | true exactly when the host answers nonzero for pool code 3 (Pickup) |
| Pickup.CreatePickup | src/func/pickup.rs:57-76 | the host's answer to `CreatePickup`, unchanged and with no error channel |
| Pickup.DeletePickup | src/func/pickup.rs:78-85 | Ok exactly when `DeletePickup` answers 0, otherwise the decoded error (never `None`) |
| Pickup.IsPickupStreamedForPlayer | src/func/pickup.rs:87-89 | true exactly when `IsPickupStreamedForPlayer` answers nonzero |
| Pickup.SetPickupWorld | src/func/pickup.rs:91-98 | Ok exactly when `SetPickupWorld` answers 0, otherwise the decoded error (never `None`) |
| Pickup.SetPickupAlpha | src/func/pickup.rs:104-111 | Ok exactly when `SetPickupAlpha` answers 0, otherwise the decoded error (never `None`) |
| Pickup.SetPickupAutomatic | src/func/pickup.rs:117-124 | Ok exactly when `SetPickupIsAutomatic` answers 0, otherwise the decoded error (never `None`) |
| Pickup.SetPickupAutoTimer | src/func/pickup.rs:130-137 | Ok exactly when `SetPickupAutoTimer` answers 0, otherwise the decoded error (never `None`) |
| Pickup.RefreshPickup | src/func/pickup.rs:143-150 | Ok exactly when `RefreshPickup` answers 0, otherwise the decoded error (never `None`) |
| Pickup.SetPickupPosition | src/func/pickup.rs:152-159 | Ok exactly when `SetPickupPosition` answers 0, otherwise the decoded error (never `None`) |
| Pickup.IsPickupAutomatic | src/func/pickup.rs:126-128 | true exactly when `IsPickupAutomatic` answers nonzero |
| Pickup.GetPickupPosition | src/func/pickup.rs:161-171 | Ok with the host's out-parameters exactly when `GetPickupPosition` answers 0, otherwise the decoded error |
| Pickup.IsPickupSingleUse | src/func/pickup.rs:181-183 | true exactly when the host answers nonzero for the code of `PickupOption::SingleUse` |
| Pickup.SetPickupSingleUse | src/func/pickup.rs:185-192 | sends the code of `PickupOption::SingleUse` and the toggle as 1 or 0; Ok exactly when the host answers 0 |
| Checkpoint.IsCheckpointAlive | src/func/checkpoint.rs:47-49 | true exactly when the host answers nonzero for pool code 8 (CheckPoint) |
| Checkpoint.CreateCheckpoint | src/func/checkpoint.rs:50-72 | sends -1 for an absent owner, the sphere flag as 1 or 0 and the colour as widened components that narrow back to it; returns the host's id |
| Checkpoint.DeleteCheckpoint | src/func/checkpoint.rs:74-81 | Ok exactly when `DeleteCheckPoint` answers 0, otherwise the decoded error (never `None`) |
| Checkpoint.IsCheckpointStreamedForPlayer | src/func/checkpoint.rs:83-85 | true exactly when `IsCheckPointStreamedForPlayer` answers nonzero |
| Checkpoint.IsCheckpointSphere | src/func/checkpoint.rs:87-89 | true exactly when `IsCheckPointSphere` answers nonzero |
| Checkpoint.SetCheckpointWorld | src/func/checkpoint.rs:91-98 | Ok exactly when `SetCheckPointWorld` answers 0, otherwise the decoded error (never `None`) |
| Checkpoint.GetCheckpointWorld | src/func/checkpoint.rs:100-102 | the host's answer to `GetCheckPointWorld`, unchanged and with no error channel |
| Checkpoint.SetCheckpointColour | src/func/checkpoint.rs:104-117 | sends the colour as four widened components; Ok exactly when the host answers 0, otherwise the decoded error |
| Checkpoint.GetCheckpointColour | src/func/checkpoint.rs:119-141 | Ok exactly when the host code is 0, with each component the byte congruent to the host's `i32` modulo 256; otherwise the decoded error |
| Checkpoint.CheckpointColourRoundTrip | src/func/checkpoint.rs:104-141 | a host that reports the widened components that were set gives back the colour that was set |
| Checkpoint.Narrow | src/func/checkpoint.rs:134-137 | `as u8` on an `i32` gives the byte congruent to it modulo 256, and keeps 0..255 unchanged |
| Checkpoint.ColourArgs | src/func/checkpoint.rs:104-111 | the four components widened to `i32` are four integers in 0..255 |
| Checkpoint.ColourArgsNarrow | src/func/checkpoint.rs:104-139 | narrowing the four widened components, as the colour getter does, rebuilds the colour that was sent |
| Checkpoint.NarrowWiden | src/func/checkpoint.rs:134-137 | widening a byte and narrowing it back gives the byte |
| Checkpoint.SetCheckpointPosition | src/func/checkpoint.rs:143-151 | Ok exactly when `SetCheckPointPosition` answers 0, otherwise the decoded error (never `None`) |
| Checkpoint.GetCheckpointPosition | src/func/checkpoint.rs:153-163 | Ok with the host's out-parameters exactly when `GetCheckPointPosition` answers 0, otherwise the decoded error |
| Checkpoint.SetCheckpointRadius | src/func/checkpoint.rs:165-172 | Ok exactly when `SetCheckPointRadius` answers 0, otherwise the decoded error (never `None`) |
| Checkpoint.GetCheckpointOwner | src/func/checkpoint.rs:178-180 | the host's answer to `GetCheckPointOwner`, unchanged and with no error channel |
| Keybinds.GetKeyBindUnusedSlot | src/func/keybind.rs:50-52 | the host's free slot |
| Keybinds.RegisterKeyBind | src/func/keybind.rs:22-42 | the bind takes the host's free slot, the release flag and the keys with absent keys as 0, and the same values are registered with the host |
| Keybinds.GetKeyBindData | src/func/keybind.rs:53-67 | Ok exactly when the host answers 0, then the slot asked for, release true exactly for a nonzero byte, and the keys the host wrote |
| Keybinds.RegisterThenGetKeyBind | src/func/keybind.rs:22-67 | a bind that the host reports back as registered is read back unchanged from its slot |
| Plugins.GetPluginCount | src/func/plugin.rs:28-30 | the host's plugin count |
| Plugins.GetPluginInfo | src/func/plugin.rs:33-38 | none when the host answers nonzero, otherwise the record the host filled from the empty one |
| Plugins.FindPlugin | src/func/plugin.rs:40-45 | the name is sent as its UTF-8 bytes plus NUL; -1 gives none and any other answer is the plugin id |
| Plugins.SendPluginCommand | src/func/plugin.rs:47-56 | the identifier and the command's UTF-8 bytes plus NUL; Ok exactly when the host answers 0 |
| Plugins.GetPlugins | src/func/plugin.rs:67-71 | at most the plugin count of records, the found ones for ids 0..count-1 |
| Plugins.GetPluginsFound | src/func/plugin.rs:67-71 | every listed plugin is the info of some id below the count |
| Plugins.GetPluginsKeeps | src/func/plugin.rs:67-71 | a plugin found for id k is listed after exactly the plugins found for the smaller ids |
| Plugins.GetPluginsAll | src/func/plugin.rs:67-71 | when every id is found, one record per plugin is listed |
| Markers.IsMarkerAlive | src/func/marker.rs:21-23 | true exactly when the host reports that entity 7 (marker) with this id exists |
| Markers.CreateMarkerCall | src/func/marker.rs:24-44 | index or -1, world, position, scale, the colour packed so that it unpacks as RGBA to itself, and sprite |
| Markers.CreateMarker | src/func/marker.rs:24-44 | the id the host returns for that call |
| Markers.DestroyMarkerCall | src/func/marker.rs:45-47 | the marker id, to DestroyCoordBlip |
| Markers.GetMarkerInfo | src/func/marker.rs:49-71 | the id asked for and the values the host writes, with the colour word unpacked as RGBA; the host's code is ignored |
| Markers.CreateThenGetMarker | src/func/marker.rs:24-71 | a marker the host reports back as created is read back with the same world, position, scale, colour and sprite |
| Server.SetServerName | src/func/server.rs:21-31 | the name is sent as its GBK bytes plus one NUL; Ok exactly when the host answers 0 |
| Server.SetServerPassword | src/func/server.rs:32-42 | the password is sent as its GBK bytes plus one NUL; Ok exactly when the host answers 0 |
| Server.SetGamemode | src/func/server.rs:43-53 | the game mode is sent as its GBK bytes plus one NUL; Ok exactly when the host answers 0 |
| Server.GetMaxPlayers | src/func/server.rs:54-56 | the host's maximum player count |
| Server.ServerVersion | src/func/server.rs:61-63 | the host's version number |
| Server.GetServerSettings | src/func/server.rs:65-70 | the record the host fills from the empty one, whatever code it answers |
| Server.GetServerName | src/func/server.rs:71-76 | the settings' name decoded and trimmed of trailing NULs (the second trim changes nothing) |
| Server.GetServerPassword | src/func/server.rs:77-82 | the 1024-byte buffer decoded and trimmed of trailing NULs |
| Server.GetGamemode | src/func/server.rs:83-88 | the 1024-byte buffer decoded and trimmed of trailing NULs |
| Server.SetMaxPlayers | src/func/server.rs:89-96 | the count is sent; Ok exactly when the host answers 0 |
| Server.GetServerNameOfPadded | src/func/server.rs:71-76 | a name the host pads with NULs is read back unchanged |
| Server.GetServerPasswordOfPadded | src/func/server.rs:77-82 | a password the host pads with NULs is read back unchanged |
| Server.GetGamemodeOfPadded | src/func/server.rs:83-88 | a game mode the host pads with NULs is read back unchanged |
| Lib.FuncCell.constructor | src/lib.rs:38 | the global table starts empty |
| Lib.FuncCell.Init | src/lib.rs:40-42 | the first table stored is kept and returned; later calls change nothing and return the stored table |
| Lib.FuncCell.IsInitialized | src/lib.rs:44-46 | true exactly when a table has been stored |
| Lib.FuncCell.Get | src/lib.rs:48-50 | on an initialised cell, the stored table |
| Lib.InitTwice | src/lib.rs:38-50 | after initialising with two tables, both calls and a later read give the first |
| PickupEvents.PickupPickAttemptOf | src/events/pickup.rs:9-16 | `pickup_id` is argument 0, `player_id` is argument 1, unchanged and unvalidated |
| PickupEvents.PickupPickedOf | src/events/pickup.rs:24-31 | `pickup_id` is argument 0, `player_id` is argument 1, unchanged and unvalidated |
| PickupEvents.PickupRespawnOf | src/events/pickup.rs:38-42 | `pickup_id` is the argument, unchanged and unvalidated |
| VehicleEvents.VehicleUpdateOf | src/events/vehicle.rs:9-16 | `vehicle_id` is argument 0, `update_type` is argument 1, unchanged and unvalidated |
| VehicleEvents.VehicleExplodeOf | src/events/vehicle.rs:23-27 | `vehicle_id` is the argument, unchanged and unvalidated |
| VehicleEvents.VehicleRespawnOf | src/events/vehicle.rs:34-38 | `vehicle_id` is the argument, unchanged and unvalidated |
| ObjectEvents.ObjectShotOf | src/events/object.rs:10-18 | `object_id` is argument 0, `player_id` is argument 1, `weapon_id` is argument 2, unchanged and unvalidated |
| ObjectEvents.ObjectTouchedOf | src/events/object.rs:26-33 | `object_id` is argument 0, `player_id` is argument 1, unchanged and unvalidated |
| CheckpointEvents.CheckpointEnteredOf | src/events/checkpoint.rs:9-16 | `checkpoint_id` is argument 0, `player_id` is argument 1, unchanged and unvalidated |
| CheckpointEvents.CheckpointExitedOf | src/events/checkpoint.rs:24-31 | `checkpoint_id` is argument 0, `player_id` is argument 1, unchanged and unvalidated |
| CheckpointEvents.EnteredExitedAgree | src/events/checkpoint.rs:9-31 | the entered and exited converters give the same field values for the same tuple |
| PlayerEvents.IncomingConnectionOf | src/events/player.rs:25-41 | name, password and address are the decoded C strings of arguments 0, 2 and 3 without trailing NULs |
| PlayerEvents.IncomingConnectionIgnoresSize | src/events/player.rs:25-41 | argument 1 does not influence the event, and no text of it ends with a NUL |
| PlayerEvents.ClientScriptDataOf | src/events/player.rs:49-58 | the player is argument 0 and the data has exactly the given length and the bytes at the pointer |
| PlayerEvents.PlayerConnectOf | src/events/player.rs:65-69 | `player_id` is the argument, unchanged and unvalidated |
| PlayerEvents.PlayerDisconnectOf | src/events/player.rs:77-84 | `player_id` is argument 0, `reason` is argument 1, unchanged and unvalidated |
| PlayerEvents.PlayerRequestClassOf | src/events/player.rs:92-99 | `player_id` is argument 0, `class_id` is argument 1, unchanged and unvalidated |
| PlayerEvents.PlayerSpawnOf | src/events/player.rs:106-110 | `player_id` is the argument, unchanged and unvalidated |
| PlayerEvents.PlayerRequestSpawnOf | src/events/player.rs:117-121 | `player_id` is the argument, unchanged and unvalidated |
| PlayerEvents.PlayerDeathOf | src/events/player.rs:131-140 | `player_id` is argument 0, `killer_id` is argument 1, `reason` is argument 2, `body` is argument 3, unchanged and unvalidated |
| PlayerEvents.PlayerUpdateOf | src/events/player.rs:148-155 | `player_id` is argument 0, `update` is argument 1, unchanged and unvalidated |
| PlayerEvents.PlayerRequestEnterVehicleOf | src/events/player.rs:164-172 | `player_id` is argument 0, `vehicle_id` is argument 1, `slot_index` is argument 2, unchanged and unvalidated |
| PlayerEvents.PlayerEnterVehicleOf | src/events/player.rs:181-189 | `player_id` is argument 0, `vehicle_id` is argument 1, `slot_index` is argument 2, unchanged and unvalidated |
| PlayerEvents.PlayerExitVehicleOf | src/events/player.rs:197-204 | `player_id` is argument 0, `vehicle_id` is argument 1, unchanged and unvalidated |
| PlayerEvents.PlayerNameChangeOf | src/events/player.rs:213-227 | `player_id` is argument 0, `old_name` is the lossily decoded bytes of argument 1 up to its first NUL, `new_name` is the lossily decoded bytes of argument 2 up to its first NUL |
| PlayerEvents.PlayerStateChangeOf | src/events/player.rs:236-244 | `player_id` is argument 0, `old_state` is argument 1, `new_state` is argument 2, unchanged and unvalidated |
| PlayerEvents.PlayerActionChangeOf | src/events/player.rs:253-261 | `player_id` is argument 0, `old_action` is argument 1, `new_action` is argument 2, unchanged and unvalidated |
| PlayerEvents.PlayerOnFireChangeOf | src/events/player.rs:269-276 | `player_id` is argument 0, `is_on_fire` is true exactly when argument 1 is nonzero, unchanged and unvalidated |
| PlayerEvents.PlayerCrouchChangeOf | src/events/player.rs:284-291 | `player_id` is argument 0, `is_crouching` is true exactly when argument 1 is nonzero, unchanged and unvalidated |
| PlayerEvents.PlayerGameKeysChangeOf | src/events/player.rs:300-308 | `player_id` is argument 0, `old_keys` is argument 1, `new_keys` is argument 2, unchanged and unvalidated |
| PlayerEvents.PlayerBeginTypingOf | src/events/player.rs:315-319 | `player_id` is the argument, unchanged and unvalidated |
| PlayerEvents.PlayerEndTypingOf | src/events/player.rs:326-330 | `player_id` is the argument, unchanged and unvalidated |
| PlayerEvents.PlayerAwayChangeOf | src/events/player.rs:338-345 | `player_id` is argument 0, `is_away` is true exactly when argument 1 is nonzero, unchanged and unvalidated |
| PlayerEvents.FlagEventsRoundTrip | src/events/player.rs:269-345 | a flag byte made from a bool with `as u8` is read back as that bool by the on-fire, crouch and away events |
| PlayerEvents.PlayerMessageOf | src/events/player.rs:353-364 | `player_id` is argument 0, `message` is the lossily decoded bytes of argument 1 up to its first NUL |
| PlayerEvents.PlayerCommandOf | src/events/player.rs:373-390 | the command has no space; with a space in the line, command, one space and text rebuild the line; without one, the command is the line and the text empty |
| PlayerEvents.PlayerCommandOfUnique | src/events/player.rs:373-390 | any command without spaces and text that rebuild the line with one space between them are the ones the converter gives |
| PlayerEvents.PlayerCommandOfEmpty | src/events/player.rs:373-390 | an empty line gives an empty command and an empty text |
| PlayerEvents.PlayerPrivateMessageOf | src/events/player.rs:399-411 | `player_id` is argument 0, `target_id` is argument 1, `message` is the lossily decoded bytes of argument 2 up to its first NUL |
| PlayerEvents.PlayerKeyBindDownOf | src/events/player.rs:419-426 | `player_id` is argument 0, `bind_id` is argument 1, unchanged and unvalidated |
| PlayerEvents.PlayerKeyBindUpOf | src/events/player.rs:434-441 | `player_id` is argument 0, `bind_id` is argument 1, unchanged and unvalidated |
| PlayerEvents.PlayerSpectateOf | src/events/player.rs:449-456 | `player_id` is argument 0, `target_id` is argument 1, unchanged and unvalidated |
| PlayerEvents.PlayerCrashReportOf | src/events/player.rs:464-475 | `player_id` is argument 0, `report` is the lossily decoded bytes of argument 1 up to its first NUL |
| PlayerEvents.PlayerModuleListOf | src/events/player.rs:483-494 | `player_id` is argument 0, `modules` is the lossily decoded bytes of argument 1 up to its first NUL |
| ServerEvents.ServerFrameOf | src/events/server.rs:12-18 | `elapsed_time` is the argument, unchanged and unvalidated |
| ServerEvents.DescriptionOf | src/events/server.rs:36-48 | a description exactly for a non-null pointer: its decoded C string without trailing NULs |
| ServerEvents.SomesCount | src/events/server.rs:33-50 | filtering keeps one description per non-null pointer |
| ServerEvents.ServerPerformanceReportOf | src/events/server.rs:27-62 | the count is kept, the times are the first `count` values in order, there is one description per non-null pointer (at most `count`) and none ends with a NUL |
| ServerEvents.ReportKeepsOrder | src/events/server.rs:33-50 | the description of a non-null pointer sits right after those of the non-null pointers before it |
| ServerEvents.ReportEmpty | src/events/server.rs:27-62 | a count of 0 still builds the event, with no descriptions and no times |
| Events.TypeOf | src/events/mod.rs:135-186 | `From<VcmpEvent> for VcmpEventType`: every event gets the tag that names its own variant, read back from the tag's side by `Tags` |
| Events.TagTableTags | src/events/mod.rs:135-186 | each match arm gives the tag named like its variant, whatever the payload |
| Events.TagsUnique | src/events/mod.rs:135-186 | an event has one tag only: a tag named like its variant is the one the mapping gives |
| Events.TypeOfSameKind | src/events/mod.rs:135-186 | two events share a tag exactly when the second is of the kind the first one's tag names, so the mapping is injective on kinds |
| Events.PluginCommandOf | src/events/mod.rs:200-211 | the identifier is kept; the message is the lossily decoded bytes before the first NUL |
| Events.EntityStreamingOf | src/events/mod.rs:237-246 | player and entity kept; pool decoded from argument 2 with `Reserved1` for codes outside 1..8; `deleted` exactly when argument 3 is nonzero |
| Events.EntityPoolChangeOf | src/events/mod.rs:265-273 | pool decoded from argument 0 with `Reserved1` for codes outside 1..8, entity from argument 1, `deleted` exactly when argument 2 is nonzero |
| Events.EntityEventsRoundTrip | src/events/mod.rs:237-273 | a pool sent as its code and a flag sent as 1 or 0 arrive unchanged in both entity events |

## Left out

- The GBK codec (`src/encodes.rs`) is a parameter, so no GBK round trip is claimed. It wraps `encoding_rs`, which is not part of this model.
- Lossy UTF-8 decoding of incoming event texts (`to_string_lossy`) is a parameter, for the same reason.
- Float arithmetic is not modelled: `Vectorf32::distance_from` and `length`, quaternions, the NaN default of `play_sound_for_player`, and the rounding in `hide_map_object`. Floats are opaque values.
- `src/func/network.rs`, `src/func/weapon.rs`, `src/func/admin.rs` and `src/func/misc.rs` are left out: they hand their arguments to the host and state nothing beyond that.
- The vehicle handling rules and the vehicle colour and turret rotation accessors (`src/func/vehicle.rs`) are left out as float-valued pass-throughs.
- Getters and commands that hand their arguments to the host and return its answer unchanged are left out. In `src/func/player.rs` these are `kick_player` and `ban_player` (:272-277), `get_player_key` (:286), `get_player_world` (:324), `get_player_secondary_world` (:337), `get_player_team` (:362), `get_player_skin` (:375), `get_player_money` (:440), `get_player_score` (:453), `get_player_game_keys` (:630), `force_all_select`, and the getters of unique world, class, wanted level, ping, fps, health, armour, immunity, angle, alpha, action, weapon, weapon slot, weapon ammo, weapon and ammo at a slot, vehicle id, in-vehicle status and slot, standing-on vehicle and object, spectate target and drunk handling. In `src/func/vehicle.rs` they are `get_vehicle_world` (:589) and the getters of immunity, model, occupant, health, idle respawn timer, damage data, radio, lights data, sync source and sync type. The world, money and score setters are modelled. In `src/func/environment.rs` the left-out pass-throughs are world bounds, spawn positions, time rate, weather, water level, gravity and game speed.
- `get_fall_timer` and `get_checkpoint_radius` are left out: the host model has no `u16` or `f32` reply shape.
- `remove_key_bind` is left out: it passes its `slot` to `RemoveKeyBind` unchanged (`src/func/keybind.rs:43-45`) and returns nothing. `remove_all_key_binds` and `shutdown` are left out too: each makes one host call with no arguments and no reply.
- Lib.FuncCell.Get: the `unwrap` panic of `vcmp_func` on a cell that was never set (`src/lib.rs:48-50`) is not modelled as an outcome. The precondition `IsInitialized()` excludes that call instead.
- Environment.GetTime: only the release-build wrap of `hour * 60 + minute` is modelled. The overflow panic of a debug build (`src/func/environment.rs:410`) is not.
- `get_plugin_exports`, the `From<*mut …>` copies, `inner_struct_size` and `inner_ffi_size` are left out: they are raw-pointer and layout mechanics. The `raw` bindgen module is not part of this model.
- Concurrency is left out. `VCMP_FUNC` is a sequential write-once cell, and neither the thread safety of `OnceLock` nor the `Send`/`Sync` implementations is modelled.
- Errors.Message: the localised wording of `Display` is not modelled. The model uses its own wording and keeps only two facts: every variant has a non-empty message, and the message of `Unknown(c)` ends with the decimal text of `c`.
- Host replies: each host entry point is one fixed function of its arguments. A host whose replies change between calls is not modelled.

## Findings

| source | as written | input that shows it | evidently intended | confidence | as-written member | corrected member |
|---|---|---|---|---|---|---|
| src/func/vehicle.rs:646 | `get_vehicle_rel_speed` calls `GetVehicleSpeed` with relative flag 0, so it reads the plain speed, the same query as `get_vehicle_speed` | a host whose relative speed differs from its plain speed: the getter returns the plain one | relative flag 1, as `set_vehicle_rel_speed` writes and `get_vehicle_rel_turn_speed` reads | not executed | Vehicle.GetVehicleRelSpeedAsWritten | Vehicle.GetVehicleRelSpeed |
| src/func/player.rs:815-818 | `redirect_player_to_server` formats each text with a trailing `\0` and passes it to `CString::new`, which refuses bytes holding a NUL; the `unwrap` then panics, on every call | `redirect_player_to_server(0, "127.0.0.1", 8192, "player", "", "")` | `CString::new(ip)` and so on, which add the terminator themselves and fail only for an interior NUL | not executed | Player.RedirectPlayerToServerAsWritten | Player.RedirectPlayerToServer |
