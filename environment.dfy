/**
 * `QueryEnvironmentOption`, `SetEnvironmentOption`, `EnvironmentMethods`
 * and the world-time calls of `src/func/environment.rs`.
 */
module Environment {
  import opened Base
  import opened Utils
  import opened Options
  import opened Hosts
  import Func

  // Each named option query or setter goes through `get_server_option` or
  // `set_server_option` with the `ServerOption` of the same name; the
  // contracts name the code that reaches the host.

  /** `get_sync_frame_limiter`. */
  function GetSyncFrameLimiter(host: Host): (b: bool)
    ensures b <==> host.ret(Call("GetServerOption", [Int(0)])) != 0
  {
    Func.GetServerOption(host, ServerOption.SyncFrameLimiter)
  }

  /** `get_frame_limiter`. */
  function GetFrameLimiter(host: Host): (b: bool)
    ensures b <==> host.ret(Call("GetServerOption", [Int(1)])) != 0
  {
    Func.GetServerOption(host, ServerOption.FrameLimiter)
  }

  /** `get_taxi_boost_jump`. */
  function GetTaxiBoostJump(host: Host): (b: bool)
    ensures b <==> host.ret(Call("GetServerOption", [Int(2)])) != 0
  {
    Func.GetServerOption(host, ServerOption.TaxiBoostJump)
  }

  /** `get_drive_on_water`. */
  function GetDriveOnWater(host: Host): (b: bool)
    ensures b <==> host.ret(Call("GetServerOption", [Int(3)])) != 0
  {
    Func.GetServerOption(host, ServerOption.DriveOnWater)
  }

  /** `get_fast_switch`. */
  function GetFastSwitch(host: Host): (b: bool)
    ensures b <==> host.ret(Call("GetServerOption", [Int(4)])) != 0
  {
    Func.GetServerOption(host, ServerOption.FastSwitch)
  }

  /** `get_friendly_fire`. */
  function GetFriendlyFire(host: Host): (b: bool)
    ensures b <==> host.ret(Call("GetServerOption", [Int(5)])) != 0
  {
    Func.GetServerOption(host, ServerOption.FriendlyFire)
  }

  /** `get_disable_drive_by`. */
  function GetDisableDriveBy(host: Host): (b: bool)
    ensures b <==> host.ret(Call("GetServerOption", [Int(6)])) != 0
  {
    Func.GetServerOption(host, ServerOption.DisableDriveBy)
  }

  /** `get_perfect_handling`. */
  function GetPerfectHandling(host: Host): (b: bool)
    ensures b <==> host.ret(Call("GetServerOption", [Int(7)])) != 0
  {
    Func.GetServerOption(host, ServerOption.PerfectHandling)
  }

  /** `get_flying_cars`. */
  function GetFlyingCars(host: Host): (b: bool)
    ensures b <==> host.ret(Call("GetServerOption", [Int(8)])) != 0
  {
    Func.GetServerOption(host, ServerOption.FlyingCars)
  }

  /** `get_jump_switch`. */
  function GetJumpSwitch(host: Host): (b: bool)
    ensures b <==> host.ret(Call("GetServerOption", [Int(9)])) != 0
  {
    Func.GetServerOption(host, ServerOption.JumpSwitch)
  }

  /** `get_show_markers`. */
  function GetShowMarkers(host: Host): (b: bool)
    ensures b <==> host.ret(Call("GetServerOption", [Int(10)])) != 0
  {
    Func.GetServerOption(host, ServerOption.ShowMarkers)
  }

  /** `get_only_show_team_markers`. */
  function GetOnlyShowTeamMarkers(host: Host): (b: bool)
    ensures b <==> host.ret(Call("GetServerOption", [Int(11)])) != 0
  {
    Func.GetServerOption(host, ServerOption.OnlyShowTeamMarkers)
  }

  /** `get_stunt_bike`. */
  function GetStuntBike(host: Host): (b: bool)
    ensures b <==> host.ret(Call("GetServerOption", [Int(12)])) != 0
  {
    Func.GetServerOption(host, ServerOption.StuntBike)
  }

  /** `get_shoot_in_air`. */
  function GetShootInAir(host: Host): (b: bool)
    ensures b <==> host.ret(Call("GetServerOption", [Int(13)])) != 0
  {
    Func.GetServerOption(host, ServerOption.ShootInAir)
  }

  /** `get_show_name_tags`. */
  function GetShowNameTags(host: Host): (b: bool)
    ensures b <==> host.ret(Call("GetServerOption", [Int(14)])) != 0
  {
    Func.GetServerOption(host, ServerOption.ShowNameTags)
  }

  /** `get_join_messages`. */
  function GetJoinMessages(host: Host): (b: bool)
    ensures b <==> host.ret(Call("GetServerOption", [Int(15)])) != 0
  {
    Func.GetServerOption(host, ServerOption.JoinMessages)
  }

  /** `get_death_messages`. */
  function GetDeathMessages(host: Host): (b: bool)
    ensures b <==> host.ret(Call("GetServerOption", [Int(16)])) != 0
  {
    Func.GetServerOption(host, ServerOption.DeathMessages)
  }

  /** `get_chat_tags_enabled`. */
  function GetChatTagsEnabled(host: Host): (b: bool)
    ensures b <==> host.ret(Call("GetServerOption", [Int(17)])) != 0
  {
    Func.GetServerOption(host, ServerOption.ChatTagsEnabled)
  }

  /** `get_use_classes`. */
  function GetUseClasses(host: Host): (b: bool)
    ensures b <==> host.ret(Call("GetServerOption", [Int(18)])) != 0
  {
    Func.GetServerOption(host, ServerOption.UseClasses)
  }

  /** `get_wall_glitch`. */
  function GetWallGlitch(host: Host): (b: bool)
    ensures b <==> host.ret(Call("GetServerOption", [Int(19)])) != 0
  {
    Func.GetServerOption(host, ServerOption.WallGlitch)
  }

  /** `get_disable_backface_culling`. */
  function GetDisableBackfaceCulling(host: Host): (b: bool)
    ensures b <==> host.ret(Call("GetServerOption", [Int(20)])) != 0
  {
    Func.GetServerOption(host, ServerOption.DisableBackfaceCulling)
  }

  /** `get_disable_heli_blade_damage`. */
  function GetDisableHeliBladeDamage(host: Host): (b: bool)
    ensures b <==> host.ret(Call("GetServerOption", [Int(21)])) != 0
  {
    Func.GetServerOption(host, ServerOption.DisableHeliBladeDamage)
  }

  /** `get_disable_crouch`. */
  function GetDisableCrouch(host: Host): (b: bool)
    ensures b <==> host.ret(Call("GetServerOption", [Int(22)])) != 0
  {
    Func.GetServerOption(host, ServerOption.DisableCrouch)
  }

  /** `set_sync_frame_limiter`: the call it makes. */
  function SetSyncFrameLimiterCall(toggle: bool): (c: Call)
    ensures c == Call("SetServerOption", [Int(0), Flag(if toggle then 1 else 0)])
  {
    Func.SetServerOptionCall(ServerOption.SyncFrameLimiter, toggle)
  }

  /** `set_frame_limiter`: the call it makes. */
  function SetFrameLimiterCall(toggle: bool): (c: Call)
    ensures c == Call("SetServerOption", [Int(1), Flag(if toggle then 1 else 0)])
  {
    Func.SetServerOptionCall(ServerOption.FrameLimiter, toggle)
  }

  /** `set_taxi_boost_jump`: the call it makes. */
  function SetTaxiBoostJumpCall(toggle: bool): (c: Call)
    ensures c == Call("SetServerOption", [Int(2), Flag(if toggle then 1 else 0)])
  {
    Func.SetServerOptionCall(ServerOption.TaxiBoostJump, toggle)
  }

  /** `set_drive_on_water`: the call it makes. */
  function SetDriveOnWaterCall(toggle: bool): (c: Call)
    ensures c == Call("SetServerOption", [Int(3), Flag(if toggle then 1 else 0)])
  {
    Func.SetServerOptionCall(ServerOption.DriveOnWater, toggle)
  }

  /** `set_fast_switch`: the call it makes. */
  function SetFastSwitchCall(toggle: bool): (c: Call)
    ensures c == Call("SetServerOption", [Int(4), Flag(if toggle then 1 else 0)])
  {
    Func.SetServerOptionCall(ServerOption.FastSwitch, toggle)
  }

  /** `set_friendly_fire`: the call it makes. */
  function SetFriendlyFireCall(toggle: bool): (c: Call)
    ensures c == Call("SetServerOption", [Int(5), Flag(if toggle then 1 else 0)])
  {
    Func.SetServerOptionCall(ServerOption.FriendlyFire, toggle)
  }

  /** `set_disable_drive_by`: the call it makes. */
  function SetDisableDriveByCall(toggle: bool): (c: Call)
    ensures c == Call("SetServerOption", [Int(6), Flag(if toggle then 1 else 0)])
  {
    Func.SetServerOptionCall(ServerOption.DisableDriveBy, toggle)
  }

  /** `set_perfect_handling`: the call it makes. */
  function SetPerfectHandlingCall(toggle: bool): (c: Call)
    ensures c == Call("SetServerOption", [Int(7), Flag(if toggle then 1 else 0)])
  {
    Func.SetServerOptionCall(ServerOption.PerfectHandling, toggle)
  }

  /** `set_flying_cars`: the call it makes. */
  function SetFlyingCarsCall(toggle: bool): (c: Call)
    ensures c == Call("SetServerOption", [Int(8), Flag(if toggle then 1 else 0)])
  {
    Func.SetServerOptionCall(ServerOption.FlyingCars, toggle)
  }

  /** `set_jump_switch`: the call it makes. */
  function SetJumpSwitchCall(toggle: bool): (c: Call)
    ensures c == Call("SetServerOption", [Int(9), Flag(if toggle then 1 else 0)])
  {
    Func.SetServerOptionCall(ServerOption.JumpSwitch, toggle)
  }

  /** `set_show_markers`: the call it makes. */
  function SetShowMarkersCall(toggle: bool): (c: Call)
    ensures c == Call("SetServerOption", [Int(10), Flag(if toggle then 1 else 0)])
  {
    Func.SetServerOptionCall(ServerOption.ShowMarkers, toggle)
  }

  /** `set_only_show_team_markers`: the call it makes. */
  function SetOnlyShowTeamMarkersCall(toggle: bool): (c: Call)
    ensures c == Call("SetServerOption", [Int(11), Flag(if toggle then 1 else 0)])
  {
    Func.SetServerOptionCall(ServerOption.OnlyShowTeamMarkers, toggle)
  }

  /** `set_stunt_bike`: the call it makes. */
  function SetStuntBikeCall(toggle: bool): (c: Call)
    ensures c == Call("SetServerOption", [Int(12), Flag(if toggle then 1 else 0)])
  {
    Func.SetServerOptionCall(ServerOption.StuntBike, toggle)
  }

  /** `set_shoot_in_air`: the call it makes. */
  function SetShootInAirCall(toggle: bool): (c: Call)
    ensures c == Call("SetServerOption", [Int(13), Flag(if toggle then 1 else 0)])
  {
    Func.SetServerOptionCall(ServerOption.ShootInAir, toggle)
  }

  /** `set_show_name_tags`: the call it makes. */
  function SetShowNameTagsCall(toggle: bool): (c: Call)
    ensures c == Call("SetServerOption", [Int(14), Flag(if toggle then 1 else 0)])
  {
    Func.SetServerOptionCall(ServerOption.ShowNameTags, toggle)
  }

  /** `set_join_messages`: the call it makes. */
  function SetJoinMessagesCall(toggle: bool): (c: Call)
    ensures c == Call("SetServerOption", [Int(15), Flag(if toggle then 1 else 0)])
  {
    Func.SetServerOptionCall(ServerOption.JoinMessages, toggle)
  }

  /** `set_death_messages`: the call it makes. */
  function SetDeathMessagesCall(toggle: bool): (c: Call)
    ensures c == Call("SetServerOption", [Int(16), Flag(if toggle then 1 else 0)])
  {
    Func.SetServerOptionCall(ServerOption.DeathMessages, toggle)
  }

  /** `set_chat_tags_enabled`: the call it makes. */
  function SetChatTagsEnabledCall(toggle: bool): (c: Call)
    ensures c == Call("SetServerOption", [Int(17), Flag(if toggle then 1 else 0)])
  {
    Func.SetServerOptionCall(ServerOption.ChatTagsEnabled, toggle)
  }

  /** `set_use_classes`: the call it makes. */
  function SetUseClassesCall(toggle: bool): (c: Call)
    ensures c == Call("SetServerOption", [Int(18), Flag(if toggle then 1 else 0)])
  {
    Func.SetServerOptionCall(ServerOption.UseClasses, toggle)
  }

  /** `set_wall_glitch`: the call it makes. */
  function SetWallGlitchCall(toggle: bool): (c: Call)
    ensures c == Call("SetServerOption", [Int(19), Flag(if toggle then 1 else 0)])
  {
    Func.SetServerOptionCall(ServerOption.WallGlitch, toggle)
  }

  /** `set_disable_backface_culling`: the call it makes. */
  function SetDisableBackfaceCullingCall(toggle: bool): (c: Call)
    ensures c == Call("SetServerOption", [Int(20), Flag(if toggle then 1 else 0)])
  {
    Func.SetServerOptionCall(ServerOption.DisableBackfaceCulling, toggle)
  }

  /** `set_disable_heli_blade_damage`: the call it makes. */
  function SetDisableHeliBladeDamageCall(toggle: bool): (c: Call)
    ensures c == Call("SetServerOption", [Int(21), Flag(if toggle then 1 else 0)])
  {
    Func.SetServerOptionCall(ServerOption.DisableHeliBladeDamage, toggle)
  }

  /** `set_disable_crouch`: the call it makes. */
  function SetDisableCrouchCall(toggle: bool): (c: Call)
    ensures c == Call("SetServerOption", [Int(22), Flag(if toggle then 1 else 0)])
  {
    Func.SetServerOptionCall(ServerOption.DisableCrouch, toggle)
  }
  /** `set_fall_timer`: the call it makes. */
  function SetFallTimerCall(timer: U16): (c: Call)
    ensures c.entry == "SetFallTimer" && c.args == [Short(timer)]
  {
    Call("SetFallTimer", [Short(timer)])
  }

  /*
   * World time.  `set_time` splits a time given in minutes into an hour and
   * a minute with Rust's truncating `/` and `%`; `get_time` recombines the
   * two host values as `hour * 60 + minute`.
   */

  /** The hour and minute `set_time` sends for time `t`. */
  function TimeOfDay(t: I32): (hm: (I32, I32))
    ensures hm.0 * 60 + hm.1 == TRem(t, 1440)
    ensures t >= 0 ==> 0 <= hm.0 < 24 && 0 <= hm.1 < 60 && hm.0 * 60 + hm.1 == t % 1440
    ensures t < 0 ==> -24 < hm.0 <= 0 && -60 < hm.1 <= 0
  {
    var hour := TRem(TDiv(t, 60), 24);
    var minute := TRem(t, 60);
    assert hour * 60 + minute == TRem(t, 1440) by {
      TDivNested(t);
    }
    (hour, minute)
  }

  /** Truncating division by 60 and then by 24 is truncating division by 1440. */
  lemma TDivNested(t: int)
    ensures TDiv(TDiv(t, 60), 24) == TDiv(t, 1440)
  {
    if t >= 0 {
      DivDiv(t);
    } else {
      DivDiv(-t);
      assert TDiv(-((-t) / 60), 24) == -(((-t) / 60) / 24);
    }
  }

  lemma DivDiv(a: nat)
    ensures (a / 60) / 24 == a / 1440
  {
    var q, r := a / 60, a % 60;
    var q2, h := q / 24, q % 24;
    assert a == 1440 * q2 + (60 * h + r);
    DivUnique(a, 1440, q2, 60 * h + r);
  }

  lemma DivUnique(a: int, b: int, q: int, r: int)
    requires b > 0 && a == b * q + r && 0 <= r < b
    ensures a / b == q
  {
    var d := a / b - q;
    assert b * d == r - a % b;
    if d > 0 {
      MulAtLeast(b, d);
      assert false;
    } else if d < 0 {
      MulAtLeast(b, -d);
      assert false;
    }
  }

  lemma MulAtLeast(b: int, d: int)
    requires b > 0 && d > 0
    ensures b * d >= b
  {
  }

  /** A whole day later is the same time of day. */
  lemma TimeOfDayPeriodic(t: I32)
    requires 0 <= t && t + 1440 <= I32_MAX
    ensures TimeOfDay(t + 1440) == TimeOfDay(t)
  {
    DivUnique(t + 1440, 60, t / 60 + 24, t % 60);
    DivUnique(t / 60 + 24, 24, t / 60 / 24 + 1, (t / 60) % 24);
  }

  /** `set_time`: the two calls it makes, in order. */
  function SetTimeCalls(t: I32): (cs: seq<Call>)
    ensures |cs| == 2
    ensures cs[0] == Call("SetHour", [Int(TimeOfDay(t).0)])
    ensures cs[1] == Call("SetMinute", [Int(TimeOfDay(t).1)])
  {
    var (hour, minute) := TimeOfDay(t);
    [Call("SetHour", [Int(hour)]), Call("SetMinute", [Int(minute)])]
  }

  /**
   * `get_time`: `hour * 60 + minute` of the host's two answers, in `i32`
   * arithmetic that wraps around as a release build does.
   */
  function GetTime(host: Host): (t: I32)
    ensures var hour, minute := host.ret(Call("GetHour", [])), host.ret(Call("GetMinute", []));
      (t - (hour * 60 + minute)) % 0x1_0000_0000 == 0 &&
      (0 <= hour < 24 && 0 <= minute < 60 ==> t == hour * 60 + minute)
  {
    WrapI32(host.ret(Call("GetHour", [])) * 60 + host.ret(Call("GetMinute", [])))
  }

  /**
   * Reading the time back from a host that answers with the hour and the
   * minute `set_time` sent gives the time modulo one day (with the sign of
   * `t`, as Rust's `%`).
   */
  lemma SetThenGetTime(host: Host, t: I32)
    requires host.ret(Call("GetHour", [])) == SetTimeCalls(t)[0].args[0].i
    requires host.ret(Call("GetMinute", [])) == SetTimeCalls(t)[1].args[0].i
    ensures GetTime(host) == TRem(t, 1440)
    ensures t >= 0 ==> GetTime(host) == t % 1440
  {
  }

  /** `disable_kill_command_delay`: the largest `i32` as the delay. */
  function DisableKillCommandDelayCall(): (c: Call)
    ensures c == Call("SetKillCommandDelay", [Int(2147483647)])
  {
    Call("SetKillCommandDelay", [Int(I32_MAX)])
  }

  /** The weapon and ammunition sent for an optional weapon slot. */
  function WeaponArgs(weapon: Option<(I32, I32)>): (args: seq<Arg>)
    ensures weapon.None? ==> args == [Int(0), Int(0)]
    ensures weapon.Some? ==> args == [Int(weapon.value.0), Int(weapon.value.1)]
  {
    var (wep, ammo) := if weapon.Some? then weapon.value else (0, 0);
    [Int(wep), Int(ammo)]
  }

  /**
   * `add_player_class`: the call it makes (its result is the host's answer
   * to this call).  The colour is packed as RGBA; each absent weapon slot
   * sends weapon 0 with ammunition 0.
   */
  function AddPlayerClassCall(team: I32, color: Color, skin: I32, pos: Vector, angle: F32,
                              weapon: Option<(I32, I32)>, weapon1: Option<(I32, I32)>,
                              weapon2: Option<(I32, I32)>): (c: Call)
    ensures c.entry == "AddPlayerClass" && |c.args| == 13
    ensures c.args[0] == Int(team) && c.args[2] == Int(skin)
    ensures c.args[1].Word? && FromRgba(c.args[1].w) == color
    ensures c.args[3..7] == [Float(pos.x), Float(pos.y), Float(pos.z), Float(angle)]
    ensures c.args[7..9] == WeaponArgs(weapon)
    ensures c.args[9..11] == WeaponArgs(weapon1)
    ensures c.args[11..] == WeaponArgs(weapon2)
  {
    RgbaRoundTrip(color);
    Call("AddPlayerClass",
      [Int(team), Word(AsRgba(color)), Int(skin), Float(pos.x), Float(pos.y), Float(pos.z), Float(angle)]
      + WeaponArgs(weapon) + WeaponArgs(weapon1) + WeaponArgs(weapon2))
  }

  /**
   * `get_wasted_settings`: the seven host values in order, with the colour
   * unpacked from the low 24 bits and alpha forced to 255.
   */
  function GetWastedSettings(host: Host): (s: WastedSettings)
    ensures var (death, fade, fadeIn, fadeOut, color, start, time) := host.wasted(Call("GetWastedSettings", []));
      && s.deathTimer == death && s.fadeTimer == fade
      && s.fadeInSpeed == fadeIn && s.fadeOutSpeed == fadeOut
      && s.color.a == 255 && AsRgb(s.color) == color & 0xFF_FFFF
      && s.corpseFadeStart == start && s.corpseFadeTime == time
  {
    var (death, fade, fadeIn, fadeOut, color, start, time) := host.wasted(Call("GetWastedSettings", []));
    WastedSettings(death, fade, fadeIn, fadeOut, FromRgb(color, None), start, time)
  }

  /** `set_wasted_settings`: the call it makes; the colour travels as 24-bit RGB, without alpha. */
  function SetWastedSettingsCall(s: WastedSettings): (c: Call)
    ensures c.entry == "SetWastedSettings" && |c.args| == 7
    ensures c.args[..4] == [Word(s.deathTimer), Word(s.fadeTimer), Float(s.fadeInSpeed), Float(s.fadeOutSpeed)]
    ensures c.args[4].Word? && c.args[4].w < 0x100_0000 && FromRgb(c.args[4].w, Some(s.color.a)) == s.color
    ensures c.args[5..] == [Word(s.corpseFadeStart), Word(s.corpseFadeTime)]
  {
    RgbRoundTrip(s.color);
    Call("SetWastedSettings",
      [Word(s.deathTimer), Word(s.fadeTimer), Float(s.fadeInSpeed), Float(s.fadeOutSpeed),
       Word(AsRgb(s.color)), Word(s.corpseFadeStart), Word(s.corpseFadeTime)])
  }

  /**
   * Reading back settings a host stored unchanged gives them back, except
   * that the colour's alpha becomes 255.
   */
  lemma WastedSettingsRoundTrip(host: Host, s: WastedSettings)
    requires host.wasted(Call("GetWastedSettings", [])) ==
      (s.deathTimer, s.fadeTimer, s.fadeInSpeed, s.fadeOutSpeed, SetWastedSettingsCall(s).args[4].w,
       s.corpseFadeStart, s.corpseFadeTime)
    ensures GetWastedSettings(host) == s.(color := s.color.(a := 255))
  {
    RgbRoundTrip(s.color.(a := 255));
  }
}
