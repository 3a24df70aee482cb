/**
 * The option, statistics, error and logging calls of `VcmpFunctions`
 * (the generic ones the per-entity facades build on).
 */
module Func {
  import opened Base
  import opened Errors
  import opened Options
  import opened Text
  import opened Hosts

  /** `get_last_error`: the host's global last error, decoded; host code 0 is `VcmpError::None`. */
  function GetLastError(host: Host): (e: VcmpError)
    ensures ToCode(e) == host.ret(Call("GetLastError", []))
    ensures e == VcmpError.None <==> host.ret(Call("GetLastError", [])) == 0
  {
    FromCode(host.ret(Call("GetLastError", [])))
  }

  /**
   * `log_message`: the call it makes.  A NUL is appended to the text before
   * the text is GBK-encoded; the host's return value is discarded.
   */
  function LogMessageCall(gbk: Gbk, message: string): (c: Call)
    ensures c == Call("LogMessage", [Bytes(gbk.encode(message + "\0"))])
  {
    var terminated := message + "\0";
    Call("LogMessage", [Bytes(gbk.encode(terminated))])
  }

  /**
   * A GBK encoder that leaves ASCII text as its UTF-8 (that is, ASCII) bytes,
   * as every GBK encoder does.
   */
  ghost predicate KeepsAscii(gbk: Gbk) {
    forall s: string | IsAscii(s) :: gbk.encode(s) == Utf8(s)
  }

  predicate IsAscii(s: string) {
    forall i | 0 <= i < |s| :: s[i] as int < 0x80
  }

  /** For ASCII text without NULs, the host reads back exactly the text's bytes. */
  lemma LogMessageAscii(gbk: Gbk, message: string)
    requires KeepsAscii(gbk) && IsAscii(message) && '\0' !in message
    ensures LogMessageCall(gbk, message).args[0].bytes == Utf8(message) + [0]
    ensures CStr(LogMessageCall(gbk, message).args[0].bytes) == Utf8(message)
  {
    assert IsAscii(message + "\0");
    Utf8Terminated(message);
    Utf8CStr(message);
  }

  /** `set_vehicle_option`: the option travels as its code, the toggle as 1 or 0. */
  function SetVehicleOption(host: Host, vehicle: I32, option: VehicleOption, toggle: bool): (r: VcmpResult<()>)
    ensures Reports(r, host.ret(Call("SetVehicleOption",
      [Int(vehicle), Int(VehicleOptionCode(option)), Flag(if toggle then 1 else 0)])))
  {
    CheckCode(host.ret(Call("SetVehicleOption",
      [Int(vehicle), Int(VehicleOptionCode(option)), Flag(ByteOfBool(toggle))])))
  }

  /** `get_vehicle_option`: true exactly when the host answers nonzero. */
  function GetVehicleOption(host: Host, vehicle: I32, option: VehicleOption): (b: bool)
    ensures b <==> host.ret(Call("GetVehicleOption", [Int(vehicle), Int(VehicleOptionCode(option))])) != 0
  {
    host.ret(Call("GetVehicleOption", [Int(vehicle), Int(VehicleOptionCode(option))])) != 0
  }

  /** `get_network_statistics`: the host's value for the selector's code, unchanged. */
  function GetNetworkStatistics(host: Host, player: I32, option: NetworkStatisticsOption): (v: F64)
    ensures v == host.double(Call("GetNetworkStatistics", [Int(player), Int(NetworkStatisticsOptionCode(option))]))
  {
    host.double(Call("GetNetworkStatistics", [Int(player), Int(NetworkStatisticsOptionCode(option))]))
  }

  /** `get_server_option`: true exactly when the host answers nonzero. */
  function GetServerOption(host: Host, option: ServerOption): (b: bool)
    ensures b <==> host.ret(Call("GetServerOption", [Int(ServerOptionCode(option))])) != 0
  {
    host.ret(Call("GetServerOption", [Int(ServerOptionCode(option))])) != 0
  }

  /** `set_server_option`: the call it makes; the host's return code is discarded. */
  function SetServerOptionCall(option: ServerOption, toggle: bool): (c: Call)
    ensures c == Call("SetServerOption", [Int(ServerOptionCode(option)), Flag(if toggle then 1 else 0)])
  {
    Call("SetServerOption", [Int(ServerOptionCode(option)), Flag(ByteOfBool(toggle))])
  }
}
