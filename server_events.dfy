/** The server event payloads of `src/events/server.rs`. */
module ServerEvents {
  import opened Base
  import opened Text

  /** `ServerInitialiseEvent`, which carries nothing. */
  datatype ServerInitialiseEvent = ServerInitialiseEvent

  /** `ServerShutdownEvent`, which carries nothing. */
  datatype ServerShutdownEvent = ServerShutdownEvent

  /** `ServerFrameEvent`. */
  datatype ServerFrameEvent = ServerFrameEvent(elapsedTime: F32)

  /** `From<f32> for ServerFrameEvent`: each field from the tuple position of the same rank, unchanged. */
  function ServerFrameOf(value: F32): (e: ServerFrameEvent)
    ensures e.elapsedTime == value
  {
    ServerFrameEvent(value)
  }

  /** `ServerPerformanceReportEvent`. */
  datatype ServerPerformanceReportEvent = ServerPerformanceReportEvent(
    entryCount: nat, descriptions: seq<string>, times: seq<U64>)

  /**
   * One description pointer: `None` when it is null, otherwise the memory it
   * points to.  A null pointer gives no description; any other gives its C
   * string, decoded and without trailing NULs.
   */
  function DescriptionOf(lossy: LossyDecoder, pointer: Option<seq<Byte>>): (d: Option<string>)
    ensures d.Some? <==> pointer.Some?
    ensures d.Some? ==> TrimmedOf(d.value, lossy(CStr(pointer.value)))
  {
    match pointer
    case None => None
    case Some(mem) => Some(TrimEndNul(lossy(CStr(mem))))
  }

  /** The number of non-null pointers. */
  function NonNull(pointers: seq<Option<seq<Byte>>>): nat {
    if pointers == [] then 0 else (if pointers[0].Some? then 1 else 0) + NonNull(pointers[1..])
  }

  /** The description lookups of the first `count` pointers, in order. */
  function DescriptionLookups(lossy: LossyDecoder, pointers: seq<Option<seq<Byte>>>, count: nat): (ds: seq<Option<string>>)
    requires count <= |pointers|
    ensures |ds| == count
    ensures forall i | 0 <= i < count :: ds[i] == DescriptionOf(lossy, pointers[i])
  {
    seq(count, i requires 0 <= i < count => DescriptionOf(lossy, pointers[i]))
  }

  /** Filtering the lookups keeps one description per non-null pointer. */
  lemma {:induction false} SomesCount(lossy: LossyDecoder, pointers: seq<Option<seq<Byte>>>)
    ensures |Somes(DescriptionLookups(lossy, pointers, |pointers|))| == NonNull(pointers)
  {
    if pointers != [] {
      var ds := DescriptionLookups(lossy, pointers, |pointers|);
      var rest := pointers[1..];
      assert ds[1..] == DescriptionLookups(lossy, rest, |rest|);
      SomesCount(lossy, rest);
    }
  }

  /**
   * `From<(usize, *mut *const c_char, *mut u64)> for
   * ServerPerformanceReportEvent`: the count is kept, the descriptions of the
   * non-null pointers among the first `count` are kept in order, and the
   * first `count` times are copied.  The host guarantees `count` readable
   * entries behind both arrays.
   */
  function ServerPerformanceReportOf(lossy: LossyDecoder, value: (nat, seq<Option<seq<Byte>>>, seq<U64>)): (e: ServerPerformanceReportEvent)
    requires value.0 <= |value.1| && value.0 <= |value.2|
    ensures e.entryCount == value.0
    ensures |e.times| == value.0 && forall i | 0 <= i < value.0 :: e.times[i] == value.2[i]
    ensures |e.descriptions| == NonNull(value.1[..value.0]) <= value.0
    ensures forall d | d in e.descriptions :: d == [] || d[|d| - 1] != '\0'
  {
    var (count, pointers, times) := value;
    var lookups := DescriptionLookups(lossy, pointers, count);
    var descriptions := Somes(lookups);
    assert lookups == DescriptionLookups(lossy, pointers[..count], count);
    SomesCount(lossy, pointers[..count]);
    forall d | d in descriptions
      ensures d == [] || d[|d| - 1] != '\0'
    {
      SomesFrom(lookups, d);
    }
    ServerPerformanceReportEvent(count, descriptions, times[..count])
  }

  /**
   * Order is kept: the description of the non-null pointer `i` comes right
   * after those of the non-null pointers before it.
   */
  lemma ReportKeepsOrder(lossy: LossyDecoder, value: (nat, seq<Option<seq<Byte>>>, seq<U64>), i: nat)
    requires value.0 <= |value.1| && value.0 <= |value.2|
    requires i < value.0 && value.1[i].Some?
    ensures var e := ServerPerformanceReportOf(lossy, value);
      && NonNull(value.1[..i]) < |e.descriptions|
      && e.descriptions[NonNull(value.1[..i])] == TrimEndNul(lossy(CStr(value.1[i].value)))
  {
    var (count, pointers, times) := value;
    var lookups := DescriptionLookups(lossy, pointers, count);
    SomesRank(lookups, i);
    assert lookups[..i] == DescriptionLookups(lossy, pointers[..i], i);
    SomesCount(lossy, pointers[..i]);
  }

  /** A report without entries is still built, with no descriptions and no times. */
  lemma ReportEmpty(lossy: LossyDecoder, pointers: seq<Option<seq<Byte>>>, times: seq<U64>)
    ensures ServerPerformanceReportOf(lossy, (0, pointers, times)) == ServerPerformanceReportEvent(0, [], [])
  {
    assert NonNull(pointers[..0]) == 0;
  }

}
