/**
 * A stored package, and the two time rules every sync applies: the 90-day
 * retention window and the Gmail search query built from the last sync time.
 * Times are milliseconds since the epoch.
 */
module Packages {
  import opened Common

  /**
   * One element of `account.packages`.  `status` is the number a status is
   * stored as (0 to 7 when it is set); `deliveryTime` is written by the account
   * service's own lookups and `deliveryDate` by the tracking helper's.
   */
  datatype Package = Package(
    trackingNumber: string,
    courierCode: string,
    status: Option<int>,
    statusLabel: Option<string>,
    deliveryTime: Option<int>,
    deliveryDate: Option<int>,
    messageId: Option<string>,
    messageDate: int,
    sender: string,
    senderUrl: Option<string>,
    updated: Option<int>)

  const AmountOfDays: int := 90

  /**
   * The divisor the retention and query tests use for a day.  It counts seconds
   * while the times count milliseconds, so the window they enforce is
   * 90 * 86400 ms, about 2.2 hours, not 90 days.
   */
  const DayDivisor: int := 24 * 60 * 60

  /** `(now - t) / (24 * 60 * 60) >= AMOUNT_OF_DAYS`, with the division cleared. */
  predicate OutsideWindow(now: int, t: int) {
    now - t >= AmountOfDays * DayDivisor
  }

  /** The retention test, on the package's message date: such a package is no longer refreshed. */
  predicate Frozen(now: int, p: Package) {
    OutsideWindow(now, p.messageDate)
  }

  /** The window is 7,776,000 ms: a message exactly that old is outside, one a millisecond younger inside. */
  lemma WindowIsMilliseconds(now: int, t: int)
    ensures OutsideWindow(now, t) <==> now - t >= 7776000
    ensures OutsideWindow(now, now - 7776000) && !OutsideWindow(now, now - 7775999)
  {
  }

  /** The test compares the real quotient, so clearing the division loses nothing. */
  lemma DivisionCleared(now: int, t: int)
    ensures ((now - t) as real) / (DayDivisor as real) >= AmountOfDays as real <==> OutsideWindow(now, t)
  {
  }

  /** JavaScript's `x | 0` on an integer: the low 32 bits, read as a signed number. */
  function ToInt32(x: int): (r: int)
    ensures -0x8000_0000 <= r < 0x8000_0000
    ensures (r - x) % 0x1_0000_0000 == 0
  {
    var m := x % 0x1_0000_0000;
    if m >= 0x8000_0000 then m - 0x1_0000_0000 else m
  }

  /** On numbers that fit, `| 0` changes nothing. */
  lemma ToInt32OfSmall(x: int)
    requires -0x8000_0000 <= x < 0x8000_0000
    ensures ToInt32(x) == x
  {
  }

  /** The quotient rounded toward zero, as `| 0` rounds `x / d`. */
  function TruncDiv(x: int, d: nat): (r: int)
    requires d > 0
    ensures x >= 0 ==> r == x / d
    ensures x < 0 ==> r == -((-x) / d)
  {
    if x >= 0 then x / d else -((-x) / d)
  }

  /** `account.updated && ...`: a last-sync time is truthy when it is there and not 0. */
  predicate TruthyTime(t: Option<int>) {
    t.Some? && t.value != 0
  }

  const QueryStem: string := "{track tracking} "

  /**
   * The Gmail search: messages after the last sync, in whole seconds, when there
   * was one inside the window; otherwise the messages of the last 90 days.
   */
  function Query(updated: Option<int>, now: int): (r: string)
    ensures TruthyTime(updated) && !OutsideWindow(now, updated.value) ==>
      r == QueryStem + "after:" + IntToString(ToInt32(TruncDiv(updated.value, 1000)))
    ensures !(TruthyTime(updated) && !OutsideWindow(now, updated.value)) ==> r == QueryStem + "newer_than:90d"
  {
    if TruthyTime(updated) && !OutsideWindow(now, updated.value) then
      QueryStem + "after:" + IntToString(ToInt32(TruncDiv(updated.value, 1000)))
    else QueryStem + "newer_than:" + NatToString(AmountOfDays) + "d"
  }

  /** For any sync time up to January 2038 the after: value is the time in whole seconds. */
  lemma QueryUsesSeconds(u: int, now: int)
    requires 0 < u < 0x8000_0000 * 1000
    requires !OutsideWindow(now, u)
    ensures Query(Some(u), now) == QueryStem + "after:" + NatToString(u / 1000)
    ensures DecimalValue(Query(Some(u), now)[|QueryStem + "after:"|..]) == u / 1000
  {
    ToInt32OfSmall(u / 1000);
    NatToStringValue(u / 1000);
    assert Query(Some(u), now)[|QueryStem + "after:"|..] == NatToString(u / 1000);
  }

  /** Without a sync time, or with 0, or with one outside the window, the query asks for 90 days. */
  lemma QueryFallsBackToNinetyDays(updated: Option<int>, now: int)
    requires updated.None? || updated == Some(0) || OutsideWindow(now, updated.value)
    ensures Query(updated, now) == "{track tracking} newer_than:90d"
  {
  }
}
