/**
 * The tracking helper's lookup: ts-shipment-tracking's answer reduced to a
 * status number, a label and a delivery date, kept for one hour in a
 * node-cache keyed by tracking number.
 */
module TrackingCache {
  import opened Common
  import opened Status

  /** `statuses`: the number the helper stores for each status name ts-shipment-tracking reports. */
  function StatusNumber(name: string): Option<int> {
    match name
    case "UNAVAILABLE" => Some(0)
    case "LABEL_CREATED" => Some(1)
    case "IN_TRANSIT" => Some(2)
    case "OUT_FOR_DELIVERY" => Some(3)
    case "DELIVERY_ATTEMPTED" => Some(4)
    case "RETURNED_TO_SENDER" => Some(5)
    case "EXCEPTION" => Some(6)
    case "DELIVERED" => Some(7)
    case _ => None
  }

  /** The table numbers every status name exactly as the enumeration does, and numbers nothing else. */
  lemma StatusNumbersAgreeWithCodes(s: PackageStatus, name: string)
    ensures StatusNumber(Name(s)) == Some(Code(s))
    ensures StatusNumber(name).Some? ==> exists t :: Name(t) == name && Code(t) == StatusNumber(name).value
  {
    if StatusNumber(name).Some? {
      var t := FromCode(StatusNumber(name).value).value;
      assert Name(t) == name;
    }
  }

  /** An event and an answer of ts-shipment-tracking's `track`, as far as `getInfo` reads them. */
  datatype TrackEvent = TrackEvent(status: Option<string>, date: Option<int>)
  datatype Tracked = Tracked(events: seq<TrackEvent>, estimatedDeliveryDate: Option<int>)

  /** `getInfo`'s object: status number, label and delivery date, each possibly `undefined`. */
  datatype Info = Info(status: Option<int>, statusLabel: Option<string>, deliveryDate: Option<int>)

  /** `statuses[name]`; an absent name reads the key "undefined", which the table lacks. */
  function StatusOf(name: Option<string>): Option<int> {
    if name.Some? then StatusNumber(name.value) else None
  }

  /**
   * `getInfo(trackingInfo)`: nothing for nothing; otherwise the newest event's status
   * name as label and as number, and its date when it is DELIVERED, else the estimate.
   * Err when there is no event to read.
   */
  function GetInfo(t: Option<Tracked>): (r: Result<Option<Info>>)
    ensures t.None? ==> r == Ok(None)
    ensures t.Some? ==> (r.Err? <==> |t.value.events| == 0)
    ensures r.Ok? && r.value.Some? ==>
      && r.value.value.statusLabel == t.value.events[0].status
      && r.value.value.status == StatusOf(r.value.value.statusLabel)
  {
    match t
    case None => Ok(None)
    case Some(tr) =>
      if |tr.events| == 0 then Err(TypeError)
      else
        var e := tr.events[0];
        Ok(Some(Info(StatusOf(e.status), e.status,
                     if e.status == Some("DELIVERED") then e.date else tr.estimatedDeliveryDate)))
  }

  /** The delivery date is the event's own date exactly when the event says DELIVERED. */
  lemma DeliveryDateRule(tr: Tracked)
    requires |tr.events| > 0
    ensures GetInfo(Some(tr)).Ok? && GetInfo(Some(tr)).value.Some?
    ensures var i := GetInfo(Some(tr)).value.value;
      && (tr.events[0].status == Some("DELIVERED") ==> i.deliveryDate == tr.events[0].date && i.status == Some(7))
      && (tr.events[0].status != Some("DELIVERED") ==> i.deliveryDate == tr.estimatedDeliveryDate)
  {
  }

  /** `stdTTL: 60 * 60` seconds, in milliseconds. */
  const TtlMs: int := 60 * 60 * 1000

  /** A cached value and the time after which node-cache treats it as gone. */
  datatype Entry = Entry(value: Option<Info>, expiry: int)

  /** `trackingCache.has(n)` at time `now`. */
  predicate Live(entries: map<string, Entry>, n: string, now: int) {
    n in entries && now <= entries[n].expiry
  }

  /** `trackingCache.set(n, v)` at time `now`. */
  function Stored(entries: map<string, Entry>, n: string, v: Option<Info>, now: int): (r: map<string, Entry>)
    ensures r.Keys == entries.Keys + {n}
    ensures r[n] == Entry(v, now + TtlMs)
    ensures forall k :: k in entries && k != n ==> r[k] == entries[k]
  {
    entries[n := Entry(v, now + TtlMs)]
  }

  /** `has` also drops an expired entry. */
  function Checked(entries: map<string, Entry>, n: string, now: int): (r: map<string, Entry>)
    ensures forall k :: k != n ==> (k in r <==> k in entries) && (k in r ==> r[k] == entries[k])
    ensures n in r <==> Live(entries, n, now)
  {
    if n in entries && !Live(entries, n, now) then entries - {n} else entries
  }

  /**
   * `getTracking(n)` as its authors mean it: a live entry answers without asking
   * upstream; otherwise upstream (`track`, ts-shipment-tracking's lookup) is asked
   * and its answer reduced by `GetInfo`.
   */
  function Answer(entries: map<string, Entry>, n: string, now: int, track: string -> Result<Option<Tracked>>): Result<Option<Info>> {
    if Live(entries, n, now) then Ok(entries[n].value)
    else match track(n)
      case Err(e) => Err(e)
      case Ok(t) => GetInfo(t)
  }

  /**
   * `getTracking(n)` as written: on a hit `getTrackingInfo` hands back the cached
   * object itself rather than a promise, and reading `.then` off it throws; only a
   * miss reaches upstream.
   */
  function AnswerAsWritten(entries: map<string, Entry>, n: string, now: int, track: string -> Result<Option<Tracked>>): (r: Result<Option<Info>>)
    ensures Live(entries, n, now) ==> r == Err(TypeError) && r != Answer(entries, n, now, track)
    ensures !Live(entries, n, now) ==> r == Answer(entries, n, now, track)
  {
    if Live(entries, n, now) then Err(TypeError) else Answer(entries, n, now, track)
  }

  /** A DELIVERED answer cached a minute ago: as written the second lookup throws, as meant it answers DELIVERED. */
  lemma CacheHitThrowsAsWritten()
    ensures var delivered := Info(Some(7), Some("DELIVERED"), Some(1000));
      var e := map["1Z999AA10123456784" := Entry(Some(delivered), 60000 + TtlMs)];
      var upstream := (n: string) => Ok(None);
      && AnswerAsWritten(e, "1Z999AA10123456784", 120000, upstream) == Err(TypeError)
      && Answer(e, "1Z999AA10123456784", 120000, upstream) == Ok(Some(delivered))
  {
  }

  /** The cache after `getTracking(n)`: the answer, when there is one, is set again for a fresh hour. */
  function After(entries: map<string, Entry>, n: string, now: int, track: string -> Result<Option<Tracked>>): map<string, Entry> {
    match Answer(entries, n, now, track)
    case Ok(v) => Stored(entries, n, v, now)
    case Err(_) => Checked(entries, n, now)
  }

  /** A live entry is answered from the cache: what upstream would say makes no difference. */
  lemma HitSkipsUpstream(entries: map<string, Entry>, n: string, now: int, t1: string -> Result<Option<Tracked>>, t2: string -> Result<Option<Tracked>>)
    requires Live(entries, n, now)
    ensures Answer(entries, n, now, t1) == Answer(entries, n, now, t2) == Ok(entries[n].value)
    ensures After(entries, n, now, t1) == After(entries, n, now, t2)
  {
  }

  /** After an answer, the cache gives that same answer for exactly the next hour. */
  lemma AnswerIsKeptForAnHour(entries: map<string, Entry>, n: string, now: int, later: int, track: string -> Result<Option<Tracked>>)
    requires Answer(entries, n, now, track).Ok?
    ensures var e := After(entries, n, now, track);
      && (now <= later <= now + 3600000 ==> Live(e, n, later) && e[n].value == Answer(entries, n, now, track).value)
      && (later > now + 3600000 ==> !Live(e, n, later))
  {
  }

  /** A lookup touches no other number's entry. */
  lemma OtherNumbersUntouched(entries: map<string, Entry>, n: string, k: string, now: int, track: string -> Result<Option<Tracked>>)
    requires k != n
    ensures k in After(entries, n, now, track) <==> k in entries
    ensures k in entries ==> After(entries, n, now, track)[k] == entries[k]
  {
  }

  /** `trackingCache`: node-cache's store, each key with its value and expiry. */
  class Cache {
    var entries: map<string, Entry>

    constructor()
      ensures entries == map[]
    {
      entries := map[];
    }

    /** `getTracking(n)` at time `now`, with `track` answering upstream. */
    method GetTracking(n: string, now: int, track: string -> Result<Option<Tracked>>) returns (r: Result<Option<Info>>)
      modifies this
      ensures r == Answer(old(entries), n, now, track)
      ensures entries == After(old(entries), n, now, track)
    {
      var hit := Live(entries, n, now);
      entries := Checked(entries, n, now);
      if hit {
        r := Ok(entries[n].value);
      } else {
        var upstream := track(n);
        match upstream
        case Err(e) => r := Err(e);
        case Ok(t) => r := GetInfo(t);
      }
      if r.Ok? {
        entries := Stored(entries, n, r.value, now);
      }
    }
  }
}
