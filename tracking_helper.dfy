/**
 * The tracking helper's sync: refreshing stored packages through the cache, the
 * body search of each message, the per-pass deduplication with its s10 and
 * grace rules, the paged message listing and the retry on a stale token.
 * Every `Promise.all` is taken in order, one element after the other.
 */
module TrackingHelper {
  import opened Common
  import opened Messages
  import opened Packages
  import opened TrackingCache
  import Registry

  /** Everything a sync reads besides the account: Gmail, the text transforms, the number finder, the From patterns and upstream tracking. */
  datatype Sources = Sources(
    gmail: Gmail,
    codecs: TextCodecs,
    findTracking: (string, seq<Registry.Format>) -> seq<Registry.Found>,
    from: FromPatterns,
    track: string -> Result<Option<Tracked>>)

  /** `{...package, ...response}`: the lookup's three fields replace the package's, and no lookup changes nothing. */
  function Merge(p: Package, info: Option<Info>): (r: Package)
    ensures info.None? ==> r == p
    ensures info.Some? ==> r.status == info.value.status && r.statusLabel == info.value.statusLabel && r.deliveryDate == info.value.deliveryDate
    ensures r == p.(status := r.status, statusLabel := r.statusLabel, deliveryDate := r.deliveryDate)
  {
    match info
    case None => p
    case Some(i) => p.(status := i.status, statusLabel := i.statusLabel, deliveryDate := i.deliveryDate)
  }

  /** `updatePackage(package)`, with the cache before and after. */
  function UpdateStep(e: map<string, Entry>, p: Package, now: int, track: string -> Result<Option<Tracked>>): (Result<Package>, map<string, Entry>) {
    if Frozen(now, p) then (Ok(p), e)
    else
      match Answer(e, p.trackingNumber, now, track)
      case Err(x) => (Err(x), After(e, p.trackingNumber, now, track))
      case Ok(v) => (Ok(Merge(p, v)), After(e, p.trackingNumber, now, track))
  }

  /** `updateExistingPackages` on the first |ps| packages: each updated in turn, stopping at the first failure. */
  function UpdateAll(e: map<string, Entry>, ps: seq<Package>, now: int, track: string -> Result<Option<Tracked>>): (Result<seq<Package>>, map<string, Entry>)
    decreases |ps|
  {
    if |ps| == 0 then (Ok([]), e)
    else
      var (r, e1) := UpdateAll(e, ps[..|ps| - 1], now, track);
      if r.Err? then (r, e1)
      else
        var (x, e2) := UpdateStep(e1, ps[|ps| - 1], now, track);
        match x
        case Err(m) => (Err(m), e2)
        case Ok(q) => (Ok(r.value + [q]), e2)
  }

  /**
   * A completed update keeps a frozen package exactly, and merges any other with
   * the answer its own lookup got from the cache the packages before it left.
   */
  lemma {:induction false} UpdateAllMergesAnswers(e: map<string, Entry>, ps: seq<Package>, now: int, track: string -> Result<Option<Tracked>>)
    ensures var r := UpdateAll(e, ps, now, track).0;
      r.Ok? ==>
        && |r.value| == |ps|
        && (forall i :: 0 <= i < |ps| && Frozen(now, ps[i]) ==> r.value[i] == ps[i])
        && (forall i :: 0 <= i < |ps| && !Frozen(now, ps[i]) ==>
              && Answer(UpdateAll(e, ps[..i], now, track).1, ps[i].trackingNumber, now, track).Ok?
              && r.value[i] == Merge(ps[i], Answer(UpdateAll(e, ps[..i], now, track).1, ps[i].trackingNumber, now, track).value))
    decreases |ps|
  {
    if |ps| > 0 {
      var front := ps[..|ps| - 1];
      UpdateAllMergesAnswers(e, front, now, track);
      var (r, e1) := UpdateAll(e, front, now, track);
      if r.Ok? && UpdateAll(e, ps, now, track).0.Ok? {
        var out := UpdateAll(e, ps, now, track).0.value;
        assert out == r.value + [UpdateStep(e1, ps[|ps| - 1], now, track).0.value];
        forall i | 0 <= i < |ps|
          ensures Frozen(now, ps[i]) ==> out[i] == ps[i]
          ensures !Frozen(now, ps[i]) ==>
            && Answer(UpdateAll(e, ps[..i], now, track).1, ps[i].trackingNumber, now, track).Ok?
            && out[i] == Merge(ps[i], Answer(UpdateAll(e, ps[..i], now, track).1, ps[i].trackingNumber, now, track).value)
        {
          if i < |front| {
            assert front[i] == ps[i] && front[..i] == ps[..i] && out[i] == r.value[i];
          } else {
            assert ps[..i] == front;
          }
        }
      }
    }
  }

  /**
   * A completed update keeps every package in its place, with at most status,
   * label and delivery date replaced.
   */
  lemma UpdateAllKeepsPackages(e: map<string, Entry>, ps: seq<Package>, now: int, track: string -> Result<Option<Tracked>>)
    ensures var r := UpdateAll(e, ps, now, track).0;
      r.Ok? ==>
        && |r.value| == |ps|
        && (forall i :: 0 <= i < |ps| ==>
              r.value[i] == ps[i].(status := r.value[i].status, statusLabel := r.value[i].statusLabel, deliveryDate := r.value[i].deliveryDate))
  {
    UpdateAllMergesAnswers(e, ps, now, track);
  }

  /** A frozen package costs no lookup: neither the answer nor the cache depends on upstream. */
  lemma FrozenPackageIsNotLookedUp(e: map<string, Entry>, p: Package, now: int, t1: string -> Result<Option<Tracked>>, t2: string -> Result<Option<Tracked>>)
    requires Frozen(now, p)
    ensures UpdateStep(e, p, now, t1) == UpdateStep(e, p, now, t2) == (Ok(p), e)
  {
  }

  /** `updatePackage(package)` */
  method UpdatePackage(cache: Cache, p: Package, now: int, track: string -> Result<Option<Tracked>>) returns (r: Result<Package>)
    modifies cache
    ensures (r, cache.entries) == UpdateStep(old(cache.entries), p, now, track)
  {
    if Frozen(now, p) {
      return Ok(p);
    }
    var response := cache.GetTracking(p.trackingNumber, now, track);
    match response
    case Err(x) => r := Err(x);
    case Ok(v) => r := Ok(Merge(p, v));
  }

  /** Once an update fails on a prefix, the whole pass ends with that failure and that cache. */
  lemma {:induction false} UpdateAllStopsAtError(e: map<string, Entry>, ps: seq<Package>, i: nat, now: int, track: string -> Result<Option<Tracked>>)
    requires i <= |ps|
    requires UpdateAll(e, ps[..i], now, track).0.Err?
    ensures UpdateAll(e, ps, now, track) == UpdateAll(e, ps[..i], now, track)
    decreases |ps|
  {
    if i < |ps| {
      var front := ps[..|ps| - 1];
      assert front[..i] == ps[..i];
      UpdateAllStopsAtError(e, front, i, now, track);
    } else {
      assert ps[..i] == ps;
    }
  }

  /** `updateExistingPackages(account)`: the packages updated one after the other. */
  method UpdateExistingPackages(cache: Cache, ps: seq<Package>, now: int, track: string -> Result<Option<Tracked>>) returns (r: Result<seq<Package>>)
    modifies cache
    ensures (r, cache.entries) == UpdateAll(old(cache.entries), ps, now, track)
  {
    var acc: seq<Package> := [];
    var i := 0;
    while i < |ps|
      invariant 0 <= i <= |ps|
      invariant UpdateAll(old(cache.entries), ps[..i], now, track) == (Ok(acc), cache.entries)
    {
      assert ps[..i + 1][..i] == ps[..i];
      var q := UpdatePackage(cache, ps[i], now, track);
      if q.Err? {
        UpdateAllStopsAtError(old(cache.entries), ps, i + 1, now, track);
        return Err(q.error);
      }
      acc := acc + [q.value];
      i := i + 1;
    }
    assert ps[..i] == ps;
    r := Ok(acc);
  }

  /** `getNestedPart(parts)`: the descent through first Containers, then the pick. */
  method GetNestedPart(parts0: seq<Part>) returns (r: Option<Part>)
    ensures r == NestedPart(parts0)
  {
    var parts := parts0;
    var nested := FirstContainer(parts);
    while nested.Some?
      invariant Deepest(parts) == Deepest(parts0)
      invariant nested == FirstContainer(parts)
      decreases SeqHeight(parts)
    {
      DescentLowersHeight(parts, nested.value);
      parts := parts[nested.value].parts;
      nested := FirstContainer(parts);
    }
    var plain := FindMime(parts, TextPlain);
    if plain.Some? {
      return Some(parts[plain.value]);
    }
    var html := FindMime(parts, TextHtml);
    r := if html.Some? then Some(parts[html.value]) else None;
  }

  /**
   * `getPlainBody(message)`: '' without a text part; otherwise the decoded data as
   * text (textversionjs applied to plain text as well) with foreign links removed.
   */
  function PlainBody(m: Message, c: TextCodecs): (r: Result<string>)
    ensures BodyPart(m.payload).None? ==> r == Ok("")
    ensures BodyPart(m.payload).Some? ==>
      var p := BodyPart(m.payload).value;
      if p.mimeType != Some(TextPlain) && p.mimeType != Some(TextHtml) then r == Ok("")
      else if p.data.None? then r.Err?
      else r == Ok(c.stripLinks(c.textVersion(c.decode(p.data.value))))
  {
    match BodyPart(m.payload)
    case None => Ok("")
    case Some(p) =>
      if p.mimeType != Some(TextPlain) && p.mimeType != Some(TextHtml) then Ok("")
      else match p.data
        case None => Err(TypeError)
        case Some(d) => Ok(c.stripLinks(c.textVersion(c.decode(d))))
  }


  /** The formats `getPackages` searches for: FedEx, UPS, USPS and S10. */
  const SearchFormats: seq<Registry.Format> := [Registry.FedexFormat, Registry.UpsFormat, Registry.UspsFormat, Registry.S10Format]

  /** `findTracking(getPlainBody(m), formats)`, each number with its message; nothing when the body cannot be read. */
  function FoundIn(m: Message, src: Sources): (r: seq<(Message, Registry.Found)>)
    ensures PlainBody(m, src.codecs).Ok? ==>
      && |r| == |src.findTracking(PlainBody(m, src.codecs).value, SearchFormats)|
      && forall i :: 0 <= i < |r| ==> r[i] == (m, src.findTracking(PlainBody(m, src.codecs).value, SearchFormats)[i])
  {
    match PlainBody(m, src.codecs)
    case Err(_) => []
    case Ok(body) =>
      var fs := src.findTracking(body, SearchFormats);
      seq(|fs|, i requires 0 <= i < |fs| => (m, fs[i]))
  }

  /** `messages.flatMap(m => findTracking(getPlainBody(m), formats))`, each number with its message. */
  function FoundPairs(ms: seq<Message>, src: Sources): (r: Result<seq<(Message, Registry.Found)>>)
    ensures r.Ok? ==> forall k :: 0 <= k < |r.value| ==> r.value[k].0 in ms
  {
    if |ms| == 0 then Ok([])
    else
      match PlainBody(ms[0], src.codecs)
      case Err(e) => Err(e)
      case Ok(_) =>
        match FoundPairs(ms[1..], src)
        case Err(e) => Err(e)
        case Ok(rest) => Ok(FoundIn(ms[0], src) + rest)
  }

  /** The concatenation of a list of lists, in order. */
  function Flatten<T>(xss: seq<seq<T>>): seq<T>
    decreases |xss|
  {
    if |xss| == 0 then [] else xss[0] + Flatten(xss[1..])
  }

  /**
   * The search reads every message: it fails exactly when one body cannot be read,
   * and otherwise yields each message's numbers, message after message.
   */
  lemma {:induction false} FoundPairsFollowMessages(ms: seq<Message>, src: Sources)
    ensures FoundPairs(ms, src).Ok? <==> forall i :: 0 <= i < |ms| ==> PlainBody(ms[i], src.codecs).Ok?
    ensures FoundPairs(ms, src).Ok? ==>
      FoundPairs(ms, src).value == Flatten(seq(|ms|, i requires 0 <= i < |ms| => FoundIn(ms[i], src)))
    decreases |ms|
  {
    if |ms| > 0 {
      FoundPairsFollowMessages(ms[1..], src);
      var all := seq(|ms|, i requires 0 <= i < |ms| => FoundIn(ms[i], src));
      var tail := seq(|ms| - 1, i requires 0 <= i < |ms| - 1 => FoundIn(ms[1..][i], src));
      assert all[1..] == tail;
      assert forall i :: 0 <= i < |ms| - 1 ==> ms[1..][i] == ms[i + 1];
    }
  }

  /** What a found number contributes besides its lookup (`messageData`). */
  datatype MessageData = MessageData(
    trackingNumber: string,
    courierCode: string,
    messageId: Option<string>,
    messageDate: int,
    sender: string,
    senderUrl: string,
    updated: int)

  /** `courier.code === 's10' ? 'usps' : courier.code` */
  function NormalCourier(code: string): (r: string)
    ensures r != "s10"
    ensures code != "s10" ==> r == code
    ensures code == "s10" ==> r == Registry.UspsCode
  {
    if code == "s10" then Registry.UspsCode else code
  }

  /** The `messageData` of one found number; Err when there is no From header or a pattern does not match. */
  function MessageDataOf(m: Message, f: Registry.Found, now: int, pats: FromPatterns): (r: Result<MessageData>)
    ensures r.Ok? <==> FromHeader(m.headers).Some? && pats.name(FromHeader(m.headers).value).Some? && pats.domain(FromHeader(m.headers).value).Some?
    ensures r.Ok? ==> r.value.trackingNumber == f.trackingNumber && r.value.courierCode == NormalCourier(f.courierCode)
    ensures r.Ok? ==> r.value.messageId == m.id && r.value.messageDate == m.internalDate && r.value.updated == now
    ensures r.Ok? ==>
      && r.value.sender == pats.name(FromHeader(m.headers).value).value
      && r.value.senderUrl == pats.domain(FromHeader(m.headers).value).value
  {
    match FromHeader(m.headers)
    case None => Err(TypeError)
    case Some(from) =>
      match pats.name(from)
      case None => Err(TypeError)
      case Some(sender) =>
        match pats.domain(from)
        case None => Err(TypeError)
        case Some(senderUrl) =>
          Ok(MessageData(f.trackingNumber, NormalCourier(f.courierCode), m.id, m.internalDate, sender, senderUrl, now))
  }

  /** The numbers of a list of packages (`new Set(account.packages.map(p => p.trackingNumber))`). */
  function NumbersOf(ps: seq<Package>): (r: set<string>)
    ensures forall i :: 0 <= i < |ps| ==> ps[i].trackingNumber in r
    ensures forall n :: n in r ==> exists i :: 0 <= i < |ps| && ps[i].trackingNumber == n
  {
    set i | 0 <= i < |ps| :: ps[i].trackingNumber
  }

  /**
   * The deduplication of `getPackages` over the first |pairs| found numbers,
   * starting from the set `u0`: the message data of every number not yet seen,
   * and the set of numbers seen.
   */
  function Candidates(pairs: seq<(Message, Registry.Found)>, u0: set<string>, now: int, pats: FromPatterns): (Result<seq<MessageData>>, set<string>)
    decreases |pairs|
  {
    if |pairs| == 0 then (Ok([]), u0)
    else
      var (r, u) := Candidates(pairs[..|pairs| - 1], u0, now, pats);
      var (m, f) := pairs[|pairs| - 1];
      if r.Err? || f.trackingNumber in u then (r, u)
      else
        match MessageDataOf(m, f, now, pats)
        case Err(e) => (Err(e), u)
        case Ok(d) => (Ok(r.value + [d]), u + {f.trackingNumber})
  }

  /** The numbers of a list of message data. */
  function DataNumbers(ds: seq<MessageData>): (r: set<string>)
    ensures forall i :: 0 <= i < |ds| ==> ds[i].trackingNumber in r
  {
    set i | 0 <= i < |ds| :: ds[i].trackingNumber
  }

  /** Appending one element adds its number. */
  lemma DataNumbersAppend(ds: seq<MessageData>, d: MessageData)
    ensures DataNumbers(ds + [d]) == DataNumbers(ds) + {d.trackingNumber}
  {
    var xs := ds + [d];
    forall x | x in DataNumbers(xs)
      ensures x in DataNumbers(ds) + {d.trackingNumber}
    {
      var i :| 0 <= i < |xs| && xs[i].trackingNumber == x;
      if i < |ds| {
        assert xs[i] == ds[i];
      }
    }
    forall x | x in DataNumbers(ds)
      ensures x in DataNumbers(xs)
    {
      var i :| 0 <= i < |ds| && ds[i].trackingNumber == x;
      assert xs[i] == ds[i];
    }
    assert xs[|ds|] == d;
  }

  /**
   * A pass yields no number that was already stored or that it has already yielded,
   * no courier code s10, and the seen set grows by exactly the numbers yielded.
   */
  lemma {:induction false} CandidatesAreFresh(pairs: seq<(Message, Registry.Found)>, u0: set<string>, now: int, pats: FromPatterns)
    ensures var (r, u) := Candidates(pairs, u0, now, pats);
      r.Ok? ==>
        && (forall i :: 0 <= i < |r.value| ==> r.value[i].trackingNumber !in u0 && r.value[i].courierCode != "s10")
        && (forall i, j :: 0 <= i < j < |r.value| ==> r.value[i].trackingNumber != r.value[j].trackingNumber)
        && u == u0 + DataNumbers(r.value)
    decreases |pairs|
  {
    if |pairs| > 0 {
      CandidatesAreFresh(pairs[..|pairs| - 1], u0, now, pats);
      var (r, u) := Candidates(pairs[..|pairs| - 1], u0, now, pats);
      var (m, f) := pairs[|pairs| - 1];
      if r.Ok? && f.trackingNumber !in u {
        match MessageDataOf(m, f, now, pats)
        case Err(_) =>
        case Ok(d) =>
          DataNumbersAppend(r.value, d);
          var ds := r.value + [d];
          assert forall i :: 0 <= i < |r.value| ==> ds[i] == r.value[i];
          assert ds[|r.value|] == d;
      }
    }
  }

  /**
   * The converse of CandidatesAreFresh: the seen set only grows, and a completed
   * pass has seen every number found, so every found number that was not stored
   * is the number of some candidate.
   */
  lemma {:induction false} CandidatesAreComplete(pairs: seq<(Message, Registry.Found)>, u0: set<string>, now: int, pats: FromPatterns)
    ensures u0 <= Candidates(pairs, u0, now, pats).1
    ensures Candidates(pairs, u0, now, pats).0.Ok? ==>
      forall k :: 0 <= k < |pairs| ==> pairs[k].1.trackingNumber in Candidates(pairs, u0, now, pats).1
    ensures var (r, u) := Candidates(pairs, u0, now, pats);
      r.Ok? ==> forall k :: 0 <= k < |pairs| && pairs[k].1.trackingNumber !in u0 ==>
        exists i :: 0 <= i < |r.value| && r.value[i].trackingNumber == pairs[k].1.trackingNumber
    decreases |pairs|
  {
    if |pairs| > 0 {
      var front := pairs[..|pairs| - 1];
      CandidatesAreComplete(front, u0, now, pats);
      assert forall k :: 0 <= k < |front| ==> pairs[k] == front[k];
    }
    CandidatesAreFresh(pairs, u0, now, pats);
    var (r, u) := Candidates(pairs, u0, now, pats);
    if r.Ok? {
      forall k | 0 <= k < |pairs| && pairs[k].1.trackingNumber !in u0
        ensures exists i :: 0 <= i < |r.value| && r.value[i].trackingNumber == pairs[k].1.trackingNumber
      {
        assert pairs[k].1.trackingNumber in DataNumbers(r.value);
      }
    }
  }

  /** A number met a second time in a pass contributes nothing, not even an error. */
  lemma SeenNumberIsSkipped(pairs: seq<(Message, Registry.Found)>, m: Message, f: Registry.Found, u0: set<string>, now: int, pats: FromPatterns)
    requires f.trackingNumber in Candidates(pairs, u0, now, pats).1
    ensures Candidates(pairs + [(m, f)], u0, now, pats) == Candidates(pairs, u0, now, pats)
  {
    assert (pairs + [(m, f)])[..|pairs|] == pairs;
  }

  /** Once the deduplication fails on a prefix, the whole pass fails with that error. */
  lemma {:induction false} CandidatesStopAtError(pairs: seq<(Message, Registry.Found)>, i: nat, u0: set<string>, now: int, pats: FromPatterns)
    requires i <= |pairs|
    requires Candidates(pairs[..i], u0, now, pats).0.Err?
    ensures Candidates(pairs, u0, now, pats) == Candidates(pairs[..i], u0, now, pats)
    decreases |pairs|
  {
    if i < |pairs| {
      var front := pairs[..|pairs| - 1];
      assert front[..i] == pairs[..i];
      CandidatesStopAtError(front, i, u0, now, pats);
    } else {
      assert pairs[..i] == pairs;
    }
  }

  /** The deduplication loop of `getPackages`, with its growing `uniques` set. */
  method Deduplicate(pairs: seq<(Message, Registry.Found)>, existing: seq<Package>, now: int, pats: FromPatterns) returns (r: Result<seq<MessageData>>)
    ensures r == Candidates(pairs, NumbersOf(existing), now, pats).0
  {
    var uniques := NumbersOf(existing);
    var ds: seq<MessageData> := [];
    var i := 0;
    while i < |pairs|
      invariant 0 <= i <= |pairs|
      invariant Candidates(pairs[..i], NumbersOf(existing), now, pats) == (Ok(ds), uniques)
    {
      assert pairs[..i + 1][..i] == pairs[..i];
      var (m, f) := pairs[i];
      if f.trackingNumber !in uniques {
        uniques := uniques + {f.trackingNumber};
        var d := MessageDataOf(m, f, now, pats);
        if d.Err? {
          CandidatesStopAtError(pairs, i + 1, NumbersOf(existing), now, pats);
          return Err(d.error);
        }
        ds := ds + [d.value];
      }
      i := i + 1;
    }
    assert pairs[..i] == pairs;
    r := Ok(ds);
  }

  /** Two days, in milliseconds: how long a number nobody can track yet is kept. */
  const GraceMs: int := 2 * 24 * 60 * 60 * 1000

  /**
   * The package a number yields: the lookup's fields with the message data over
   * them; without a lookup, status 0 while the message is at most two days old,
   * and nothing after that.
   */
  function WithInfo(d: MessageData, info: Option<Info>, now: int): (r: Option<Package>)
    ensures info.Some? ==>
      && r.Some? && r.value.status == info.value.status && r.value.statusLabel == info.value.statusLabel
      && r.value.deliveryDate == info.value.deliveryDate
    ensures info.None? ==> (r.Some? <==> now - d.messageDate <= GraceMs)
    ensures info.None? && r.Some? ==> r.value.status == Some(0) && r.value.statusLabel.None? && r.value.deliveryDate.None?
    ensures r.Some? ==>
      && r.value.trackingNumber == d.trackingNumber && r.value.courierCode == d.courierCode
      && r.value.messageId == d.messageId && r.value.messageDate == d.messageDate && r.value.sender == d.sender
      && r.value.senderUrl == Some(d.senderUrl) && r.value.updated == Some(d.updated) && r.value.deliveryTime.None?
  {
    match info
    case Some(i) =>
      Some(Package(d.trackingNumber, d.courierCode, i.status, i.statusLabel, None, i.deliveryDate,
                   d.messageId, d.messageDate, d.sender, Some(d.senderUrl), Some(d.updated)))
    case None =>
      if now - d.messageDate <= GraceMs then
        Some(Package(d.trackingNumber, d.courierCode, Some(0), None, None, None,
                     d.messageId, d.messageDate, d.sender, Some(d.senderUrl), Some(d.updated)))
      else None
  }

  /** The lookups of a pass over the first |ds| candidates, with `filter(Boolean)` dropping what yields nothing. */
  function LookupAll(e: map<string, Entry>, ds: seq<MessageData>, now: int, track: string -> Result<Option<Tracked>>): (Result<seq<Package>>, map<string, Entry>)
    decreases |ds|
  {
    if |ds| == 0 then (Ok([]), e)
    else
      var (r, e1) := LookupAll(e, ds[..|ds| - 1], now, track);
      var d := ds[|ds| - 1];
      if r.Err? then (r, e1)
      else
        match Answer(e1, d.trackingNumber, now, track)
        case Err(x) => (Err(x), After(e1, d.trackingNumber, now, track))
        case Ok(v) =>
          var p := WithInfo(d, v, now);
          (Ok(if p.Some? then r.value + [p.value] else r.value), After(e1, d.trackingNumber, now, track))
  }

  /** The packages of a pass come from its candidates: each carries the number and date of one of them. */
  lemma {:induction false} LookupAllFollowsCandidates(e: map<string, Entry>, ds: seq<MessageData>, now: int, track: string -> Result<Option<Tracked>>)
    ensures var r := LookupAll(e, ds, now, track).0;
      r.Ok? ==> |r.value| <= |ds| && forall k :: 0 <= k < |r.value| ==>
        exists j :: 0 <= j < |ds| && r.value[k].trackingNumber == ds[j].trackingNumber && r.value[k].messageDate == ds[j].messageDate
    decreases |ds|
  {
    if |ds| > 0 {
      var front := ds[..|ds| - 1];
      LookupAllFollowsCandidates(e, front, now, track);
      var (r, e1) := LookupAll(e, front, now, track);
      if r.Ok? {
        forall k | 0 <= k < |r.value|
          ensures exists j :: 0 <= j < |ds| && r.value[k].trackingNumber == ds[j].trackingNumber && r.value[k].messageDate == ds[j].messageDate
        {
          var j :| 0 <= j < |front| && r.value[k].trackingNumber == front[j].trackingNumber && r.value[k].messageDate == front[j].messageDate;
          assert front[j] == ds[j];
        }
      }
    }
  }

  /** What candidate j yields, looked up in the cache the candidates before it left; nothing when its lookup fails. */
  function Yield(e: map<string, Entry>, ds: seq<MessageData>, j: nat, now: int, track: string -> Result<Option<Tracked>>): Option<Package>
    requires j < |ds|
  {
    match Answer(LookupAll(e, ds[..j], now, track).1, ds[j].trackingNumber, now, track)
    case Err(_) => None
    case Ok(v) => WithInfo(ds[j], v, now)
  }

  /** `filter(Boolean)`: the values that are there, in order. */
  function Present(os: seq<Option<Package>>): seq<Package>
    decreases |os|
  {
    if |os| == 0 then []
    else Present(os[..|os| - 1]) + (if os[|os| - 1].Some? then [os[|os| - 1].value] else [])
  }

  /** A completed pass looked every candidate up without failure. */
  lemma {:induction false} LookupAllAnswersEvery(e: map<string, Entry>, ds: seq<MessageData>, now: int, track: string -> Result<Option<Tracked>>)
    ensures LookupAll(e, ds, now, track).0.Ok? ==>
      forall j :: 0 <= j < |ds| ==> Answer(LookupAll(e, ds[..j], now, track).1, ds[j].trackingNumber, now, track).Ok?
    decreases |ds|
  {
    if |ds| > 0 {
      var n := |ds| - 1;
      var front := ds[..n];
      LookupAllAnswersEvery(e, front, now, track);
      if LookupAll(e, ds, now, track).0.Ok? {
        forall j | 0 <= j < |ds|
          ensures Answer(LookupAll(e, ds[..j], now, track).1, ds[j].trackingNumber, now, track).Ok?
        {
          if j < n {
            assert front[..j] == ds[..j] && front[j] == ds[j];
          }
        }
      }
    }
  }

  /**
   * The packages of a completed pass are exactly what the candidates yield, in
   * candidate order: so a candidate with an answer, or one at most two days old,
   * gives a package, and no other does.
   */
  lemma {:induction false} LookupAllIsEveryYield(e: map<string, Entry>, ds: seq<MessageData>, now: int, track: string -> Result<Option<Tracked>>)
    ensures var r := LookupAll(e, ds, now, track).0;
      r.Ok? ==> r.value == Present(seq(|ds|, j requires 0 <= j < |ds| => Yield(e, ds, j, now, track)))
    decreases |ds|
  {
    if |ds| > 0 {
      var n := |ds| - 1;
      var front := ds[..n];
      LookupAllIsEveryYield(e, front, now, track);
      var (r, e1) := LookupAll(e, front, now, track);
      if r.Ok? && LookupAll(e, ds, now, track).0.Ok? {
        var y := Yield(e, ds, n, now, track);
        assert LookupAll(e, ds, now, track).0.value == r.value + (if y.Some? then [y.value] else []);
        var all := seq(|ds|, j requires 0 <= j < |ds| => Yield(e, ds, j, now, track));
        var head := seq(|front|, j requires 0 <= j < |front| => Yield(e, front, j, now, track));
        YieldsOfPrefix(e, ds, n, now, track);
        assert all[..n] == head;
      }
    }
  }

  /** The candidates of a prefix yield what they yield in the whole list. */
  lemma YieldsOfPrefix(e: map<string, Entry>, ds: seq<MessageData>, n: nat, now: int, track: string -> Result<Option<Tracked>>)
    requires n <= |ds|
    ensures forall j :: 0 <= j < n ==> Yield(e, ds[..n], j, now, track) == Yield(e, ds, j, now, track)
  {
    forall j | 0 <= j < n
      ensures Yield(e, ds[..n], j, now, track) == Yield(e, ds, j, now, track)
    {
      assert ds[..n][..j] == ds[..j];
      assert ds[..n][j] == ds[j];
    }
  }

  /** Once a lookup fails on a prefix, the whole pass fails with that error and that cache. */
  lemma {:induction false} LookupAllStopsAtError(e: map<string, Entry>, ds: seq<MessageData>, k: nat, now: int, track: string -> Result<Option<Tracked>>)
    requires k <= |ds|
    requires LookupAll(e, ds[..k], now, track).0.Err?
    ensures LookupAll(e, ds, now, track) == LookupAll(e, ds[..k], now, track)
    decreases |ds|
  {
    if k < |ds| {
      var front := ds[..|ds| - 1];
      assert front[..k] == ds[..k];
      LookupAllStopsAtError(e, front, k, now, track);
    } else {
      assert ds[..k] == ds;
    }
  }

  /** The lookups: one `getTracking` per candidate, in order. */
  method LookupPackages(cache: Cache, ds: seq<MessageData>, now: int, track: string -> Result<Option<Tracked>>) returns (r: Result<seq<Package>>)
    modifies cache
    ensures (r, cache.entries) == LookupAll(old(cache.entries), ds, now, track)
  {
    var out: seq<Package> := [];
    var k := 0;
    while k < |ds|
      invariant 0 <= k <= |ds|
      invariant LookupAll(old(cache.entries), ds[..k], now, track) == (Ok(out), cache.entries)
    {
      assert ds[..k + 1][..k] == ds[..k];
      var tracking := cache.GetTracking(ds[k].trackingNumber, now, track);
      if tracking.Err? {
        LookupAllStopsAtError(old(cache.entries), ds, k + 1, now, track);
        return Err(tracking.error);
      }
      var p := WithInfo(ds[k], tracking.value, now);
      if p.Some? {
        out := out + [p.value];
      }
      k := k + 1;
    }
    assert ds[..k] == ds;
    r := Ok(out);
  }

  /** `getPackages(account)(messages)`, with the cache before and after. */
  function PackagesOf(e: map<string, Entry>, existing: seq<Package>, ms: seq<Message>, now: int, src: Sources): (Result<seq<Package>>, map<string, Entry>) {
    match FoundPairs(ms, src)
    case Err(x) => (Err(x), e)
    case Ok(pairs) =>
      match Candidates(pairs, NumbersOf(existing), now, src.from).0
      case Err(x) => (Err(x), e)
      case Ok(ds) => LookupAll(e, ds, now, src.track)
  }

  /** `getPackages(account)(messages)`: the deduplication pass, then the lookups. */
  method GetPackages(cache: Cache, existing: seq<Package>, ms: seq<Message>, now: int, src: Sources) returns (r: Result<seq<Package>>)
    modifies cache
    ensures (r, cache.entries) == PackagesOf(old(cache.entries), existing, ms, now, src)
  {
    var found := FoundPairs(ms, src);
    if found.Err? {
      return Err(found.error);
    }
    var ds := Deduplicate(found.value, existing, now, src.from);
    if ds.Err? {
      return Err(ds.error);
    }
    r := LookupPackages(cache, ds.value, now, src.track);
  }

  /** Appending a page's ids in front of the rest of a listing. */
  function Prepend(ids: seq<string>, rest: Result<seq<string>>): Result<seq<string>> {
    match rest
    case Err(e) => Err(e)
    case Ok(xs) => Ok(ids + xs)
  }

  /**
   * The ids of a listing with query `q` on try `k`, from page `token` on, following
   * at most `pages` pages: each page's ids (none when the page has no messages
   * field), for as long as a next-page token is given.
   */
  function Collect(g: Gmail, k: nat, q: string, token: Option<string>, pages: nat): Result<seq<string>>
    decreases pages
  {
    if pages == 0 then Ok([])
    else
      match g.list(k, q, token)
      case Err(e) => Err(e)
      case Ok(p) =>
        var here := p.messages.GetOr([]);
        if !Truthy(p.nextPageToken) then Ok(here)
        else Prepend(here, Collect(g, k, q, p.nextPageToken, pages - 1))
  }

  /** A listing that reaches a last page (no next token) within `pages` pages. */
  predicate Ends(g: Gmail, k: nat, q: string, token: Option<string>, pages: nat)
    decreases pages
  {
    pages > 0 && g.list(k, q, token).Ok? &&
    (Truthy(g.list(k, q, token).value.nextPageToken) ==> Ends(g, k, q, g.list(k, q, token).value.nextPageToken, pages - 1))
  }

  /** The page bound loses nothing on a listing that ends within it: more pages give the same ids. */
  lemma {:induction false} EndedListingIgnoresBound(g: Gmail, k: nat, q: string, token: Option<string>, pages: nat, more: nat)
    requires Ends(g, k, q, token, pages) && pages <= more
    ensures Collect(g, k, q, token, more) == Collect(g, k, q, token, pages)
    decreases pages
  {
    var p := g.list(k, q, token).value;
    if Truthy(p.nextPageToken) {
      EndedListingIgnoresBound(g, k, q, p.nextPageToken, pages - 1, more - 1);
    }
  }

  /** `getMessageIds(account)`: the do/while over the pages of the search, at most `pages` of them. */
  method GetMessageIds(updated: Option<int>, now: int, k: nat, g: Gmail, pages: nat) returns (r: Result<seq<string>>)
    ensures r == Collect(g, k, Query(updated, now), None, pages)
  {
    var q := Query(updated, now);
    var messageIds: seq<string> := [];
    var pageToken: Option<string> := None;
    var left := pages;
    assert Prepend([], Collect(g, k, q, None, pages)) == Collect(g, k, q, None, pages) by {
      match Collect(g, k, q, None, pages)
      case Err(_) =>
      case Ok(xs) => assert [] + xs == xs;
    }
    while left > 0
      invariant Collect(g, k, q, None, pages) == Prepend(messageIds, Collect(g, k, q, pageToken, left))
      decreases left
    {
      var data := g.list(k, q, pageToken);
      if data.Err? {
        return Err(data.error);
      }
      var here := data.value.messages.GetOr([]);
      if !Truthy(data.value.nextPageToken) {
        return Ok(messageIds + here);
      }
      pageToken := data.value.nextPageToken;
      left := left - 1;
      if Collect(g, k, q, pageToken, left).Ok? {
        var rest := Collect(g, k, q, pageToken, left).value;
        assert messageIds + (here + rest) == (messageIds + here) + rest;
      }
      messageIds := messageIds + here;
    }
    assert messageIds + [] == messageIds;
    r := Ok(messageIds);
  }

  /** `gmail.users.messages.get` on try `k`, as the function `FetchAll` takes. */
  function Fetch(g: Gmail, k: nat): string -> Result<Message> {
    id => g.get(k, id)
  }

  /**
   * `getMessages(account)(ids)`: every message, oldest first.  It fails exactly when
   * one fetch fails, and otherwise holds exactly the fetched messages, reordered.
   */
  function GetMessages(ids: seq<string>, k: nat, g: Gmail): (r: Result<seq<Message>>)
    ensures r.Ok? <==> forall i :: 0 <= i < |ids| ==> g.get(k, ids[i]).Ok?
    ensures r.Ok? ==> Ascending(r.value)
    ensures r.Ok? ==> |r.value| == |ids| && multiset(r.value) == multiset(FetchAll(ids, Fetch(g, k)).value)
  {
    match FetchAll(ids, Fetch(g, k))
    case Err(e) => Err(e)
    case Ok(ms) => Ok(SortByDate(ms))
  }

  /** One try of `findNewPackages`: list, fetch, sort, then `getPackages`. */
  function Attempt(e: map<string, Entry>, existing: seq<Package>, updated: Option<int>, now: int, src: Sources, k: nat, pages: nat): (Result<seq<Package>>, map<string, Entry>) {
    match Collect(src.gmail, k, Query(updated, now), None, pages)
    case Err(x) => (Err(x), e)
    case Ok(ids) =>
      match GetMessages(ids, k, src.gmail)
      case Err(x) => (Err(x), e)
      case Ok(ms) => PackagesOf(e, existing, ms, now, src)
  }

  /** One try of `findNewPackages` for an account, as the function `Retrying` takes. */
  function AttemptOf(existing: seq<Package>, updated: Option<int>, now: int, src: Sources, pages: nat): (nat, map<string, Entry>) -> (Result<seq<Package>>, map<string, Entry>) {
    (k: nat, e: map<string, Entry>) => Attempt(e, existing, updated, now, src, k, pages)
  }

  /** `findNewPackages(account)`: tries until one is final, refreshing the token between tries. */
  method FindNewPackages(cache: Cache, existing: seq<Package>, updated: Option<int>, now: int, src: Sources, pages: nat, retries: nat) returns (r: Result<seq<Package>>)
    modifies cache
    ensures (r, cache.entries) == Retrying(AttemptOf(existing, updated, now, src, pages), src.gmail.refreshToken, old(cache.entries), 0, retries)
  {
    var attempt := AttemptOf(existing, updated, now, src, pages);
    var k := 0;
    var left := retries;
    while true
      invariant Retrying(attempt, src.gmail.refreshToken, old(cache.entries), 0, retries)
             == Retrying(attempt, src.gmail.refreshToken, cache.entries, k, left)
      decreases left
    {
      ghost var before := cache.entries;
      var outcome := TryOnce(cache, existing, updated, now, src, k, pages);
      assert (outcome, cache.entries) == attempt(k, before);
      if !(outcome == Err(InvalidCredentials) && left > 0) {
        return outcome;
      }
      var refreshed := src.gmail.refreshToken(k);
      if refreshed.Err? {
        return Err(refreshed.error);
      }
      k := k + 1;
      left := left - 1;
    }
  }

  /** One try: `getMessageIds`, then `getMessages`, then `getPackages`. */
  method TryOnce(cache: Cache, existing: seq<Package>, updated: Option<int>, now: int, src: Sources, k: nat, pages: nat) returns (r: Result<seq<Package>>)
    modifies cache
    ensures (r, cache.entries) == Attempt(old(cache.entries), existing, updated, now, src, k, pages)
  {
    var ids := GetMessageIds(updated, now, k, src.gmail, pages);
    if ids.Err? {
      return Err(ids.error);
    }
    var ms := GetMessages(ids.value, k, src.gmail);
    if ms.Err? {
      return Err(ms.error);
    }
    r := GetPackages(cache, existing, ms.value, now, src);
  }
}
