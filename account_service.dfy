/**
 * The account service's package operations on one account: the hourly sync,
 * the in-place refresh of the stored packages, the discovery of new packages in
 * Gmail, and the add and delete requests.  Times are milliseconds since the epoch.
 */
module AccountService {
  import opened Common
  import opened Status
  import opened Info
  import opened Messages
  import opened Packages
  import Registry
  import TrackingHelper

  /**
   * What the service reads besides the account: Gmail, the text transforms, the
   * number finder, the From patterns, and `track(courierCode, number)`, the
   * carrier lookup (None models a falsy answer).  `pages` bounds the listing and
   * `retries` the stale-token retries.
   */
  datatype Services = Services(
    gmail: Gmail,
    codecs: TextCodecs,
    findTracking: (string, seq<Registry.Format>) -> seq<Registry.Found>,
    from: FromPatterns,
    lookup: (string, string) -> Result<Option<PackageInfo>>,
    pages: nat,
    retries: nat)

  const HourMs: int := 60 * 60 * 1000

  /** `Date.now() - account.updated < 60 * 60 * 1000`; without a sync time the difference is NaN and the test fails. */
  predicate Throttled(updated: Option<int>, now: int) {
    updated.Some? && now - updated.value < HourMs
  }

  /* ---------------- updateExistingPackages ---------------- */

  /** A package after a successful lookup: updated now, with the lookup's status code, label and delivery time. */
  function Refreshed(p: Package, info: PackageInfo, now: int): Package {
    p.(status := Some(Code(info.status)), statusLabel := info.statusLabel, deliveryTime := info.deliveryTime, updated := Some(now))
  }

  /**
   * One turn of the loop: a frozen package is skipped; a failed lookup throws
   * before anything is written; a falsy answer throws on reading its status, after
   * `updated` is written; an answer is copied in.
   */
  function RefreshStep(p: Package, now: int, lookup: (string, string) -> Result<Option<PackageInfo>>): (Package, Result<()>) {
    if Frozen(now, p) then (p, Ok(()))
    else
      match lookup(p.courierCode, p.trackingNumber)
      case Err(x) => (p, Err(x))
      case Ok(None) => (p.(updated := Some(now)), Err(TypeError))
      case Ok(Some(info)) => (Refreshed(p, info, now), Ok(()))
  }

  /** The loop over the whole array: each package in turn, the ones after a failure left as they were. */
  function RefreshAll(ps: seq<Package>, now: int, lookup: (string, string) -> Result<Option<PackageInfo>>): (seq<Package>, Result<()>)
    decreases |ps|
  {
    if |ps| == 0 then ([], Ok(()))
    else
      var (front, r) := RefreshAll(ps[..|ps| - 1], now, lookup);
      if r.Err? then (front + [ps[|ps| - 1]], r)
      else
        var (q, r2) := RefreshStep(ps[|ps| - 1], now, lookup);
        (front + [q], r2)
  }

  /** One more package: the loop's next turn, once the turns before it have all succeeded. */
  lemma RefreshAllSnoc(ps: seq<Package>, i: int, now: int, lookup: (string, string) -> Result<Option<PackageInfo>>)
    requires 0 <= i < |ps|
    requires RefreshAll(ps[..i], now, lookup).1.Ok?
    ensures RefreshAll(ps[..i + 1], now, lookup)
         == (RefreshAll(ps[..i], now, lookup).0 + [RefreshStep(ps[i], now, lookup).0], RefreshStep(ps[i], now, lookup).1)
  {
    assert ps[..i + 1][..i] == ps[..i];
  }

  /**
   * One turn of the refresh loop over `qs`, which holds the refreshed prefix of
   * `ps` and its untouched rest: the refreshed prefix grows by one, and a failure
   * ends the whole refresh with the array as it then stands.
   */
  lemma RefreshAllNext(ps: seq<Package>, qs: seq<Package>, i: int, now: int, lookup: (string, string) -> Result<Option<PackageInfo>>)
    requires |qs| == |ps| && 0 <= i < |ps|
    requires qs[i..] == ps[i..]
    requires RefreshAll(ps[..i], now, lookup) == (qs[..i], Ok(()))
    ensures var q := qs[i := RefreshStep(ps[i], now, lookup).0];
      && RefreshAll(ps[..i + 1], now, lookup) == (q[..i + 1], RefreshStep(ps[i], now, lookup).1)
      && q[i + 1..] == ps[i + 1..]
      && (RefreshStep(ps[i], now, lookup).1.Err? ==> RefreshAll(ps, now, lookup) == (q, RefreshStep(ps[i], now, lookup).1))
  {
    var q := qs[i := RefreshStep(ps[i], now, lookup).0];
    RefreshAllSnoc(ps, i, now, lookup);
    assert q[..i + 1] == qs[..i] + [q[i]];
    assert q[i + 1..] == qs[i + 1..];
    if RefreshStep(ps[i], now, lookup).1.Err? {
      assert q == q[..i + 1] + ps[i + 1..];
      RefreshAllAfterError(ps, i + 1, now, lookup);
    }
  }

  /**
   * The refresh keeps every package in its place with all but status, label,
   * delivery time and `updated` as they were; a frozen package is not touched.
   * When it completes, every other package carries its lookup's answer and `now`.
   */
  lemma {:induction false} RefreshAllKeepsPackages(ps: seq<Package>, now: int, lookup: (string, string) -> Result<Option<PackageInfo>>)
    ensures var (qs, r) := RefreshAll(ps, now, lookup);
      && |qs| == |ps|
      && (forall i :: 0 <= i < |ps| ==>
            qs[i] == ps[i].(status := qs[i].status, statusLabel := qs[i].statusLabel, deliveryTime := qs[i].deliveryTime, updated := qs[i].updated))
      && (forall i :: 0 <= i < |ps| && Frozen(now, ps[i]) ==> qs[i] == ps[i])
      && (r.Ok? ==> forall i :: 0 <= i < |ps| && !Frozen(now, ps[i]) ==>
            var l := lookup(ps[i].courierCode, ps[i].trackingNumber);
            l.Ok? && l.value.Some? && qs[i] == Refreshed(ps[i], l.value.value, now))
    decreases |ps|
  {
    if |ps| > 0 {
      var front := ps[..|ps| - 1];
      RefreshAllKeepsPackages(front, now, lookup);
      assert forall i :: 0 <= i < |front| ==> front[i] == ps[i];
    }
  }

  /** A failure at some point leaves everything after it untouched. */
  lemma {:induction false} RefreshAllAfterError(ps: seq<Package>, i: nat, now: int, lookup: (string, string) -> Result<Option<PackageInfo>>)
    requires i <= |ps|
    requires RefreshAll(ps[..i], now, lookup).1.Err?
    ensures RefreshAll(ps, now, lookup) == (RefreshAll(ps[..i], now, lookup).0 + ps[i..], RefreshAll(ps[..i], now, lookup).1)
    decreases |ps|
  {
    if i < |ps| {
      var front := ps[..|ps| - 1];
      assert front[..i] == ps[..i];
      RefreshAllAfterError(front, i, now, lookup);
      var x := RefreshAll(ps[..i], now, lookup).0;
      assert front[i..] + [ps[|ps| - 1]] == ps[i..];
      assert (x + front[i..]) + [ps[|ps| - 1]] == x + ps[i..];
    } else {
      assert ps[..i] == ps;
      assert RefreshAll(ps, now, lookup).0 + ps[i..] == RefreshAll(ps, now, lookup).0;
    }
  }

  /* ---------------- the sender ---------------- */

  /** JavaScript's white space and line terminators, which `trim` removes. */
  const WhiteSpace: set<char> := {
    ' ', '\t', '\n', '\r', '\U{B}', '\U{C}', '\U{A0}', '\U{1680}',
    '\U{2000}', '\U{2001}', '\U{2002}', '\U{2003}', '\U{2004}', '\U{2005}',
    '\U{2006}', '\U{2007}', '\U{2008}', '\U{2009}', '\U{200A}',
    '\U{2028}', '\U{2029}', '\U{202F}', '\U{205F}', '\U{3000}', '\U{FEFF}'
  }

  predicate IsSpace(c: char) {
    c in WhiteSpace
  }

  function TrimStart(s: string): (r: string)
    ensures |r| <= |s| && r == s[|s| - |r|..]
    ensures forall k :: 0 <= k < |s| - |r| ==> IsSpace(s[k])
    ensures |r| > 0 ==> !IsSpace(r[0])
  {
    if |s| > 0 && IsSpace(s[0]) then
      var r := TrimStart(s[1..]);
      assert s[1..][|s| - 1 - |r|..] == s[|s| - |r|..];
      assert forall k :: 1 <= k < |s| - |r| ==> s[k] == s[1..][k - 1];
      r
    else s
  }

  function TrimEnd(s: string): (r: string)
    ensures |r| <= |s| && r == s[..|r|]
    ensures forall k :: |r| <= k < |s| ==> IsSpace(s[k])
    ensures |r| > 0 ==> !IsSpace(r[|r| - 1])
  {
    if |s| > 0 && IsSpace(s[|s| - 1]) then
      var r := TrimEnd(s[..|s| - 1]);
      assert s[..|s| - 1][..|r|] == s[..|r|];
      r
    else s
  }

  /** `s.trim()`: the part of `s` between its leading and its trailing white space. */
  function Trim(s: string): (r: string)
    ensures |r| > 0 ==> !IsSpace(r[0]) && !IsSpace(r[|r| - 1])
    ensures |s| - |TrimStart(s)| + |r| <= |s|
    ensures r == s[|s| - |TrimStart(s)|..|s| - |TrimStart(s)| + |r|]
    ensures forall k :: 0 <= k < |s| - |TrimStart(s)| ==> IsSpace(s[k])
    ensures forall k :: |s| - |TrimStart(s)| + |r| <= k < |s| ==> IsSpace(s[k])
  {
    var t := TrimStart(s);
    var r := TrimEnd(t);
    TrimSlices(s, t, r);
    r
  }

  /** The white space TrimEnd removes from TrimStart's result lies at the end of `s` itself. */
  lemma {:induction false} TrimSlices(s: string, t: string, r: string)
    requires t == TrimStart(s) && r == TrimEnd(t)
    ensures |r| > 0 ==> !IsSpace(r[0])
    ensures r == s[|s| - |t|..|s| - |t| + |r|]
    ensures forall k :: |s| - |t| + |r| <= k < |s| ==> IsSpace(s[k])
  {
    SliceOfSuffix(s, t, r);
    SpaceOfSuffix(s, t, |r|);
  }

  lemma SliceOfSuffix(s: string, t: string, r: string)
    requires |t| <= |s| && t == s[|s| - |t|..] && |r| <= |t| && r == t[..|r|]
    ensures |r| > 0 ==> r[0] == t[0]
    ensures r == s[|s| - |t|..|s| - |t| + |r|]
  {
  }

  lemma SpaceOfSuffix(s: string, t: string, n: int)
    requires |t| <= |s| && t == s[|s| - |t|..] && 0 <= n <= |t|
    requires forall k :: n <= k < |t| ==> IsSpace(t[k])
    ensures forall k :: |s| - |t| + n <= k < |s| ==> IsSpace(s[k])
  {
    forall k | |s| - |t| + n <= k < |s|
      ensures IsSpace(s[k])
    {
      assert s[k] == t[k - (|s| - |t|)];
    }
  }

  /** Trimming twice is trimming once. */
  lemma TrimIsIdempotent(s: string)
    ensures Trim(Trim(s)) == Trim(s)
  {
    var r := Trim(s);
    assert TrimStart(r) == r;
    assert TrimEnd(r) == r;
  }

  /** `s.replace(/_/g, ' ')` */
  function ReplaceUnderscores(s: string): (r: string)
    ensures |r| == |s| && '_' !in r
    ensures forall i :: 0 <= i < |s| ==> r[i] == (if s[i] == '_' then ' ' else s[i])
  {
    if |s| == 0 then "" else [if s[0] == '_' then ' ' else s[0]] + ReplaceUnderscores(s[1..])
  }

  /** The mail domain of the From header, with gmail.com shown as mail.google.com; None when the pattern does not match. */
  function SenderUrlOf(from: string, pats: FromPatterns): (r: Option<string>)
    ensures r.None? <==> pats.domain(from).None?
    ensures r.Some? ==> r.value == (if pats.domain(from).value == "gmail.com" then "mail.google.com" else pats.domain(from).value)
    ensures r != Some("gmail.com")
  {
    match pats.domain(from)
    case None => None
    case Some(d) => Some(if d == "gmail.com" then "mail.google.com" else d)
  }

  /**
   * The display name, trimmed and with `_` shown as a space; without one, the
   * sender URL; without that, "Unknown".
   */
  function SenderOf(from: string, pats: FromPatterns): (r: string)
    ensures pats.name(from).Some? ==> r == ReplaceUnderscores(Trim(pats.name(from).value)) && '_' !in r
    ensures pats.name(from).None? && SenderUrlOf(from, pats).Some? ==> r == SenderUrlOf(from, pats).value
    ensures pats.name(from).None? && SenderUrlOf(from, pats).None? ==> r == "Unknown"
  {
    match pats.name(from)
    case Some(n) => ReplaceUnderscores(Trim(n))
    case None => SenderUrlOf(from, pats).GetOr("Unknown")
  }

  /** What every package found in one message shares. */
  datatype Origin = Origin(messageId: Option<string>, messageDate: int, sender: string, senderUrl: Option<string>)

  /** The origin of a message; Err when it has no From header (`.value` of undefined). */
  function OriginOf(m: Message, pats: FromPatterns): (r: Result<Origin>)
    ensures r.Err? <==> FromHeader(m.headers).None?
    ensures r.Ok? ==> r.value.messageId == m.id && r.value.messageDate == m.internalDate
    ensures r.Ok? ==>
      && r.value.sender == SenderOf(FromHeader(m.headers).value, pats)
      && r.value.senderUrl == SenderUrlOf(FromHeader(m.headers).value, pats)
  {
    match FromHeader(m.headers)
    case None => Err(TypeError)
    case Some(from) => Ok(Origin(m.id, m.internalDate, SenderOf(from, pats), SenderUrlOf(from, pats)))
  }

  /* ---------------- getPlainBody ---------------- */

  /**
   * The service's `getPlainBody(message)`: '' without a text part; otherwise the
   * decoded data with courier-foreign links removed, turned into text first only
   * when it is HTML.
   */
  function ServiceBody(m: Message, c: TextCodecs): (r: Result<string>)
    ensures BodyPart(m.payload).None? ==> r == Ok("")
    ensures BodyPart(m.payload).Some? ==>
      var p := BodyPart(m.payload).value;
      if p.mimeType != Some(TextPlain) && p.mimeType != Some(TextHtml) then r == Ok("")
      else if p.data.None? then r.Err?
      else if p.mimeType == Some(TextHtml) then r == Ok(c.stripLinks(c.textVersion(c.decode(p.data.value))))
      else r == Ok(c.stripLinks(c.decode(p.data.value)))
  {
    match BodyPart(m.payload)
    case None => Ok("")
    case Some(p) =>
      if p.mimeType != Some(TextPlain) && p.mimeType != Some(TextHtml) then Ok("")
      else match p.data
        case None => Err(TypeError)
        case Some(d) => Ok(c.stripLinks(if p.mimeType == Some(TextHtml) then c.textVersion(c.decode(d)) else c.decode(d)))
  }

  /** The service and the tracking helper pick the same part; they differ only in that the helper runs textversionjs on plain text too. */
  lemma ServiceBodyAgreesWithHelper(m: Message, c: TextCodecs)
    ensures ServiceBody(m, c).Err? <==> TrackingHelper.PlainBody(m, c).Err?
    ensures BodyPart(m.payload).Some? && BodyPart(m.payload).value.mimeType == Some(TextHtml) ==>
      ServiceBody(m, c) == TrackingHelper.PlainBody(m, c)
    ensures (forall x :: c.textVersion(x) == x) ==> ServiceBody(m, c) == TrackingHelper.PlainBody(m, c)
  {
  }

  /* ---------------- findNewPackages ---------------- */

  /** Prepending one page's ids to the rest of a listing that may end early. */
  function PrependPage(ids: seq<string>, rest: Result<Option<seq<string>>>): Result<Option<seq<string>>> {
    match rest
    case Ok(Some(xs)) => Ok(Some(ids + xs))
    case _ => rest
  }

  /**
   * The service's listing from page `token`, at most `pages` pages: None as soon
   * as a page has no messages field (`if (!data.messages) return;`, which ends the
   * whole search with no change), else all ids in page order.
   */
  function Listing(g: Gmail, k: nat, q: string, token: Option<string>, pages: nat): Result<Option<seq<string>>>
    decreases pages
  {
    if pages == 0 then Ok(Some([]))
    else
      match g.list(k, q, token)
      case Err(e) => Err(e)
      case Ok(p) =>
        if p.messages.None? then Ok(None)
        else if !Truthy(p.nextPageToken) then Ok(Some(p.messages.value))
        else PrependPage(p.messages.value, Listing(g, k, q, p.nextPageToken, pages - 1))
  }

  /** A page without a messages field ends the search even after pages that had some. */
  lemma {:induction false} PageWithoutMessagesEndsSearch(g: Gmail, k: nat, q: string, token: Option<string>, pages: nat, n: nat)
    requires n < pages
    requires forall i :: 0 <= i <= n ==> PageAt(g, k, q, token, i).Some?
    requires forall i :: 0 <= i < n ==> PageAt(g, k, q, token, i).value.messages.Some?
    requires PageAt(g, k, q, token, n).value.messages.None?
    ensures Listing(g, k, q, token, pages) == Ok(None)
    decreases n
  {
    var p := g.list(k, q, token).value;
    if n > 0 {
      assert PageAt(g, k, q, token, 0) == Some(p);
      assert Truthy(p.nextPageToken) by { assert PageAt(g, k, q, token, 1).Some?; }
      forall i | 0 <= i <= n - 1
        ensures PageAt(g, k, q, p.nextPageToken, i).Some?
      {
        assert PageAt(g, k, q, token, i + 1) == PageAt(g, k, q, p.nextPageToken, i);
      }
      forall i | 0 <= i < n - 1
        ensures PageAt(g, k, q, p.nextPageToken, i).value.messages.Some?
      {
        assert PageAt(g, k, q, token, i + 1) == PageAt(g, k, q, p.nextPageToken, i);
      }
      assert PageAt(g, k, q, token, n) == PageAt(g, k, q, p.nextPageToken, n - 1);
      PageWithoutMessagesEndsSearch(g, k, q, p.nextPageToken, pages - 1, n - 1);
    }
  }

  /** The `i`-th page of a listing from `token`, when the pages before it are there and point on. */
  function PageAt(g: Gmail, k: nat, q: string, token: Option<string>, i: nat): Option<Page>
    decreases i
  {
    match g.list(k, q, token)
    case Err(_) => None
    case Ok(p) =>
      if i == 0 then Some(p)
      else if !Truthy(p.nextPageToken) then None
      else PageAt(g, k, q, p.nextPageToken, i - 1)
  }

  /** The list-and-fetch part of one try: the messages oldest first, or None when the search ended early. */
  function FetchPhase(g: Gmail, k: nat, q: string, pages: nat): Result<Option<seq<Message>>> {
    match Listing(g, k, q, None, pages)
    case Err(e) => Err(e)
    case Ok(None) => Ok(None)
    case Ok(Some(ids)) =>
      match TrackingHelper.GetMessages(ids, k, g)
      case Err(e) => Err(e)
      case Ok(ms) => Ok(Some(ms))
  }

  /** The list-and-fetch part as the function `Retrying` takes; it changes no state. */
  function FetchAttempt(g: Gmail, q: string, pages: nat): (nat, ()) -> (Result<Option<seq<Message>>>, ()) {
    (k: nat, s: ()) => (FetchPhase(g, k, q, pages), s)
  }

  /** The constants a pushed package takes from one number and its answer. */
  function NewPackage(info: PackageInfo, f: Registry.Found, o: Origin, now: int): Package {
    Package(f.trackingNumber, f.courierCode, Some(Code(info.status)), info.statusLabel, info.deliveryTime, None,
            o.messageId, o.messageDate, o.sender, o.senderUrl, Some(now))
  }

  /** The state of the discovery loop: the numbers seen, the packages pushed so far, and whether it goes on. */
  datatype Scan = Scan(seen: set<string>, pushed: seq<Package>, outcome: Result<()>)

  /**
   * One found number: skipped when seen; a failed lookup throws; a falsy answer is
   * skipped without marking the number; an answer marks it and pushes its package.
   */
  function PushStep(seen: set<string>, f: Registry.Found, o: Origin, now: int, lookup: (string, string) -> Result<Option<PackageInfo>>): (r: Scan)
    ensures f.trackingNumber in seen ==> r == Scan(seen, [], Ok(()))
    ensures |r.pushed| <= 1
    ensures |r.pushed| == 1 <==> f.trackingNumber !in seen && lookup(f.courierCode, f.trackingNumber).Ok? && lookup(f.courierCode, f.trackingNumber).value.Some?
    ensures r.seen == (if |r.pushed| == 1 then seen + {f.trackingNumber} else seen)
    ensures |r.pushed| == 1 ==> r.pushed[0] == NewPackage(lookup(f.courierCode, f.trackingNumber).value.value, f, o, now)
    ensures r.outcome.Err? <==> f.trackingNumber !in seen && lookup(f.courierCode, f.trackingNumber).Err?
  {
    if f.trackingNumber in seen then Scan(seen, [], Ok(()))
    else
      match lookup(f.courierCode, f.trackingNumber)
      case Err(x) => Scan(seen, [], Err(x))
      case Ok(None) => Scan(seen, [], Ok(()))
      case Ok(Some(info)) => Scan(seen + {f.trackingNumber}, [NewPackage(info, f, o, now)], Ok(()))
  }

  /** The inner loop over the numbers found in one message. */
  function PushAll(seen: set<string>, o: Origin, fs: seq<Registry.Found>, now: int, lookup: (string, string) -> Result<Option<PackageInfo>>): Scan
    decreases |fs|
  {
    if |fs| == 0 then Scan(seen, [], Ok(()))
    else
      var a := PushAll(seen, o, fs[..|fs| - 1], now, lookup);
      if a.outcome.Err? then a
      else
        var b := PushStep(a.seen, fs[|fs| - 1], o, now, lookup);
        Scan(b.seen, a.pushed + b.pushed, b.outcome)
  }

  /** The formats the service searches for: FedEx, UPS and USPS (no S10). */
  const ServiceFormats: seq<Registry.Format> := [Registry.FedexFormat, Registry.UpsFormat, Registry.UspsFormat]

  /** One message: its origin and body, then the numbers found in the body; Err when the origin or the body throws. */
  function ScanOne(seen: set<string>, m: Message, now: int, svc: Services): Scan {
    match OriginOf(m, svc.from)
    case Err(x) => Scan(seen, [], Err(x))
    case Ok(o) =>
      match ServiceBody(m, svc.codecs)
      case Err(x) => Scan(seen, [], Err(x))
      case Ok(body) => PushAll(seen, o, svc.findTracking(body, ServiceFormats), now, svc.lookup)
  }

  /** The outer loop over the first |ms| messages, in their order. */
  function ScanAll(seen: set<string>, ms: seq<Message>, now: int, svc: Services): Scan
    decreases |ms|
  {
    if |ms| == 0 then Scan(seen, [], Ok(()))
    else
      var a := ScanAll(seen, ms[..|ms| - 1], now, svc);
      if a.outcome.Err? then a
      else
        var b := ScanOne(a.seen, ms[|ms| - 1], now, svc);
        Scan(b.seen, a.pushed + b.pushed, b.outcome)
  }

  /** One more message: the loop's next turn, once the turns before it have all succeeded. */
  lemma ScanAllSnoc(seen0: set<string>, ms: seq<Message>, i: int, now: int, svc: Services)
    requires 0 <= i < |ms|
    requires ScanAll(seen0, ms[..i], now, svc).outcome.Ok?
    ensures var a := ScanAll(seen0, ms[..i], now, svc);
      var b := ScanOne(a.seen, ms[i], now, svc);
      ScanAll(seen0, ms[..i + 1], now, svc) == Scan(b.seen, a.pushed + b.pushed, b.outcome)
  {
    assert ms[..i + 1][..i] == ms[..i];
  }

  /** The loop's next turn on packages `base`: the scan of one more message, and what it appends. */
  lemma ScanAllNext(seen0: set<string>, ms: seq<Message>, i: int, now: int, svc: Services, base: seq<Package>)
    requires 0 <= i < |ms|
    requires ScanAll(seen0, ms[..i], now, svc).outcome.Ok?
    ensures var a := ScanAll(seen0, ms[..i], now, svc);
      var b := ScanOne(a.seen, ms[i], now, svc);
      && ScanAll(seen0, ms[..i + 1], now, svc) == Scan(b.seen, a.pushed + b.pushed, b.outcome)
      && (base + a.pushed) + b.pushed == base + ScanAll(seen0, ms[..i + 1], now, svc).pushed
  {
    ScanAllSnoc(seen0, ms, i, now, svc);
    var a := ScanAll(seen0, ms[..i], now, svc);
    ConcatAssociates(base, a.pushed, ScanOne(a.seen, ms[i], now, svc).pushed);
  }

  lemma ConcatAssociates(x: seq<Package>, y: seq<Package>, z: seq<Package>)
    ensures (x + y) + z == x + (y + z)
  {
  }

  /** The pushed packages are new to `seen0` and to each other, and the seen set grows by exactly their numbers. */
  predicate Fresh(seen0: set<string>, sc: Scan) {
    && (forall i :: 0 <= i < |sc.pushed| ==> sc.pushed[i].trackingNumber !in seen0)
    && (forall i, j :: 0 <= i < j < |sc.pushed| ==> sc.pushed[i].trackingNumber != sc.pushed[j].trackingNumber)
    && sc.seen == seen0 + TrackingHelper.NumbersOf(sc.pushed)
  }

  lemma NumbersOfAppend(a: seq<Package>, b: seq<Package>)
    ensures TrackingHelper.NumbersOf(a + b) == TrackingHelper.NumbersOf(a) + TrackingHelper.NumbersOf(b)
  {
    var xs := a + b;
    forall n | n in TrackingHelper.NumbersOf(xs)
      ensures n in TrackingHelper.NumbersOf(a) + TrackingHelper.NumbersOf(b)
    {
      var i :| 0 <= i < |xs| && xs[i].trackingNumber == n;
      if i < |a| {
        assert xs[i] == a[i];
      } else {
        assert xs[i] == b[i - |a|];
      }
    }
    forall n | n in TrackingHelper.NumbersOf(a) + TrackingHelper.NumbersOf(b)
      ensures n in TrackingHelper.NumbersOf(xs)
    {
      if n in TrackingHelper.NumbersOf(a) {
        var i :| 0 <= i < |a| && a[i].trackingNumber == n;
        assert xs[i] == a[i];
      } else {
        var i :| 0 <= i < |b| && b[i].trackingNumber == n;
        assert xs[|a| + i] == b[i];
      }
    }
  }

  /** Freshness carries over from one stretch of the loop to the next. */
  lemma FreshChains(seen0: set<string>, a: Scan, b: Scan)
    requires Fresh(seen0, a) && Fresh(a.seen, b)
    ensures Fresh(seen0, Scan(b.seen, a.pushed + b.pushed, b.outcome))
  {
    var xs := a.pushed + b.pushed;
    NumbersOfAppend(a.pushed, b.pushed);
    forall i | 0 <= i < |xs|
      ensures xs[i].trackingNumber !in seen0
    {
      if i < |a.pushed| {
        assert xs[i] == a.pushed[i];
      } else {
        assert xs[i] == b.pushed[i - |a.pushed|];
      }
    }
    forall i, j | 0 <= i < j < |xs|
      ensures xs[i].trackingNumber != xs[j].trackingNumber
    {
      if j < |a.pushed| {
        assert xs[i] == a.pushed[i] && xs[j] == a.pushed[j];
      } else if i >= |a.pushed| {
        assert xs[i] == b.pushed[i - |a.pushed|] && xs[j] == b.pushed[j - |a.pushed|];
      } else {
        assert xs[i] == a.pushed[i] && xs[j] == b.pushed[j - |a.pushed|];
        assert xs[i].trackingNumber in a.seen;
      }
    }
  }

  /** Every package pushed for one message is fresh and dated with the message. */
  lemma {:induction false} PushAllIsFresh(seen: set<string>, o: Origin, fs: seq<Registry.Found>, now: int, lookup: (string, string) -> Result<Option<PackageInfo>>)
    ensures Fresh(seen, PushAll(seen, o, fs, now, lookup))
    ensures forall i :: 0 <= i < |PushAll(seen, o, fs, now, lookup).pushed| ==>
      PushAll(seen, o, fs, now, lookup).pushed[i].messageDate == o.messageDate && PushAll(seen, o, fs, now, lookup).pushed[i].updated == Some(now)
    decreases |fs|
  {
    if |fs| == 0 {
      assert TrackingHelper.NumbersOf([]) == {};
    } else {
      PushAllIsFresh(seen, o, fs[..|fs| - 1], now, lookup);
      var a := PushAll(seen, o, fs[..|fs| - 1], now, lookup);
      assert forall i :: 0 <= i < |a.pushed| ==> a.pushed[i].messageDate == o.messageDate;
      assert forall i :: 0 <= i < |a.pushed| ==> a.pushed[i].updated == Some(now);
      if a.outcome.Ok? {
        var b := PushStep(a.seen, fs[|fs| - 1], o, now, lookup);
        assert Fresh(a.seen, b) by {
          if |b.pushed| == 1 {
            assert TrackingHelper.NumbersOf(b.pushed) == {b.pushed[0].trackingNumber};
          } else {
            assert TrackingHelper.NumbersOf(b.pushed) == {};
          }
        }
        FreshChains(seen, a, b);
        assert PushAll(seen, o, fs, now, lookup) == Scan(b.seen, a.pushed + b.pushed, b.outcome);
        var xs := a.pushed + b.pushed;
        forall i | 0 <= i < |xs|
          ensures xs[i].messageDate == o.messageDate && xs[i].updated == Some(now)
        {
          if i < |a.pushed| {
            assert xs[i] == a.pushed[i];
          } else {
            assert xs[i] == b.pushed[0];
          }
        }
      } else {
        assert PushAll(seen, o, fs, now, lookup) == a;
      }
    }
  }

  /** One message's packages are fresh and all dated with the message. */
  lemma ScanOneIsFresh(seen: set<string>, m: Message, now: int, svc: Services)
    ensures Fresh(seen, ScanOne(seen, m, now, svc))
    ensures var ps := ScanOne(seen, m, now, svc).pushed;
      forall i :: 0 <= i < |ps| ==> ps[i].messageDate == m.internalDate
  {
    match OriginOf(m, svc.from)
    case Err(_) =>
      assert TrackingHelper.NumbersOf([]) == {};
    case Ok(o) =>
      match ServiceBody(m, svc.codecs)
      case Err(_) =>
        assert TrackingHelper.NumbersOf([]) == {};
      case Ok(body) =>
        var fs := svc.findTracking(body, ServiceFormats);
        PushAllIsFresh(seen, o, fs, now, svc.lookup);
        assert ScanOne(seen, m, now, svc) == PushAll(seen, o, fs, now, svc.lookup);
        assert o.messageDate == m.internalDate;
  }

  /**
   * Discovery never pushes a number it was given as seen, never pushes a number
   * twice, and marks exactly the numbers it pushes, whether or not it completes.
   */
  lemma {:induction false} ScanAllIsFresh(seen: set<string>, ms: seq<Message>, now: int, svc: Services)
    ensures Fresh(seen, ScanAll(seen, ms, now, svc))
    decreases |ms|
  {
    if |ms| == 0 {
      assert TrackingHelper.NumbersOf([]) == {};
    } else {
      ScanAllIsFresh(seen, ms[..|ms| - 1], now, svc);
      var a := ScanAll(seen, ms[..|ms| - 1], now, svc);
      if a.outcome.Ok? {
        ScanOneIsFresh(a.seen, ms[|ms| - 1], now, svc);
        FreshChains(seen, a, ScanOne(a.seen, ms[|ms| - 1], now, svc));
      }
    }
  }

  /**
   * The converse of PushAllIsFresh: the seen set only grows, and once the inner
   * loop completes, every number found whose lookup answers has been seen,
   * either before the loop or by being pushed.
   */
  lemma {:induction false} PushAllIsComplete(seen: set<string>, o: Origin, fs: seq<Registry.Found>, now: int, lookup: (string, string) -> Result<Option<PackageInfo>>)
    ensures seen <= PushAll(seen, o, fs, now, lookup).seen
    ensures PushAll(seen, o, fs, now, lookup).outcome.Ok? ==>
      forall f :: f in fs && lookup(f.courierCode, f.trackingNumber).Ok? && lookup(f.courierCode, f.trackingNumber).value.Some? ==>
        f.trackingNumber in PushAll(seen, o, fs, now, lookup).seen
    decreases |fs|
  {
    if |fs| > 0 {
      var front := fs[..|fs| - 1];
      PushAllIsComplete(seen, o, front, now, lookup);
      var a := PushAll(seen, o, front, now, lookup);
      if a.outcome.Ok? {
        var r := PushAll(seen, o, fs, now, lookup);
        forall f | f in fs && lookup(f.courierCode, f.trackingNumber).Ok? && lookup(f.courierCode, f.trackingNumber).value.Some? && r.outcome.Ok?
          ensures f.trackingNumber in r.seen
        {
          var k :| 0 <= k < |fs| && fs[k] == f;
          if k < |front| {
            assert front[k] == f;
          }
        }
      }
    }
  }

  /** The numbers found in message `m` whose lookup answers; none when its From header or its body throws. */
  function AnsweredNumbers(m: Message, svc: Services): set<string> {
    if OriginOf(m, svc.from).Err? || ServiceBody(m, svc.codecs).Err? then {}
    else
      set f | f in svc.findTracking(ServiceBody(m, svc.codecs).value, ServiceFormats)
                && svc.lookup(f.courierCode, f.trackingNumber).Ok? && svc.lookup(f.courierCode, f.trackingNumber).value.Some?
        :: f.trackingNumber
  }

  /** One message: once it completes, every answered number found in it has been seen. */
  lemma ScanOneIsComplete(seen: set<string>, m: Message, now: int, svc: Services)
    ensures seen <= ScanOne(seen, m, now, svc).seen
    ensures ScanOne(seen, m, now, svc).outcome.Ok? ==> AnsweredNumbers(m, svc) <= ScanOne(seen, m, now, svc).seen
  {
    match OriginOf(m, svc.from)
    case Err(_) =>
    case Ok(o) =>
      match ServiceBody(m, svc.codecs)
      case Err(_) =>
      case Ok(body) =>
        var fs := svc.findTracking(body, ServiceFormats);
        PushAllIsComplete(seen, o, fs, now, svc.lookup);
        assert ScanOne(seen, m, now, svc) == PushAll(seen, o, fs, now, svc.lookup);
  }

  /** The answered numbers of the first |ms| messages. */
  function AnsweredIn(ms: seq<Message>, svc: Services): set<string>
    decreases |ms|
  {
    if |ms| == 0 then {} else AnsweredIn(ms[..|ms| - 1], svc) + AnsweredNumbers(ms[|ms| - 1], svc)
  }

  /** The answered numbers of the messages include those of each message. */
  lemma {:induction false} AnsweredInHas(ms: seq<Message>, i: int, svc: Services)
    requires 0 <= i < |ms|
    ensures AnsweredNumbers(ms[i], svc) <= AnsweredIn(ms, svc)
    decreases |ms|
  {
    if i < |ms| - 1 {
      var front := ms[..|ms| - 1];
      AnsweredInHas(front, i, svc);
      assert front[i] == ms[i];
    }
  }

  /**
   * The converse of ScanAllIsFresh: the seen set only grows, and a completed
   * discovery has seen every answered number of every message.
   */
  lemma {:induction false} ScanAllIsComplete(seen: set<string>, ms: seq<Message>, now: int, svc: Services)
    ensures seen <= ScanAll(seen, ms, now, svc).seen
    ensures ScanAll(seen, ms, now, svc).outcome.Ok? ==> AnsweredIn(ms, svc) <= ScanAll(seen, ms, now, svc).seen
    decreases |ms|
  {
    if |ms| > 0 {
      var front := ms[..|ms| - 1];
      ScanAllIsComplete(seen, front, now, svc);
      var a := ScanAll(seen, front, now, svc);
      if a.outcome.Ok? {
        ScanOneIsComplete(a.seen, ms[|ms| - 1], now, svc);
      }
    }
  }

  /** Packages in ascending order of message date. */
  predicate DatesAscending(ps: seq<Package>) {
    forall i, j :: 0 <= i < j < |ps| ==> ps[i].messageDate <= ps[j].messageDate
  }

  /** Packages no newer than `d`, followed by packages of date `d`, are still in order. */
  lemma DatesAppend(a: seq<Package>, b: seq<Package>, d: int)
    requires DatesAscending(a) && forall i :: 0 <= i < |a| ==> a[i].messageDate <= d
    requires forall i :: 0 <= i < |b| ==> b[i].messageDate == d
    ensures DatesAscending(a + b) && forall i :: 0 <= i < |a + b| ==> (a + b)[i].messageDate <= d
  {
    var xs := a + b;
    assert forall i :: 0 <= i < |a| ==> xs[i] == a[i];
    assert forall i :: |a| <= i < |xs| ==> xs[i] == b[i - |a|];
  }

  /** Over messages oldest first, the packages are pushed oldest first, none newer than the last message. */
  lemma {:induction false} ScanAllFollowsDates(seen: set<string>, ms: seq<Message>, now: int, svc: Services)
    requires Ascending(ms)
    ensures var ps := ScanAll(seen, ms, now, svc).pushed;
      && DatesAscending(ps)
      && (forall i :: 0 <= i < |ps| ==> |ms| > 0 && ps[i].messageDate <= ms[|ms| - 1].internalDate)
    decreases |ms|
  {
    if |ms| > 0 {
      var front := ms[..|ms| - 1];
      var m := ms[|ms| - 1];
      assert Ascending(front) by {
        assert forall i :: 0 <= i < |front| ==> front[i] == ms[i];
      }
      ScanAllFollowsDates(seen, front, now, svc);
      var a := ScanAll(seen, front, now, svc);
      if |front| > 0 {
        assert front[|front| - 1] == ms[|ms| - 2];
        assert ms[|ms| - 2].internalDate <= m.internalDate;
      }
      assert forall i :: 0 <= i < |a.pushed| ==> a.pushed[i].messageDate <= m.internalDate;
      if a.outcome.Ok? {
        ScanOneIsFresh(a.seen, m, now, svc);
        DatesAppend(a.pushed, ScanOne(a.seen, m, now, svc).pushed, m.internalDate);
      }
    }
  }

  /** Once discovery stops on a prefix of the messages, the rest adds nothing. */
  lemma {:induction false} ScanAllStopsAtError(seen: set<string>, ms: seq<Message>, i: nat, now: int, svc: Services)
    requires i <= |ms|
    requires ScanAll(seen, ms[..i], now, svc).outcome.Err?
    ensures ScanAll(seen, ms, now, svc) == ScanAll(seen, ms[..i], now, svc)
    decreases |ms|
  {
    if i < |ms| {
      var front := ms[..|ms| - 1];
      assert front[..i] == ms[..i];
      ScanAllStopsAtError(seen, front, i, now, svc);
    } else {
      assert ms[..i] == ms;
    }
  }

  /** Once the inner loop stops on a prefix of the numbers, the rest adds nothing. */
  lemma {:induction false} PushAllStopsAtError(seen: set<string>, o: Origin, fs: seq<Registry.Found>, i: nat, now: int, lookup: (string, string) -> Result<Option<PackageInfo>>)
    requires i <= |fs|
    requires PushAll(seen, o, fs[..i], now, lookup).outcome.Err?
    ensures PushAll(seen, o, fs, now, lookup) == PushAll(seen, o, fs[..i], now, lookup)
    decreases |fs|
  {
    if i < |fs| {
      var front := fs[..|fs| - 1];
      assert front[..i] == fs[..i];
      PushAllStopsAtError(seen, o, front, i, now, lookup);
    } else {
      assert fs[..i] == fs;
    }
  }

  /** The listing and fetching of `findNewPackages`, retried on a stale token; None when the listing ends early. */
  function FetchedMessages(updated: Option<int>, now: int, svc: Services): Result<Option<seq<Message>>> {
    Retrying(FetchAttempt(svc.gmail, Query(updated, now), svc.pages), svc.gmail.refreshToken, (), 0, svc.retries).0
  }

  /**
   * `findNewPackages(account)` on packages `ps`: the listing and fetching, retried
   * on a stale token; then discovery, which appends to `ps`.  An early end of the
   * listing changes nothing.
   */
  function FoundNew(ps: seq<Package>, updated: Option<int>, now: int, svc: Services): (seq<Package>, Result<()>) {
    match FetchedMessages(updated, now, svc)
    case Err(x) => (ps, Err(x))
    case Ok(None) => (ps, Ok(()))
    case Ok(Some(ms)) =>
      var sc := ScanAll(TrackingHelper.NumbersOf(ps), ms, now, svc);
      (ps + sc.pushed, sc.outcome)
  }

  /**
   * Discovery keeps the stored packages as they are and appends only packages
   * whose numbers were not stored, each number once, oldest message first; and
   * once it completes, every number found in a fetched message whose lookup
   * answers is either stored already or the number of an appended package.
   */
  lemma FoundNewAppendsFreshPackages(ps: seq<Package>, updated: Option<int>, now: int, svc: Services)
    ensures var qs := FoundNew(ps, updated, now, svc).0;
      && |ps| <= |qs| && qs[..|ps|] == ps
      && (forall i :: |ps| <= i < |qs| ==> qs[i].trackingNumber !in TrackingHelper.NumbersOf(ps))
      && (forall i, j :: |ps| <= i < j < |qs| ==> qs[i].trackingNumber != qs[j].trackingNumber)
      && (forall i, j :: |ps| <= i < j < |qs| ==> qs[i].messageDate <= qs[j].messageDate)
    ensures var fetched := FetchedMessages(updated, now, svc);
      var (qs, r) := FoundNew(ps, updated, now, svc);
      fetched.Ok? && fetched.value.Some? && r.Ok? ==>
        forall i, n :: 0 <= i < |fetched.value.value| && n in AnsweredNumbers(fetched.value.value[i], svc) ==>
          || n in TrackingHelper.NumbersOf(ps)
          || exists j :: |ps| <= j < |qs| && qs[j].trackingNumber == n
  {
    var fetched := FetchedMessages(updated, now, svc);
    if fetched.Ok? && fetched.value.Some? {
      var ms := fetched.value.value;
      assert Ascending(ms) by {
        RetryingKeepsSorted(svc.gmail, Query(updated, now), svc.pages, (), 0, svc.retries);
      }
      var seen0 := TrackingHelper.NumbersOf(ps);
      ScanAllIsFresh(seen0, ms, now, svc);
      ScanAllFollowsDates(seen0, ms, now, svc);
      ScanAllIsComplete(seen0, ms, now, svc);
      var sc := ScanAll(seen0, ms, now, svc);
      var qs := ps + sc.pushed;
      assert forall i :: |ps| <= i < |qs| ==> qs[i] == sc.pushed[i - |ps|];
      if sc.outcome.Ok? {
        forall i, n | 0 <= i < |ms| && n in AnsweredNumbers(ms[i], svc) && n !in seen0
          ensures exists j :: |ps| <= j < |qs| && qs[j].trackingNumber == n
        {
          AnsweredInHas(ms, i, svc);
          assert n in TrackingHelper.NumbersOf(sc.pushed);
          var k :| 0 <= k < |sc.pushed| && sc.pushed[k].trackingNumber == n;
          assert qs[|ps| + k] == sc.pushed[k];
        }
      }
    }
  }

  /** Whatever try answers, the messages it answers with are oldest first. */
  lemma {:induction false} RetryingKeepsSorted(g: Gmail, q: string, pages: nat, s: (), k: nat, retries: nat)
    ensures var r := Retrying(FetchAttempt(g, q, pages), g.refreshToken, s, k, retries).0;
      r.Ok? && r.value.Some? ==> Ascending(r.value.value)
    decreases retries
  {
    var a := FetchAttempt(g, q, pages);
    if !(a(k, s).0 == Err(InvalidCredentials) && retries > 0) || g.refreshToken(k).Err? {
    } else {
      RetryingKeepsSorted(g, q, pages, a(k, s).1, k + 1, retries - 1);
    }
  }

  /** The sync: `getPackages(email)` with the account's packages and last sync time before and after. */
  function Synced(ps: seq<Package>, updated: Option<int>, now: int, svc: Services): (seq<Package>, Option<int>, Result<seq<Package>>) {
    if Throttled(updated, now) then (ps, updated, Ok(ps))
    else
      var (ps1, r1) := RefreshAll(ps, now, svc.lookup);
      if r1.Err? then (ps1, updated, Err(r1.error))
      else
        var (ps2, r2) := FoundNew(ps1, updated, now, svc);
        if r2.Err? then (ps2, updated, Err(r2.error)) else (ps2, Some(now), Ok(ps2))
  }

  /**
   * Within an hour of the stored sync time, whoever wrote it, nothing is synced:
   * the stored packages come back unchanged.  A sync that completes records its
   * time, so the next hour is throttled; one that fails keeps the old time.
   */
  lemma SyncIsHourly(ps: seq<Package>, updated: Option<int>, now: int, later: int, svc: Services)
    ensures Throttled(updated, now) ==> Synced(ps, updated, now, svc) == (ps, updated, Ok(ps))
    ensures !Throttled(updated, now) && Synced(ps, updated, now, svc).2.Ok? ==> Synced(ps, updated, now, svc).1 == Some(now)
    ensures Synced(ps, updated, now, svc).2.Err? ==> Synced(ps, updated, now, svc).1 == updated
    ensures var (qs, u, r) := Synced(ps, updated, now, svc);
      r.Ok? && now <= later < now + HourMs && u == Some(now) ==> Synced(qs, u, later, svc) == (qs, u, Ok(qs))
  {
  }

  /** A sync keeps every stored package in its place: the refresh writes only status, label, time and `updated`, and discovery only appends. */
  lemma SyncKeepsStoredPackages(ps: seq<Package>, updated: Option<int>, now: int, svc: Services)
    ensures var qs := Synced(ps, updated, now, svc).0;
      |ps| <= |qs| && forall i :: 0 <= i < |ps| ==>
        && qs[i].trackingNumber == ps[i].trackingNumber && qs[i].courierCode == ps[i].courierCode
        && qs[i].messageDate == ps[i].messageDate && qs[i].sender == ps[i].sender
        && (Frozen(now, ps[i]) ==> qs[i] == ps[i])
  {
    if !Throttled(updated, now) {
      RefreshAllKeepsPackages(ps, now, svc.lookup);
      var (ps1, r1) := RefreshAll(ps, now, svc.lookup);
      if r1.Ok? {
        FoundNewAppendsFreshPackages(ps1, updated, now, svc);
        var qs := FoundNew(ps1, updated, now, svc).0;
        assert forall i :: 0 <= i < |ps1| ==> qs[i] == qs[..|ps1|][i];
      }
    }
  }

  /**
   * The refresh with a lookup that always throws, as the service's `track` does
   * (it is imported from a module that does not export it): it fails with the
   * TypeError exactly when some package is not frozen.
   */
  lemma {:induction false} RefreshFailsWithThrowingLookup(ps: seq<Package>, now: int, lookup: (string, string) -> Result<Option<PackageInfo>>)
    requires forall c, n :: lookup(c, n) == Err(TypeError)
    ensures RefreshAll(ps, now, lookup).1.Err? <==> exists i :: 0 <= i < |ps| && !Frozen(now, ps[i])
    ensures RefreshAll(ps, now, lookup).1.Err? ==> RefreshAll(ps, now, lookup).1 == Err(TypeError)
    decreases |ps|
  {
    if |ps| > 0 {
      var front := ps[..|ps| - 1];
      RefreshFailsWithThrowingLookup(front, now, lookup);
      assert forall i :: 0 <= i < |front| ==> front[i] == ps[i];
      if (exists i :: 0 <= i < |ps| && !Frozen(now, ps[i])) && RefreshAll(front, now, lookup).1.Ok? {
        var i :| 0 <= i < |ps| && !Frozen(now, ps[i]);
        assert i == |ps| - 1;
      }
    }
  }

  /**
   * The service as written: with `track` undefined, a sync that is not throttled
   * throws the TypeError as soon as one stored package is not frozen.
   */
  lemma SyncFailsWithUndefinedTrack(ps: seq<Package>, updated: Option<int>, now: int, svc: Services)
    requires forall c, n :: svc.lookup(c, n) == Err(TypeError)
    requires !Throttled(updated, now)
    requires exists i :: 0 <= i < |ps| && !Frozen(now, ps[i])
    ensures Synced(ps, updated, now, svc).2 == Err(TypeError)
    ensures Synced(ps, updated, now, svc).1 == updated
  {
    RefreshFailsWithThrowingLookup(ps, now, svc.lookup);
  }

  /**
   * Discovery with a lookup that always throws pushes nothing, and fails with the
   * TypeError exactly when a number not yet seen is found.
   */
  lemma {:induction false} PushAllFailsWithThrowingLookup(seen: set<string>, o: Origin, fs: seq<Registry.Found>, now: int, lookup: (string, string) -> Result<Option<PackageInfo>>)
    requires forall c, n :: lookup(c, n) == Err(TypeError)
    ensures PushAll(seen, o, fs, now, lookup).pushed == [] && PushAll(seen, o, fs, now, lookup).seen == seen
    ensures PushAll(seen, o, fs, now, lookup).outcome.Err? <==> exists i :: 0 <= i < |fs| && fs[i].trackingNumber !in seen
    ensures PushAll(seen, o, fs, now, lookup).outcome.Err? ==> PushAll(seen, o, fs, now, lookup).outcome == Err(TypeError)
    decreases |fs|
  {
    if |fs| > 0 {
      var front := fs[..|fs| - 1];
      PushAllFailsWithThrowingLookup(seen, o, front, now, lookup);
      assert forall i :: 0 <= i < |front| ==> front[i] == fs[i];
      if (exists i :: 0 <= i < |fs| && fs[i].trackingNumber !in seen) && PushAll(seen, o, front, now, lookup).outcome.Ok? {
        var i :| 0 <= i < |fs| && fs[i].trackingNumber !in seen;
        assert i == |fs| - 1;
      }
    }
  }

  /** The service as written: with `track` undefined, no request adds a package, and a well-formed new number throws the TypeError. */
  lemma AddFailsWithUndefinedTrack(ps: seq<Package>, updated: Option<int>, req: AddRequest, now: int, lookup: (string, string) -> Result<Option<PackageInfo>>)
    requires forall c, n :: lookup(c, n) == Err(TypeError)
    ensures Added(ps, updated, req, now, lookup).2.Err?
    ensures Truthy(req.courierCode) && Truthy(req.trackingNumber) && Truthy(req.sender) && req.trackingNumber.value !in TrackingHelper.NumbersOf(ps) ==>
      Added(ps, updated, req, now, lookup) == (ps, updated, Err(TypeError))
  {
  }

  /* ---------------- addPackage and deletePackages ---------------- */

  const MalformedRequest: string := "Malformed request"
  const AlreadyExists: string := "Tracking number already exists"
  const InvalidTrackingNumber: string := "Invalid tracking number"

  /** The body of an add request. */
  datatype AddRequest = AddRequest(courierCode: Option<string>, trackingNumber: Option<string>, sender: Option<string>, senderUrl: Option<string>)

  /**
   * `addPackage(email, body)` on packages `ps` and sync time `updated`: the packages,
   * the sync time and the answer after it.
   */
  function Added(ps: seq<Package>, updated: Option<int>, req: AddRequest, now: int, lookup: (string, string) -> Result<Option<PackageInfo>>): (r: (seq<Package>, Option<int>, Result<Package>))
    ensures !(Truthy(req.courierCode) && Truthy(req.trackingNumber) && Truthy(req.sender)) ==> r == (ps, updated, Err(MalformedRequest))
    ensures Truthy(req.courierCode) && Truthy(req.trackingNumber) && Truthy(req.sender) && req.trackingNumber.value in TrackingHelper.NumbersOf(ps) ==>
      r == ([], updated, Err(AlreadyExists))
    ensures r.2.Err? ==> r.1 == updated && (r.0 == ps || r.0 == [])
    ensures r.2.Ok? <==>
      && Truthy(req.courierCode) && Truthy(req.trackingNumber) && Truthy(req.sender)
      && req.trackingNumber.value !in TrackingHelper.NumbersOf(ps)
      && lookup(req.courierCode.value, req.trackingNumber.value).Ok? && lookup(req.courierCode.value, req.trackingNumber.value).value.Some?
    ensures r.2.Ok? ==>
      && r.0 == ps + [r.2.value] && r.1 == Some(now)
      && r.2.value.trackingNumber == req.trackingNumber.value && r.2.value.courierCode == req.courierCode.value
      && r.2.value.sender == req.sender.value && r.2.value.senderUrl == req.senderUrl
      && r.2.value.messageDate == now && r.2.value.updated == Some(now) && r.2.value.messageId.None?
      && var info := lookup(req.courierCode.value, req.trackingNumber.value).value.value;
         && r.2.value.status == Some(Code(info.status))
         && r.2.value.statusLabel == info.statusLabel && r.2.value.deliveryTime == info.deliveryTime
         && r.2.value.deliveryDate.None?
    ensures
      (&& Truthy(req.courierCode) && Truthy(req.trackingNumber) && Truthy(req.sender)
       && req.trackingNumber.value !in TrackingHelper.NumbersOf(ps) && lookup(req.courierCode.value, req.trackingNumber.value) == Ok(None))
      ==> r == (ps, updated, Err(InvalidTrackingNumber))
  {
    if !(Truthy(req.courierCode) && Truthy(req.trackingNumber) && Truthy(req.sender)) then (ps, updated, Err(MalformedRequest))
    else if req.trackingNumber.value in TrackingHelper.NumbersOf(ps) then ([], updated, Err(AlreadyExists))
    else
      match lookup(req.courierCode.value, req.trackingNumber.value)
      case Err(x) => (ps, updated, Err(x))
      case Ok(None) => (ps, updated, Err(InvalidTrackingNumber))
      case Ok(Some(info)) =>
        var p := Package(req.trackingNumber.value, req.courierCode.value, Some(Code(info.status)), info.statusLabel, info.deliveryTime, None,
                         None, now, req.sender.value, req.senderUrl, Some(now));
        (ps + [p], Some(now), Ok(p))
  }

  /** `account.packages.filter(p => !selected.has(p.trackingNumber))` */
  function Kept(ps: seq<Package>, selected: set<string>): (r: seq<Package>)
    ensures |r| <= |ps|
    ensures forall p :: p in r <==> p in ps && p.trackingNumber !in selected
  {
    if |ps| == 0 then []
    else if ps[0].trackingNumber in selected then Kept(ps[1..], selected)
    else [ps[0]] + Kept(ps[1..], selected)
  }

  /** The filter works element by element, so it keeps the original order: it distributes over concatenation. */
  lemma {:induction false} KeptDistributes(a: seq<Package>, b: seq<Package>, selected: set<string>)
    ensures Kept(a + b, selected) == Kept(a, selected) + Kept(b, selected)
    decreases |a|
  {
    if |a| > 0 {
      assert (a + b)[0] == a[0] && (a + b)[1..] == a[1..] + b;
      KeptDistributes(a[1..], b, selected);
      if a[0].trackingNumber !in selected {
        ConcatAssociates([a[0]], Kept(a[1..], selected), Kept(b, selected));
      }
    } else {
      assert a + b == b;
    }
  }

  /** Deleting nothing keeps everything; deleting a number leaves no package with it. */
  lemma KeptBounds(ps: seq<Package>, selected: set<string>)
    ensures selected == {} ==> Kept(ps, selected) == ps
    ensures forall i :: 0 <= i < |Kept(ps, selected)| ==> Kept(ps, selected)[i].trackingNumber !in selected
  {
    if selected == {} {
      KeptNothingSelected(ps);
    }
  }

  lemma {:induction false} KeptNothingSelected(ps: seq<Package>)
    ensures Kept(ps, {}) == ps
    decreases |ps|
  {
    if |ps| > 0 {
      KeptNothingSelected(ps[1..]);
      assert ps == [ps[0]] + ps[1..];
    }
  }

  /* ---------------- the account ---------------- */

  /** An account's stored packages and the time of its last completed sync. */
  class Account {
    var packages: seq<Package>
    var updated: Option<int>

    constructor(packages: seq<Package>, updated: Option<int>)
      ensures this.packages == packages && this.updated == updated
    {
      this.packages := packages;
      this.updated := updated;
    }

    /** `updateExistingPackages(account.packages)`: each package refreshed in place. */
    method UpdateExistingPackages(now: int, lookup: (string, string) -> Result<Option<PackageInfo>>) returns (r: Result<()>)
      modifies this
      ensures (packages, r) == RefreshAll(old(packages), now, lookup)
      ensures updated == old(updated)
    {
      ghost var ps := packages;
      var i := 0;
      while i < |packages|
        invariant |packages| == |ps| && 0 <= i <= |ps|
        invariant packages[i..] == ps[i..]
        invariant RefreshAll(ps[..i], now, lookup) == (packages[..i], Ok(()))
        invariant updated == old(updated)
      {
        assert packages[i] == ps[i];
        ghost var before := packages;
        r := RefreshAt(i, now, lookup);
        RefreshAllNext(ps, before, i, now, lookup);
        if r.Err? {
          return;
        }
        i := i + 1;
      }
      assert packages[..i] == packages && ps[..i] == ps;
      r := Ok(());
    }

    /** One turn of the loop: `packages[i]` refreshed in place, the others unchanged. */
    method RefreshAt(i: int, now: int, lookup: (string, string) -> Result<Option<PackageInfo>>) returns (r: Result<()>)
      requires 0 <= i < |packages|
      modifies this
      ensures packages == old(packages)[i := RefreshStep(old(packages)[i], now, lookup).0]
      ensures r == RefreshStep(old(packages)[i], now, lookup).1
      ensures updated == old(updated)
    {
      var p := packages[i];
      if Frozen(now, p) {
        return Ok(());
      }
      var info := lookup(p.courierCode, p.trackingNumber);
      if info.Err? {
        return Err(info.error);
      }
      packages := packages[i := p.(updated := Some(now))];
      if info.value.None? {
        return Err(TypeError);
      }
      var n := info.value.value;
      var q := packages[i];
      if q.status != Some(Code(n.status)) || q.statusLabel != n.statusLabel || q.deliveryTime != n.deliveryTime {
        packages := packages[i := q.(status := Some(Code(n.status)), statusLabel := n.statusLabel, deliveryTime := n.deliveryTime)];
      }
      r := Ok(());
    }

    /** The service's `getPlainBody(message)`: the `while (true)` descent, then the pick. */
    static method GetPlainBody(m: Message, c: TextCodecs) returns (r: Result<string>)
      ensures r == ServiceBody(m, c)
    {
      var part := m.payload;
      if part.Container? {
        var parts := part.parts;
        while true
          invariant Deepest(parts) == Deepest(part.parts)
          decreases SeqHeight(parts)
        {
          var nested := FirstContainer(parts);
          if nested.None? {
            break;
          }
          DescentLowersHeight(parts, nested.value);
          parts := parts[nested.value].parts;
        }
        var found := FindMime(parts, TextPlain);
        if found.None? {
          found := FindMime(parts, TextHtml);
        }
        if found.None? {
          return Ok("");
        }
        part := parts[found.value];
      }
      var isHtml := part.mimeType == Some(TextHtml);
      if !isHtml && part.mimeType != Some(TextPlain) {
        return Ok("");
      }
      if part.data.None? {
        return Err(TypeError);
      }
      var body := c.decode(part.data.value);
      if isHtml {
        body := c.textVersion(body);
      }
      body := c.stripLinks(body);
      r := Ok(body);
    }

    /** The inner loop of `findNewPackages`: the numbers found in one message. */
    method PushNumbers(seen0: set<string>, o: Origin, fs: seq<Registry.Found>, now: int, lookup: (string, string) -> Result<Option<PackageInfo>>)
      returns (seen: set<string>, r: Result<()>)
      modifies this
      ensures var sc := PushAll(seen0, o, fs, now, lookup); packages == old(packages) + sc.pushed && seen == sc.seen && r == sc.outcome
      ensures updated == old(updated)
    {
      seen := seen0;
      var i := 0;
      while i < |fs|
        invariant 0 <= i <= |fs|
        invariant var sc := PushAll(seen0, o, fs[..i], now, lookup); packages == old(packages) + sc.pushed && seen == sc.seen && sc.outcome.Ok?
        invariant updated == old(updated)
      {
        assert fs[..i + 1][..i] == fs[..i];
        var f := fs[i];
        if f.trackingNumber !in seen {
          var info := lookup(f.courierCode, f.trackingNumber);
          if info.Err? {
            PushAllStopsAtError(seen0, o, fs, i + 1, now, lookup);
            return seen, Err(info.error);
          }
          if info.value.Some? {
            seen := seen + {f.trackingNumber};
            packages := packages + [NewPackage(info.value.value, f, o, now)];
          }
        }
        i := i + 1;
      }
      assert fs[..i] == fs;
      assert PushAll(seen0, o, fs, now, lookup).outcome == Ok(()) by {
        match PushAll(seen0, o, fs, now, lookup).outcome
        case Ok(()) =>
      }
      r := Ok(());
    }

    /** One turn of the outer loop of `findNewPackages`: one message. */
    method ScanMessage(seen0: set<string>, m: Message, now: int, svc: Services) returns (seen: set<string>, r: Result<()>)
      modifies this
      ensures var sc := ScanOne(seen0, m, now, svc); packages == old(packages) + sc.pushed && seen == sc.seen && r == sc.outcome
      ensures updated == old(updated)
    {
      var from := FromHeader(m.headers);
      if from.None? {
        assert packages == old(packages) + [];
        return seen0, Err(TypeError);
      }
      var senderUrl := SenderUrlOf(from.value, svc.from);
      var sender := SenderOf(from.value, svc.from);
      var o := Origin(m.id, m.internalDate, sender, senderUrl);
      var body := GetPlainBody(m, svc.codecs);
      if body.Err? {
        assert packages == old(packages) + [];
        return seen0, Err(body.error);
      }
      seen, r := PushNumbers(seen0, o, svc.findTracking(body.value, ServiceFormats), now, svc.lookup);
    }

    /** The outer loop of `findNewPackages`: the messages, oldest first. */
    method ScanMessages(ms: seq<Message>, seen0: set<string>, now: int, svc: Services) returns (r: Result<()>)
      modifies this
      ensures var sc := ScanAll(seen0, ms, now, svc); packages == old(packages) + sc.pushed && r == sc.outcome
      ensures updated == old(updated)
    {
      var seen := seen0;
      var i := 0;
      while i < |ms|
        invariant 0 <= i <= |ms|
        invariant var sc := ScanAll(seen0, ms[..i], now, svc); packages == old(packages) + sc.pushed && seen == sc.seen && sc.outcome.Ok?
        invariant updated == old(updated)
      {
        ghost var a := ScanAll(seen0, ms[..i], now, svc);
        ghost var before := packages;
        var outcome;
        seen, outcome := ScanMessage(seen, ms[i], now, svc);
        ScanAllNext(seen0, ms, i, now, svc, old(packages));
        if outcome.Err? {
          ScanAllStopsAtError(seen0, ms, i + 1, now, svc);
          return outcome;
        }
        i := i + 1;
      }
      assert ms[..i] == ms;
      assert ScanAll(seen0, ms, now, svc).outcome == Ok(()) by {
        match ScanAll(seen0, ms, now, svc).outcome
        case Ok(()) =>
      }
      r := Ok(());
    }

    /** The listing of one try: the do/while over the pages, ending the search on a page without messages. */
    static method ListMessageIds(g: Gmail, k: nat, q: string, pages: nat) returns (r: Result<Option<seq<string>>>)
      ensures r == Listing(g, k, q, None, pages)
    {
      var messages: seq<string> := [];
      var pageToken: Option<string> := None;
      var left := pages;
      assert PrependPage([], Listing(g, k, q, None, pages)) == Listing(g, k, q, None, pages) by {
        match Listing(g, k, q, None, pages)
        case Ok(Some(xs)) => assert [] + xs == xs;
        case _ =>
      }
      while left > 0
        invariant Listing(g, k, q, None, pages) == PrependPage(messages, Listing(g, k, q, pageToken, left))
        decreases left
      {
        var data := g.list(k, q, pageToken);
        if data.Err? {
          return Err(data.error);
        }
        if data.value.messages.None? {
          return Ok(None);
        }
        var here := data.value.messages.value;
        if !Truthy(data.value.nextPageToken) {
          return Ok(Some(messages + here));
        }
        pageToken := data.value.nextPageToken;
        left := left - 1;
        if Listing(g, k, q, pageToken, left).Ok? && Listing(g, k, q, pageToken, left).value.Some? {
          var rest := Listing(g, k, q, pageToken, left).value.value;
          assert messages + (here + rest) == (messages + here) + rest;
        }
        messages := messages + here;
      }
      assert messages + [] == messages;
      r := Ok(Some(messages));
    }

    /** The `try` block of one try: list, fetch, sort. */
    static method FetchMessages(g: Gmail, k: nat, q: string, pages: nat) returns (r: Result<Option<seq<Message>>>)
      ensures r == FetchPhase(g, k, q, pages)
    {
      var ids := ListMessageIds(g, k, q, pages);
      if ids.Err? {
        return Err(ids.error);
      }
      if ids.value.None? {
        return Ok(None);
      }
      var ms := TrackingHelper.GetMessages(ids.value.value, k, g);
      if ms.Err? {
        return Err(ms.error);
      }
      r := Ok(Some(ms.value));
    }

    /** `findNewPackages(account)`: the retried list-and-fetch, then discovery. */
    method FindNewPackages(now: int, svc: Services) returns (r: Result<()>)
      modifies this
      ensures (packages, r) == FoundNew(old(packages), old(updated), now, svc)
      ensures updated == old(updated)
    {
      var q := Query(updated, now);
      var existingNumbers := TrackingHelper.NumbersOf(packages);
      var attempt := FetchAttempt(svc.gmail, q, svc.pages);
      var k := 0;
      var left := svc.retries;
      var fetched: Result<Option<seq<Message>>>;
      while true
        invariant Retrying(attempt, svc.gmail.refreshToken, (), 0, svc.retries) == Retrying(attempt, svc.gmail.refreshToken, (), k, left)
        invariant packages == old(packages) && updated == old(updated)
        decreases left
      {
        fetched := FetchMessages(svc.gmail, k, q, svc.pages);
        assert (fetched, ()) == attempt(k, ());
        if !(fetched == Err(InvalidCredentials) && left > 0) {
          break;
        }
        var refreshed := svc.gmail.refreshToken(k);
        if refreshed.Err? {
          fetched := Err(refreshed.error);
          break;
        }
        k := k + 1;
        left := left - 1;
      }
      assert fetched == Retrying(attempt, svc.gmail.refreshToken, (), 0, svc.retries).0;
      if fetched.Err? {
        return Err(fetched.error);
      }
      if fetched.value.None? {
        return Ok(());
      }
      r := ScanMessages(fetched.value.value, existingNumbers, now, svc);
    }

    /** `getPackages(email)`: at most one sync an hour; a sync refreshes, discovers, then records its time. */
    method GetPackages(now: int, svc: Services) returns (r: Result<seq<Package>>)
      modifies this
      ensures (packages, updated, r) == Synced(old(packages), old(updated), now, svc)
    {
      if updated.Some? && now - updated.value < HourMs {
        return Ok(packages);
      }
      var u := UpdateExistingPackages(now, svc.lookup);
      if u.Err? {
        return Err(u.error);
      }
      var f := FindNewPackages(now, svc);
      if f.Err? {
        return Err(f.error);
      }
      updated := Some(now);
      r := Ok(packages);
    }

    /** `addPackage(email, body)` */
    method AddPackage(req: AddRequest, now: int, lookup: (string, string) -> Result<Option<PackageInfo>>) returns (r: Result<Package>)
      modifies this
      ensures (packages, updated, r) == Added(old(packages), old(updated), req, now, lookup)
    {
      if !Truthy(req.courierCode) || !Truthy(req.trackingNumber) || !Truthy(req.sender) {
        return Err(MalformedRequest);
      }
      var trackingNumber := req.trackingNumber.value;
      var i := 0;
      while i < |packages|
        invariant 0 <= i <= |packages|
        invariant forall j :: 0 <= j < i ==> packages[j].trackingNumber != trackingNumber
      {
        if packages[i].trackingNumber == trackingNumber {
          packages := [];
          return Err(AlreadyExists);
        }
        i := i + 1;
      }
      var info := lookup(req.courierCode.value, trackingNumber);
      if info.Err? {
        return Err(info.error);
      }
      if info.value.None? {
        return Err(InvalidTrackingNumber);
      }
      var n := info.value.value;
      var p := Package(trackingNumber, req.courierCode.value, Some(Code(n.status)), n.statusLabel, n.deliveryTime, None,
                       None, now, req.sender.value, req.senderUrl, Some(now));
      packages := packages + [p];
      updated := Some(now);
      r := Ok(p);
    }

    /** `deletePackages(email, body)`: drops the selected numbers and records the time. */
    method DeletePackages(body: Option<seq<string>>, now: int) returns (r: Result<()>)
      modifies this
      ensures body.None? ==> r == Err(MalformedRequest) && packages == old(packages) && updated == old(updated)
      ensures body.Some? ==> r == Ok(()) && packages == Kept(old(packages), set x | x in body.value) && updated == Some(now)
    {
      if body.None? {
        return Err(MalformedRequest);
      }
      var selected := set x | x in body.value;
      packages := Kept(packages, selected);
      updated := Some(now);
      r := Ok(());
    }
  }
}
