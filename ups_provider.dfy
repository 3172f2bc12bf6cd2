/**
 * The UPS adapter: a GET of the tracking-details endpoint with the access licence
 * number in a header, and the parse of the JSON reply.
 */
module UpsProvider {
  import opened Common
  import opened Status
  import opened Info
  import opened Provider

  /** The reply, as far as `parse` reads it.  None stands for a missing property. */
  datatype UpsStatus = UpsStatus(statusType: Option<string>, description: Option<string>)
  datatype Activity = Activity(status: Option<UpsStatus>)
  datatype DeliveryDate = DeliveryDate(date: Option<string>)
  datatype DeliveryTime = DeliveryTime(endTime: Option<string>)
  datatype Package = Package(activity: Option<seq<Activity>>, deliveryDate: Option<seq<DeliveryDate>>, deliveryTime: Option<DeliveryTime>)
  /** `warnings` is the truthiness of the shipment's warnings property. */
  datatype Shipment = Shipment(warnings: bool, package: Option<seq<Package>>)
  datatype TrackResponse = TrackResponse(shipment: Option<seq<Shipment>>)
  /** `errors` is the truthiness of the reply's errors property. */
  datatype Reply = Reply(errors: bool, trackResponse: Option<TrackResponse>)

  /** The substring of a label that turns an EXCEPTION into a DELIVERY_ATTEMPTED. */
  const DeliveryAttempt: string := "DELIVERY ATTEMPT"

  const DateFormat: string := "yyyyMMdd"
  const TimeFormat: string := "Hmmss"

  /**
   * The guards of `parse`: Ok(None) when the reply reports errors, or its first
   * shipment reports warnings or has no package; Ok(Some(p)) with the first
   * package otherwise; Err when a property on the way is read from `undefined`.
   */
  function Select(reply: Reply): (r: Result<Option<Package>>)
    ensures reply.errors ==> r == Ok(None)
    ensures r == Ok(None) <==>
      || reply.errors
      || (&& reply.trackResponse.Some? && reply.trackResponse.value.shipment.Some?
          && |reply.trackResponse.value.shipment.value| > 0
          && (reply.trackResponse.value.shipment.value[0].warnings || reply.trackResponse.value.shipment.value[0].package.None?))
    ensures r.Err? <==>
      && !reply.errors
      && (|| reply.trackResponse.None? || reply.trackResponse.value.shipment.None?
          || |reply.trackResponse.value.shipment.value| == 0
          || (!reply.trackResponse.value.shipment.value[0].warnings && reply.trackResponse.value.shipment.value[0].package == Some([])))
    ensures r.Ok? && r.value.Some? ==>
      && reply.trackResponse.Some? && reply.trackResponse.value.shipment.Some?
      && |reply.trackResponse.value.shipment.value| > 0
      && var s := reply.trackResponse.value.shipment.value[0];
         !s.warnings && s.package.Some? && |s.package.value| > 0 && r.value.value == s.package.value[0]
  {
    if reply.errors then Ok(None)
    else
      match reply.trackResponse
      case None => Err(TypeError)
      case Some(tr) =>
        match tr.shipment
        case None => Err(TypeError)
        case Some(ss) =>
          if |ss| == 0 then Err(TypeError)
          else if ss[0].warnings then Ok(None)
          else
            match ss[0].package
            case None => Ok(None)
            case Some(ps) => if |ps| == 0 then Err(TypeError) else Ok(Some(ps[0]))
  }

  /** `date`: the first delivery date's `date`, or `undefined` without a deliveryDate array. */
  function Date(p: Package): Result<Option<string>> {
    match p.deliveryDate
    case None => Ok(None)
    case Some(ds) => if |ds| == 0 then Err(TypeError) else Ok(ds[0].date)
  }

  /** `time`: the delivery time's `endTime`, or `undefined` without a deliveryTime object. */
  function Time(p: Package): Option<string> {
    if p.deliveryTime.Some? then p.deliveryTime.value.endTime else None
  }

  /**
   * The delivery time: date-fns `parse` of the date and the time written one after
   * the other, with the format of each part that is there, or `undefined` when
   * neither is there.  `parseDate(text, format)` stands for `parse(...).getTime()`
   * with the current time as reference.
   */
  function DeliveryTimeOf(date: Option<string>, time: Option<string>, parseDate: (string, string) -> int): Option<int> {
    if Truthy(date) || Truthy(time) then
      Some(parseDate(date.GetOr("") + time.GetOr(""),
                     (if Truthy(date) then DateFormat else "") + (if Truthy(time) then TimeFormat else "")))
    else None
  }

  /** The three ways the date and the time reach date-fns, and the one that skips it. */
  lemma ParseArguments(date: Option<string>, time: Option<string>, parseDate: (string, string) -> int)
    ensures Truthy(date) && Truthy(time) ==>
      DeliveryTimeOf(date, time, parseDate) == Some(parseDate(date.value + time.value, "yyyyMMddHmmss"))
    ensures Truthy(date) && !Truthy(time) ==>
      DeliveryTimeOf(date, time, parseDate) == Some(parseDate(date.value, "yyyyMMdd"))
    ensures !Truthy(date) && Truthy(time) ==>
      DeliveryTimeOf(date, time, parseDate) == Some(parseDate(time.value, "Hmmss"))
    ensures !Truthy(date) && !Truthy(time) ==> DeliveryTimeOf(date, time, parseDate).None?
  {
    assert DateFormat + TimeFormat == "yyyyMMddHmmss";
    assert DateFormat + "" == DateFormat;
    assert "" + TimeFormat == TimeFormat;
    if Truthy(date) && !Truthy(time) {
      assert date.value + time.GetOr("") == date.value;
    }
    if !Truthy(date) && Truthy(time) {
      assert date.GetOr("") + time.value == time.value;
    }
  }

  /**
   * The status: the table's answer for the last activity's type, except that an
   * EXCEPTION whose label mentions a delivery attempt is DELIVERY_ATTEMPTED.
   * Err when that test reads `includes` of a missing label.
   */
  function StatusOf(code: Option<PackageStatus>, statusLabel: Option<string>): (r: Result<Option<PackageStatus>>)
    ensures r.Err? <==> code == Some(Exception) && statusLabel.None?
    ensures r == Ok(Some(DeliveryAttempted)) <==>
      code == Some(DeliveryAttempted) || (code == Some(Exception) && statusLabel.Some? && Contains(statusLabel.value, DeliveryAttempt))
    ensures r.Ok? && r.value != Some(DeliveryAttempted) ==> r.value == code
  {
    if code == Some(Exception) then
      match statusLabel
      case None => Err(TypeError)
      case Some(l) => if Contains(l, DeliveryAttempt) then Ok(Some(DeliveryAttempted)) else Ok(code)
    else Ok(code)
  }

  /** The rest of `parse`, on the selected package. */
  function FromPackage(p: Package, codes: string -> Option<PackageStatus>, parseDate: (string, string) -> int): (r: Result<PackageInfo>)
    ensures r.Ok? ==>
      && p.activity.Some? && |p.activity.value| > 0 && p.activity.value[0].status.Some?
      && var st := p.activity.value[0].status.value;
         && r.value.statusLabel == st.description
         && StatusOf(TableLookup(codes, st.statusType), st.description).Ok?
         && r.value.status == StatusOf(TableLookup(codes, st.statusType), st.description).value.GetOr(Unavailable)
    ensures r.Ok? ==> Date(p).Ok? && r.value.deliveryTime == DeliveryTimeOf(Date(p).value, Time(p), parseDate)
    ensures r.Err? <==>
      || p.activity.None? || Date(p).Err? || |p.activity.value| == 0 || p.activity.value[0].status.None?
      || StatusOf(TableLookup(codes, p.activity.value[0].status.value.statusType), p.activity.value[0].status.value.description).Err?
  {
    match p.activity
    case None => Err(TypeError)
    case Some(acts) =>
      match Date(p)
      case Err(e) => Err(e)
      case Ok(date) =>
        if |acts| == 0 then Err(TypeError)
        else
          match acts[0].status
          case None => Err(TypeError)
          case Some(st) =>
            match StatusOf(TableLookup(codes, st.statusType), st.description)
            case Err(e) => Err(e)
            case Ok(status) => Ok(NewPackageInfo(status, st.description, DeliveryTimeOf(date, Time(p), parseDate)))
  }

  /**
   * `parse(response)`.  `codes` is the UPS status table, `parseDate` the date-fns
   * parse described at DeliveryTimeOf.
   */
  function Parse(reply: Reply, codes: string -> Option<PackageStatus>, parseDate: (string, string) -> int): (r: Result<PackageInfo>)
    ensures reply.errors ==> r == Ok(Default())
    ensures Select(reply) == Ok(None) ==> r == Ok(Default())
    ensures Select(reply).Err? ==> r.Err?
    ensures Select(reply).Ok? && Select(reply).value.Some? ==> r == FromPackage(Select(reply).value.value, codes, parseDate)
  {
    match Select(reply)
    case Err(e) => Err(e)
    case Ok(None) => Ok(Default())
    case Ok(Some(p)) => FromPackage(p, codes, parseDate)
  }

  /** A first shipment with warnings, or without a package array, is answered UNAVAILABLE and nothing is parsed. */
  lemma WarningsOrNoPackageIsDefault(reply: Reply, codes: string -> Option<PackageStatus>, parseDate: (string, string) -> int)
    requires reply.trackResponse.Some? && reply.trackResponse.value.shipment.Some?
    requires |reply.trackResponse.value.shipment.value| > 0
    requires reply.trackResponse.value.shipment.value[0].warnings || reply.trackResponse.value.shipment.value[0].package.None?
    ensures Parse(reply, codes, parseDate) == Ok(Default())
  {
  }

  /** A reply without errors throws when it has no shipment, or when its first shipment's package array is empty. */
  lemma MissingShipmentOrEmptyPackageThrows(reply: Reply, codes: string -> Option<PackageStatus>, parseDate: (string, string) -> int)
    requires !reply.errors
    requires || reply.trackResponse.None? || reply.trackResponse.value.shipment.None?
             || |reply.trackResponse.value.shipment.value| == 0
             || (!reply.trackResponse.value.shipment.value[0].warnings && reply.trackResponse.value.shipment.value[0].package == Some([]))
    ensures Parse(reply, codes, parseDate).Err?
  {
  }

  /** An EXCEPTION whose label mentions a delivery attempt is reported as DELIVERY_ATTEMPTED. */
  lemma DeliveryAttemptOverridesException(p: Package, st: UpsStatus, codes: string -> Option<PackageStatus>, parseDate: (string, string) -> int)
    requires p.activity.Some? && |p.activity.value| > 0 && p.activity.value[0].status == Some(st)
    requires Date(p).Ok?
    requires TableLookup(codes, st.statusType) == Some(Exception)
    requires st.description.Some? && Contains(st.description.value, DeliveryAttempt)
    ensures FromPackage(p, codes, parseDate).Ok?
    ensures FromPackage(p, codes, parseDate).value.status == DeliveryAttempted
  {
  }

  /** An EXCEPTION without a label throws before any answer is formed. */
  lemma ExceptionWithoutLabelThrows(p: Package, st: UpsStatus, codes: string -> Option<PackageStatus>, parseDate: (string, string) -> int)
    requires p.activity.Some? && |p.activity.value| > 0 && p.activity.value[0].status == Some(st)
    requires TableLookup(codes, st.statusType) == Some(Exception) && st.description.None?
    ensures FromPackage(p, codes, parseDate).Err?
  {
  }

  /** A type the table lacks leaves the status at UNAVAILABLE, label and time still reported. */
  lemma UnmappedTypeIsUnavailable(p: Package, st: UpsStatus, codes: string -> Option<PackageStatus>, parseDate: (string, string) -> int)
    requires p.activity.Some? && |p.activity.value| > 0 && p.activity.value[0].status == Some(st)
    requires Date(p).Ok?
    requires TableLookup(codes, st.statusType).None?
    ensures FromPackage(p, codes, parseDate)
         == Ok(PackageInfo(Unavailable, st.description, DeliveryTimeOf(Date(p).value, Time(p), parseDate)))
  {
  }

  /**
   * A type the table maps to a status other than EXCEPTION is reported as that
   * status, with the activity's label and the parsed delivery time, whatever the label says.
   */
  lemma MappedTypeIsReported(p: Package, st: UpsStatus, s: PackageStatus, codes: string -> Option<PackageStatus>, parseDate: (string, string) -> int)
    requires p.activity.Some? && |p.activity.value| > 0 && p.activity.value[0].status == Some(st)
    requires Date(p).Ok?
    requires TableLookup(codes, st.statusType) == Some(s) && s != Exception
    ensures FromPackage(p, codes, parseDate)
         == Ok(PackageInfo(s, st.description, DeliveryTimeOf(Date(p).value, Time(p), parseDate)))
  {
  }

  /**
   * The whole parse of a reply whose first package's last activity is DELIVERED:
   * a DELIVERED answer with that activity's label and the parsed delivery time.
   */
  lemma DeliveredReplyParsesDelivered(reply: Reply, p: Package, st: UpsStatus, codes: string -> Option<PackageStatus>, parseDate: (string, string) -> int)
    requires !reply.errors && reply.trackResponse.Some? && reply.trackResponse.value.shipment.Some?
    requires |reply.trackResponse.value.shipment.value| > 0
    requires !reply.trackResponse.value.shipment.value[0].warnings
    requires reply.trackResponse.value.shipment.value[0].package.Some?
    requires |reply.trackResponse.value.shipment.value[0].package.value| > 0
    requires reply.trackResponse.value.shipment.value[0].package.value[0] == p
    requires p.activity.Some? && |p.activity.value| > 0 && p.activity.value[0].status == Some(st)
    requires Date(p).Ok?
    requires TableLookup(codes, st.statusType) == Some(Delivered)
    ensures Parse(reply, codes, parseDate)
         == Ok(PackageInfo(Delivered, st.description, DeliveryTimeOf(Date(p).value, Time(p), parseDate)))
  {
    assert Select(reply) == Ok(Some(p));
    MappedTypeIsReported(p, st, Delivered, codes, parseDate);
  }

  const UrlPrefix: string := "https://onlinetools.ups.com/track/v1/details/"

  /** `getUrl(trackingNumber)`: the tracking number appended to the details endpoint. */
  function Url(trackingNumber: string): (r: string)
    ensures |r| == |UrlPrefix| + |trackingNumber|
    ensures r[..|UrlPrefix|] == UrlPrefix && r[|UrlPrefix|..] == trackingNumber
  {
    UrlPrefix + trackingNumber
  }

  /** The URL gives its tracking number back, so two numbers never share a URL. */
  lemma UrlDeterminesNumber(n: string, m: string)
    requires Url(n) == Url(m)
    ensures n == m
  {
    assert n == Url(n)[|UrlPrefix|..];
  }

  /** `getUrl`, `getOptions`: a GET with the licence number and an Accept of JSON. */
  function RequestFor(accessLicenseNumber: string, trackingNumber: string): (r: Request)
    ensures r.url == Url(trackingNumber) && r.verb == Get && r.body.None?
    ensures r.headers == [("AccessLicenseNumber", accessLicenseNumber), ("Accept", "application/json")]
  {
    Request(Url(trackingNumber), Get, [("AccessLicenseNumber", accessLicenseNumber), ("Accept", "application/json")], None)
  }

  /** `getResponseType` */
  const Kind: ResponseType := Json

  /** `track(trackingNumber)` on a UPS adapter, `got` answering `fetch`. */
  function Track(accessLicenseNumber: string, trackingNumber: string, fetch: Request -> Response, dec: Decoders<Reply>,
                 codes: string -> Option<PackageStatus>, parseDate: (string, string) -> int): Result<PackageInfo> {
    Provider.Track(fetch(RequestFor(accessLicenseNumber, trackingNumber)), Kind, dec, d => Parse(d, codes, parseDate))
  }
}
