/**
 * The USPS adapter: the TrackV2 request XML carried in the URL, and the parse of
 * the XML reply.
 */
module UspsProvider {
  import opened Common
  import opened Status
  import opened Info
  import opened Provider

  /** The reply, as far as `parse` reads it.  None stands for a missing element. */
  datatype TrackError = TrackError(number: Option<string>)
  datatype Event = Event(eventCode: Option<string>, event: Option<string>, eventDate: Option<string>, eventTime: Option<string>)
  datatype TrackInfo = TrackInfo(error: Option<TrackError>, trackSummary: Option<Event>, trackDetail: seq<Event>, expectedDeliveryDate: Option<string>)
  datatype TrackResponse = TrackResponse(trackInfo: Option<TrackInfo>)
  /** `error` is the presence of a top-level Error element. */
  datatype Reply = Reply(error: bool, trackResponse: Option<TrackResponse>)

  /** The error number USPS gives for a label whose package it has not yet seen. */
  const LabelOnlyNumber: string := "-2147219283"

  /** Milliseconds added to an expected delivery date, which has no time of day: 21 hours, 9 pm. */
  const NinePm: int := (12 + 9) * 60 * 60 * 1000

  /** `error`: the TrackInfo's Error when both TrackResponse and TrackInfo are there. */
  function ErrorOf(reply: Reply): Option<TrackError> {
    if reply.trackResponse.Some? && reply.trackResponse.value.trackInfo.Some? then reply.trackResponse.value.trackInfo.value.error
    else None
  }

  /** The status and times read from the summary event, once the guards have passed. */
  function FromInfo(info: TrackInfo, codes: string -> Option<PackageStatus>, newDate: Option<string> -> int): (r: Result<PackageInfo>)
    ensures r.Err? <==> info.trackSummary.None?
    ensures r.Ok? ==> r.value.statusLabel == info.trackSummary.value.event
    ensures r.Ok? ==> r.value.status == TableLookup(codes, info.trackSummary.value.eventCode).GetOr(InTransit)
    ensures r.Ok? && r.value.status == Delivered ==>
      r.value.deliveryTime == Some(newDate(Some(Template(info.trackSummary.value.eventDate) + " " + Template(info.trackSummary.value.eventTime))))
    ensures r.Ok? && r.value.status != Delivered ==>
      r.value.deliveryTime == if Truthy(info.expectedDeliveryDate) then Some(newDate(info.expectedDeliveryDate) + NinePm) else None
  {
    match info.trackSummary
    case None => Err(TypeError)
    case Some(e) =>
      var status := TableLookup(codes, e.eventCode).GetOr(InTransit);
      var deliveryTime :=
        if status == Delivered then Some(newDate(Some(Template(e.eventDate) + " " + Template(e.eventTime))))
        else if Truthy(info.expectedDeliveryDate) then Some(newDate(info.expectedDeliveryDate) + NinePm)
        else None;
      Ok(NewPackageInfo(Some(status), e.event, deliveryTime))
  }

  /**
   * `parse(response)`.  `codes` is the USPS status table, `newDate` is
   * `new Date(x).getTime()`.  The label-only error number is LABEL_CREATED, any other
   * error or a missing TrackInfo is the default answer, and otherwise the summary
   * event decides.
   */
  function Parse(reply: Reply, codes: string -> Option<PackageStatus>, newDate: Option<string> -> int): (r: Result<PackageInfo>)
    ensures ErrorOf(reply).Some? && ErrorOf(reply).value.number == Some(LabelOnlyNumber) ==> r == Ok(StatusOnly(LabelCreated))
    ensures ErrorOf(reply).Some? && ErrorOf(reply).value.number != Some(LabelOnlyNumber) ==> r == Ok(Default())
    ensures ErrorOf(reply).None? && reply.error ==> r == Ok(Default())
    ensures ErrorOf(reply).None? && !reply.error ==>
      match reply.trackResponse
      case None => r == Err(TypeError)
      case Some(TrackResponse(None)) => r == Ok(Default())
      case Some(TrackResponse(Some(info))) => r == FromInfo(info, codes, newDate)
  {
    var error := ErrorOf(reply);
    if error.Some? && error.value.number == Some(LabelOnlyNumber) then Ok(StatusOnly(LabelCreated))
    else if error.Some? || reply.error then Ok(Default())
    else
      match reply.trackResponse
      case None => Err(TypeError)
      case Some(tr) =>
        match tr.trackInfo
        case None => Ok(Default())
        case Some(info) => FromInfo(info, codes, newDate)
  }

  /** The detail events never matter: only the summary is read. */
  lemma TrackDetailIsIgnored(reply: Reply, info: TrackInfo, details: seq<Event>, codes: string -> Option<PackageStatus>, newDate: Option<string> -> int)
    requires reply.trackResponse == Some(TrackResponse(Some(info)))
    ensures Parse(reply, codes, newDate)
         == Parse(reply.(trackResponse := Some(TrackResponse(Some(info.(trackDetail := details))))), codes, newDate)
  {
  }

  /** Without a summary event, a reply that passed the guards throws, whatever the details say. */
  lemma MissingSummaryThrows(info: TrackInfo, codes: string -> Option<PackageStatus>, newDate: Option<string> -> int)
    requires info.error.None? && info.trackSummary.None?
    ensures Parse(Reply(false, Some(TrackResponse(Some(info)))), codes, newDate).Err?
  {
  }

  /** The label-only error number is LABEL_CREATED even when the reply also carries a top-level Error. */
  lemma LabelOnlyBeatsTopLevelError(info: TrackInfo, topLevelError: bool, codes: string -> Option<PackageStatus>, newDate: Option<string> -> int)
    requires info.error == Some(TrackError(Some(LabelOnlyNumber)))
    ensures Parse(Reply(topLevelError, Some(TrackResponse(Some(info)))), codes, newDate) == Ok(StatusOnly(LabelCreated))
  {
  }

  /** A code the table lacks reads as IN_TRANSIT, never UNAVAILABLE. */
  lemma UnmappedCodeIsInTransit(info: TrackInfo, e: Event, codes: string -> Option<PackageStatus>, newDate: Option<string> -> int)
    requires info.trackSummary == Some(e) && TableLookup(codes, e.eventCode).None?
    ensures FromInfo(info, codes, newDate).Ok?
    ensures FromInfo(info, codes, newDate).value.status == InTransit
  {
  }

  /** Before delivery, an expected date is reported at 9 pm of that day, 75,600,000 ms after its midnight. */
  lemma ExpectedDateIsNinePm(info: TrackInfo, e: Event, codes: string -> Option<PackageStatus>, newDate: Option<string> -> int)
    requires info.trackSummary == Some(e) && TableLookup(codes, e.eventCode) != Some(Delivered)
    requires Truthy(info.expectedDeliveryDate)
    ensures FromInfo(info, codes, newDate).Ok?
    ensures FromInfo(info, codes, newDate).value.deliveryTime == Some(newDate(info.expectedDeliveryDate) + 75600000)
  {
  }

  const RequestHead: string := "<TrackFieldRequest USERID=\""
  const RequestMiddle: string :=
    "\">\n"
    + "            <Revision>1</Revision>\n"
    + "            <ClientIp>127.0.0.1</ClientIp>\n"
    + "            <SourceId>1</SourceId>\n"
    + "            <TrackID ID=\""
  const RequestTail: string := "\"/>\n            </TrackFieldRequest>"

  /** `createRequestXml(trackingNumber)` */
  function RequestXml(userId: string, trackingNumber: string): string {
    RequestHead + userId + RequestMiddle + trackingNumber + RequestTail
  }

  const UrlPrefix: string := "http://production.shippingapis.com/ShippingAPI.dll?API=TrackV2&XML="

  /** `getUrl(trackingNumber)`: the request XML, as it is, after the TrackV2 query prefix. */
  function Url(userId: string, trackingNumber: string): (r: string)
    ensures |r| == |UrlPrefix| + |RequestXml(userId, trackingNumber)|
    ensures r[..|UrlPrefix|] == UrlPrefix && r[|UrlPrefix|..] == RequestXml(userId, trackingNumber)
  {
    UrlPrefix + RequestXml(userId, trackingNumber)
  }

  lemma {:induction false} Regroup(p: string, h: string, u: string, m: string, n: string, t: string)
    ensures p + (h + u + m + n + t) == (p + h + u + m) + n + t
  {
  }

  /** With the user id fixed, the URL determines the tracking number it asks about. */
  lemma UrlDeterminesNumber(userId: string, n: string, m: string)
    requires Url(userId, n) == Url(userId, m)
    ensures n == m
  {
    Regroup(UrlPrefix, RequestHead, userId, RequestMiddle, n, RequestTail);
    Regroup(UrlPrefix, RequestHead, userId, RequestMiddle, m, RequestTail);
    CancelPrefixSuffix(UrlPrefix + RequestHead + userId + RequestMiddle, n, m, RequestTail);
  }

  /** `getUrl`, `getOptions`: a POST with everything in the URL and no body. */
  function RequestFor(userId: string, trackingNumber: string): (r: Request)
    ensures r.url == Url(userId, trackingNumber) && r.verb == Post && r.headers == [] && r.body.None?
  {
    Request(Url(userId, trackingNumber), Post, [], None)
  }

  /** `getResponseType` */
  const Kind: ResponseType := Xml

  /** `track(trackingNumber)` on a USPS adapter, `got` answering `fetch`. */
  function Track(userId: string, trackingNumber: string, fetch: Request -> Response, dec: Decoders<Reply>,
                 codes: string -> Option<PackageStatus>, newDate: Option<string> -> int): Result<PackageInfo> {
    Provider.Track(fetch(RequestFor(userId, trackingNumber)), Kind, dec, d => Parse(d, codes, newDate))
  }
}
