/**
 * The FedEx adapter: a SOAP request with the credentials in its body, and the
 * parse of the SOAP body of the reply.
 */
module FedexProvider {
  import opened Common
  import opened Status
  import opened Info
  import opened Provider
  import FedexStatusCode

  datatype Credentials = Credentials(key: string, password: string, accountNumber: string, meterNumber: string)

  /** The reply, as far as `parse` reads it.  Each field is None when the element is missing. */
  datatype Notification = Notification(severity: Option<string>)
  datatype Event = Event(eventType: Option<string>, eventDescription: Option<string>, timestamp: Option<string>)
  /** The parser gives a lone `Events` element as an object and repeated ones as an array. */
  datatype Events = OneEvent(event: Event) | EventList(list: seq<Event>)
  datatype TrackDetails = TrackDetails(notification: Option<Notification>, events: Option<Events>, estimatedDeliveryTimestamp: Option<string>)
  /** The SOAP body; `trackDetails` is None when any of TrackReply, CompletedTrackDetails, TrackDetails is missing. */
  datatype Reply = Reply(trackDetails: Option<TrackDetails>)

  const Url: string := "https://ws.fedex.com:443/web-services"

  /** `[events].flat()[0]`: a lone event, or the first of a list. */
  function FirstEvent(events: Option<Events>): (r: Option<Event>)
    ensures events.Some? && events.value.OneEvent? ==> r == Some(events.value.event)
    ensures events.Some? && events.value.EventList? && |events.value.list| > 0 ==> r == Some(events.value.list[0])
    ensures r.None? <==> events.None? || events.value == EventList([])
  {
    match events
    case None => None
    case Some(OneEvent(e)) => Some(e)
    case Some(EventList(es)) => if |es| > 0 then Some(es[0]) else None
  }

  /**
   * `parse(response)`.  `newDate` is `new Date(x).getTime()`.  A Severity of ERROR
   * is the default answer; otherwise the first event gives the status (through the
   * table, UNAVAILABLE for a code it lacks) and the label, and the delivery time is
   * the estimate when there is one, else the event's own time stamp.
   */
  function Parse(reply: Reply, newDate: Option<string> -> int): (r: Result<PackageInfo>)
    ensures r.Err? <==>
      reply.trackDetails.None? || reply.trackDetails.value.notification.None? ||
      (reply.trackDetails.value.notification.value.severity != Some("ERROR") &&
       FirstEvent(reply.trackDetails.value.events).None?)
    ensures r.Ok? ==> r.value.status != DeliveryAttempted
    ensures r.Ok? && r.value.deliveryTime.None? ==> r.value == Default()
  {
    match reply.trackDetails
    case None => Err(TypeError)
    case Some(d) =>
      match d.notification
      case None => Err(TypeError)
      case Some(n) =>
        if n.severity == Some("ERROR") then Ok(Default())
        else
          match FirstEvent(d.events)
          case None => Err(TypeError)
          case Some(e) =>
            var status := FedexStatusCode.GetOpt(e.eventType);
            FedexStatusCode.NeverUnavailableOrAttempted(e.eventType.GetOr(""));
            var when := if d.estimatedDeliveryTimestamp.Some? then d.estimatedDeliveryTimestamp else e.timestamp;
            Ok(NewPackageInfo(status, e.eventDescription, Some(newDate(when))))
  }

  /** A reply whose notification Severity is ERROR is the default answer, whatever else it holds. */
  lemma ErrorSeverityIsDefault(d: TrackDetails, newDate: Option<string> -> int)
    requires d.notification == Some(Notification(Some("ERROR")))
    ensures Parse(Reply(Some(d)), newDate) == Ok(Default())
  {
  }

  /** Otherwise the first event decides status and label, and the estimate, if any, decides the time. */
  lemma ParseReportsFirstEvent(d: TrackDetails, e: Event, newDate: Option<string> -> int)
    requires d.notification.Some? && d.notification.value.severity != Some("ERROR")
    requires FirstEvent(d.events) == Some(e)
    ensures Parse(Reply(Some(d)), newDate).Ok?
    ensures var info := Parse(Reply(Some(d)), newDate).value;
      && info.status == FedexStatusCode.GetOpt(e.eventType).GetOr(Unavailable)
      && info.statusLabel == e.eventDescription
      && info.deliveryTime == Some(newDate(if d.estimatedDeliveryTimestamp.Some? then d.estimatedDeliveryTimestamp else e.timestamp))
  {
  }

  /** A lone event and a list starting with that event give the same answer. */
  lemma {:induction false} SingleEventActsAsList(d: TrackDetails, e: Event, rest: seq<Event>, newDate: Option<string> -> int)
    ensures Parse(Reply(Some(d.(events := Some(OneEvent(e))))), newDate)
         == Parse(Reply(Some(d.(events := Some(EventList([e] + rest))))), newDate)
  {
    assert FirstEvent(Some(EventList([e] + rest))) == Some(e);
  }

  /** An event code the table lacks leaves the status at the constructor's default, UNAVAILABLE. */
  lemma UnmappedCodeIsUnavailable(d: TrackDetails, e: Event, newDate: Option<string> -> int)
    requires d.notification.Some? && d.notification.value.severity != Some("ERROR")
    requires FirstEvent(d.events) == Some(e)
    requires FedexStatusCode.GetOpt(e.eventType).None?
    ensures Parse(Reply(Some(d)), newDate).Ok?
    ensures Parse(Reply(Some(d)), newDate).value.status == Unavailable
  {
  }

  /** `<tag>value</tag>` */
  function Element(tag: string, value: string): string {
    OpenTag(tag) + value + CloseTag(tag)
  }

  function OpenTag(tag: string): string { "<" + tag + ">" }

  function CloseTag(tag: string): string { "</" + tag + ">" }

  /** The template of `createRequestXml`, between its five placeholders. */
  const Head: string :=
    "<soapenv:Envelope xmlns:soapenv=\"http://schemas.xmlsoap.org/soap/envelope/\" xmlns:v9=\"http://fedex.com/ws/track/v9\">\n"
    + "            <soapenv:Body>\n"
    + "            <TrackRequest xmlns=\"http://fedex.com/ws/track/v9\">\n"
    + "            <WebAuthenticationDetail>\n"
    + "            <UserCredential>\n"
    + "            "
  const AfterKey: string := "\n            "
  const AfterPassword: string :=
    "\n            </UserCredential>\n"
    + "            </WebAuthenticationDetail>\n"
    + "            <ClientDetail>\n"
    + "            "
  const AfterAccountNumber: string := "\n            "
  const AfterMeterNumber: string :=
    "\n            </ClientDetail>\n"
    + "            <Version>\n"
    + "            <ServiceId>trck</ServiceId>\n"
    + "            <Major>9</Major>\n"
    + "            <Intermediate>1</Intermediate>\n"
    + "            <Minor>0</Minor>\n"
    + "            </Version>\n"
    + "            <SelectionDetails>\n"
    + "            <PackageIdentifier>\n"
    + "            <Type>TRACKING_NUMBER_OR_DOORTAG</Type>\n"
    + "            "
  const Tail: string :=
    "\n            </PackageIdentifier>\n"
    + "            </SelectionDetails>\n"
    + "            <ProcessingOptions>INCLUDE_DETAILED_SCANS</ProcessingOptions>\n"
    + "            </TrackRequest>\n"
    + "            </soapenv:Body>\n"
    + "            </soapenv:Envelope>"

  /** Everything in the request before the tracking number's element. */
  function Preamble(c: Credentials): string {
    Head + Element("Key", c.key) + AfterKey + Element("Password", c.password) + AfterPassword
    + Element("AccountNumber", c.accountNumber) + AfterAccountNumber + Element("MeterNumber", c.meterNumber) + AfterMeterNumber
  }

  /** `createRequestXml(trackingNumber)` */
  function RequestXml(c: Credentials, trackingNumber: string): string {
    Preamble(c) + Element("Value", trackingNumber) + Tail
  }

  /** An occurrence survives appending text after it. */
  lemma OccursAtExtend(x: string, y: string, e: string, i: nat)
    requires OccursAt(x, e, i)
    ensures OccursAt(x + y, e, i)
  {
    assert (x + y)[i..i + |e|] == x[i..i + |e|];
  }

  /** A piece appended to a text sits at the text's length. */
  lemma AtEnd(a: string, e: string)
    ensures OccursAt(a + e, e, |a|)
  {
    assert (a + e)[|a|..|a| + |e|] == e;
  }

  /** Five pieces with filler between them sit at the offsets the filler adds up to. */
  lemma PiecesAt(h: string, e1: string, s1: string, e2: string, s2: string, e3: string, s3: string,
                 e4: string, s4: string, e5: string, t: string)
    ensures var x := h + e1 + s1 + e2 + s2 + e3 + s3 + e4 + s4 + e5 + t;
      && OccursAt(x, e1, |h|)
      && OccursAt(x, e2, |h + e1 + s1|)
      && OccursAt(x, e3, |h + e1 + s1 + e2 + s2|)
      && OccursAt(x, e4, |h + e1 + s1 + e2 + s2 + e3 + s3|)
      && OccursAt(x, e5, |h + e1 + s1 + e2 + s2 + e3 + s3 + e4 + s4|)
  {
    var p1 := h;
    var q1 := p1 + e1;
    var p2 := q1 + s1;
    var q2 := p2 + e2;
    var p3 := q2 + s2;
    var q3 := p3 + e3;
    var p4 := q3 + s3;
    var q4 := p4 + e4;
    var p5 := q4 + s4;
    var q5 := p5 + e5;
    var x := q5 + t;
    AtEnd(p1, e1);
    OccursAtExtend(q1, s1, e1, |p1|);
    OccursAtExtend(p2, e2, e1, |p1|);
    OccursAtExtend(q2, s2, e1, |p1|);
    OccursAtExtend(p3, e3, e1, |p1|);
    OccursAtExtend(q3, s3, e1, |p1|);
    OccursAtExtend(p4, e4, e1, |p1|);
    OccursAtExtend(q4, s4, e1, |p1|);
    OccursAtExtend(p5, e5, e1, |p1|);
    OccursAtExtend(q5, t, e1, |p1|);
    AtEnd(p2, e2);
    OccursAtExtend(q2, s2, e2, |p2|);
    OccursAtExtend(p3, e3, e2, |p2|);
    OccursAtExtend(q3, s3, e2, |p2|);
    OccursAtExtend(p4, e4, e2, |p2|);
    OccursAtExtend(q4, s4, e2, |p2|);
    OccursAtExtend(p5, e5, e2, |p2|);
    OccursAtExtend(q5, t, e2, |p2|);
    AtEnd(p3, e3);
    OccursAtExtend(q3, s3, e3, |p3|);
    OccursAtExtend(p4, e4, e3, |p3|);
    OccursAtExtend(q4, s4, e3, |p3|);
    OccursAtExtend(p5, e5, e3, |p3|);
    OccursAtExtend(q5, t, e3, |p3|);
    AtEnd(p4, e4);
    OccursAtExtend(q4, s4, e4, |p4|);
    OccursAtExtend(p5, e5, e4, |p4|);
    OccursAtExtend(q5, t, e4, |p4|);
    AtEnd(p5, e5);
    OccursAtExtend(q5, t, e5, |p5|);
  }

  /** Non-empty pieces sit at strictly increasing offsets. */
  lemma PiecesInOrder(h: string, e1: string, s1: string, e2: string, s2: string, e3: string, s3: string,
                      e4: string, s4: string, e5: string, t: string)
    requires |e1| > 0 && |e2| > 0 && |e3| > 0 && |e4| > 0
    ensures var x := h + e1 + s1 + e2 + s2 + e3 + s3 + e4 + s4 + e5 + t;
      exists i1: nat, i2: nat, i3: nat, i4: nat, i5: nat :: i1 < i2 < i3 < i4 < i5
        && OccursAt(x, e1, i1) && OccursAt(x, e2, i2) && OccursAt(x, e3, i3) && OccursAt(x, e4, i4) && OccursAt(x, e5, i5)
  {
    PiecesAt(h, e1, s1, e2, s2, e3, s3, e4, s4, e5, t);
    var i1 := |h|;
    var i2 := |h + e1 + s1|;
    var i3 := |h + e1 + s1 + e2 + s2|;
    var i4 := |h + e1 + s1 + e2 + s2 + e3 + s3|;
    var i5 := |h + e1 + s1 + e2 + s2 + e3 + s3 + e4 + s4|;
    assert i1 < i2 < i3 < i4 < i5;
  }

  /** The request carries key, password, account number, meter number and tracking number, each in its element, in that order. */
  lemma RequestXmlFieldsInOrder(c: Credentials, trackingNumber: string)
    ensures var x := RequestXml(c, trackingNumber);
      exists i1: nat, i2: nat, i3: nat, i4: nat, i5: nat :: i1 < i2 < i3 < i4 < i5
        && OccursAt(x, Element("Key", c.key), i1) && OccursAt(x, Element("Password", c.password), i2)
        && OccursAt(x, Element("AccountNumber", c.accountNumber), i3) && OccursAt(x, Element("MeterNumber", c.meterNumber), i4)
        && OccursAt(x, Element("Value", trackingNumber), i5)
  {
    var e1, e2, e3, e4, e5 := Element("Key", c.key), Element("Password", c.password), Element("AccountNumber", c.accountNumber),
      Element("MeterNumber", c.meterNumber), Element("Value", trackingNumber);
    assert |e1| > 0 && |e2| > 0 && |e3| > 0 && |e4| > 0 by {
      assert e1[0] == '<' && e2[0] == '<' && e3[0] == '<' && e4[0] == '<';
    }
    assert RequestXml(c, trackingNumber)
        == Head + e1 + AfterKey + e2 + AfterPassword + e3 + AfterAccountNumber + e4 + AfterMeterNumber + e5 + Tail;
    PiecesInOrder(Head, Element("Key", c.key), AfterKey, Element("Password", c.password), AfterPassword,
      Element("AccountNumber", c.accountNumber), AfterAccountNumber, Element("MeterNumber", c.meterNumber), AfterMeterNumber,
      Element("Value", trackingNumber), Tail);
  }

  lemma {:induction false} Reassociate(p: string, o: string, n: string, c: string, t: string)
    ensures p + (o + n + c) + t == (p + o) + n + (c + t)
  {
  }

  /** With the credentials fixed, the request determines the tracking number it asks about. */
  lemma RequestXmlDeterminesNumber(c: Credentials, n: string, m: string)
    requires RequestXml(c, n) == RequestXml(c, m)
    ensures n == m
  {
    Reassociate(Preamble(c), OpenTag("Value"), n, CloseTag("Value"), Tail);
    Reassociate(Preamble(c), OpenTag("Value"), m, CloseTag("Value"), Tail);
    CancelPrefixSuffix(Preamble(c) + OpenTag("Value"), n, m, CloseTag("Value") + Tail);
  }

  /** `getUrl`, `getOptions`: a POST of the request XML as text/xml to the fixed web-services URL. */
  function RequestFor(c: Credentials, trackingNumber: string): (r: Request)
    ensures r.url == Url && r.verb == Post
    ensures r.headers == [("Content-Type", "text/xml")]
    ensures r.body == Some(RequestXml(c, trackingNumber))
  {
    Request(Url, Post, [("Content-Type", "text/xml")], Some(RequestXml(c, trackingNumber)))
  }

  /** `getResponseType` */
  const Kind: ResponseType := Soap

  /** `track(trackingNumber)` on a FedEx adapter, `got` answering `fetch`. */
  function Track(c: Credentials, trackingNumber: string, fetch: Request -> Response, dec: Decoders<Reply>, newDate: Option<string> -> int): Result<PackageInfo> {
    Provider.Track(fetch(RequestFor(c, trackingNumber)), Kind, dec, d => Parse(d, newDate))
  }
}
