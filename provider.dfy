/**
 * The transport logic every carrier adapter shares (`Provider.track`): send the
 * adapter's request, map a transport failure to the default `PackageInfo`, decode
 * the body the way the adapter declares, and hand the decoded document to the
 * adapter's `parse`.
 */
module Provider {
  import opened Common
  import opened Status
  import opened Info

  /**
   * `codes.get(code)` on a carrier's status table, as the UPS and USPS adapters
   * call it; a missing code property looks up `undefined`, which no table has.
   */
  function TableLookup(codes: string -> Option<PackageStatus>, code: Option<string>): (r: Option<PackageStatus>)
    ensures code.None? ==> r.None?
    ensures code.Some? ==> r == codes(code.value)
  {
    if code.Some? then codes(code.value) else None
  }

  /** How an adapter's responses are decoded. */
  datatype ResponseType = Xml | Soap | Json

  datatype HttpMethod = Get | Post

  /** The two arguments of `got(url, options)`; `got` sends a GET unless told otherwise. */
  datatype Request = Request(url: string, verb: HttpMethod, headers: seq<(string, string)>, body: Option<string>)

  /** What `got` settles to: a rejection (network error, timeout, error status) or a response body. */
  datatype Response = TransportFailure | Body(text: string)

  /** A decoded SOAP message, as far as `track` reads it: the 'SOAP-ENV:Envelope' element ... */
  datatype SoapEnvelope<D> = SoapEnvelope(envelope: Option<SoapBody<D>>)
  /** ... and its 'SOAP-ENV:Body' element, the document the adapter parses. */
  datatype SoapBody<D> = SoapBody(body: Option<D>)

  /**
   * The decoders `track` may apply to a body: `xml.parse` (which always yields an
   * object), the same parser on a SOAP message, and `JSON.parse` (which throws on
   * malformed text and may yield `null`, written None).
   */
  datatype Decoders<D> = Decoders(xml: string -> D, soap: string -> SoapEnvelope<D>, json: string -> Result<Option<D>>)

  /** The `switch` on the response type: the document `parse` receives, or what decoding throws. */
  function Decode<D>(t: ResponseType, text: string, dec: Decoders<D>): Result<Option<D>> {
    match t
    case Xml => Ok(Some(dec.xml(text)))
    case Soap =>
      (match dec.soap(text).envelope
       case None => Err(TypeError)
       case Some(e) => Ok(e.body))
    case Json => dec.json(text)
  }

  /**
   * `track(trackingNumber)` once `got` has settled to `response`.  Every `parse`
   * starts by reading a property of its argument, so a decoded `undefined` throws.
   */
  function Track<D>(response: Response, t: ResponseType, dec: Decoders<D>, parse: D -> Result<PackageInfo>): (r: Result<PackageInfo>)
    ensures response.TransportFailure? ==> r == Ok(Default())
    ensures response.Body? && t == Xml ==> r == parse(dec.xml(response.text))
    ensures response.Body? && t == Soap ==>
      match dec.soap(response.text).envelope
      case Some(SoapBody(Some(d))) => r == parse(d)
      case _ => r == Err(TypeError)
    ensures response.Body? && t == Json ==>
      match dec.json(response.text)
      case Ok(Some(d)) => r == parse(d)
      case Ok(None) => r == Err(TypeError)
      case Err(e) => r == Err(e)
  {
    match response
    case TransportFailure => Ok(Default())
    case Body(text) =>
      match Decode(t, text, dec)
      case Err(e) => Err(e)
      case Ok(None) => Err(TypeError)
      case Ok(Some(d)) => parse(d)
  }

  /** A transport failure answers UNAVAILABLE whatever the adapter's `parse` would have said. */
  lemma TransportFailureIgnoresParse<D>(t: ResponseType, dec: Decoders<D>, p: D -> Result<PackageInfo>, q: D -> Result<PackageInfo>)
    ensures Track(TransportFailure, t, dec, p) == Track(TransportFailure, t, dec, q) == Ok(Default())
  {
  }

  /** Whenever a body arrived and decoded to a document, the answer is exactly that document's `parse`. */
  lemma TrackIsParseOfDecoded<D>(text: string, t: ResponseType, dec: Decoders<D>, parse: D -> Result<PackageInfo>, d: D)
    requires Decode(t, text, dec) == Ok(Some(d))
    ensures Track(Body(text), t, dec, parse) == parse(d)
  {
  }
}
