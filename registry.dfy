/**
 * The courier registry: the supported courier codes, the tracking-number formats
 * each accepts, the adapter that serves each, and `track`, which refuses a code it
 * does not know.
 */
module Registry {
  import opened Common
  import opened Info
  import Provider
  import FedexProvider
  import UpsProvider
  import UspsProvider
  import Status

  const FedexCode: string := "fedex"
  const UpsCode: string := "ups"
  const UspsCode: string := "usps"

  /** The tracking-number formats of ts-tracking-number this registry refers to. */
  datatype Format = FedexFormat | UpsFormat | UspsFormat | S10Format

  /** One number `findTracking` reports in a text: the number and its courier's code. */
  datatype Found = Found(trackingNumber: string, courierCode: string)

  /** `couriers.get(code)`: the formats each courier code accepts. */
  function Couriers(courierCode: string): (r: Option<seq<Format>>)
    ensures courierCode == FedexCode ==> r == Some([FedexFormat])
    ensures courierCode == UpsCode ==> r == Some([UpsFormat])
    ensures courierCode == UspsCode ==> r == Some([UspsFormat, S10Format])
    ensures courierCode !in {FedexCode, UpsCode, UspsCode} ==> r.None?
  {
    if courierCode == FedexCode then Some([FedexFormat])
    else if courierCode == UpsCode then Some([UpsFormat])
    else if courierCode == UspsCode then Some([UspsFormat, S10Format])
    else None
  }

  /** The credentials each adapter is built with. */
  datatype Credentials = Credentials(fedex: FedexProvider.Credentials, upsAccessLicenseNumber: string, uspsUserId: string)

  /** One adapter, with what its constructor was given. */
  datatype Carrier =
    | Fedex(credentials: FedexProvider.Credentials)
    | Ups(accessLicenseNumber: string)
    | Usps(userId: string)

  /** `providers.get(code)` */
  function Providers(creds: Credentials, courierCode: string): (r: Option<Carrier>)
    ensures courierCode == FedexCode ==> r == Some(Fedex(creds.fedex))
    ensures courierCode == UpsCode ==> r == Some(Ups(creds.upsAccessLicenseNumber))
    ensures courierCode == UspsCode ==> r == Some(Usps(creds.uspsUserId))
    ensures courierCode !in {FedexCode, UpsCode, UspsCode} ==> r.None?
  {
    if courierCode == FedexCode then Some(Fedex(creds.fedex))
    else if courierCode == UpsCode then Some(Ups(creds.upsAccessLicenseNumber))
    else if courierCode == UspsCode then Some(Usps(creds.uspsUserId))
    else None
  }

  /** `isCourierValid(code)`: whether an adapter is registered for the code. */
  function IsCourierValid(courierCode: string): (r: bool)
    ensures r <==> courierCode == FedexCode || courierCode == UpsCode || courierCode == UspsCode
    ensures forall creds: Credentials :: r <==> Providers(creds, courierCode).Some?
  {
    courierCode in {FedexCode, UpsCode, UspsCode}
  }

  /** The two maps are keyed alike: a code has formats exactly when it has an adapter. */
  lemma CouriersMatchProviders(creds: Credentials, courierCode: string)
    ensures Couriers(courierCode).Some? <==> Providers(creds, courierCode).Some?
  {
  }

  /**
   * `isNumberValid(code, number)`.  `getTracking(number, formats)` is ts-tracking-number's
   * recognizer, some match or none; an unknown code offers it no format at all.
   */
  function IsNumberValid<T>(courierCode: string, trackingNumber: string, getTracking: (string, seq<Format>) -> Option<T>): (r: bool)
    ensures IsCourierValid(courierCode) ==> (r <==> getTracking(trackingNumber, Couriers(courierCode).value).Some?)
    ensures !IsCourierValid(courierCode) ==> (r <==> getTracking(trackingNumber, []).Some?)
  {
    getTracking(trackingNumber, Couriers(courierCode).GetOr([])).Some?
  }

  /** The USPS code accepts S10 numbers; FedEx and UPS accept their own format alone. */
  lemma FormatsPerCourier(f: Format)
    ensures f in Couriers(UspsCode).value <==> f == UspsFormat || f == S10Format
    ensures f in Couriers(FedexCode).value <==> f == FedexFormat
    ensures f in Couriers(UpsCode).value <==> f == UpsFormat
  {
  }

  /**
   * What the adapters need besides their credentials: the transport, the decoders
   * of each carrier's documents, the UPS and USPS status tables, and the date parsers.
   */
  datatype Env = Env(
    fetch: Provider.Request -> Provider.Response,
    fedexDecoders: Provider.Decoders<FedexProvider.Reply>,
    upsDecoders: Provider.Decoders<UpsProvider.Reply>,
    uspsDecoders: Provider.Decoders<UspsProvider.Reply>,
    upsCodes: string -> Option<Status.PackageStatus>,
    uspsCodes: string -> Option<Status.PackageStatus>,
    newDate: Option<string> -> int,
    parseDate: (string, string) -> int)

  /** `provider.track(number)` for one adapter. */
  function CarrierTrack(env: Env, carrier: Carrier, trackingNumber: string): Result<PackageInfo> {
    match carrier
    case Fedex(c) => FedexProvider.Track(c, trackingNumber, env.fetch, env.fedexDecoders, env.newDate)
    case Ups(l) => UpsProvider.Track(l, trackingNumber, env.fetch, env.upsDecoders, env.upsCodes, env.parseDate)
    case Usps(u) => UspsProvider.Track(u, trackingNumber, env.fetch, env.uspsDecoders, env.uspsCodes, env.newDate)
  }

  function UnknownCourierMessage(courierCode: string): string {
    "Courier with courier code " + courierCode + " does not exist."
  }

  /** `track(code, number)`: the registered adapter's answer, or the error for an unknown code. */
  function Track(env: Env, creds: Credentials, courierCode: string, trackingNumber: string): (r: Result<PackageInfo>)
    ensures !IsCourierValid(courierCode) ==> r == Err(UnknownCourierMessage(courierCode))
    ensures IsCourierValid(courierCode) ==> r == CarrierTrack(env, Providers(creds, courierCode).value, trackingNumber)
  {
    match Providers(creds, courierCode)
    case None => Err(UnknownCourierMessage(courierCode))
    case Some(p) => CarrierTrack(env, p, trackingNumber)
  }

  /** The three registered codes reach the three adapters. */
  lemma TrackDispatch(env: Env, creds: Credentials, trackingNumber: string)
    ensures Track(env, creds, FedexCode, trackingNumber)
         == FedexProvider.Track(creds.fedex, trackingNumber, env.fetch, env.fedexDecoders, env.newDate)
    ensures Track(env, creds, UpsCode, trackingNumber)
         == UpsProvider.Track(creds.upsAccessLicenseNumber, trackingNumber, env.fetch, env.upsDecoders, env.upsCodes, env.parseDate)
    ensures Track(env, creds, UspsCode, trackingNumber)
         == UspsProvider.Track(creds.uspsUserId, trackingNumber, env.fetch, env.uspsDecoders, env.uspsCodes, env.newDate)
  {
  }

  /** The unknown-code message names the code between the fixed words. */
  lemma UnknownCourierMessageNamesCode(courierCode: string)
    ensures var m := UnknownCourierMessage(courierCode);
      && m[..|"Courier with courier code "|] == "Courier with courier code "
      && m[|"Courier with courier code "|..|m| - |" does not exist."|] == courierCode
      && m[|m| - |" does not exist."|..] == " does not exist."
  {
  }
}
