/** The news widget's location resolver (geolocation.js): device position and
    reverse geocoding first, the IP lookup when that is unavailable or fails,
    and a fixed "world" pair when the IP lookup fails too. Every external call
    is replaced by the outcome it produced. */
module Geolocation {
  import opened JsValues

  const CityPlaceholder := "Ваш город"
  const CountryPlaceholder := "Ваша страна"
  const WorldName := "Мир"

  /** The city/country pair reported to the news widget. */
  datatype Place = Place(city: string, country: string)

  const WorldPlace := Place(WorldName, WorldName)

  /** The fields of the IP lookup's JSON body that are read. */
  datatype IpData = IpData(city: Option<string>, countryName: Option<string>)

  /** The IP lookup: a parsed body, a non-ok HTTP status, or a failure of the
      request or of parsing. */
  datatype IpOutcome = IpOk(data: IpData) | IpNotOk | IpFailed

  /** The `address` object of the reverse-geocoding answer. */
  datatype Address = Address(
    city: Option<string>,
    town: Option<string>,
    village: Option<string>,
    country: Option<string>)

  /** Reverse geocoding: an address, or any failure (request rejected, body not
      JSON, no `address` object). */
  datatype ReverseOutcome = ReverseOk(address: Address) | ReverseFailed

  /** The browser's geolocation capability: absent, the position request
      answered with an error, or answered with a position (its coordinates
      only feed the reverse-geocoding request and are not modelled). */
  datatype DeviceOutcome = Unsupported | Denied | Position

  /** What each external service would answer during one resolution. */
  datatype Env = Env(device: DeviceOutcome, reverse: ReverseOutcome, ip: IpOutcome)

  /** An external call made during a resolution. */
  datatype Call = PositionRequest | ReverseGeocode | IpLookup

  /** The reported place and the external calls made, in order. */
  datatype Resolution = Resolution(place: Place, calls: seq<Call>)

  /** The position of a call in the strategy chain. */
  function Stage(c: Call): nat {
    match c
    case PositionRequest => 0
    case ReverseGeocode => 1
    case IpLookup => 2
  }

  /** The names of an ok IP-lookup body, each defaulted to its placeholder. */
  function IpPlace(data: IpData): Place {
    Place(Or(data.city, CityPlaceholder), Or(data.countryName, CountryPlaceholder))
  }

  /** geoByIP: the names of the IP lookup, each defaulted to its placeholder,
      or the world pair when the lookup is not ok or fails. */
  function GeoByIp(ip: IpOutcome): (p: Place)
    ensures p.city != "" && p.country != ""
    ensures !ip.IpOk? ==> p == WorldPlace
    ensures ip.IpOk? && Truthy(ip.data.city) ==> Some(p.city) == ip.data.city
    ensures ip.IpOk? && !Truthy(ip.data.city) ==> p.city == CityPlaceholder
    ensures ip.IpOk? && Truthy(ip.data.countryName) ==> Some(p.country) == ip.data.countryName
    ensures ip.IpOk? && !Truthy(ip.data.countryName) ==> p.country == CountryPlaceholder
  {
    match ip
    case IpOk(data) => IpPlace(data)
    case IpNotOk => WorldPlace
    case IpFailed => WorldPlace
  }

  /** The names of a reverse-geocoded address: the first non-empty of city,
      town and village, and the country, each defaulted to its placeholder. */
  function AddressPlace(addr: Address): (p: Place)
    ensures p.city == FirstTruthy([addr.city, addr.town, addr.village], CityPlaceholder)
    ensures Truthy(addr.country) ==> Some(p.country) == addr.country
    ensures !Truthy(addr.country) ==> p.country == CountryPlaceholder
    ensures p.city != "" && p.country != ""
  {
    OrChainIsFirstTruthy(addr.city, addr.town, addr.village, CityPlaceholder);
    Place(Or(addr.city, Or(addr.town, Or(addr.village, CityPlaceholder))), Or(addr.country, CountryPlaceholder))
  }

  /** The IP fallback as reached from `getLocation`: one IP lookup appended to
      the calls already made. */
  function ViaIp(before: seq<Call>, ip: IpOutcome): Resolution {
    Resolution(GeoByIp(ip), before + [IpLookup])
  }

  /** getLocation, following the callbacks of the source. */
  function GetLocation(env: Env): (res: Resolution)
    ensures res.place.city != "" && res.place.country != ""
    ensures forall i, j :: 0 <= i < j < |res.calls| ==> Stage(res.calls[i]) < Stage(res.calls[j])
    ensures PositionRequest in res.calls <==> !env.device.Unsupported?
    ensures ReverseGeocode in res.calls <==> env.device.Position?
    ensures IpLookup in res.calls <==> !(env.device.Position? && env.reverse.ReverseOk?)
    ensures IpLookup in res.calls ==> res.place == GeoByIp(env.ip)
    ensures IpLookup !in res.calls ==> res.place == AddressPlace(env.reverse.address)
  {
    match env.device
    case Unsupported => ViaIp([], env.ip)
    case Denied => ViaIp([PositionRequest], env.ip)
    case Position =>
      match env.reverse
      case ReverseOk(addr) => Resolution(AddressPlace(addr), [PositionRequest, ReverseGeocode])
      case ReverseFailed => ViaIp([PositionRequest, ReverseGeocode], env.ip)
  }

  /** No attempt before index `i` settled. */
  predicate NoneBefore(attempts: seq<Option<Place>>, i: nat) {
    forall j :: 0 <= j < i && j < |attempts| ==> attempts[j].None?
  }

  /** The first attempt that settled with a place, or `last` when none did. */
  function FirstSettled(attempts: seq<Option<Place>>, last: Place): (p: Place)
    ensures (forall j :: 0 <= j < |attempts| ==> attempts[j].None?) ==> p == last
    ensures forall i :: 0 <= i < |attempts| && attempts[i].Some? && NoneBefore(attempts, i) ==> p == attempts[i].value
    decreases |attempts|
  {
    if |attempts| == 0 then last
    else if attempts[0].Some? then attempts[0].value
    else FirstSettled(attempts[1..], last)
  }

  /** The precise strategy: a place only when a position was obtained and
      reverse-geocoded. */
  function DeviceAttempt(env: Env): Option<Place> {
    if env.device.Position? && env.reverse.ReverseOk? then Some(AddressPlace(env.reverse.address)) else None
  }

  /** The IP strategy: a place only when the lookup answered ok. */
  function IpAttempt(ip: IpOutcome): Option<Place> {
    if ip.IpOk? then Some(IpPlace(ip.data)) else None
  }

  /** The nested callbacks compute the flat strategy chain: precise location,
      then IP lookup, then the world pair, first success wins. */
  lemma GetLocationIsStrategyChain(env: Env)
    ensures GetLocation(env).place == FirstSettled([DeviceAttempt(env), IpAttempt(env.ip)], WorldPlace)
  {
  }

  /** The IP answer matters only when the IP lookup is made. */
  lemma UnconsultedIpIsIrrelevant(env: Env, other: IpOutcome)
    requires IpLookup !in GetLocation(env).calls
    ensures GetLocation(env.(ip := other)) == GetLocation(env)
  {
  }

  /** The reverse-geocoding answer matters only when reverse geocoding is
      requested. */
  lemma UnconsultedReverseIsIrrelevant(env: Env, other: ReverseOutcome)
    requires ReverseGeocode !in GetLocation(env).calls
    ensures GetLocation(env.(reverse := other)) == GetLocation(env)
  {
  }

  /** With no geolocation capability and a failing IP lookup, resolution ends
      at the world pair after a single call. */
  lemma NoServiceGivesWorld(env: Env)
    requires env.device.Unsupported? && !env.ip.IpOk?
    ensures GetLocation(env) == Resolution(WorldPlace, [IpLookup])
  {
  }
}
