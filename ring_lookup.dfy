/**
 * The decision part of `initializeRingConnection`: given what the Ring API reported, pick
 * the configured location and intercom by exact name, first match wins, or fail with the
 * error the server throws.
 */
module RingLookup {
  import opened Wrappers
  import opened EnvConfig

  datatype Intercom = Intercom(name: string)

  datatype Location = Location(name: string, intercoms: seq<Intercom>)

  /** What the Ring API session produced: the account's locations, or a failure with its message. */
  datatype Upstream = Locations(locations: seq<Location>) | Failure(message: string)

  /** The errors `initializeRingConnection` rethrows. */
  datatype ConnectError =
    | UpstreamFailure(message: string)
    | LocationNotFound(locationName: string)
    | IntercomNotFound(intercomName: string, locationName: string)
  {
    function Message(): string {
      match this
      case UpstreamFailure(m) => m
      case LocationNotFound(l) => "Location with name \"" + l + "\" not found."
      case IntercomNotFound(i, l) => "Intercom \"" + i + "\" not found in location \"" + l + "\"."
    }
  }

  /** The names `find` compares, element by element. */
  function Names<T>(xs: seq<T>, nameOf: T -> string): (r: seq<string>)
    ensures |r| == |xs|
    ensures forall i :: 0 <= i < |xs| ==> r[i] == nameOf(xs[i])
  {
    seq(|xs|, i requires 0 <= i < |xs| => nameOf(xs[i]))
  }

  function LocationNames(locations: seq<Location>): seq<string> {
    Names(locations, (l: Location) => l.name)
  }

  function IntercomNames(intercoms: seq<Intercom>): seq<string> {
    Names(intercoms, (d: Intercom) => d.name)
  }

  /** `i` is the first index holding `name`. */
  predicate IsFirst(names: seq<string>, name: string, i: int) {
    0 <= i < |names| && names[i] == name && forall j :: 0 <= j < i ==> names[j] != name
  }

  /** The index `Array.prototype.find` stops at when looking for an exact name. */
  function FirstIndex(names: seq<string>, name: string): (r: Option<nat>)
    ensures r.Some? <==> name in names
    ensures r.Some? ==> IsFirst(names, name, r.value)
  {
    if |names| == 0 then None
    else if names[0] == name then Some(0)
    else
      match FirstIndex(names[1..], name)
      case None => None
      case Some(i) => Some(i + 1)
  }

  /** The lookup after `getLocations` resolved (or failed). */
  function Connect(config: AppConfig, upstream: Upstream): (r: Result<Intercom, ConnectError>)
    ensures upstream.Failure? ==> r == Err(UpstreamFailure(upstream.message))
    ensures upstream.Locations? && config.locationName !in LocationNames(upstream.locations)
            ==> r == Err(LocationNotFound(config.locationName))
    ensures r.Ok? ==> upstream.Locations? && r.value.name == config.intercomName
    ensures r.Err? && r.error.IntercomNotFound? ==> r.error == IntercomNotFound(config.intercomName, config.locationName)
  {
    match upstream
    case Failure(message) => Err(UpstreamFailure(message))
    case Locations(locations) =>
      match FirstIndex(LocationNames(locations), config.locationName)
      case None => Err(LocationNotFound(config.locationName))
      case Some(i) =>
        var intercoms := locations[i].intercoms;
        match FirstIndex(IntercomNames(intercoms), config.intercomName)
        case None => Err(IntercomNotFound(config.intercomName, config.locationName))
        case Some(j) => Ok(intercoms[j])
  }

  /** When both names match somewhere, the intercom chosen is the first match in the first matching location. */
  lemma ConnectChoosesFirstMatches(config: AppConfig, locations: seq<Location>, i: nat, j: nat)
    requires IsFirst(LocationNames(locations), config.locationName, i)
    requires IsFirst(IntercomNames(locations[i].intercoms), config.intercomName, j)
    ensures Connect(config, Locations(locations)) == Ok(locations[i].intercoms[j])
  {
  }

  /**
   * Only the first location with the configured name is searched: if it has no such
   * intercom the connection fails, even when a later location of the same name has one.
   */
  lemma ConnectSearchesOnlyFirstLocation(config: AppConfig, locations: seq<Location>, i: nat)
    requires IsFirst(LocationNames(locations), config.locationName, i)
    requires config.intercomName !in IntercomNames(locations[i].intercoms)
    ensures Connect(config, Locations(locations)) == Err(IntercomNotFound(config.intercomName, config.locationName))
  {
  }
}
