/**
 * The Go service's records (internal/model, internal/dto): tracked
 * identities, access records, notification requests and the request
 * bodies of the subscription API, with the two name tables of
 * internal/model/notification_request.go.
 */
module Model {
  import opened Common

  /** A chat's subscription to one external identity, as a row of the `track` table. */
  datatype Track = Track(
    id: int,
    chatId: string,
    externalId: Int32,
    run: string,
    fullName: string,
    alias: Option<string>,
    lastEntry: Option<Time>,
    lastExit: Option<Time>)

  /** One record of the upstream access source. */
  datatype Access = Access(
    externalId: Int32,
    run: string,
    fullName: string,
    location: Int8,
    entryAt: Time,
    exitAt: Option<Time>)

  /** The upstream record before conversion: every field is text. */
  datatype AccessDTO = AccessDTO(
    externalId: string,
    run: string,
    fullName: string,
    location: string,
    entryAt: string,
    exitAt: Option<string>)

  datatype CreateTrackDTO = CreateTrackDTO(
    chatId: string,
    externalId: Int32,
    run: string,
    alias: Option<string>,
    fullName: string,
    lastEntry: Option<Time>,
    lastExit: Option<Time>)

  datatype DeleteTrackDTO = DeleteTrackDTO(chatId: string, run: string)

  /** Go's `NotificationType`, an `int8` enumeration starting at 1. */
  type NotificationType = Int8

  const NotificationTypeEntry: NotificationType := 1
  const NotificationTypeExit: NotificationType := 2

  datatype NotificationRequest = NotificationRequest(
    kind: NotificationType,
    date: Time,
    chatId: string,
    run: string,
    fullName: string,
    alias: Option<string>,
    location: Int8)

  /** The two timestamp columns of a track, one per kind of change. */
  datatype Column = LastEntry | LastExit

  /** `NotificationType.String()`. */
  function TypeName(t: NotificationType): (s: string)
    ensures s == "ENTRY" <==> t == NotificationTypeEntry
    ensures s == "EXIT" <==> t == NotificationTypeExit
    ensures s == "UNKNOWN" <==> t != NotificationTypeEntry && t != NotificationTypeExit
  {
    if t == NotificationTypeEntry then "ENTRY"
    else if t == NotificationTypeExit then "EXIT"
    else "UNKNOWN"
  }

  /** The location codes `LocationName` knows; 103 is not one of them. */
  const KnownLocations: set<int> := {102, 104, 105, 106, 107, 108}

  /** `NotificationRequest.LocationName()`. */
  function LocationName(location: Int8): (name: string)
    ensures name == "Unknown Location" <==> location !in KnownLocations
    ensures location == 102 ==> name == "Espacio Urbano"
    ensures location == 104 ==> name == "Calama"
    ensures location == 105 ==> name == "Pacífico"
    ensures location == 106 ==> name == "Arauco"
    ensures location == 107 ==> name == "Iquique"
    ensures location == 108 ==> name == "Angamos"
  {
    match location
    case 102 => "Espacio Urbano"
    case 104 => "Calama"
    case 105 => "Pacífico"
    case 106 => "Arauco"
    case 107 => "Iquique"
    case 108 => "Angamos"
    case _ => "Unknown Location"
  }

  /** No two known locations share a name, so a name identifies its code. */
  lemma LocationNamesDistinct(a: Int8, b: Int8)
    requires a in KnownLocations && b in KnownLocations && a != b
    ensures LocationName(a) != LocationName(b)
  {
  }

  /**
   * The position of the first access with the given external id: where the
   * service's loops over the batch stop when they break at the first match.
   */
  function FirstWithId(accesses: seq<Access>, id: int): (r: Option<nat>)
    ensures r.Some? ==> r.value < |accesses| && accesses[r.value].externalId == id
    ensures r.Some? ==> forall j :: 0 <= j < r.value ==> accesses[j].externalId != id
    ensures r.None? <==> forall j :: 0 <= j < |accesses| ==> accesses[j].externalId != id
  {
    if |accesses| == 0 then None
    else if accesses[0].externalId == id then Some(0)
    else match FirstWithId(accesses[1..], id)
      case None => None
      case Some(k) => Some(k + 1)
  }
}
