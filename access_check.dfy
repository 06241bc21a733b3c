/**
 * The Go access service (internal/service/access.go): the comparison of an
 * access batch with every track, the two store updates, the notification
 * requests, and the conversion of the access feed's records.
 */
module AccessCheck {
  import opened Common
  import opened Model
  import opened AppErrors
  import opened Decimal
  import opened TrackStore
  import opened Notification
  import opened Reconcile

  const Component := "AccessService"

  function ServiceError(cause: Cause): AppError
  {
    NewAppError(Component, cause)
  }

  // ---------------------------------------------------------------------
  // Feed records to accesses
  // ---------------------------------------------------------------------

  /**
   * One record of the feed: the external id must parse as a 32-bit decimal,
   * the location as an 8-bit one, the entry as a timestamp, and the exit,
   * when present, as a timestamp. The first failure is reported.
   */
  function Convert(dto: AccessDTO, parseTime: string -> Result<Time, string>): (r: Result<Access, AppError>)
    ensures r.Ok? ==> (
      && ParseInt(dto.externalId, 32) == Ok(r.value.externalId as int)
      && ParseInt(dto.location, 8) == Ok(r.value.location as int)
      && parseTime(dto.entryAt) == Ok(r.value.entryAt)
      && r.value.run == dto.run && r.value.fullName == dto.fullName
      && (r.value.exitAt.None? <==> dto.exitAt.None?)
      && (dto.exitAt.Some? ==> parseTime(dto.exitAt.value) == Ok(r.value.exitAt.value)))
    ensures r.Ok? <==>
      && ParseInt(dto.externalId, 32).Ok? && ParseInt(dto.location, 8).Ok? && parseTime(dto.entryAt).Ok?
      && (dto.exitAt.Some? ==> parseTime(dto.exitAt.value).Ok?)
    ensures ParseInt(dto.externalId, 32).Err? ==> r == Err(ServiceError(Plain(NumErrorText(ParseInt(dto.externalId, 32).error))))
  {
    ParseWidths(dto.externalId);
    ParseWidths(dto.location);
    match ParseInt(dto.externalId, 32)
    case Err(e) => Err(ServiceError(Plain(NumErrorText(e))))
    case Ok(externalId) =>
      match ParseInt(dto.location, 8)
      case Err(e) => Err(ServiceError(Plain(NumErrorText(e))))
      case Ok(location) =>
        match parseTime(dto.entryAt)
        case Err(msg) => Err(ServiceError(Plain(msg)))
        case Ok(entryAt) =>
          if dto.exitAt.None? then
            Ok(Access(externalId as Int32, dto.run, dto.fullName, location as Int8, entryAt, None))
          else
            match parseTime(dto.exitAt.value)
            case Err(msg) => Err(ServiceError(Plain(msg)))
            case Ok(exitAt) => Ok(Access(externalId as Int32, dto.run, dto.fullName, location as Int8, entryAt, Some(exitAt)))
  }

  /** The whole feed, in order, or the error of its first bad record. */
  function ConvertAll(dtos: seq<AccessDTO>, parseTime: string -> Result<Time, string>): (r: Result<seq<Access>, AppError>)
    ensures r.Ok? ==> |r.value| == |dtos| && forall i :: 0 <= i < |dtos| ==> Convert(dtos[i], parseTime) == Ok(r.value[i])
    decreases |dtos|
  {
    if |dtos| == 0 then Ok([])
    else
      match ConvertAll(dtos[..|dtos| - 1], parseTime)
      case Err(e) => Err(e)
      case Ok(init) =>
        match Convert(dtos[|dtos| - 1], parseTime)
        case Err(e) => Err(e)
        case Ok(a) => Ok(init + [a])
  }

  /** How the feed writes an access: decimal numbers and formatted instants. */
  function Render(a: Access, formatTime: Time -> string): AccessDTO
  {
    AccessDTO(FormatInt(a.externalId as int), a.run, a.fullName, FormatInt(a.location as int), formatTime(a.entryAt),
      if a.exitAt.Some? then Some(formatTime(a.exitAt.value)) else None)
  }

  /** Converting one rendered access gives it back, whenever the timestamp parser reads what the formatter writes. */
  lemma RenderThenConvertOne(a: Access, formatTime: Time -> string, parseTime: string -> Result<Time, string>)
    requires forall t :: parseTime(formatTime(t)) == Ok(t)
    ensures Convert(Render(a, formatTime), parseTime) == Ok(a)
  {
    Pow2Bounds();
    FormatThenParse(a.externalId as int, 32);
    FormatThenParse(a.location as int, 8);
    assert parseTime(formatTime(a.entryAt)) == Ok(a.entryAt);
    if a.exitAt.Some? {
      var exit: Time := a.exitAt.value;
      assert parseTime(formatTime(exit)) == Ok(exit);
    }
  }

  function RenderAll(accesses: seq<Access>, formatTime: Time -> string): (dtos: seq<AccessDTO>)
    ensures |dtos| == |accesses| && forall i :: 0 <= i < |accesses| ==> dtos[i] == Render(accesses[i], formatTime)
  {
    seq(|accesses|, i requires 0 <= i < |accesses| => Render(accesses[i], formatTime))
  }

  /** Round trip: converting a rendered feed gives every access back, in order. */
  lemma {:induction false} RenderThenConvert(accesses: seq<Access>, formatTime: Time -> string, parseTime: string -> Result<Time, string>)
    requires forall t :: parseTime(formatTime(t)) == Ok(t)
    ensures ConvertAll(RenderAll(accesses, formatTime), parseTime) == Ok(accesses)
    decreases |accesses|
  {
    var dtos := RenderAll(accesses, formatTime);
    if |accesses| > 0 {
      var n := |accesses| - 1;
      var init := accesses[..n];
      RenderThenConvert(init, formatTime, parseTime);
      assert dtos[..n] == RenderAll(init, formatTime);
      RenderThenConvertOne(accesses[n], formatTime, parseTime);
      assert init + [accesses[n]] == accesses;
    }
  }

  /** The feed converts exactly when every record does. */
  lemma {:induction false} ConvertAllSucceeds(dtos: seq<AccessDTO>, parseTime: string -> Result<Time, string>)
    ensures ConvertAll(dtos, parseTime).Ok? <==> forall i :: 0 <= i < |dtos| ==> Convert(dtos[i], parseTime).Ok?
    decreases |dtos|
  {
    if |dtos| > 0 {
      var init := dtos[..|dtos| - 1];
      ConvertAllSucceeds(init, parseTime);
      assert forall i :: 0 <= i < |init| ==> init[i] == dtos[i];
    }
  }

  /** A bad record anywhere in a converted prefix decides the whole feed. */
  lemma {:induction false} ConvertAllKeepsFirstError(dtos: seq<AccessDTO>, parseTime: string -> Result<Time, string>, k: nat)
    requires k <= |dtos| && ConvertAll(dtos[..k], parseTime).Err?
    ensures ConvertAll(dtos, parseTime) == ConvertAll(dtos[..k], parseTime)
    decreases |dtos| - k
  {
    if k < |dtos| {
      assert dtos[..k + 1][..k] == dtos[..k];
      ConvertAllKeepsFirstError(dtos, parseTime, k + 1);
    } else {
      assert dtos[..k] == dtos;
    }
  }

  /** One more record either extends the converted prefix or fails it with that record's error. */
  lemma ConvertAllStep(dtos: seq<AccessDTO>, parseTime: string -> Result<Time, string>, i: nat, accesses: seq<Access>)
    requires i < |dtos| && ConvertAll(dtos[..i], parseTime) == Ok(accesses)
    ensures Convert(dtos[i], parseTime).Ok? ==> ConvertAll(dtos[..i + 1], parseTime) == Ok(accesses + [Convert(dtos[i], parseTime).value])
    ensures Convert(dtos[i], parseTime).Err? ==> ConvertAll(dtos[..i + 1], parseTime) == Err(Convert(dtos[i], parseTime).error)
  {
    var prefix := dtos[..i + 1];
    assert prefix[..|prefix| - 1] == dtos[..i] && prefix[|prefix| - 1] == dtos[i];
  }

  /** Lists the values of an update map, in an order the model leaves open. */
  method MapValues(m: map<Int32, Access>) returns (list: seq<Access>)
    requires forall k :: k in m ==> m[k].externalId == k
    ensures ListsMap(list, m) && |list| == |m|
  {
    list := [];
    var rest := m.Keys;
    while rest != {}
      invariant rest <= m.Keys
      invariant |list| + |rest| == |m.Keys|
      invariant forall i :: 0 <= i < |list| ==> list[i].externalId in m && m[list[i].externalId] == list[i] && list[i].externalId !in rest
      invariant forall i, j :: 0 <= i < j < |list| ==> list[i].externalId != list[j].externalId
      invariant forall k :: k in m && k !in rest ==> exists i :: 0 <= i < |list| && list[i].externalId == k
      decreases rest
    {
      var k :| k in rest;
      ghost var before := list;
      list := list + [m[k]];
      rest := rest - {k};
      forall k' | k' in m && k' !in rest ensures exists i :: 0 <= i < |list| && list[i].externalId == k' {
        if k' == k {
          assert list[|list| - 1].externalId == k;
        } else {
          var i :| 0 <= i < |before| && before[i].externalId == k';
          assert list[i] == before[i];
        }
      }
    }
  }

  /**
   * The body of the inner loop of `compareTrackAndAccess` for one
   * (access, track) pair: the entry test, then the exit test, each appending
   * the track and inserting the access when its id is not there yet.
   */
  method CompareOne(access: Access, track: Track,
                    entryTracks0: seq<Track>, exitTracks0: seq<Track>,
                    entryMap0: map<Int32, Access>, exitMap0: map<Int32, Access>)
    returns (entryTracks: seq<Track>, exitTracks: seq<Track>, entryMap: map<Int32, Access>, exitMap: map<Int32, Access>, crashed: bool)
    ensures crashed <==> CrashesOn(access, track)
    ensures !crashed ==>
      && entryTracks == entryTracks0 + (if Fires(access, track, LastEntry) then [track] else [])
      && exitTracks == exitTracks0 + (if Fires(access, track, LastExit) then [track] else [])
      && entryMap == RepsStep(entryMap0, access, Fires(access, track, LastEntry))
      && exitMap == RepsStep(exitMap0, access, Fires(access, track, LastExit))
  {
    entryTracks, exitTracks, entryMap, exitMap := entryTracks0, exitTracks0, entryMap0, exitMap0;
    crashed := false;
    if access.externalId == track.externalId {
      if track.lastEntry.None? || access.entryAt != track.lastEntry.value {
        entryTracks := entryTracks + [track];
        if access.externalId !in entryMap {
          entryMap := entryMap[access.externalId := access];
        }
      }
      var isDifferent := false;
      var bothNil := track.lastExit.None? && access.exitAt.None?;
      if !bothNil {
        if track.lastExit.None? || access.exitAt.None? {
          // Dereferencing the missing exit panics.
          crashed := true;
          return;
        }
        isDifferent := track.lastExit.value != access.exitAt.value;
      }
      if !isDifferent {
        isDifferent := track.lastExit.None? && access.exitAt.Some?;
      }
      if isDifferent {
        exitTracks := exitTracks + [track];
        if access.externalId !in exitMap {
          exitMap := exitMap[access.externalId := access];
        }
      }
    }
  }

  /**
   * The outer loop of `compareTrackAndAccess`: every access of the batch
   * against every track, stopping at the first pair that panics.
   */
  method CompareAll(accesses: seq<Access>, tracks: seq<Track>)
    returns (entryTracks: seq<Track>, exitTracks: seq<Track>, entryMap: map<Int32, Access>, exitMap: map<Int32, Access>, crashed: bool)
    ensures crashed <==> Crashes(accesses, tracks)
    ensures !crashed ==>
      && entryTracks == Matches(accesses, tracks, LastEntry) && exitTracks == Matches(accesses, tracks, LastExit)
      && entryMap == Reps(accesses, tracks, LastEntry) && exitMap == Reps(accesses, tracks, LastExit)
  {
    entryTracks, exitTracks := [], [];
    entryMap, exitMap := map[], map[];
    var i := 0;
    while i < |accesses|
      invariant 0 <= i <= |accesses|
      invariant forall i', j' :: 0 <= i' < i && 0 <= j' < |tracks| ==> !CrashesOn(accesses[i'], tracks[j'])
      invariant BatchedUpTo(accesses, tracks, i, entryTracks, exitTracks, entryMap, exitMap)
    {
      entryTracks, exitTracks, entryMap, exitMap, crashed := CompareAccess(accesses, tracks, i, entryTracks, exitTracks, entryMap, exitMap);
      if crashed {
        return;
      }
      i := i + 1;
    }
    assert accesses[..i] == accesses;
    crashed := false;
  }

  /** The outer loop's state after the first `i` accesses: each list and map is the batch's so far. */
  predicate BatchedUpTo(accesses: seq<Access>, tracks: seq<Track>, i: nat,
                        entryTracks: seq<Track>, exitTracks: seq<Track>,
                        entryMap: map<Int32, Access>, exitMap: map<Int32, Access>)
    requires i <= |accesses|
  {
    && entryTracks == Matches(accesses[..i], tracks, LastEntry)
    && exitTracks == Matches(accesses[..i], tracks, LastExit)
    && entryMap == Reps(accesses[..i], tracks, LastEntry)
    && exitMap == Reps(accesses[..i], tracks, LastExit)
  }

  /** One pass of the outer loop: the `i`th access against every track, extending the state of the first `i`. */
  method CompareAccess(accesses: seq<Access>, tracks: seq<Track>, i: nat,
                       entryTracks0: seq<Track>, exitTracks0: seq<Track>,
                       entryMap0: map<Int32, Access>, exitMap0: map<Int32, Access>)
    returns (entryTracks: seq<Track>, exitTracks: seq<Track>, entryMap: map<Int32, Access>, exitMap: map<Int32, Access>, crashed: bool)
    requires i < |accesses|
    requires BatchedUpTo(accesses, tracks, i, entryTracks0, exitTracks0, entryMap0, exitMap0)
    ensures crashed <==> exists j :: 0 <= j < |tracks| && CrashesOn(accesses[i], tracks[j])
    ensures !crashed ==> BatchedUpTo(accesses, tracks, i + 1, entryTracks, exitTracks, entryMap, exitMap)
  {
    BatchSnoc(accesses, tracks, LastEntry, i);
    BatchSnoc(accesses, tracks, LastExit, i);
    entryTracks, exitTracks, entryMap, exitMap, crashed := CompareWithTracks(accesses[i], tracks, entryTracks0, exitTracks0, entryMap0, exitMap0);
  }

  /** The inner loop's state after the first `j` tracks: each list and map has taken the hits so far. */
  predicate ScannedUpTo(access: Access, tracks: seq<Track>, j: nat,
                        entryTracks0: seq<Track>, exitTracks0: seq<Track>,
                        entryMap0: map<Int32, Access>, exitMap0: map<Int32, Access>,
                        entryTracks: seq<Track>, exitTracks: seq<Track>,
                        entryMap: map<Int32, Access>, exitMap: map<Int32, Access>)
    requires j <= |tracks|
  {
    && entryTracks == entryTracks0 + Hits(access, tracks[..j], LastEntry)
    && exitTracks == exitTracks0 + Hits(access, tracks[..j], LastExit)
    && entryMap == RepsStep(entryMap0, access, |Hits(access, tracks[..j], LastEntry)| > 0)
    && exitMap == RepsStep(exitMap0, access, |Hits(access, tracks[..j], LastExit)| > 0)
  }

  /** One pass of the inner loop: the `j`th track, extending the state of the first `j`. */
  method ScanTrack(access: Access, tracks: seq<Track>, j: nat,
                   entryTracks0: seq<Track>, exitTracks0: seq<Track>,
                   entryMap0: map<Int32, Access>, exitMap0: map<Int32, Access>,
                   entryTracks1: seq<Track>, exitTracks1: seq<Track>,
                   entryMap1: map<Int32, Access>, exitMap1: map<Int32, Access>)
    returns (entryTracks: seq<Track>, exitTracks: seq<Track>, entryMap: map<Int32, Access>, exitMap: map<Int32, Access>, crashed: bool)
    requires j < |tracks|
    requires ScannedUpTo(access, tracks, j, entryTracks0, exitTracks0, entryMap0, exitMap0, entryTracks1, exitTracks1, entryMap1, exitMap1)
    ensures crashed <==> CrashesOn(access, tracks[j])
    ensures !crashed ==> ScannedUpTo(access, tracks, j + 1, entryTracks0, exitTracks0, entryMap0, exitMap0, entryTracks, exitTracks, entryMap, exitMap)
  {
    ScanStep(access, tracks, LastEntry, j, entryTracks0, entryMap0);
    ScanStep(access, tracks, LastExit, j, exitTracks0, exitMap0);
    entryTracks, exitTracks, entryMap, exitMap, crashed :=
      CompareOne(access, tracks[j], entryTracks1, exitTracks1, entryMap1, exitMap1);
  }

  /**
   * The inner loop of `compareTrackAndAccess`: one access against every
   * track, appending to the match lists and inserting into the update maps
   * when the id is not there yet.
   */
  method CompareWithTracks(access: Access, tracks: seq<Track>,
                           entryTracks0: seq<Track>, exitTracks0: seq<Track>,
                           entryMap0: map<Int32, Access>, exitMap0: map<Int32, Access>)
    returns (entryTracks: seq<Track>, exitTracks: seq<Track>, entryMap: map<Int32, Access>, exitMap: map<Int32, Access>, crashed: bool)
    ensures crashed <==> exists j :: 0 <= j < |tracks| && CrashesOn(access, tracks[j])
    ensures !crashed ==>
      && entryTracks == entryTracks0 + Hits(access, tracks, LastEntry)
      && exitTracks == exitTracks0 + Hits(access, tracks, LastExit)
      && entryMap == RepsStep(entryMap0, access, |Hits(access, tracks, LastEntry)| > 0)
      && exitMap == RepsStep(exitMap0, access, |Hits(access, tracks, LastExit)| > 0)
  {
    entryTracks, exitTracks, entryMap, exitMap := entryTracks0, exitTracks0, entryMap0, exitMap0;
    assert tracks[..0] == [];
    var j := 0;
    while j < |tracks|
      invariant 0 <= j <= |tracks|
      invariant forall j' :: 0 <= j' < j ==> !CrashesOn(access, tracks[j'])
      invariant ScannedUpTo(access, tracks, j, entryTracks0, exitTracks0, entryMap0, exitMap0, entryTracks, exitTracks, entryMap, exitMap)
    {
      entryTracks, exitTracks, entryMap, exitMap, crashed :=
        ScanTrack(access, tracks, j, entryTracks0, exitTracks0, entryMap0, exitMap0, entryTracks, exitTracks, entryMap, exitMap);
      if crashed {
        return;
      }
      j := j + 1;
    }
    assert tracks[..j] == tracks;
    crashed := false;
  }

  // ---------------------------------------------------------------------
  // The service
  // ---------------------------------------------------------------------

  class AccessService {
    const store: TrackTable
    const notifier: NotificationService

    constructor (store: TrackTable, notifier: NotificationService)
      ensures this.store == store && this.notifier == notifier
    {
      this.store := store;
      this.notifier := notifier;
    }

    /**
     * The entry update, then the exit update, each only when its map is not
     * empty; a failed entry update skips the exit update.
     */
    method StoreUpdates(entryMap: map<Int32, Access>, exitMap: map<Int32, Access>, entryFault: Option<DbFault>, exitFault: Option<DbFault>)
      returns (err: Option<AppError>)
      requires store.Valid()
      requires forall k :: k in entryMap ==> entryMap[k].externalId == k
      requires forall k :: k in exitMap ==> exitMap[k].externalId == k && exitMap[k].exitAt.Some?
      modifies store
      ensures store.Valid()
      ensures if TxFails(entryFault, |entryMap|) then
          err == Some(StoreError(entryFault.value.cause)) && store.rows == old(store.rows)
        else if TxFails(exitFault, |exitMap|) then
          err == Some(StoreError(exitFault.value.cause)) && store.rows == ApplyMap(old(store.rows), entryMap, LastEntry)
        else
          err.None? && store.rows == ApplyMap(ApplyMap(old(store.rows), entryMap, LastEntry), exitMap, LastExit)
    {
      var entryList := MapValues(entryMap);
      var exitList := MapValues(exitMap);
      UpdatesFromMap(store.rows, entryList, entryMap, LastEntry);
      if |entryList| > 0 {
        err := store.UpdateEntryAt(entryList, entryFault);
        if err.Some? {
          return;
        }
      }
      UpdatesFromMap(store.rows, exitList, exitMap, LastExit);
      if |exitList| > 0 {
        err := store.UpdateExitAt(exitList, exitFault);
        if err.Some? {
          return;
        }
      }
      return None;
    }

    /**
     * `compareTrackAndAccess`: every access against every track, then the
     * entry update, then the exit update. A pair with exactly one exit
     * missing panics; a failed update ends the run with that error.
     */
    method CompareTrackAndAccess(accesses: seq<Access>, tracks: seq<Track>, entryFault: Option<DbFault>, exitFault: Option<DbFault>)
      returns (entryTracks: seq<Track>, exitTracks: seq<Track>, status: Outcome)
      requires store.Valid()
      modifies store
      ensures store.Valid()
      ensures status == Panicked <==> Crashes(accesses, tracks)
      ensures Crashes(accesses, tracks) ==> store.rows == old(store.rows)
      ensures !Crashes(accesses, tracks) ==>
        var entries := Reps(accesses, tracks, LastEntry);
        var exits := Reps(accesses, tracks, LastExit);
        if TxFails(entryFault, |entries|) then
          status == Failed(StoreError(entryFault.value.cause)) && store.rows == old(store.rows)
        else if TxFails(exitFault, |exits|) then
          status == Failed(StoreError(exitFault.value.cause)) && store.rows == ApplyMap(old(store.rows), entries, LastEntry)
        else
          status == Done && entryTracks == Matches(accesses, tracks, LastEntry) && exitTracks == Matches(accesses, tracks, LastExit)
          && store.rows == ApplyMap(ApplyMap(old(store.rows), entries, LastEntry), exits, LastExit)
    {
      var entryMap, exitMap, crashed;
      entryTracks, exitTracks, entryMap, exitMap, crashed := CompareAll(accesses, tracks);
      if crashed {
        return [], [], Panicked;
      }
      var err := StoreUpdates(entryMap, exitMap, entryFault, exitFault);
      if err.Some? {
        return [], [], Failed(err.value);
      }
      return entryTracks, exitTracks, Done;
    }

    /** `createNotificationRequest`: for each track, the first access with its id gives the date and place. */
    method CreateNotificationRequest(kind: NotificationType, accesses: seq<Access>, tracks: seq<Track>)
      returns (requests: seq<NotificationRequest>)
      requires Notifiable(accesses, tracks, kind)
      ensures requests == NotificationsFor(kind, accesses, tracks)
    {
      requests := [];
      var i := 0;
      while i < |tracks|
        invariant 0 <= i <= |tracks|
        invariant requests == NotificationsFor(kind, accesses, tracks)[..i]
      {
        var track := tracks[i];
        var k := 0;
        while k < |accesses| && accesses[k].externalId != track.externalId
          invariant 0 <= k <= |accesses|
          invariant forall k' :: 0 <= k' < k ==> accesses[k'].externalId != track.externalId
        {
          k := k + 1;
        }
        assert FirstWithId(accesses, track.externalId) == Some(k);
        var access := accesses[k];
        var date := if kind == NotificationTypeEntry then access.entryAt else access.exitAt.value;
        requests := requests + [NotificationRequest(kind, date, track.chatId, track.run, track.fullName, track.alias, access.location)];
        i := i + 1;
      }
    }

    /**
     * The request list `CheckAccess` sends: the ENTRY requests for the
     * tracks the entry test matched, then the EXIT requests, each kind built
     * only when its list is not empty.
     */
    method CollectRequests(accesses: seq<Access>, tracks: seq<Track>, entryTracks: seq<Track>, exitTracks: seq<Track>)
      returns (requests: seq<NotificationRequest>)
      requires !Crashes(accesses, tracks)
      requires entryTracks == Matches(accesses, tracks, LastEntry)
      requires exitTracks == Matches(accesses, tracks, LastExit)
      ensures requests == Notifications(accesses, tracks)
    {
      MatchesNotifiable(accesses, tracks, LastEntry);
      MatchesNotifiable(accesses, tracks, LastExit);
      requests := [];
      if |entryTracks| > 0 {
        var entryRequests := CreateNotificationRequest(NotificationTypeEntry, accesses, entryTracks);
        requests := requests + entryRequests;
      }
      if |exitTracks| > 0 {
        var exitRequests := CreateNotificationRequest(NotificationTypeExit, accesses, exitTracks);
        requests := requests + exitRequests;
      }
    }

    /**
     * `CheckAccess`: read every track, compare and update, then hand all
     * requests to the notifier in one batch. A publishing failure does not
     * change the result.
     */
    method CheckAccess(accesses: seq<Access>, faults: StoreFaults, publishFault: Option<PublishFault>) returns (outcome: Outcome)
      requires store.Valid()
      modifies store, notifier
      ensures store.Valid()
      ensures var c := RunCycle(old(store.rows), accesses, faults);
        outcome == c.outcome && store.rows == c.rows
        && notifier.batches == old(notifier.batches) + (if c.sent.Some? then [c.sent.value] else [])
        && notifier.published == old(notifier.published)
             + (if c.sent.Some? then Messages(c.sent.value[..PublishedCount(publishFault, |c.sent.value|)]) else [])
        && notifier.posts == old(notifier.posts)
    {
      var all := store.GetAll(faults.getAll);
      if all.Err? {
        return Failed(all.error);
      }
      var tracks := all.value;
      var entryTracks, exitTracks, status := CompareTrackAndAccess(accesses, tracks, faults.entryUpdate, faults.exitUpdate);
      if status != Done {
        return status;
      }
      var requests := CollectRequests(accesses, tracks, entryTracks, exitTracks);
      if |requests| == 0 {
        return Done;
      }
      var ignored := notifier.SendNotification(requests, publishFault);
      return Done;
    }

    /**
     * The body of the conversion loop of `GetRecentlyAccess` for one record:
     * the id, the location, the entry and the optional exit, in that order,
     * stopping at the first that does not parse.
     */
    method ConvertRecord(dto: AccessDTO, parseTime: string -> Result<Time, string>)
      returns (r: Result<Access, AppError>)
      ensures r == Convert(dto, parseTime)
    {
      ParseWidths(dto.externalId);
      ParseWidths(dto.location);
      var externalId := ParseInt(dto.externalId, 32);
      if externalId.Err? {
        return Err(ServiceError(Plain(NumErrorText(externalId.error))));
      }
      var location := ParseInt(dto.location, 8);
      if location.Err? {
        return Err(ServiceError(Plain(NumErrorText(location.error))));
      }
      var entryAt := parseTime(dto.entryAt);
      if entryAt.Err? {
        return Err(ServiceError(Plain(entryAt.error)));
      }
      var exitAt: Option<Time> := None;
      if dto.exitAt.Some? {
        var parsed := parseTime(dto.exitAt.value);
        if parsed.Err? {
          return Err(ServiceError(Plain(parsed.error)));
        }
        exitAt := Some(parsed.value);
      }
      return Ok(Access(externalId.value as Int32, dto.run, dto.fullName, location.value as Int8, entryAt.value, exitAt));
    }

    /**
     * The conversion loop of `GetRecentlyAccess`, from the decoded feed on:
     * every record converted in order, or the first record's error.
     */
    method ConvertRecentAccesses(dtos: seq<AccessDTO>, parseTime: string -> Result<Time, string>)
      returns (r: Result<seq<Access>, AppError>)
      ensures r == ConvertAll(dtos, parseTime)
    {
      var accesses: seq<Access> := [];
      var i := 0;
      while i < |dtos|
        invariant 0 <= i <= |dtos|
        invariant ConvertAll(dtos[..i], parseTime) == Ok(accesses)
      {
        var one := ConvertRecord(dtos[i], parseTime);
        ConvertAllStep(dtos, parseTime, i, accesses);
        if one.Err? {
          ConvertAllKeepsFirstError(dtos, parseTime, i + 1);
          return Err(one.error);
        }
        accesses := accesses + [one.value];
        i := i + 1;
      }
      assert dtos[..i] == dtos;
      return Ok(accesses);
    }
  }
}
