/**
 * What one run of `CheckAccess` (internal/service/access.go) decides, as
 * functions of the access batch and the tracks it reads: which
 * (access, track) pairs changed, which access represents each external id
 * in the store updates, which notification requests are built, and how the
 * store ends up. The imperative engine in module AccessService is proved to
 * follow these definitions.
 */
module Reconcile {
  import opened Common
  import opened Model
  import opened AppErrors
  import opened Seqs
  import opened TrackStore

  // ---------------------------------------------------------------------
  // One access against one track
  // ---------------------------------------------------------------------

  /** The entry test: a missing last entry, or a different instant. */
  predicate EntryChanged(lastEntry: Option<Time>, entryAt: Time)
  {
    lastEntry.None? || lastEntry.value != entryAt
  }

  datatype ExitOutcome = Unchanged | Changed | Crash

  /**
   * The exit test. When exactly one side is absent, the comparison
   * `track.LastExit.Equal(*access.ExitAt)` dereferences nil and the run
   * panics; that is `Crash`, never a change.
   */
  function ExitTest(lastExit: Option<Time>, exitAt: Option<Time>): (o: ExitOutcome)
    ensures o == Crash <==> lastExit.Some? != exitAt.Some?
    ensures o == Changed <==> lastExit.Some? && exitAt.Some? && lastExit.value != exitAt.value
    ensures o == Unchanged <==> lastExit == exitAt
  {
    if lastExit.None? && exitAt.None? then Unchanged
    else if lastExit.None? || exitAt.None? then Crash
    else if lastExit.value != exitAt.value then Changed
    else Unchanged
  }

  /** Whether `a` counts as a change of column `col` for `t`. */
  predicate Fires(a: Access, t: Track, col: Column)
  {
    a.externalId == t.externalId
    && if col == LastEntry then EntryChanged(t.lastEntry, a.entryAt) else ExitTest(t.lastExit, a.exitAt) == Changed
  }

  predicate CrashesOn(a: Access, t: Track)
  {
    a.externalId == t.externalId && ExitTest(t.lastExit, a.exitAt) == Crash
  }

  /** Some pair of the run panics in the exit test. */
  predicate Crashes(accesses: seq<Access>, tracks: seq<Track>)
  {
    exists i, j :: 0 <= i < |accesses| && 0 <= j < |tracks| && CrashesOn(accesses[i], tracks[j])
  }

  // ---------------------------------------------------------------------
  // The whole batch
  // ---------------------------------------------------------------------

  /** The tracks appended while one access is compared with every track. */
  function Hits(a: Access, tracks: seq<Track>, col: Column): seq<Track>
  {
    Filter(tracks, (t: Track) => Fires(a, t, col))
  }

  /** `matchEntryAtTracks` / `matchExitAtTracks`: the hits of every access, in batch order. */
  function Matches(accesses: seq<Access>, tracks: seq<Track>, col: Column): seq<Track>
    decreases |accesses|
  {
    if |accesses| == 0 then []
    else Matches(accesses[..|accesses| - 1], tracks, col) + Hits(accesses[|accesses| - 1], tracks, col)
  }

  /** The insert-if-absent step of `trackToUpdateEntry` / `trackToUpdateExit` for one access. */
  function RepsStep(m: map<Int32, Access>, a: Access, fired: bool): map<Int32, Access>
  {
    if fired && a.externalId !in m then m[a.externalId := a] else m
  }

  /** Two insert-if-absent steps for the same access are one step that fires if either did. */
  lemma RepsStepTwice(m: map<Int32, Access>, a: Access, first: bool, second: bool)
    ensures RepsStep(RepsStep(m, a, first), a, second) == RepsStep(m, a, first || second)
  {
  }

  /** The update map: per external id, one access that fired on some track. */
  function Reps(accesses: seq<Access>, tracks: seq<Track>, col: Column): (m: map<Int32, Access>)
    ensures forall k :: k in m ==> m[k].externalId == k
    ensures col == LastExit ==> forall k :: k in m ==> m[k].exitAt.Some?
    decreases |accesses|
  {
    if |accesses| == 0 then map[]
    else
      var a := accesses[|accesses| - 1];
      var hits := Hits(a, tracks, col);
      assert |hits| > 0 ==> hits[0] in tracks && Fires(a, hits[0], col);
      RepsStep(Reps(accesses[..|accesses| - 1], tracks, col), a, |hits| > 0)
  }

  /** A track that changed has a first access with its external id, and, for an exit, that access has an exit. */
  predicate Notifiable(accesses: seq<Access>, tracks: seq<Track>, kind: NotificationType)
  {
    forall i :: 0 <= i < |tracks| ==>
      var first := FirstWithId(accesses, tracks[i].externalId);
      first.Some? && (kind != NotificationTypeEntry ==> accesses[first.value].exitAt.Some?)
  }

  function KindColumn(kind: NotificationType): Column
  {
    if kind == NotificationTypeEntry then LastEntry else LastExit
  }

  /** The request for one track: people data from the track, date and place from the access. */
  function Notify(kind: NotificationType, a: Access, t: Track): NotificationRequest
    requires kind != NotificationTypeEntry ==> a.exitAt.Some?
  {
    NotificationRequest(kind, Stamp(a, KindColumn(kind)), t.chatId, t.run, t.fullName, t.alias, a.location)
  }

  /** `createNotificationRequest`: one request per track, using the batch's first access with its id. */
  function NotificationsFor(kind: NotificationType, accesses: seq<Access>, tracks: seq<Track>): (r: seq<NotificationRequest>)
    requires Notifiable(accesses, tracks, kind)
    ensures |r| == |tracks|
  {
    seq(|tracks|, i requires 0 <= i < |tracks| =>
      Notify(kind, accesses[FirstWithId(accesses, tracks[i].externalId).value], tracks[i]))
  }

  /** Every ENTRY request, then every EXIT request. */
  function Notifications(accesses: seq<Access>, tracks: seq<Track>): seq<NotificationRequest>
    requires !Crashes(accesses, tracks)
  {
    MatchesNotifiable(accesses, tracks, LastEntry);
    MatchesNotifiable(accesses, tracks, LastExit);
    NotificationsFor(NotificationTypeEntry, accesses, Matches(accesses, tracks, LastEntry))
      + NotificationsFor(NotificationTypeExit, accesses, Matches(accesses, tracks, LastExit))
  }

  // ---------------------------------------------------------------------
  // One cycle against the store
  // ---------------------------------------------------------------------

  datatype Outcome = Done | Failed(error: AppError) | Panicked

  /** Where the store fails during one cycle, if it does. */
  datatype StoreFaults = StoreFaults(getAll: Option<Cause>, entryUpdate: Option<DbFault>, exitUpdate: Option<DbFault>)

  /** The result of a cycle, the table after it, and the batch sent to the notifier if any. */
  datatype Cycle = Cycle(outcome: Outcome, rows: seq<Track>, sent: Option<seq<NotificationRequest>>)

  /**
   * One `CheckAccess` run on a table holding `rows`. A `GetAll` error, a
   * panic or an `UpdateEntryAt` error leave the table as it was; an
   * `UpdateExitAt` error keeps the already committed entry update. Only a
   * run that reaches the end sends, and only when there is something to send.
   */
  function RunCycle(rows: seq<Track>, accesses: seq<Access>, faults: StoreFaults): Cycle
  {
    if faults.getAll.Some? then Cycle(Failed(StoreError(faults.getAll.value)), rows, None)
    else if Crashes(accesses, rows) then Cycle(Panicked, rows, None)
    else
      var entries := Reps(accesses, rows, LastEntry);
      var exits := Reps(accesses, rows, LastExit);
      if TxFails(faults.entryUpdate, |entries|) then
        Cycle(Failed(StoreError(faults.entryUpdate.value.cause)), rows, None)
      else
        var afterEntry := ApplyMap(rows, entries, LastEntry);
        if TxFails(faults.exitUpdate, |exits|) then
          Cycle(Failed(StoreError(faults.exitUpdate.value.cause)), afterEntry, None)
        else
          var requests := Notifications(accesses, rows);
          Cycle(Done, ApplyMap(afterEntry, exits, LastExit), if |requests| == 0 then None else Some(requests))
  }

  // ---------------------------------------------------------------------
  // Lemmas
  // ---------------------------------------------------------------------

  /** The hits of one access are exactly the tracks it fires on, in track order. */
  lemma HitsMembers(a: Access, tracks: seq<Track>, col: Column)
    ensures forall t :: t in Hits(a, tracks, col) <==> t in tracks && Fires(a, t, col)
  {
    forall t | t in tracks && Fires(a, t, col) ensures t in Hits(a, tracks, col) {
      var j :| 0 <= j < |tracks| && tracks[j] == t;
    }
  }

  /** Every track on which some access fires is matched. */
  lemma {:induction false} MatchesIntro(accesses: seq<Access>, tracks: seq<Track>, col: Column, i: nat, j: nat)
    requires i < |accesses| && j < |tracks| && Fires(accesses[i], tracks[j], col)
    ensures tracks[j] in Matches(accesses, tracks, col)
    decreases |accesses|
  {
    var init := accesses[..|accesses| - 1];
    if i < |init| {
      assert init[i] == accesses[i];
      MatchesIntro(init, tracks, col, i, j);
    } else {
      HitsMembers(accesses[i], tracks, col);
    }
  }

  /** Every matched track is one on which some access fires. */
  lemma {:induction false} MatchesElim(accesses: seq<Access>, tracks: seq<Track>, col: Column, t: Track)
    requires t in Matches(accesses, tracks, col)
    ensures exists i, j :: 0 <= i < |accesses| && 0 <= j < |tracks| && tracks[j] == t && Fires(accesses[i], tracks[j], col)
    decreases |accesses|
  {
    var init := accesses[..|accesses| - 1];
    var last := accesses[|accesses| - 1];
    if t in Matches(init, tracks, col) {
      MatchesElim(init, tracks, col, t);
      var i, j :| 0 <= i < |init| && 0 <= j < |tracks| && tracks[j] == t && Fires(init[i], tracks[j], col);
      assert accesses[i] == init[i];
    } else {
      HitsMembers(last, tracks, col);
      var j :| 0 <= j < |tracks| && tracks[j] == t;
      assert Fires(accesses[|accesses| - 1], tracks[j], col);
    }
  }

  /** A matched track is exactly a track on which some access of the batch fired. */
  lemma MatchesMembers(accesses: seq<Access>, tracks: seq<Track>, col: Column, t: Track)
    ensures t in Matches(accesses, tracks, col) <==>
      exists i, j :: 0 <= i < |accesses| && 0 <= j < |tracks| && tracks[j] == t && Fires(accesses[i], tracks[j], col)
  {
    if t in Matches(accesses, tracks, col) {
      MatchesElim(accesses, tracks, col, t);
    }
    if exists i, j :: 0 <= i < |accesses| && 0 <= j < |tracks| && tracks[j] == t && Fires(accesses[i], tracks[j], col) {
      var i, j :| 0 <= i < |accesses| && 0 <= j < |tracks| && tracks[j] == t && Fires(accesses[i], tracks[j], col);
      MatchesIntro(accesses, tracks, col, i, j);
    }
  }

  /** In a run that does not panic, every matched track can be turned into a request. */
  lemma MatchesNotifiable(accesses: seq<Access>, tracks: seq<Track>, col: Column)
    requires !Crashes(accesses, tracks)
    ensures Notifiable(accesses, Matches(accesses, tracks, col), if col == LastEntry then NotificationTypeEntry else NotificationTypeExit)
  {
    var ms := Matches(accesses, tracks, col);
    forall m | 0 <= m < |ms|
      ensures FirstWithId(accesses, ms[m].externalId).Some?
      ensures col == LastExit ==> accesses[FirstWithId(accesses, ms[m].externalId).value].exitAt.Some?
    {
      MatchesMembers(accesses, tracks, col, ms[m]);
      var i, j :| 0 <= i < |accesses| && 0 <= j < |tracks| && tracks[j] == ms[m] && Fires(accesses[i], tracks[j], col);
      var f := FirstWithId(accesses, ms[m].externalId);
      assert accesses[i].externalId == ms[m].externalId;
      if col == LastExit {
        assert !CrashesOn(accesses[f.value], tracks[j]);
      }
    }
  }

  /**
   * The update map holds, for each external id, the FIRST access of the
   * batch with that id that fired on some track, and nothing else.
   */
  lemma {:induction false} RepsAreFirstFiring(accesses: seq<Access>, tracks: seq<Track>, col: Column, k: Int32)
    ensures k in Reps(accesses, tracks, col) <==>
      exists i :: 0 <= i < |accesses| && accesses[i].externalId == k && |Hits(accesses[i], tracks, col)| > 0
    ensures k in Reps(accesses, tracks, col) ==>
      exists i :: 0 <= i < |accesses| && accesses[i] == Reps(accesses, tracks, col)[k]
        && |Hits(accesses[i], tracks, col)| > 0
        && forall j :: 0 <= j < i && accesses[j].externalId == k ==> |Hits(accesses[j], tracks, col)| == 0
    decreases |accesses|
  {
    if |accesses| > 0 {
      var n := |accesses| - 1;
      var init := accesses[..n];
      RepsAreFirstFiring(init, tracks, col, k);
      var m := Reps(init, tracks, col);
      if k in m {
        var i :| 0 <= i < |init| && init[i] == m[k] && |Hits(init[i], tracks, col)| > 0
          && forall j :: 0 <= j < i && init[j].externalId == k ==> |Hits(init[j], tracks, col)| == 0;
        assert accesses[i] == init[i];
        forall j | 0 <= j < i && accesses[j].externalId == k ensures |Hits(accesses[j], tracks, col)| == 0 {
          assert init[j] == accesses[j];
        }
      } else {
        if k in Reps(accesses, tracks, col) {
          forall j | 0 <= j < n && accesses[j].externalId == k ensures |Hits(accesses[j], tracks, col)| == 0 {
            assert init[j] == accesses[j];
          }
        }
      }
    }
  }

  /** Update-map entries are accesses of the batch. */
  lemma RepsFromBatch(accesses: seq<Access>, tracks: seq<Track>, col: Column, k: Int32)
    requires k in Reps(accesses, tracks, col)
    ensures Reps(accesses, tracks, col)[k] in accesses
  {
    RepsAreFirstFiring(accesses, tracks, col, k);
  }

  /** One request: people data from its track, date and place from the batch's first access with the track's id. */
  lemma RequestFields(kind: NotificationType, accesses: seq<Access>, tracks: seq<Track>, i: nat)
    requires Notifiable(accesses, tracks, kind) && i < |tracks|
    ensures var r := NotificationsFor(kind, accesses, tracks)[i];
            var first := FirstWithId(accesses, tracks[i].externalId);
            first.Some?
            && var a := accesses[first.value];
               a.externalId == tracks[i].externalId
               && r.kind == kind && r.chatId == tracks[i].chatId && r.run == tracks[i].run
               && r.fullName == tracks[i].fullName && r.alias == tracks[i].alias && r.location == a.location
               && r.date == (if kind == NotificationTypeEntry then a.entryAt else a.exitAt.value)
  {
  }

  /**
   * One request per matched pair: the ENTRY requests come first, in the
   * order of the entry matches, then the EXIT requests, in the order of the
   * exit matches.
   */
  lemma NotificationsShape(accesses: seq<Access>, tracks: seq<Track>, es: seq<Track>, xs: seq<Track>, n: seq<NotificationRequest>)
    requires !Crashes(accesses, tracks)
    requires es == Matches(accesses, tracks, LastEntry) && xs == Matches(accesses, tracks, LastExit)
    requires n == Notifications(accesses, tracks)
    ensures |n| == |es| + |xs|
    ensures forall i :: 0 <= i < |es| ==> n[i].kind == NotificationTypeEntry && n[i].chatId == es[i].chatId && n[i].run == es[i].run
    ensures forall i :: |es| <= i < |n| ==> n[i].kind == NotificationTypeExit && n[i].chatId == xs[i - |es|].chatId && n[i].run == xs[i - |es|].run
  {
    NotificationsSplit(accesses, tracks, es, xs);
    EntriesThenExits(accesses, es, xs, n);
  }

  /** The request list is the ENTRY part for `es` followed by the EXIT part for `xs`. */
  lemma NotificationsSplit(accesses: seq<Access>, tracks: seq<Track>, es: seq<Track>, xs: seq<Track>)
    requires !Crashes(accesses, tracks)
    requires es == Matches(accesses, tracks, LastEntry) && xs == Matches(accesses, tracks, LastExit)
    ensures Notifiable(accesses, es, NotificationTypeEntry) && Notifiable(accesses, xs, NotificationTypeExit)
    ensures Notifications(accesses, tracks) == NotificationsFor(NotificationTypeEntry, accesses, es) + NotificationsFor(NotificationTypeExit, accesses, xs)
  {
    MatchesNotifiable(accesses, tracks, LastEntry);
    MatchesNotifiable(accesses, tracks, LastExit);
  }

  /** ENTRY requests for `es` followed by EXIT requests for `xs`, position by position. */
  lemma EntriesThenExits(accesses: seq<Access>, es: seq<Track>, xs: seq<Track>, n: seq<NotificationRequest>)
    requires Notifiable(accesses, es, NotificationTypeEntry) && Notifiable(accesses, xs, NotificationTypeExit)
    requires n == NotificationsFor(NotificationTypeEntry, accesses, es) + NotificationsFor(NotificationTypeExit, accesses, xs)
    ensures |n| == |es| + |xs|
            && (forall i :: 0 <= i < |es| ==> n[i].kind == NotificationTypeEntry && n[i].chatId == es[i].chatId && n[i].run == es[i].run)
            && (forall i :: |es| <= i < |n| ==> n[i].kind == NotificationTypeExit && n[i].chatId == xs[i - |es|].chatId && n[i].run == xs[i - |es|].run)
  {
    RequestsFollowTracks(NotificationTypeEntry, accesses, es);
    RequestsFollowTracks(NotificationTypeExit, accesses, xs);
  }

  /** The requests of one kind follow their tracks one for one, in order. */
  lemma RequestsFollowTracks(kind: NotificationType, accesses: seq<Access>, tracks: seq<Track>)
    requires Notifiable(accesses, tracks, kind)
    ensures var n := NotificationsFor(kind, accesses, tracks);
            forall i :: 0 <= i < |tracks| ==> n[i].kind == kind && n[i].chatId == tracks[i].chatId && n[i].run == tracks[i].run
  {
    forall i | 0 <= i < |tracks|
      ensures var n := NotificationsFor(kind, accesses, tracks);
              n[i].kind == kind && n[i].chatId == tracks[i].chatId && n[i].run == tracks[i].run
    {
      RequestFields(kind, accesses, tracks, i);
    }
  }

  /** One more track scanned: the list so far gains the track when it fires, and the map takes one more step. */
  lemma ScanStep(a: Access, tracks: seq<Track>, col: Column, j: nat, acc0: seq<Track>, m0: map<Int32, Access>)
    requires j < |tracks|
    ensures acc0 + Hits(a, tracks[..j + 1], col) == acc0 + Hits(a, tracks[..j], col) + (if Fires(a, tracks[j], col) then [tracks[j]] else [])
    ensures RepsStep(m0, a, |Hits(a, tracks[..j + 1], col)| > 0)
            == RepsStep(RepsStep(m0, a, |Hits(a, tracks[..j], col)| > 0), a, Fires(a, tracks[j], col))
  {
    HitsSnoc(a, tracks, col, j);
    RepsStepTwice(m0, a, |Hits(a, tracks[..j], col)| > 0, Fires(a, tracks[j], col));
  }

  /** One more access of the batch appends its hits and takes one insert-if-absent step. */
  lemma BatchSnoc(accesses: seq<Access>, tracks: seq<Track>, col: Column, i: nat)
    requires i < |accesses|
    ensures Matches(accesses[..i + 1], tracks, col) == Matches(accesses[..i], tracks, col) + Hits(accesses[i], tracks, col)
    ensures Reps(accesses[..i + 1], tracks, col) == RepsStep(Reps(accesses[..i], tracks, col), accesses[i], |Hits(accesses[i], tracks, col)| > 0)
  {
    assert accesses[..i + 1][..i] == accesses[..i];
  }

  /** Scanning one more track appends it to the hits exactly when the access fires on it. */
  lemma HitsSnoc(a: Access, tracks: seq<Track>, col: Column, j: nat)
    requires j < |tracks|
    ensures Hits(a, tracks[..j + 1], col) == Hits(a, tracks[..j], col) + (if Fires(a, tracks[j], col) then [tracks[j]] else [])
  {
    assert tracks[..j + 1][..j] == tracks[..j];
  }

  /** A track the batch does not mention is never matched. */
  lemma {:induction false} UnmentionedNeverMatched(accesses: seq<Access>, tracks: seq<Track>, col: Column)
    requires forall i, j :: 0 <= i < |accesses| && 0 <= j < |tracks| ==> accesses[i].externalId != tracks[j].externalId
    ensures Matches(accesses, tracks, col) == [] && Reps(accesses, tracks, col) == map[]
    decreases |accesses|
  {
    if |accesses| > 0 {
      var init := accesses[..|accesses| - 1];
      UnmentionedNeverMatched(init, tracks, col);
      var last := accesses[|accesses| - 1];
      FilterAllOrNone(tracks, (t: Track) => Fires(last, t, col));
    }
  }

  lemma ApplyEmptyMap(rows: seq<Track>, col: Column)
    ensures ApplyMap(rows, map[], col) == rows
  {
  }

  /**
   * An empty batch, or one whose external ids match no track, changes
   * nothing, sends nothing and succeeds.
   */
  lemma QuietWhenNothingMatches(rows: seq<Track>, accesses: seq<Access>, faults: StoreFaults)
    requires faults.getAll.None?
    requires forall i, j :: 0 <= i < |accesses| && 0 <= j < |rows| ==> accesses[i].externalId != rows[j].externalId
    ensures RunCycle(rows, accesses, faults) == Cycle(Done, rows, None)
  {
    UnmentionedNeverMatched(accesses, rows, LastEntry);
    UnmentionedNeverMatched(accesses, rows, LastExit);
    ApplyEmptyMap(rows, LastEntry);
    ApplyEmptyMap(rows, LastExit);
    assert Notifications(accesses, rows) == [];
  }

  lemma QuietOnEmptyBatch(rows: seq<Track>, faults: StoreFaults)
    requires faults.getAll.None?
    ensures RunCycle(rows, [], faults) == Cycle(Done, rows, None)
  {
    QuietWhenNothingMatches(rows, [], faults);
  }

  /** A failed entry update aborts the cycle: no exit update, no request, the table as it was. */
  lemma EntryFailureStopsCycle(rows: seq<Track>, accesses: seq<Access>, faults: StoreFaults)
    requires faults.getAll.None? && !Crashes(accesses, rows)
    requires TxFails(faults.entryUpdate, |Reps(accesses, rows, LastEntry)|)
    ensures RunCycle(rows, accesses, faults) == Cycle(Failed(StoreError(faults.entryUpdate.value.cause)), rows, None)
  {
  }

  /** Distinct external ids: at most one access per identity in the batch. */
  predicate DistinctIds(accesses: seq<Access>)
  {
    forall i, j :: 0 <= i < |accesses| && 0 <= j < |accesses| && i != j ==> accesses[i].externalId != accesses[j].externalId
  }

  /**
   * After the updates of a run that did not panic, every track mentioned by
   * a batch with distinct ids agrees with that batch: no access fires, and
   * none panics.
   */
  lemma SettledAgainstBatch(rows: seq<Track>, accesses: seq<Access>, i: nat, j: nat)
    requires DistinctIds(accesses) && !Crashes(accesses, rows)
    requires i < |accesses| && j < |rows|
    ensures var settled := ApplyMap(ApplyMap(rows, Reps(accesses, rows, LastEntry), LastEntry),
                                   Reps(accesses, rows, LastExit), LastExit);
            |settled| == |rows|
            && !Fires(accesses[i], settled[j], LastEntry) && !Fires(accesses[i], settled[j], LastExit)
            && !CrashesOn(accesses[i], settled[j])
  {
    var a := accesses[i];
    var t := rows[j];
    var entries := Reps(accesses, rows, LastEntry);
    var exits := Reps(accesses, rows, LastExit);
    var mid := ApplyMap(rows, entries, LastEntry);
    var settled := ApplyMap(mid, exits, LastExit);
    if a.externalId == t.externalId {
      assert !CrashesOn(a, t);
      HitsMembers(a, rows, LastEntry);
      HitsMembers(a, rows, LastExit);
      RepsAreFirstFiring(accesses, rows, LastEntry, a.externalId);
      RepsAreFirstFiring(accesses, rows, LastExit, a.externalId);
      if a.externalId in entries {
        RepsFromBatch(accesses, rows, LastEntry, a.externalId);
        var k :| 0 <= k < |accesses| && accesses[k] == entries[a.externalId];
        assert k == i;
      } else {
        assert !Fires(a, t, LastEntry);
      }
      if a.externalId in exits {
        RepsFromBatch(accesses, rows, LastExit, a.externalId);
        var k :| 0 <= k < |accesses| && accesses[k] == exits[a.externalId];
        assert k == i;
      } else {
        assert !Fires(a, t, LastExit);
      }
    }
  }

  /**
   * Idempotence: for a batch with distinct external ids whose run does not
   * panic, running the cycle again on the table it left sends nothing and
   * changes nothing.
   */
  lemma SecondRunIsQuiet(rows: seq<Track>, accesses: seq<Access>, faults: StoreFaults, again: StoreFaults)
    requires DistinctIds(accesses)
    requires faults.getAll.None? && again.getAll.None?
    requires RunCycle(rows, accesses, faults).outcome == Done
    ensures var settled := RunCycle(rows, accesses, faults).rows;
            RunCycle(settled, accesses, again) == Cycle(Done, settled, None)
  {
    var settled := RunCycle(rows, accesses, faults).rows;
    assert !Crashes(accesses, rows);
    assert !Crashes(accesses, settled) && Quiet(accesses, settled) by {
      forall i, j | 0 <= i < |accesses| && 0 <= j < |settled|
        ensures !CrashesOn(accesses[i], settled[j])
        ensures !Fires(accesses[i], settled[j], LastEntry) && !Fires(accesses[i], settled[j], LastExit)
      {
        SettledAgainstBatch(rows, accesses, i, j);
      }
    }
    NothingFires(accesses, settled, LastEntry);
    NothingFires(accesses, settled, LastExit);
    ApplyEmptyMap(settled, LastEntry);
    ApplyEmptyMap(settled, LastExit);
    assert Notifications(accesses, settled) == [];
  }

  /** No access of the batch fires on any track. */
  ghost predicate Quiet(accesses: seq<Access>, tracks: seq<Track>)
  {
    forall i, j :: 0 <= i < |accesses| && 0 <= j < |tracks| ==>
      !Fires(accesses[i], tracks[j], LastEntry) && !Fires(accesses[i], tracks[j], LastExit)
  }

  lemma {:induction false} NothingFires(accesses: seq<Access>, tracks: seq<Track>, col: Column)
    requires Quiet(accesses, tracks)
    ensures Matches(accesses, tracks, col) == [] && Reps(accesses, tracks, col) == map[]
    decreases |accesses|
  {
    if |accesses| > 0 {
      var init := accesses[..|accesses| - 1];
      assert Quiet(init, tracks) by {
        forall i, j | 0 <= i < |init| && 0 <= j < |tracks|
          ensures !Fires(init[i], tracks[j], LastEntry) && !Fires(init[i], tracks[j], LastExit)
        {
          assert init[i] == accesses[i];
        }
      }
      NothingFires(init, tracks, col);
      var last := accesses[|accesses| - 1];
      FilterAllOrNone(tracks, (t: Track) => Fires(last, t, col));
    }
  }

  /** An access that fires on every track hits them all; one that fires on none hits nothing. */
  lemma HitsAllOrNone(a: Access, tracks: seq<Track>, col: Column)
    ensures (forall j :: 0 <= j < |tracks| ==> Fires(a, tracks[j], col)) ==> Hits(a, tracks, col) == tracks
    ensures (forall j :: 0 <= j < |tracks| ==> !Fires(a, tracks[j], col)) ==> Hits(a, tracks, col) == []
  {
    FilterAllOrNone(tracks, (t: Track) => Fires(a, t, col));
  }

  /** A batch of one access matches its hits and updates at most its own id. */
  lemma SingleAccess(a: Access, rows: seq<Track>, col: Column)
    ensures Matches([a], rows, col) == Hits(a, rows, col)
    ensures Reps([a], rows, col) == if |Hits(a, rows, col)| > 0 then map[a.externalId := a] else map[]
  {
    assert [a][..0] == [];
  }

  /** The premise of `SharedIdentityFanOut`: both rows see a new entry and an unchanged exit. */
  predicate FreshEntryFor(a: Access, t: Track)
  {
    t.externalId == a.externalId && EntryChanged(t.lastEntry, a.entryAt) && t.lastExit == a.exitAt
  }

  lemma FanOutMatches(a: Access, t1: Track, t2: Track)
    requires FreshEntryFor(a, t1) && FreshEntryFor(a, t2)
    ensures !Crashes([a], [t1, t2])
    ensures Matches([a], [t1, t2], LastEntry) == [t1, t2] && Matches([a], [t1, t2], LastExit) == []
    ensures Reps([a], [t1, t2], LastEntry) == map[a.externalId := a] && Reps([a], [t1, t2], LastExit) == map[]
  {
    FanOutColumn(a, t1, t2, LastEntry);
    FanOutColumn(a, t1, t2, LastExit);
  }

  /** One column of `FanOutMatches`: every row fires on entry, none on exit. */
  lemma FanOutColumn(a: Access, t1: Track, t2: Track, col: Column)
    requires FreshEntryFor(a, t1) && FreshEntryFor(a, t2)
    ensures Matches([a], [t1, t2], col) == if col == LastEntry then [t1, t2] else []
    ensures Reps([a], [t1, t2], col) == if col == LastEntry then map[a.externalId := a] else map[]
  {
    var rows := [t1, t2];
    assert Fires(a, rows[0], col) == Fires(a, rows[1], col) == (col == LastEntry);
    HitsAllOrNone(a, rows, col);
    SingleAccess(a, rows, col);
  }

  lemma FanOutRequests(a: Access, t1: Track, t2: Track)
    requires FreshEntryFor(a, t1) && FreshEntryFor(a, t2)
    ensures !Crashes([a], [t1, t2])
    ensures Notifications([a], [t1, t2]) == [Notify(NotificationTypeEntry, a, t1), Notify(NotificationTypeEntry, a, t2)]
  {
    FanOutMatches(a, t1, t2);
    assert FirstWithId([a], a.externalId) == Some(0);
    var entries := NotificationsFor(NotificationTypeEntry, [a], [t1, t2]);
    assert entries == [Notify(NotificationTypeEntry, a, t1), Notify(NotificationTypeEntry, a, t2)];
  }

  lemma FanOutRows(a: Access, t1: Track, t2: Track)
    requires FreshEntryFor(a, t1) && FreshEntryFor(a, t2)
    ensures ApplyMap(ApplyMap([t1, t2], map[a.externalId := a], LastEntry), map[], LastExit)
         == [t1.(lastEntry := Some(a.entryAt)), t2.(lastEntry := Some(a.entryAt))]
  {
    var mid := ApplyMap([t1, t2], map[a.externalId := a], LastEntry);
    ApplyEmptyMap(mid, LastExit);
    assert mid == [t1.(lastEntry := Some(a.entryAt)), t2.(lastEntry := Some(a.entryAt))];
  }

  /**
   * Two chats follow the same identity and one access with a new entry and
   * an unchanged exit arrives: both rows take the new entry, no exit changes,
   * and one ENTRY request per chat is sent, in table order.
   */
  lemma SharedIdentityFanOut(a: Access, t1: Track, t2: Track)
    requires FreshEntryFor(a, t1) && FreshEntryFor(a, t2)
    ensures RunCycle([t1, t2], [a], StoreFaults(None, None, None))
         == Cycle(Done, [t1.(lastEntry := Some(a.entryAt)), t2.(lastEntry := Some(a.entryAt))],
                  Some([Notify(NotificationTypeEntry, a, t1), Notify(NotificationTypeEntry, a, t2)]))
  {
    FanOutMatches(a, t1, t2);
    FanOutRequests(a, t1, t2);
    FanOutRows(a, t1, t2);
  }
}
