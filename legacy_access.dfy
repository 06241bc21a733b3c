/**
 * The older TypeScript access check (src/service/access.service.ts): entry
 * changes only, one `updateTrack` for the whole batch, one entry
 * notification per matched track.
 */
module LegacyAccessCheck {
  import opened Common
  import opened Seqs
  import opened LegacyStore
  import opened LegacyWhatsapp

  /** `access.entryAt !== track.lastEntry`: a missing last entry always differs. */
  predicate Fires(a: Access, t: Track)
  {
    a.externalId == t.userId && (t.lastEntry.None? || t.lastEntry.value != a.entryAt)
  }

  /** `matchTracks`: the tracks, in order, for which some access of the batch fires. */
  function Matched(tracks: seq<Track>, accesses: seq<Access>): (r: seq<Track>)
    ensures forall t :: t in r <==> t in tracks && exists i :: 0 <= i < |accesses| && Fires(accesses[i], t)
  {
    var p := (t: Track) => exists i :: 0 <= i < |accesses| && Fires(accesses[i], t);
    FilterMembers(tracks, p);
    Filter(tracks, p)
  }

  /** `extractUnique(matchTracks, track => track.userId)`, of which only membership is used. */
  function MatchIds(matched: seq<Track>): (ids: set<string>)
    ensures forall id :: id in ids <==> exists t :: t in matched && t.userId == id
  {
    set t | t in matched :: t.userId
  }

  /** `accessToUpdate`: the batch's accesses, in order, whose id is among the matched ones. */
  function ToUpdate(accesses: seq<Access>, ids: set<string>): (r: seq<Access>)
    ensures forall a :: a in r <==> a in accesses && a.externalId in ids
  {
    FilterMembers(accesses, (a: Access) => a.externalId in ids);
    Filter(accesses, (a: Access) => a.externalId in ids)
  }

  /** `tracksToNotify`: per matched track with an access to update, its data and that access's location. */
  function ToNotify(matched: seq<Track>, toUpdate: seq<Access>): seq<NotifyTrack>
    decreases |matched|
  {
    if |matched| == 0 then []
    else
      var init := ToNotify(matched[..|matched| - 1], toUpdate);
      var t := matched[|matched| - 1];
      match FirstFor(toUpdate, t.userId)
      case None => init
      case Some(k) => init + [NotifyTrack(t.chatId, t.run, t.fullName, t.alias, toUpdate[k].location)]
  }

  /** Every matched track has an access in the update list. */
  lemma UpdateCoversMatches(tracks: seq<Track>, accesses: seq<Access>, t: Track)
    requires t in Matched(tracks, accesses)
    ensures FirstFor(ToUpdate(accesses, MatchIds(Matched(tracks, accesses))), t.userId).Some?
  {
    var i :| 0 <= i < |accesses| && Fires(accesses[i], t);
    assert accesses[i] in ToUpdate(accesses, MatchIds(Matched(tracks, accesses)));
  }

  /** When every track has an access to update, each one gets exactly one notification, in order. */
  lemma {:induction false} NotifyEach(matched: seq<Track>, toUpdate: seq<Access>)
    requires forall i :: 0 <= i < |matched| ==> FirstFor(toUpdate, matched[i].userId).Some?
    ensures |ToNotify(matched, toUpdate)| == |matched|
    ensures forall i :: 0 <= i < |matched| ==>
      var n := ToNotify(matched, toUpdate)[i];
      n.chatId == matched[i].chatId && n.run == matched[i].run && n.fullName == matched[i].fullName
      && n.alias == matched[i].alias && n.location == toUpdate[FirstFor(toUpdate, matched[i].userId).value].location
    decreases |matched|
  {
    if |matched| > 0 {
      var init := matched[..|matched| - 1];
      var t := matched[|matched| - 1];
      NotifyEach(init, toUpdate);
      var k := FirstFor(toUpdate, t.userId).value;
      assert ToNotify(matched, toUpdate) == ToNotify(init, toUpdate) + [NotifyTrack(t.chatId, t.run, t.fullName, t.alias, toUpdate[k].location)];
    }
  }

  /**
   * One notification per matched track: chat, run, name and alias from the
   * track, location from the update list's first access with its id.
   */
  lemma OneNotificationPerMatch(tracks: seq<Track>, accesses: seq<Access>)
    ensures var matched := Matched(tracks, accesses);
            var toUpdate := ToUpdate(accesses, MatchIds(matched));
            var notify := ToNotify(matched, toUpdate);
            |notify| == |matched|
            && forall i :: 0 <= i < |matched| ==>
                 notify[i].chatId == matched[i].chatId && notify[i].run == matched[i].run
                 && notify[i].fullName == matched[i].fullName && notify[i].alias == matched[i].alias
                 && notify[i].location == toUpdate[FirstFor(toUpdate, matched[i].userId).value].location
  {
    var matched := Matched(tracks, accesses);
    forall i | 0 <= i < |matched| ensures FirstFor(ToUpdate(accesses, MatchIds(matched)), matched[i].userId).Some? {
      UpdateCoversMatches(tracks, accesses, matched[i]);
    }
    NotifyEach(matched, ToUpdate(accesses, MatchIds(matched)));
  }

  predicate DistinctIds(accesses: seq<Access>)
  {
    forall i, j :: 0 <= i < |accesses| && 0 <= j < |accesses| && i != j ==> accesses[i].externalId != accesses[j].externalId
  }

  /** The number of notifications `checkAccess` sends is the number of matched tracks. */
  lemma NotifyCount(tracks: seq<Track>, accesses: seq<Access>)
    ensures var matched := Matched(tracks, accesses);
            |ToNotify(matched, ToUpdate(accesses, MatchIds(matched)))| == |matched|
  {
    OneNotificationPerMatch(tracks, accesses);
  }

  /** The table after one `checkAccess` on `rows`. */
  function AfterCheck(rows: seq<Track>, accesses: seq<Access>): seq<Track>
  {
    var matched := Matched(OfType(rows, TRACK), accesses);
    if |accesses| == 0 || |matched| == 0 then rows
    else Updated(rows, ToUpdate(accesses, MatchIds(matched)), TRACK)
  }

  /** After one check, no access of a batch with distinct ids fires on a `TRACK` row. */
  lemma SettledRow(rows: seq<Track>, accesses: seq<Access>, i: nat, j: nat)
    requires DistinctIds(accesses)
    requires i < |accesses| && j < |rows| && rows[j].kind == TRACK
    ensures |AfterCheck(rows, accesses)| == |rows|
    ensures !Fires(accesses[i], AfterCheck(rows, accesses)[j])
  {
    var a := accesses[i];
    var matched := Matched(OfType(rows, TRACK), accesses);
    assert Fires(a, rows[j]) ==> rows[j] in matched;
    if |matched| > 0 {
      var toUpdate := ToUpdate(accesses, MatchIds(matched));
      var first := FirstFor(toUpdate, rows[j].userId);
      if first.Some? {
        if a.externalId == rows[j].userId {
          var k :| 0 <= k < |accesses| && accesses[k] == toUpdate[first.value];
          assert k == i;
        }
      } else {
        assert Fires(a, rows[j]) ==> a in toUpdate;
      }
    }
  }

  /**
   * Idempotence: with distinct external ids, checking the same batch again
   * on the table the first check left matches no track.
   */
  lemma SecondCheckMatchesNothing(rows: seq<Track>, accesses: seq<Access>)
    requires DistinctIds(accesses)
    ensures Matched(OfType(AfterCheck(rows, accesses), TRACK), accesses) == []
  {
    var after := AfterCheck(rows, accesses);
    var again := Matched(OfType(after, TRACK), accesses);
    if |again| > 0 {
      var t := again[0];
      assert t in again;
      var i :| 0 <= i < |accesses| && Fires(accesses[i], t);
      var j :| 0 <= j < |after| && after[j] == t;
      SettledRow(rows, accesses, i, j);
    }
  }

  /** A row whose last entry is the first of two accesses sharing its id. */
  const DuplicateRow := Track(1, "X", "r", "n", TRACK, None, Some("E1"))
  const DuplicateBatch := [Access("X", "r", "n", "L", "E1"), Access("X", "r", "n", "L", "E2")]

  /** The second access of the batch fires on the row. */
  lemma DuplicateBatchMatches()
    ensures Matched(OfType([DuplicateRow], TRACK), DuplicateBatch) == [DuplicateRow]
  {
    assert OfType([DuplicateRow], TRACK) == [DuplicateRow];
    assert Fires(DuplicateBatch[1], DuplicateRow);
  }

  /** The `CASE` writes back the first access's entry, which the row already holds. */
  lemma DuplicateBatchKeepsRow()
    ensures AfterCheck([DuplicateRow], DuplicateBatch) == [DuplicateRow]
  {
    DuplicateBatchMatches();
    var toUpdate := ToUpdate(DuplicateBatch, MatchIds([DuplicateRow]));
    assert "X" in MatchIds([DuplicateRow]);
    assert toUpdate == DuplicateBatch;
    assert FirstFor(toUpdate, "X") == Some(0);
  }

  /**
   * Why `SecondCheckMatchesNothing` needs distinct ids: when two accesses of
   * the batch share an id, the row keeps its entry and the same batch matches
   * it, and so notifies it, on every check.
   */
  lemma DuplicateIdsFireAgain()
    ensures !DistinctIds(DuplicateBatch)
    ensures Matched(OfType(AfterCheck([DuplicateRow], DuplicateBatch), TRACK), DuplicateBatch) == [DuplicateRow]
  {
    assert DuplicateBatch[0].externalId == DuplicateBatch[1].externalId;
    DuplicateBatchKeepsRow();
    DuplicateBatchMatches();
  }

  /** The first `forEach` of `checkAccess`: keep each track for which `find` returns an access. */
  method MatchTracks(allTracks: seq<Track>, accesses: seq<Access>) returns (matchTracks: seq<Track>)
    ensures matchTracks == Matched(allTracks, accesses)
  {
    matchTracks := [];
    var i := 0;
    while i < |allTracks|
      invariant 0 <= i <= |allTracks|
      invariant matchTracks == Matched(allTracks[..i], accesses)
    {
      var track := allTracks[i];
      // `accessArray.find(...)`
      var k := 0;
      while k < |accesses| && !Fires(accesses[k], track)
        invariant 0 <= k <= |accesses|
        invariant forall k' :: 0 <= k' < k ==> !Fires(accesses[k'], track)
      {
        k := k + 1;
      }
      assert allTracks[..i + 1][..i] == allTracks[..i];
      if k < |accesses| {
        matchTracks := matchTracks + [track];
      }
      i := i + 1;
    }
    assert allTracks[..i] == allTracks;
  }

  /** The second `forEach`: per matched track, the location of the first access to update with its id. */
  method TracksToNotify(matchTracks: seq<Track>, accessToUpdate: seq<Access>) returns (tracksToNotify: seq<NotifyTrack>)
    ensures tracksToNotify == ToNotify(matchTracks, accessToUpdate)
  {
    tracksToNotify := [];
    var j := 0;
    while j < |matchTracks|
      invariant 0 <= j <= |matchTracks|
      invariant tracksToNotify == ToNotify(matchTracks[..j], accessToUpdate)
    {
      var track := matchTracks[j];
      // `accessToUpdate.find(...)`
      var k := 0;
      while k < |accessToUpdate| && accessToUpdate[k].externalId != track.userId
        invariant 0 <= k <= |accessToUpdate|
        invariant forall k' :: 0 <= k' < k ==> accessToUpdate[k'].externalId != track.userId
      {
        k := k + 1;
      }
      assert matchTracks[..j + 1][..j] == matchTracks[..j];
      if k < |accessToUpdate| {
        assert FirstFor(accessToUpdate, track.userId) == Some(k);
        tracksToNotify := tracksToNotify + [NotifyTrack(track.chatId, track.run, track.fullName, track.alias, accessToUpdate[k].location)];
      }
      j := j + 1;
    }
    assert matchTracks[..j] == matchTracks;
  }

  class AccessService {
    const table: TrackTable
    const whatsapp: WhatsappClient

    constructor (table: TrackTable, whatsapp: WhatsappClient)
      ensures this.table == table && this.whatsapp == whatsapp
    {
      this.table := table;
      this.whatsapp := whatsapp;
    }

    /**
     * `checkAccess`: nothing for an empty batch or when nothing matches;
     * otherwise one update for the matched ids, then the entry
     * notifications, whose result is only counted.
     */
    method CheckAccess(accesses: seq<Access>, getLocation: string -> string, rejects: set<nat>) returns (result: Option<NotifyResult>)
      modifies table, whatsapp
      ensures table.rows == AfterCheck(old(table.rows), accesses)
      ensures |accesses| == 0 || |Matched(OfType(old(table.rows), TRACK), accesses)| == 0 ==>
        result.None? && whatsapp.posts == old(whatsapp.posts)
      ensures |accesses| > 0 && |Matched(OfType(old(table.rows), TRACK), accesses)| > 0 ==>
        var matched := Matched(OfType(old(table.rows), TRACK), accesses);
        var notify := ToNotify(matched, ToUpdate(accesses, MatchIds(matched)));
        whatsapp.posts == old(whatsapp.posts) + EntryPosts(notify, getLocation)
        && result.Some? && result.value.rejected == Rejections(|matched|, rejects)
        && result.value.fullFilled + result.value.rejected == |matched|
    {
      if |accesses| == 0 {
        return None;
      }
      ghost var rows0 := table.rows;
      var allTracks := table.GetAll(TRACK);
      var matchTracks := MatchTracks(allTracks, accesses);
      assert matchTracks == Matched(OfType(rows0, TRACK), accesses);
      if |matchTracks| == 0 {
        return None;
      }
      var matchUserIds := MatchIds(matchTracks);
      var accessToUpdate := ToUpdate(accesses, matchUserIds);
      UpdateCoversMatches(allTracks, accesses, matchTracks[0]);
      var err := table.UpdateTrack(accessToUpdate, TRACK);
      var tracksToNotify := TracksToNotify(matchTracks, accessToUpdate);
      NotifyCount(allTracks, accesses);
      var r := whatsapp.NotifyEntry(tracksToNotify, getLocation, rejects);
      return Some(r);
    }
  }
}
