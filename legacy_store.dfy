/**
 * The older TypeScript track table (src/repository/track.repository.ts),
 * as an in-memory table of rows. Timestamps are the strings the feed sends;
 * `UPPER` folds ASCII letters only, as SQLite's does.
 */
module LegacyStore {
  import opened Common
  import opened Seqs
  import opened Text

  /** The row kind of the schema; only `TRACK` is used by the service. */
  datatype TrackType = TRACK | OtherType(name: string)

  datatype Track = Track(
    chatId: int,
    userId: string,
    run: string,
    fullName: string,
    kind: TrackType,
    alias: Option<string>,
    lastEntry: Option<string>)

  datatype Access = Access(externalId: string, run: string, fullName: string, location: string, entryAt: string)

  /** The SQL error of `set last_entry = (case end)`: a CASE needs at least one WHEN. */
  datatype SqlError = CaseWithoutWhen

  /** The first access of the list for a user id. */
  function FirstFor(accesses: seq<Access>, userId: string): (r: Option<nat>)
    ensures r.Some? ==> r.value < |accesses| && accesses[r.value].externalId == userId
    ensures r.Some? ==> forall j :: 0 <= j < r.value ==> accesses[j].externalId != userId
    ensures r.None? <==> forall j :: 0 <= j < |accesses| ==> accesses[j].externalId != userId
  {
    if |accesses| == 0 then None
    else if accesses[0].externalId == userId then Some(0)
    else match FirstFor(accesses[1..], userId)
      case None => None
      case Some(k) => Some(k + 1)
  }

  /** The `when user_id = ? then ?` branches, one per access, in list order. */
  function Cases(accesses: seq<Access>): (cs: seq<(string, string)>)
    ensures |cs| == |accesses|
    ensures forall i :: 0 <= i < |accesses| ==> cs[i] == (accesses[i].externalId, accesses[i].entryAt)
  {
    seq(|accesses|, i requires 0 <= i < |accesses| => (accesses[i].externalId, accesses[i].entryAt))
  }

  /** A searched CASE: the first WHEN whose user id matches gives the value; none gives NULL. */
  function CaseValue(cases: seq<(string, string)>, userId: string): (v: Option<string>)
    ensures v.None? <==> forall i :: 0 <= i < |cases| ==> cases[i].0 != userId
  {
    if |cases| == 0 then None
    else if cases[0].0 == userId then Some(cases[0].1)
    else CaseValue(cases[1..], userId)
  }

  /** The CASE built from a list selects the entry of the list's first access with that user id. */
  lemma {:induction false} CaseIsFirst(accesses: seq<Access>, userId: string)
    ensures CaseValue(Cases(accesses), userId) ==
      match FirstFor(accesses, userId)
      case None => None
      case Some(k) => Some(accesses[k].entryAt)
  {
    if |accesses| > 0 && accesses[0].externalId != userId {
      assert Cases(accesses)[1..] == Cases(accesses[1..]);
      CaseIsFirst(accesses[1..], userId);
    }
  }

  /**
   * The table after `updateTrack`: rows of the kind whose user id is in the
   * list get the entry of the list's first access with that id; every other
   * row, and every other column, is kept.
   */
  function Updated(rows: seq<Track>, accesses: seq<Access>, kind: TrackType): (r: seq<Track>)
    ensures |r| == |rows|
    ensures forall i :: 0 <= i < |rows| ==>
      var first := FirstFor(accesses, rows[i].userId);
      r[i] == if rows[i].kind == kind && first.Some? then rows[i].(lastEntry := Some(accesses[first.value].entryAt)) else rows[i]
  {
    seq(|rows|, i requires 0 <= i < |rows| =>
      var first := FirstFor(accesses, rows[i].userId);
      if rows[i].kind == kind && first.Some? then rows[i].(lastEntry := Some(accesses[first.value].entryAt)) else rows[i])
  }

  /** `where type = ?`. */
  function OfType(rows: seq<Track>, kind: TrackType): (r: seq<Track>)
    ensures forall t :: t in r <==> t in rows && t.kind == kind
  {
    FilterMembers(rows, (t: Track) => t.kind == kind);
    Filter(rows, (t: Track) => t.kind == kind)
  }

  /** The condition `checkTrack` builds for one access. */
  predicate StaleFor(a: Access, t: Track, kind: TrackType)
  {
    // `ne(last_entry, ?)` is NULL, hence false, when last_entry is NULL.
    t.userId == a.externalId && t.lastEntry.Some? && t.lastEntry.value != a.entryAt && t.kind == kind
  }

  /** Whether the run argument designates a row: `UPPER(run) = UPPER(?)`. */
  predicate SameRun(t: Track, run: string)
  {
    UpperAscii(t.run) == UpperAscii(run)
  }

  predicate Removes(t: Track, chatId: int, run: string, kind: TrackType)
  {
    t.chatId == chatId && SameRun(t, run) && t.kind == kind
  }

  class TrackTable {
    var rows: seq<Track>

    constructor ()
      ensures rows == []
    {
      rows := [];
    }

    /**
     * `createTrack`: insert, or do nothing when the row conflicts with a
     * stored one under the schema's unique key (`clash`).
     */
    method CreateTrack(data: Track, clash: (Track, Track) -> bool)
      modifies this
      ensures (exists i :: 0 <= i < |old(rows)| && clash(old(rows)[i], data)) ==> rows == old(rows)
      ensures (forall i :: 0 <= i < |old(rows)| ==> !clash(old(rows)[i], data)) ==> rows == old(rows) + [data]
    {
      if !(exists i :: 0 <= i < |rows| && clash(rows[i], data)) {
        rows := rows + [data];
      }
    }

    /** `listTrack`: the chat's rows of one kind. */
    method ListTrack(chatId: int, kind: TrackType) returns (r: seq<Track>)
      ensures r == Filter(rows, (t: Track) => t.chatId == chatId && t.kind == kind)
      ensures forall t :: t in r <==> t in rows && t.chatId == chatId && t.kind == kind
    {
      FilterMembers(rows, (t: Track) => t.chatId == chatId && t.kind == kind);
      r := Filter(rows, (t: Track) => t.chatId == chatId && t.kind == kind);
    }

    /** `removeTrack`: delete the chat's rows of one kind whose run matches ignoring ASCII case. */
    method RemoveTrack(chatId: int, run: string, kind: TrackType)
      modifies this
      ensures forall t :: t in rows <==> t in old(rows) && !Removes(t, chatId, run, kind)
      ensures rows == Filter(old(rows), (t: Track) => !Removes(t, chatId, run, kind))
    {
      FilterMembers(rows, (t: Track) => !Removes(t, chatId, run, kind));
      rows := Filter(rows, (t: Track) => !Removes(t, chatId, run, kind));
    }

    /**
     * `checkTrack`: the rows some access finds stale. With no access the
     * `or()` of no conditions is no WHERE clause at all, and every row of
     * every kind comes back.
     */
    method CheckTrack(accesses: seq<Access>, kind: TrackType) returns (r: seq<Track>)
      ensures |accesses| == 0 ==> r == rows
      ensures |accesses| > 0 ==> r == Filter(rows, (t: Track) => exists i :: 0 <= i < |accesses| && StaleFor(accesses[i], t, kind))
      ensures |accesses| > 0 ==> forall t :: t in r <==> t in rows && exists i :: 0 <= i < |accesses| && StaleFor(accesses[i], t, kind)
    {
      var conditionals := accesses;
      if |conditionals| == 0 {
        return rows;
      }
      var p := (t: Track) => exists i :: 0 <= i < |conditionals| && StaleFor(conditionals[i], t, kind);
      FilterMembers(rows, p);
      r := Filter(rows, p);
    }

    /**
     * `updateTrack`: build `(case when user_id = ? then ? ... end)` and the
     * id list in one pass, then run one UPDATE over the kind's rows whose id
     * is listed. An empty list makes the CASE malformed and the statement
     * fails.
     */
    method UpdateTrack(accesses: seq<Access>, kind: TrackType) returns (err: Option<SqlError>)
      modifies this
      ensures |accesses| == 0 ==> err == Some(CaseWithoutWhen) && rows == old(rows)
      ensures |accesses| > 0 ==> err.None? && rows == Updated(old(rows), accesses, kind)
    {
      var cases: seq<(string, string)> := [];
      var userIds: seq<string> := [];
      var i := 0;
      while i < |accesses|
        invariant 0 <= i <= |accesses|
        invariant cases == Cases(accesses[..i])
        invariant |userIds| == i && forall k :: 0 <= k < i ==> userIds[k] == accesses[k].externalId
      {
        cases := cases + [(accesses[i].externalId, accesses[i].entryAt)];
        userIds := userIds + [accesses[i].externalId];
        i := i + 1;
      }
      assert accesses[..i] == accesses;
      if |cases| == 0 {
        return Some(CaseWithoutWhen);
      }
      var before := rows;
      rows := seq(|before|, j requires 0 <= j < |before| =>
        if before[j].kind == kind && before[j].userId in userIds then before[j].(lastEntry := CaseValue(cases, before[j].userId))
        else before[j]);
      forall j | 0 <= j < |before|
        ensures rows[j] == Updated(before, accesses, kind)[j]
      {
        CaseIsFirst(accesses, before[j].userId);
        if before[j].userId in userIds {
          var k :| 0 <= k < |userIds| && userIds[k] == before[j].userId;
          assert accesses[k].externalId == before[j].userId;
        }
      }
      return None;
    }

    /** `getAll`: the rows of one kind. */
    method GetAll(kind: TrackType) returns (r: seq<Track>)
      ensures r == OfType(rows, kind)
      ensures forall t :: t in r <==> t in rows && t.kind == kind
    {
      r := Filter(rows, (t: Track) => t.kind == kind);
    }

    /** `getTrackByUserId`: the rows of one kind for one user id. */
    method GetTrackByUserId(userId: string, kind: TrackType) returns (r: seq<Track>)
      ensures r == Filter(rows, (t: Track) => t.kind == kind && t.userId == userId)
      ensures forall t :: t in r <==> t in rows && t.kind == kind && t.userId == userId
    {
      FilterMembers(rows, (t: Track) => t.kind == kind && t.userId == userId);
      r := Filter(rows, (t: Track) => t.kind == kind && t.userId == userId);
    }
  }
}
