/**
 * The Go track repository (internal/repository/track.go) as an in-memory
 * `track` table. Each operation is one SQL statement or one transaction;
 * a failure of the database is an argument (`fault`) naming where it
 * happens, and a transaction that fails leaves the table as it was.
 */
module TrackStore {
  import opened Common
  import opened Model
  import opened AppErrors
  import opened Seqs

  const Component := "TrackRepository"

  /** The error every repository failure is returned as. */
  function StoreError(cause: Cause): AppError
  {
    NewAppError(Component, cause)
  }

  // ---------------------------------------------------------------------
  // Timestamp updates
  // ---------------------------------------------------------------------

  /** The instant an update writes into `col`: the entry, or the dereferenced exit. */
  function Stamp(a: Access, col: Column): Time
    requires col == LastExit ==> a.exitAt.Some?
  {
    if col == LastEntry then a.entryAt else a.exitAt.value
  }

  /** `UpdateExitAt` dereferences every `ExitAt`, so each must be present. */
  predicate Writable(accesses: seq<Access>, col: Column)
  {
    col == LastExit ==> forall i :: 0 <= i < |accesses| ==> accesses[i].exitAt.Some?
  }

  function Column(t: Track, col: Column): Option<Time>
  {
    if col == LastEntry then t.lastEntry else t.lastExit
  }

  function WithColumn(t: Track, col: Column, time: Time): (r: Track)
    ensures Column(r, col) == Some(time)
  {
    if col == LastEntry then t.(lastEntry := Some(time)) else t.(lastExit := Some(time))
  }

  /** Two rows that differ at most in their timestamp columns. */
  predicate SameIdentity(a: Track, b: Track)
  {
    a.id == b.id && a.chatId == b.chatId && a.externalId == b.externalId
    && a.run == b.run && a.fullName == b.fullName && a.alias == b.alias
  }

  /** Row by row, the same identities and the same value in the column `col` does not name. */
  predicate OnlyColumnChanged(before: seq<Track>, after: seq<Track>, col: Column)
  {
    |before| == |after|
    && forall i :: 0 <= i < |before| ==>
         SameIdentity(before[i], after[i])
         && (if col == LastEntry then after[i].lastExit == before[i].lastExit
             else after[i].lastEntry == before[i].lastEntry)
  }

  /** One `stmt.Exec`: `UPDATE track SET <col> = ? WHERE external_id = ?`. */
  function ExecUpdate(rows: seq<Track>, id: int, col: Column, time: Time): (r: seq<Track>)
    ensures |r| == |rows|
    ensures forall i :: 0 <= i < |rows| ==>
      r[i] == if rows[i].externalId == id then WithColumn(rows[i], col, time) else rows[i]
  {
    seq(|rows|, i requires 0 <= i < |rows| =>
      if rows[i].externalId == id then WithColumn(rows[i], col, time) else rows[i])
  }

  /** Every `Exec` of one update transaction, in the order of the accesses. */
  function ApplyUpdates(rows: seq<Track>, accesses: seq<Access>, col: Column): (r: seq<Track>)
    requires Writable(accesses, col)
    ensures OnlyColumnChanged(rows, r, col)
    decreases |accesses|
  {
    if |accesses| == 0 then rows
    else
      var last := accesses[|accesses| - 1];
      ExecUpdate(ApplyUpdates(rows, accesses[..|accesses| - 1], col), last.externalId, col, Stamp(last, col))
  }

  /** The position of the last access with the given external id. */
  function LastWithId(accesses: seq<Access>, id: int): (r: Option<nat>)
    ensures r.Some? ==> r.value < |accesses| && accesses[r.value].externalId == id
    ensures r.Some? ==> forall j :: r.value < j < |accesses| ==> accesses[j].externalId != id
    ensures r.None? <==> forall j :: 0 <= j < |accesses| ==> accesses[j].externalId != id
    decreases |accesses|
  {
    if |accesses| == 0 then None
    else if accesses[|accesses| - 1].externalId == id then Some(|accesses| - 1)
    else LastWithId(accesses[..|accesses| - 1], id)
  }

  /**
   * Each row whose external id occurs among the accesses ends up holding the
   * stamp of the LAST such access; every other row is unchanged.
   */
  lemma {:induction false} UpdateLastWins(rows: seq<Track>, accesses: seq<Access>, col: Column, i: nat)
    requires Writable(accesses, col) && i < |rows|
    ensures |ApplyUpdates(rows, accesses, col)| == |rows|
    ensures ApplyUpdates(rows, accesses, col)[i] ==
      match LastWithId(accesses, rows[i].externalId)
      case None => rows[i]
      case Some(k) => WithColumn(rows[i], col, Stamp(accesses[k], col))
    decreases |accesses|
  {
    if |accesses| > 0 {
      var init := accesses[..|accesses| - 1];
      assert Writable(init, col) by {
        forall j | 0 <= j < |init| ensures col == LastExit ==> init[j].exitAt.Some? {
          assert init[j] == accesses[j];
        }
      }
      UpdateLastWins(rows, init, col, i);
      var prev := ApplyUpdates(rows, init, col);
      if accesses[|accesses| - 1].externalId != rows[i].externalId {
        assert prev[i].externalId == rows[i].externalId;
        assert LastWithId(accesses, rows[i].externalId) == LastWithId(init, rows[i].externalId);
        match LastWithId(init, rows[i].externalId)
        case None =>
        case Some(k) => assert init[k] == accesses[k];
      }
    }
  }

  /**
   * The update a map of representative accesses asks for: every row whose
   * external id is a key takes the stamp of that key's access.
   */
  function ApplyMap(rows: seq<Track>, reps: map<Int32, Access>, col: Column): (r: seq<Track>)
    requires col == LastExit ==> forall k :: k in reps ==> reps[k].exitAt.Some?
    ensures |r| == |rows|
    ensures forall i :: 0 <= i < |rows| ==>
      r[i] == if rows[i].externalId in reps then WithColumn(rows[i], col, Stamp(reps[rows[i].externalId], col))
              else rows[i]
  {
    seq(|rows|, i requires 0 <= i < |rows| =>
      if rows[i].externalId in reps then WithColumn(rows[i], col, Stamp(reps[rows[i].externalId], col))
      else rows[i])
  }

  /** A list that holds each value of `reps` exactly once, keyed by its external id. */
  ghost predicate ListsMap(list: seq<Access>, reps: map<Int32, Access>)
  {
    && (forall i :: 0 <= i < |list| ==> list[i].externalId in reps && reps[list[i].externalId] == list[i])
    && (forall i, j :: 0 <= i < j < |list| ==> list[i].externalId != list[j].externalId)
    && (forall k :: k in reps ==> exists i :: 0 <= i < |list| && list[i].externalId == k)
  }

  /**
   * When the accesses carry distinct external ids, the order of the `Exec`
   * calls does not matter: the transaction applies exactly the map.
   */
  lemma UpdatesFromMap(rows: seq<Track>, list: seq<Access>, reps: map<Int32, Access>, col: Column)
    requires ListsMap(list, reps) && Writable(list, col)
    requires col == LastExit ==> forall k :: k in reps ==> reps[k].exitAt.Some?
    ensures ApplyUpdates(rows, list, col) == ApplyMap(rows, reps, col)
  {
    var a := ApplyUpdates(rows, list, col);
    var b := ApplyMap(rows, reps, col);
    forall i | 0 <= i < |rows| ensures a[i] == b[i] {
      UpdateLastWins(rows, list, col, i);
      var id := rows[i].externalId;
      match LastWithId(list, id)
      case None =>
        assert id !in reps;
      case Some(k) =>
        assert reps[id] == list[k];
    }
    assert |a| == |b|;
  }

  // ---------------------------------------------------------------------
  // Inserts, deletes and queries
  // ---------------------------------------------------------------------

  /** The table's uniqueness constraint: `ON CONFLICT(chat_id, run)`. */
  predicate SameKey(a: Track, b: Track)
  {
    a.chatId == b.chatId && a.run == b.run
  }

  predicate HasKey(rows: seq<Track>, chatId: string, run: string)
  {
    exists i :: 0 <= i < |rows| && rows[i].chatId == chatId && rows[i].run == run
  }

  /** `SELECT ... FROM track WHERE chat_id = ?` */
  function ByChat(rows: seq<Track>, chatId: string): seq<Track>
  {
    Filter(rows, (t: Track) => t.chatId == chatId)
  }

  /** `SELECT ... WHERE chat_id = ? AND run = ?`: the rows a key designates. */
  function ByKey(rows: seq<Track>, chatId: string, run: string): seq<Track>
  {
    Filter(rows, (t: Track) => t.chatId == chatId && t.run == run)
  }

  /** What `DELETE FROM track WHERE chat_id = ? AND run = ?` leaves. */
  function Without(rows: seq<Track>, chatId: string, run: string): seq<Track>
  {
    Filter(rows, (t: Track) => !(t.chatId == chatId && t.run == run))
  }

  /** The row `Create` inserts when the key is free. */
  function NewRow(id: int, dto: CreateTrackDTO): (t: Track)
  {
    Track(id, dto.chatId, dto.externalId, dto.run, dto.fullName, dto.alias, dto.lastEntry, dto.lastExit)
  }

  /** `INSERT ... ON CONFLICT(chat_id, run) DO NOTHING`. */
  function InsertOrIgnore(rows: seq<Track>, row: Track): (r: seq<Track>)
    ensures HasKey(r, row.chatId, row.run)
    ensures HasKey(rows, row.chatId, row.run) ==> r == rows
  {
    if HasKey(rows, row.chatId, row.run) then rows
    else
      assert (rows + [row])[|rows|] == row;
      rows + [row]
  }

  /** Two rows the table cannot hold together: the same id, or the same chat and run. */
  predicate Clash(a: Track, b: Track)
  {
    a.id == b.id || SameKey(a, b)
  }

  /**
   * A second insert with the same (chat_id, run) changes nothing, and the key
   * then designates exactly one row.
   */
  lemma {:induction false} CreateTwiceKeepsOne(rows: seq<Track>, first: Track, second: Track)
    requires ByKey(rows, first.chatId, first.run) == []
    requires SameKey(first, second)
    ensures InsertOrIgnore(InsertOrIgnore(rows, first), second) == InsertOrIgnore(rows, first)
    ensures ByKey(InsertOrIgnore(rows, first), first.chatId, first.run) == [first]
  {
    var once := InsertOrIgnore(rows, first);
    assert !HasKey(rows, first.chatId, first.run);
    assert once == rows + [first];
    FilterAppend(rows, [first], (t: Track) => t.chatId == first.chatId && t.run == first.run);
    assert Filter([first], (t: Track) => t.chatId == first.chatId && t.run == first.run) == [first] by {
      assert [first][..0] == [];
    }
  }

  /** Deleting a key removes every row it designates and nothing else. */
  lemma DeleteRemovesKey(rows: seq<Track>, chatId: string, run: string)
    ensures !HasKey(Without(rows, chatId, run), chatId, run)
    ensures forall i :: (0 <= i < |rows| && !(rows[i].chatId == chatId && rows[i].run == run)
      ==> rows[i] in Without(rows, chatId, run))
    ensures !HasKey(rows, chatId, run) ==> Without(rows, chatId, run) == rows
  {
    if !HasKey(rows, chatId, run) {
      FilterAllOrNone(rows, (t: Track) => !(t.chatId == chatId && t.run == run));
    }
  }

  /** Reading by chat selects exactly that chat's rows, in table order. */
  lemma ByChatExact(rows: seq<Track>, chatId: string, a: seq<Track>, b: seq<Track>)
    requires rows == a + b
    ensures ByChat(rows, chatId) == ByChat(a, chatId) + ByChat(b, chatId)
    ensures forall t :: t in ByChat(rows, chatId) <==> t in rows && t.chatId == chatId
  {
    FilterAppend(a, b, (t: Track) => t.chatId == chatId);
    forall t | t in rows && t.chatId == chatId ensures t in ByChat(rows, chatId) {
      var i :| 0 <= i < |rows| && rows[i] == t;
    }
  }

  // ---------------------------------------------------------------------
  // The table
  // ---------------------------------------------------------------------

  /** Where in an update transaction the database fails. */
  datatype TxStage = Begin | Prepare | Exec(index: nat) | Commit

  datatype DbFault = DbFault(stage: TxStage, cause: Cause)

  /**
   * Whether a transaction over `n` accesses meets the fault: an empty batch
   * returns before `Begin`, and an `Exec` past the last access never runs.
   */
  predicate TxFails(fault: Option<DbFault>, n: nat)
  {
    n > 0 && fault.Some? && (fault.value.stage.Exec? ==> fault.value.stage.index < n)
  }

  class TrackTable {
    var rows: seq<Track>
    var nextId: int

    /** Ids are unique and below the next one handed out; (chat_id, run) is unique. */
    ghost predicate Valid()
      reads this
    {
      Apart(rows, Clash) && forall i :: 0 <= i < |rows| ==> rows[i].id < nextId
    }

    constructor ()
      ensures Valid() && rows == [] && nextId == 1
    {
      rows := [];
      nextId := 1;
    }

    /** `GetAll`: every row, in table order. */
    method GetAll(fault: Option<Cause>) returns (r: Result<seq<Track>, AppError>)
      ensures fault.Some? ==> r == Err(StoreError(fault.value))
      ensures fault.None? ==> r == Ok(rows)
    {
      if fault.Some? {
        return Err(StoreError(fault.value));
      }
      var tracks: seq<Track> := [];
      var i := 0;
      while i < |rows|
        invariant 0 <= i <= |rows| && tracks == rows[..i]
      {
        tracks := tracks + [rows[i]];
        i := i + 1;
      }
      assert rows[..i] == rows;
      return Ok(tracks);
    }

    /** `GetTracksByChatId`: exactly the chat's rows, in table order. */
    method GetTracksByChatId(chatId: string, fault: Option<Cause>) returns (r: Result<seq<Track>, AppError>)
      ensures fault.Some? ==> r == Err(StoreError(fault.value))
      ensures fault.None? ==> r == Ok(ByChat(rows, chatId))
    {
      if fault.Some? {
        return Err(StoreError(fault.value));
      }
      var tracks: seq<Track> := [];
      var i := 0;
      while i < |rows|
        invariant 0 <= i <= |rows| && tracks == ByChat(rows[..i], chatId)
      {
        assert rows[..i + 1][..i] == rows[..i];
        if rows[i].chatId == chatId {
          tracks := tracks + [rows[i]];
        }
        i := i + 1;
      }
      assert rows[..i] == rows;
      return Ok(tracks);
    }

    /** Preservation of `Valid` by anything that only rewrites timestamps. */
    static lemma OnlyColumnKeepsApart(before: seq<Track>, after: seq<Track>, col: Column)
      requires OnlyColumnChanged(before, after, col) && Apart(before, Clash)
      ensures Apart(after, Clash)
    {
      forall i, j | 0 <= i < |after| && 0 <= j < |after| && i != j ensures !Clash(after[i], after[j]) {
        assert !Clash(before[i], before[j]);
      }
    }

    /** The transaction shared by `UpdateEntryAt` and `UpdateExitAt`. */
    method Update(accesses: seq<Access>, col: Column, fault: Option<DbFault>) returns (err: Option<AppError>)
      requires Valid() && Writable(accesses, col)
      modifies this
      ensures Valid() && nextId == old(nextId)
      ensures TxFails(fault, |accesses|) ==> err == Some(StoreError(fault.value.cause)) && rows == old(rows)
      ensures !TxFails(fault, |accesses|) ==> err.None? && rows == ApplyUpdates(old(rows), accesses, col)
    {
      if |accesses| == 0 {
        return None;
      }
      if fault.Some? && (fault.value.stage == Begin || fault.value.stage == Prepare) {
        return Some(StoreError(fault.value.cause));
      }
      // The transaction's own view of the table; `tx.Rollback` discards it.
      var pending := rows;
      var i := 0;
      while i < |accesses|
        invariant 0 <= i <= |accesses|
        invariant pending == ApplyUpdates(rows, accesses[..i], col)
        invariant fault.Some? && fault.value.stage.Exec? ==> fault.value.stage.index >= i
      {
        if fault.Some? && fault.value.stage == Exec(i) {
          return Some(StoreError(fault.value.cause));
        }
        assert accesses[..i + 1][..i] == accesses[..i];
        pending := ExecUpdate(pending, accesses[i].externalId, col, Stamp(accesses[i], col));
        i := i + 1;
      }
      assert accesses[..i] == accesses;
      if fault.Some? && fault.value.stage == Commit {
        return Some(StoreError(fault.value.cause));
      }
      OnlyColumnKeepsApart(rows, pending, col);
      rows := pending;
      return None;
    }

    /** `UpdateEntryAt`: `last_entry` of every row matching each access's external id. */
    method UpdateEntryAt(accesses: seq<Access>, fault: Option<DbFault>) returns (err: Option<AppError>)
      requires Valid()
      modifies this
      ensures Valid() && nextId == old(nextId)
      ensures TxFails(fault, |accesses|) ==> err == Some(StoreError(fault.value.cause)) && rows == old(rows)
      ensures !TxFails(fault, |accesses|) ==> err.None? && rows == ApplyUpdates(old(rows), accesses, LastEntry)
    {
      err := Update(accesses, LastEntry, fault);
    }

    /** `UpdateExitAt`: the same on `last_exit`; every `ExitAt` is dereferenced. */
    method UpdateExitAt(accesses: seq<Access>, fault: Option<DbFault>) returns (err: Option<AppError>)
      requires Valid() && Writable(accesses, LastExit)
      modifies this
      ensures Valid() && nextId == old(nextId)
      ensures TxFails(fault, |accesses|) ==> err == Some(StoreError(fault.value.cause)) && rows == old(rows)
      ensures !TxFails(fault, |accesses|) ==> err.None? && rows == ApplyUpdates(old(rows), accesses, LastExit)
    {
      err := Update(accesses, LastExit, fault);
    }

    /** `Create`: insert unless (chat_id, run) is taken, in which case nothing happens. */
    method Create(dto: CreateTrackDTO, fault: Option<Cause>) returns (err: Option<AppError>)
      requires Valid()
      modifies this
      ensures Valid()
      ensures fault.Some? ==> err == Some(StoreError(fault.value)) && rows == old(rows)
      ensures fault.None? ==> err.None? && rows == InsertOrIgnore(old(rows), NewRow(old(nextId), dto))
    {
      if fault.Some? {
        return Some(StoreError(fault.value));
      }
      var row := NewRow(nextId, dto);
      if !HasKey(rows, row.chatId, row.run) {
        ghost var before := rows;
        rows := rows + [row];
        nextId := nextId + 1;
        forall i, j | 0 <= i < |rows| && 0 <= j < |rows| && i != j ensures !Clash(rows[i], rows[j]) {
          if i < |before| && j < |before| {
            assert rows[i] == before[i] && rows[j] == before[j];
          } else if i < |before| {
            assert rows[i] == before[i];
          } else {
            assert rows[j] == before[j];
          }
        }
      }
      return None;
    }

    /** `Delete`: remove the rows with this chat_id and run; matching none is no error. */
    method Delete(dto: DeleteTrackDTO, fault: Option<Cause>) returns (err: Option<AppError>)
      requires Valid()
      modifies this
      ensures Valid() && nextId == old(nextId)
      ensures fault.Some? ==> err == Some(StoreError(fault.value)) && rows == old(rows)
      ensures fault.None? ==> err.None? && rows == Without(old(rows), dto.chatId, dto.run)
    {
      if fault.Some? {
        return Some(StoreError(fault.value));
      }
      FilterApart(rows, (t: Track) => !(t.chatId == dto.chatId && t.run == dto.run), Clash);
      rows := Without(rows, dto.chatId, dto.run);
      return None;
    }
  }
}
