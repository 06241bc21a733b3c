/**
 * The Go subscription service (internal/service/track.go): follow and
 * unfollow a person from a chat, list a chat's follows. The recent access
 * batch that seeds a new follow is a parameter of `Create`.
 */
module Subscriptions {
  import opened Common
  import opened Model
  import opened AppErrors
  import opened TrackStore
  import opened Notification
  import opened Reconcile

  const Added := "✅ Agregado"
  const Removed := "✅ Eliminado"

  /**
   * The seeding step of `Create`: when the recent batch holds an access of
   * the person, its entry and exit become the follow's last entry and exit;
   * everything else of the request is kept.
   */
  function Seeded(dto: CreateTrackDTO, accesses: seq<Access>): (d: CreateTrackDTO)
    ensures d.chatId == dto.chatId && d.externalId == dto.externalId && d.run == dto.run
      && d.alias == dto.alias && d.fullName == dto.fullName
    ensures FirstWithId(accesses, dto.externalId).None? ==> d.lastEntry == dto.lastEntry && d.lastExit == dto.lastExit
    ensures FirstWithId(accesses, dto.externalId).Some? ==>
      var a := accesses[FirstWithId(accesses, dto.externalId).value];
      d.lastEntry == Some(a.entryAt) && d.lastExit == a.exitAt
  {
    match FirstWithId(accesses, dto.externalId)
    case None => dto
    case Some(k) => dto.(lastEntry := Some(accesses[k].entryAt), lastExit := accesses[k].exitAt)
  }

  /** The plain-message webhook call `SendMessage` makes. */
  function ChatPost(chatId: string, text: string): Post
  {
    Post("webhook/whatsapp", map["chatId" := chatId, "message" := text])
  }

  /**
   * A follow seeded from a batch is already in step with the first access
   * of its person in that batch: checking that batch neither fires on the
   * new row nor panics on it.
   */
  lemma SeededRowIsQuiet(id: int, dto: CreateTrackDTO, accesses: seq<Access>)
    requires FirstWithId(accesses, dto.externalId).Some?
    ensures var a := accesses[FirstWithId(accesses, dto.externalId).value];
            var row := NewRow(id, Seeded(dto, accesses));
            !Fires(a, row, LastEntry) && !Fires(a, row, LastExit) && !CrashesOn(a, row)
  {
  }

  class TrackService {
    const store: TrackTable
    const notifier: NotificationService

    constructor (store: TrackTable, notifier: NotificationService)
      ensures this.store == store && this.notifier == notifier
    {
      this.store := store;
      this.notifier := notifier;
    }

    /** `SendAllFollows`: the chat's follows, as one listing message. */
    method SendAllFollows(chatId: string, fetchFault: Option<Cause>, delivery: Option<Cause>) returns (err: Option<AppError>)
      modifies notifier
      ensures fetchFault.Some? ==> err == Some(StoreError(fetchFault.value)) && notifier.posts == old(notifier.posts)
      ensures fetchFault.None? ==>
        notifier.posts == old(notifier.posts) + [ChatPost(chatId, TrackListMessage(ByChat(store.rows, chatId)))]
        && err == if delivery.Some? then Some(NotifyError(Wrapped(NotifyError(delivery.value)))) else None
      ensures notifier.batches == old(notifier.batches) && notifier.published == old(notifier.published)
    {
      var followTracks := store.GetTracksByChatId(chatId, fetchFault);
      if followTracks.Err? {
        return Some(followTracks.error);
      }
      err := notifier.SendTracks(chatId, followTracks.value, delivery);
    }

    /** `GetFollowTracksByChatId`: the store's answer, unchanged. */
    method GetFollowTracksByChatId(chatId: string, fetchFault: Option<Cause>) returns (r: Result<seq<Track>, AppError>)
      ensures fetchFault.Some? ==> r == Err(StoreError(fetchFault.value))
      ensures fetchFault.None? ==> r == Ok(ByChat(store.rows, chatId))
      ensures fetchFault.None? ==> r.Ok? && (forall t :: t in r.value <==> t in store.rows && t.chatId == chatId)
    {
      r := store.GetTracksByChatId(chatId, fetchFault);
      if r.Ok? {
        ByChatExact(store.rows, chatId, store.rows, []);
      }
    }

    /**
     * `Create`: seed the follow from the recent accesses, insert it unless
     * the chat already follows that run, then confirm to the chat. Each
     * failure stops the steps after it.
     */
    method Create(dto: CreateTrackDTO, recent: Result<seq<Access>, AppError>, storeFault: Option<Cause>, delivery: Option<Cause>)
      returns (err: Option<AppError>)
      requires store.Valid()
      modifies store, notifier
      ensures store.Valid()
      ensures recent.Err? ==> err == Some(recent.error) && store.rows == old(store.rows) && notifier.posts == old(notifier.posts)
      ensures recent.Ok? && storeFault.Some? ==>
        err == Some(StoreError(storeFault.value)) && store.rows == old(store.rows) && notifier.posts == old(notifier.posts)
      ensures recent.Ok? && storeFault.None? ==>
        store.rows == InsertOrIgnore(old(store.rows), NewRow(old(store.nextId), Seeded(dto, recent.value)))
        && notifier.posts == old(notifier.posts) + [ChatPost(dto.chatId, Added)]
        && err == if delivery.Some? then Some(NotifyError(delivery.value)) else None
      ensures notifier.batches == old(notifier.batches) && notifier.published == old(notifier.published)
    {
      if recent.Err? {
        return Some(recent.error);
      }
      var accesses := recent.value;
      var seeded := dto;
      var i := 0;
      while i < |accesses|
        invariant 0 <= i <= |accesses|
        invariant forall k :: 0 <= k < i ==> accesses[k].externalId != dto.externalId
      {
        if accesses[i].externalId == dto.externalId {
          seeded := dto.(lastEntry := Some(accesses[i].entryAt), lastExit := accesses[i].exitAt);
          break;
        }
        i := i + 1;
      }
      assert seeded == Seeded(dto, accesses);
      err := store.Create(seeded, storeFault);
      if err.Some? {
        return;
      }
      err := notifier.SendMessage(dto.chatId, Added, delivery);
    }

    /** `Delete`: remove the follow, then confirm to the chat. */
    method Delete(dto: DeleteTrackDTO, storeFault: Option<Cause>, delivery: Option<Cause>) returns (err: Option<AppError>)
      requires store.Valid()
      modifies store, notifier
      ensures store.Valid()
      ensures storeFault.Some? ==>
        err == Some(StoreError(storeFault.value)) && store.rows == old(store.rows) && notifier.posts == old(notifier.posts)
      ensures storeFault.None? ==>
        store.rows == Without(old(store.rows), dto.chatId, dto.run)
        && notifier.posts == old(notifier.posts) + [ChatPost(dto.chatId, Removed)]
        && err == if delivery.Some? then Some(NotifyError(delivery.value)) else None
      ensures notifier.batches == old(notifier.batches) && notifier.published == old(notifier.published)
    {
      err := store.Delete(dto, storeFault);
      if err.Some? {
        return;
      }
      err := notifier.SendMessage(dto.chatId, Removed, delivery);
    }
  }
}
