# spl-notification: access reconciliation, in Dafny

spl-notification lets chats follow people ("tracks") and notifies them when
one of those people enters or leaves a site. A periodic cycle polls an access
source, compares each access record with the last entry and exit stored on
every track with the same external id, stores the new timestamps and publishes
one notification request per changed track to a Pub/Sub topic. A consumer
turns each request into a WhatsApp webhook call. A small HTTP API creates,
deletes and lists the tracks of a chat.

This project models the Go service and the older TypeScript service it
replaced, as separate modules:

- `Common`, `Seqs`, `Text`: option and result types, `Int32`/`Int8` ranges,
  order-preserving filtering, and line joining. `Text.UpperAscii` models SQL
  `UPPER`.
- `Decimal`: `strconv.ParseInt` in base 10 with a bit size (sign, digits,
  range, error kinds) and the `%d` rendering it inverts.
- `AppErrors`: the tagged `AppError` and its `Error()` text.
- `Model`: tracks, access records, access DTOs, notification requests, and
  the type and location name tables.
- `TrackStore`: the `track` table as a class over a `seq<Track>`. Every
  repository method is there, with store failures as parameters. The two bulk
  updates are all-or-nothing, and a later access for the same id
  overwrites an earlier one.
- `Reconcile`: the reference definitions of one cycle, which the methods are proved against.
  - The entry and exit tests.
  - The matched tracks, in batch order.
  - The insert-if-absent update maps.
  - The requests.
  - `RunCycle`: the whole cycle against the store.
- `AccessCheck`: `accessServiceImpl` as a class holding the store and the
  notifier. Its loops are proved against `Reconcile`, and the DTO conversion
  of `GetRecentlyAccess` is included.
- `Notification`: the Pub/Sub publisher, the webhook posts and the track
  listing message. The consumer is modelled one message at a time.
- `Subscriptions`: `trackServiceImpl`. A new track is seeded from the first
  access with its id in the recent-access feed.
- `LegacyStore`, `LegacyWhatsapp`, `LegacyAccessCheck`: the TypeScript
  `TrackRepository`, `WhatsappService` and `AccessService.checkAccess`.
  That version tracks entries only, compares timestamps as strings and
  writes them back through one SQL `CASE`.

The model represents several things explicitly:

- Timestamps are whole seconds (`Time = int`).
- Store, publish and webhook failures are parameters of the methods.
- Go's map iteration order is a choice the proof does not fix.

In the exit comparison (`internal/service/access.go:124-133`), a track
without a last exit meets an access with an exit, or the other way round.
Go then dereferences a nil pointer and the goroutine panics. The model
returns `Panicked` for such a batch. It leaves the store and the notifier
untouched, because the panic happens before any update. Lines 131-133
cannot change the outcome and are modelled as written.

Two more behaviours of the code shape the model:

- In `compareTrackAndAccess` (`internal/service/access.go:159-170`), a
  failed entry update returns before the exit update is attempted.
- `CheckAccess` discards the error of `SendNotification` (line 65), so a
  cycle whose publish fails still reports success.

## Model

| member | source | states |
|---|---|---|
| Seqs.Filter | src/service/access.service.ts:43-45 | the kept elements are exactly the elements of the input satisfying the predicate, never more than the input |
| Seqs.FilterMembers | src/service/access.service.ts:43-45 | membership in a filtered list is membership in the list plus the predicate, both directions |
| Seqs.FilterAppend | src/service/access.service.ts:43-45 | filtering distributes over concatenation, so order is kept |
| Seqs.FilterAllOrNone | internal/service/access.go:110-111 | a filter keeps everything when all elements pass and nothing when none do |
| Seqs.FilterApart | src/repository/track.repository.ts:31-41 | a sublist of rows with pairwise distinct keys still has pairwise distinct keys |
| Text.TerminatedAppend | internal/service/notification.go:195-201 | the newline-terminated listing of two lists is the concatenation of their listings |
| Text.JoinThenNewline | src/service/whatsapp.service.ts:50-52 | joining non-empty lines with newline and adding one newline equals terminating every line |
| Text.UpperAscii | src/repository/track.repository.ts:37 | SQL `UPPER` maps each ASCII lower-case letter to upper case and leaves every other character and the length unchanged |
| Decimal.DigitChar | internal/service/notification.go:70 | the digit character of a value below ten reads back as that value |
| Decimal.FormatNat | internal/service/notification.go:70 | the `%d` text of a natural number is a non-empty run of digits |
| Decimal.FormatInt | internal/service/notification.go:70 | the `%d` text is non-empty and starts with a minus sign exactly for negative numbers |
| Decimal.ParseInt | internal/service/access.go:212-220 | `strconv.ParseInt(s, 10, bits)` accepts only values in the signed range of the bit size; any error names `ParseInt` and the input |
| Decimal.ScanSnoc | internal/service/access.go:212 | one more character extends a digit scan, or fails it on a non-digit or on overflow |
| Decimal.ScanFormatNat | internal/service/access.go:212 | scanning the rendering of an in-range natural number gives the number back |
| Decimal.FormatThenParse | internal/service/access.go:212-220 | parsing the `%d` rendering of any in-range value gives that value back |
| Decimal.ParseWidths | internal/service/access.go:212-220 | bit size 32 yields an `int32`, bit size 8 an `int8` |
| AppErrors.NewAppError | internal/errors/errors.go:16-21 | the error carries the component, no type and the cause; its text is the component between bars, then the cause |
| AppErrors.NewAppErrorWithType | internal/errors/errors.go:23-29 | the error carries component, type and cause; its text is the component and type joined by a colon between bars, then the cause |
| AppErrors.Message | internal/errors/errors.go:31-44 | the error text always ends with the cause's text |
| AppErrors.UntaggedMessage | internal/errors/errors.go:31-44 | an error without component or type renders as a single bar, then the cause |
| Model.TypeName | internal/model/notification_request.go:12-21 | `ENTRY` exactly for type 1, `EXIT` exactly for type 2, `UNKNOWN` exactly for every other value |
| Model.LocationName | internal/model/notification_request.go:23-39 | the six known location codes map to their site names; exactly the other codes give `Unknown Location` |
| Model.LocationNamesDistinct | internal/model/notification_request.go:23-39 | different known locations have different names |
| Model.FirstWithId | internal/service/access.go:77-82 | the first access of the batch with the id, or none exactly when no access has it |
| TrackStore.WithColumn | internal/repository/track.go:171-175 | setting a timestamp column makes it hold the new value |
| TrackStore.ExecUpdate | internal/repository/track.go:171-188 | one `UPDATE ... WHERE external_id = ?` sets the column on exactly the rows with that id |
| TrackStore.ApplyUpdates | internal/repository/track.go:160-195 | a bulk update changes only the target timestamp column, never identity fields or row count |
| TrackStore.LastWithId | internal/repository/track.go:183-188 | the last access with an id, or none exactly when no access has it |
| TrackStore.UpdateLastWins | internal/repository/track.go:183-188 | after a bulk update every row holds the timestamp of the last access with its id, or is unchanged |
| TrackStore.ApplyMap | internal/service/access.go:149-170 | applying an update map sets the column of exactly the rows whose id is a key, to that key's access |
| TrackStore.UpdatesFromMap | internal/service/access.go:149-157 | updating with a list holding each map value once is the same as applying the map, whatever the list's order |
| TrackStore.InsertOrIgnore | internal/repository/track.go:234-265 | after an insert the key is present; an insert of an existing key changes nothing |
| TrackStore.CreateTwiceKeepsOne | internal/repository/track.go:234-265 | creating the same (chat, run) twice leaves exactly one row for it, the first |
| TrackStore.DeleteRemovesKey | internal/repository/track.go:268-279 | after a delete no row has the key, every other row survives, and deleting a missing key changes nothing |
| TrackStore.ByChatExact | internal/repository/track.go:89-158 | the rows of a chat are exactly the table's rows with that chat id, in table order |
| TrackStore.TrackTable.constructor | internal/repository/track.go:15-17 | a new table is empty and valid |
| TrackStore.TrackTable.GetAll | internal/repository/track.go:19-87 | all rows, or the store error |
| TrackStore.TrackTable.GetTracksByChatId | internal/repository/track.go:89-158 | the chat's rows, or the store error |
| TrackStore.TrackTable.Update | internal/repository/track.go:160-232 | a failed transaction step leaves the table as it was; otherwise every access's update is applied in order |
| TrackStore.TrackTable.UpdateEntryAt | internal/repository/track.go:160-195 | all-or-nothing update of `last_entry` from the accesses |
| TrackStore.TrackTable.UpdateExitAt | internal/repository/track.go:197-232 | all-or-nothing update of `last_exit` from the accesses, each of which must have an exit |
| TrackStore.TrackTable.Create | internal/repository/track.go:234-265 | insert-if-absent on (chat, run), or the store error with the table unchanged |
| TrackStore.TrackTable.Delete | internal/repository/track.go:268-279 | removes the (chat, run) rows, or the store error with the table unchanged |
| Reconcile.ExitTest | internal/service/access.go:123-133 | both exits absent is no change; exactly one absent is the nil dereference; both present is a change iff they differ |
| Reconcile.Reps | internal/service/access.go:116-120 | every key of an update map is the id of its access; exit maps hold only accesses with an exit |
| Reconcile.NotificationsFor | internal/service/access.go:70-102 | one request per changed track |
| Reconcile.HitsMembers | internal/service/access.go:110-145 | the tracks one access matches are exactly the tracks it fires on |
| Reconcile.MatchesIntro | internal/service/access.go:110-145 | every firing (access, track) pair puts the track in the match list |
| Reconcile.MatchesElim | internal/service/access.go:110-145 | every track in the match list was fired on by some access |
| Reconcile.MatchesMembers | internal/service/access.go:110-145 | a track is matched iff some access of the batch fires on it |
| Reconcile.MatchesNotifiable | internal/service/access.go:70-102 | every matched track has an access with its id, with an exit for exit matches, so building its request cannot dereference nil |
| Reconcile.RepsAreFirstFiring | internal/service/access.go:116-120 | an id is in an update map iff some access with it fired, and its value is the first such access |
| Reconcile.RepsFromBatch | internal/service/access.go:116-120 | update-map values are accesses of the batch |
| Reconcile.RequestFields | internal/service/access.go:75-98 | a request takes chat, run, name and alias from its track, and date and location from the batch's first access with the track's id |
| Reconcile.NotificationsShape | internal/service/access.go:46-59 | the request list has one entry per match: all ENTRY requests, in entry-match order, then all EXIT requests, in exit-match order, each carrying its track's chat and run |
| Reconcile.NotificationsSplit | internal/service/access.go:46-59 | without a panic, every matched track has a first access with its id (with an exit for EXIT), and the request list is the ENTRY part followed by the EXIT part |
| Reconcile.EntriesThenExits | internal/service/access.go:46-59 | ENTRY requests for one track list followed by EXIT requests for another line up position by position with those lists |
| Reconcile.RequestsFollowTracks | internal/service/access.go:75-98 | the requests of one kind follow their tracks one for one, in order, with the track's chat and run |
| Reconcile.HitsSnoc | internal/service/access.go:111 | scanning one more track appends it to the hits iff the access fires on it |
| Reconcile.ScanStep | internal/service/access.go:111-142 | scanning one more track appends it to the column's list exactly when it fires, and the insert-if-absent map takes one more step |
| Reconcile.BatchSnoc | internal/service/access.go:110-145 | one more access appends its hits to the matches and takes one insert-if-absent step on the update map |
| Reconcile.UnmentionedNeverMatched | internal/service/access.go:112 | tracks whose id no access carries are never matched or updated |
| Reconcile.QuietWhenNothingMatches | internal/service/access.go:35-68 | a batch that mentions no track's id succeeds, changes nothing and sends nothing |
| Reconcile.QuietOnEmptyBatch | internal/service/access.go:35-68 | an empty batch succeeds, changes nothing and sends nothing |
| Reconcile.EntryFailureStopsCycle | internal/service/access.go:159-164 | a failed entry update ends the cycle with that error, the table unchanged and nothing sent |
| Reconcile.SettledAgainstBatch | internal/service/access.go:104-173 | after a run with distinct ids, no access of the batch fires on or panics on any row |
| Reconcile.SecondRunIsQuiet | internal/service/access.go:35-173 | re-running a successful cycle with the same distinct-id batch changes nothing and sends nothing |
| Reconcile.NothingFires | internal/service/access.go:110-145 | when no pair fires, there are no matches and the update maps are empty |
| Reconcile.HitsAllOrNone | internal/service/access.go:110-145 | an access that fires on every track hits all of them, in order; one that fires on none hits nothing |
| Reconcile.SingleAccess | internal/service/access.go:110-145 | a one-access batch matches exactly that access's hits, and its update map holds that access alone when it hit something, nothing otherwise |
| Reconcile.FanOutColumn | internal/service/access.go:110-145 | one access with a new entry and an unchanged exit against two rows of its identity: both rows match on entry, none on exit, and only the entry map holds the access |
| Reconcile.FanOutMatches | internal/service/access.go:110-145 | the same two-row batch does not panic, matches both rows on entry and none on exit, with a single-entry update map for entry and an empty one for exit |
| Reconcile.FanOutRequests | internal/service/access.go:46-102 | that batch yields exactly one ENTRY request per row, in table order, each built from the one access |
| Reconcile.FanOutRows | internal/service/access.go:149-170 | applying the single-entry map to the two rows sets both rows' last entry to the access's entry time and leaves the rest of each row unchanged |
| Reconcile.SharedIdentityFanOut | internal/service/access_test.go:126-184 | two chats following one identity: a clean cycle ends Done, sets both rows' last entry and sends one ENTRY request per chat, in table order |
| AccessCheck.Convert | internal/service/access.go:211-245 | the record converts exactly when the id parses as 32 bits, the location as 8 bits, the entry as a time and the exit, if present, as a time; the access then holds those values and the DTO's run and name; a bad id gives the `AccessService` error for it |
| AccessCheck.ConvertAll | internal/service/access.go:209-248 | a feed that converts yields every record's access, in order, one per record |
| AccessCheck.ConvertAllSucceeds | internal/service/access.go:209-248 | the feed converts exactly when every record converts |
| AccessCheck.ConvertAllStep | internal/service/access.go:209-248 | one more record extends the converted prefix with its access, or turns the prefix into that record's error |
| AccessCheck.RenderThenConvertOne | internal/service/access.go:211-245 | rendering an access as its DTO and converting it back gives the access, given a time format that parses back |
| AccessCheck.RenderAll | internal/dto/response/access.go:3-10 | one DTO per access, in order |
| AccessCheck.RenderThenConvert | internal/service/access.go:209-248 | converting the rendering of any batch gives the batch back |
| AccessCheck.ConvertAllKeepsFirstError | internal/service/access.go:211-236 | the first malformed DTO decides the error of the whole batch |
| AccessCheck.MapValues | internal/service/access.go:149-157 | the list holds each value of the map exactly once |
| AccessCheck.CompareAll | internal/service/access.go:110-145 | the whole batch against every track: reports a panic exactly when some pair panics; otherwise the match lists are `Matches` and the update maps `Reps` for both columns |
| AccessCheck.CompareAccess | internal/service/access.go:110-145 | one pass of the batch loop: panics exactly when the access panics on some track; otherwise the lists and maps are those of the batch one access longer |
| AccessCheck.CompareWithTracks | internal/service/access.go:111-143 | one access against all tracks: panics iff some pair panics; otherwise appends its hits and does the insert-if-absent step on both maps |
| AccessCheck.ScanTrack | internal/service/access.go:111-143 | one pass of the track loop: panics exactly when the access panics on that track; otherwise the lists and maps are those of the scan one track longer |
| AccessCheck.CompareOne | internal/service/access.go:112-142 | one access against one track: panics exactly when the exit test panics; otherwise the track is appended to each list exactly when that column fires, and each map takes the insert-if-absent step |
| AccessCheck.AccessService.constructor | internal/service/access.go:23-33 | the service holds the given store and notifier |
| AccessCheck.AccessService.StoreUpdates | internal/service/access.go:149-170 | the entry update, then the exit update unless the entry update failed; each applies its map all-or-nothing |
| AccessCheck.AccessService.CompareTrackAndAccess | internal/service/access.go:104-173 | panics iff some pair panics, leaving the store untouched; otherwise the matches and store state `Reconcile` defines, or the first update error |
| AccessCheck.AccessService.CreateNotificationRequest | internal/service/access.go:70-102 | the requests `NotificationsFor` defines, one per track |
| AccessCheck.AccessService.CollectRequests | internal/service/access.go:46-59 | given the entry and exit matches, the list built is `Notifications`: ENTRY requests then EXIT requests |
| AccessCheck.AccessService.CheckAccess | internal/service/access.go:35-68 | outcome and table are those of `RunCycle`; exactly one batch is published when there is something to send, and no webhook is called |
| AccessCheck.AccessService.ConvertRecord | internal/service/access.go:211-245 | one record converts exactly as `Convert`: id, then location, then entry, then the optional exit, stopping at the first error |
| AccessCheck.AccessService.ConvertRecentAccesses | internal/service/access.go:209-248 | `ConvertAll` of the records: every record converted in order, or the first error |
| Notification.Attributes | internal/service/notification.go:64-72 | exactly the keys type, chatId, run and location, with the type name and a location that parses back to the code |
| Notification.Messages | internal/service/notification.go:57-72 | one message per request, carrying that request |
| Notification.TemplatePost | internal/service/notification.go:123-140 | exit requests go to `notify-exit`, all others to `notify-entry`; the body holds chat, name and location name |
| Notification.DisplayName | internal/service/notification.go:196-199 | the alias when present, otherwise the full name |
| Notification.TrackLines | internal/service/notification.go:195-201 | one line per track, in order |
| Notification.ListingSplits | internal/service/notification.go:191-203 | the listing of a longer list is the listing of a prefix plus the lines of the rest |
| Notification.SingleListing | internal/service/notification.go:192-202 | the listing of one track is the header and one line with run and display name |
| Notification.PublishedCount | internal/service/notification.go:57-82 | publishing stops at the failing request, never beyond the batch |
| Notification.NotificationService.constructor | internal/service/notification.go:26-52 | nothing published or posted yet |
| Notification.NotificationService.SendNotification | internal/service/notification.go:54-85 | publishes the requests in order up to the first failure; errors exactly when one failed |
| Notification.NotificationService.SendMessage | internal/service/notification.go:160-189 | posts chat and message to the webhook; returns the delivery error if any |
| Notification.NotificationService.SendTracks | internal/service/notification.go:191-211 | posts the listing of the tracks; a delivery error comes back wrapped twice |
| Notification.NotificationService.NotifyTemplate | internal/service/notification.go:123-158 | posts the request's template; returns the delivery error if any |
| Notification.NotificationService.HandleMessage | internal/service/notification.go:92-116 | acknowledges exactly a decodable message that was delivered; undecodable ones post nothing |
| Subscriptions.Seeded | internal/service/track.go:52-82 | the new track keeps the request's identity fields and takes entry and exit from the first recent access with its id, if there is one |
| Subscriptions.SeededRowIsQuiet | internal/service/track.go:52-82 | a freshly seeded track does not fire or panic against the access it was seeded from |
| Subscriptions.TrackService.constructor | internal/service/track.go:16-26 | the service holds the given store and notifier |
| Subscriptions.TrackService.SendAllFollows | internal/service/track.go:28-41 | sends the chat's listing, or the store error with nothing sent |
| Subscriptions.TrackService.GetFollowTracksByChatId | internal/service/track.go:43-50 | exactly the repository's list of the chat's tracks, in table order (`ByChat`), or the store error |
| Subscriptions.TrackService.Create | internal/service/track.go:52-82 | fetch error or store error changes nothing; otherwise the seeded track is inserted if absent and the "added" message is sent |
| Subscriptions.TrackService.Delete | internal/service/track.go:84-96 | removes the (chat, run) tracks and sends the "removed" message, or the store error with nothing changed |
| LegacyStore.FirstFor | src/service/access.service.ts:51 | the first access with the user id, or none exactly when no access has it |
| LegacyStore.Cases | src/repository/track.repository.ts:66-71 | one `WHEN user_id = ? THEN entry` per access, in order |
| LegacyStore.CaseValue | src/repository/track.repository.ts:66-77 | the `CASE` yields no value exactly when no `WHEN` names the row's user id |
| LegacyStore.CaseIsFirst | src/repository/track.repository.ts:66-77 | the `CASE` yields the entry of the first access with the row's user id |
| LegacyStore.Updated | src/repository/track.repository.ts:62-79 | rows of the type whose user id is in the batch take the first access's entry; all others stay |
| LegacyStore.OfType | src/repository/track.repository.ts:81-83 | exactly the rows of the type |
| LegacyStore.TrackTable.constructor | src/repository/track.repository.ts:8-10 | a new table is empty |
| LegacyStore.TrackTable.CreateTrack | src/repository/track.repository.ts:12-22 | a row that conflicts with an existing one is ignored; otherwise it is appended |
| LegacyStore.TrackTable.ListTrack | src/repository/track.repository.ts:24-29 | exactly the rows of the chat and type, in table order, each once |
| LegacyStore.TrackTable.RemoveTrack | src/repository/track.repository.ts:31-41 | removes exactly the rows of the chat and type whose run matches case-insensitively, keeping the order of the rest |
| LegacyStore.TrackTable.CheckTrack | src/repository/track.repository.ts:43-60 | with accesses, exactly the rows that some access finds stale, in table order; with none, the empty `OR` selects every row |
| LegacyStore.TrackTable.UpdateTrack | src/repository/track.repository.ts:62-79 | an empty batch builds a `CASE` without `WHEN` and fails; otherwise the `CASE` update of `Updated` |
| LegacyStore.TrackTable.GetAll | src/repository/track.repository.ts:81-83 | exactly the rows of the type |
| LegacyStore.TrackTable.GetTrackByUserId | src/repository/track.repository.ts:85-90 | exactly the rows of the type and user id, in table order, each once |
| LegacyWhatsapp.EntryPost | src/service/whatsapp.service.ts:27-35 | a post to `notify-entry` with the chat id as text, the name and the location name |
| LegacyWhatsapp.EntryPosts | src/service/whatsapp.service.ts:27-35 | one post per track, in order |
| LegacyWhatsapp.Rejections | src/service/whatsapp.service.ts:37-39 | never more rejections than posts |
| LegacyWhatsapp.NoRejections | src/service/whatsapp.service.ts:37-39 | with no failing post, nothing is rejected |
| LegacyWhatsapp.DisplayName | src/service/whatsapp.service.ts:51 | the alias when it is present and non-empty, otherwise the full name |
| LegacyWhatsapp.ListLines | src/service/whatsapp.service.ts:50-52 | one line per track with run and display name |
| LegacyWhatsapp.ListingsAgree | src/service/whatsapp.service.ts:47-55 | when no alias is empty, the Go listing is the TypeScript listing plus a final newline |
| LegacyWhatsapp.EmptyAliasListingsDiffer | src/service/whatsapp.service.ts:51 | for an empty alias the two listings differ |
| LegacyWhatsapp.WhatsappClient.constructor | src/service/whatsapp.service.ts:15-24 | nothing posted yet |
| LegacyWhatsapp.WhatsappClient.NotifyEntry | src/service/whatsapp.service.ts:26-45 | posts every track; fulfilled plus rejected is the number of tracks |
| LegacyWhatsapp.WhatsappClient.SendMessage | src/service/whatsapp.service.ts:57-59 | posts chat and message to the webhook |
| LegacyWhatsapp.WhatsappClient.ListTracks | src/service/whatsapp.service.ts:47-55 | posts the listing of the tracks |
| LegacyAccessCheck.Matched | src/service/access.service.ts:32-39 | a track is matched iff some access has its user id and a different entry, including when it has none |
| LegacyAccessCheck.MatchIds | src/service/access.service.ts:42 | exactly the user ids of the matched tracks |
| LegacyAccessCheck.ToUpdate | src/service/access.service.ts:43-45 | exactly the accesses whose id was matched, in batch order |
| LegacyAccessCheck.UpdateCoversMatches | src/service/access.service.ts:42-52 | every matched track finds an access in the update list |
| LegacyAccessCheck.NotifyEach | src/service/access.service.ts:49-61 | one notification per track, with its chat, run, name and alias and the location of its first access |
| LegacyAccessCheck.OneNotificationPerMatch | src/service/access.service.ts:42-61 | exactly one notification per matched track, none dropped |
| LegacyAccessCheck.NotifyCount | src/service/access.service.ts:49-65 | the tracks handed to the notifier are exactly as many as the matches |
| LegacyAccessCheck.SettledRow | src/service/access.service.ts:26-66 | after a check with distinct ids, no access fires on any tracked row |
| LegacyAccessCheck.SecondCheckMatchesNothing | src/service/access.service.ts:26-66 | a second check with the same distinct-id batch matches nothing |
| LegacyAccessCheck.DuplicateBatchMatches | src/service/access.service.ts:26-37 | of a batch with two accesses sharing an id, the second fires on a row that holds the first one's entry |
| LegacyAccessCheck.DuplicateBatchKeepsRow | src/repository/track.repository.ts:66-77 | the `CASE` writes the first access's entry back, so that row is left as it was |
| LegacyAccessCheck.DuplicateIdsFireAgain | src/service/access.service.ts:26-66 | without distinct ids, the same batch matches that row again after a check, so it is notified on every check |
| LegacyAccessCheck.MatchTracks | src/service/access.service.ts:29-39 | the loop's match list is `Matched` |
| LegacyAccessCheck.TracksToNotify | src/service/access.service.ts:49-61 | the loop's notification list is `ToNotify`'s |
| LegacyAccessCheck.AccessService.constructor | src/service/access.service.ts:13-24 | the service holds the given table and client |
| LegacyAccessCheck.AccessService.CheckAccess | src/service/access.service.ts:26-66 | an empty batch or no match sends nothing; otherwise the table is updated, one entry post per match is sent and the counts add up |

## Left out

- `GetRecentlyAccess` (`internal/service/access.go:175-207`): the HTTP call, status check and JSON decoding are not modelled; only the conversion of the decoded DTOs is.
- `AccessCheck.Convert`: RFC 3339 parsing is the `parseTime` parameter, and `strconv.Quote` escaping in the number error text is not modelled.
- The Pub/Sub client, JSON marshalling and the webhook HTTP calls are not modelled. Their failures are parameters; basic-auth headers and status lines are left out.
- `Notification.NotificationService.SendNotification`: a JSON marshalling failure (for instance a year outside 0..9999) is not derived from the request; it is the `Serialize` stage of the fault parameter.
- `HandleNotification` is modelled as one message (`HandleMessage`); the `Receive` loop and its concurrency are left out.
- The scheduler (`cmd/spl-notification/main.go`), configuration, database connection and migration, and the HTTP server and controllers are not modelled.
- The `updated_at` column the repository sets on update is not modelled.
- `Subscriptions.TrackService.Create`: the source copies the seeded times into the caller's DTO in place; the model returns a new value.
- The TypeScript schema, `TrackType` enum, `extractUnique`, the unique conflict key and `getLocation` are not part of this model. They are parameters or simple stand-ins (`OtherType`, a set, a clash predicate, a function).
- `LegacyWhatsapp.EntryPost`: JavaScript `String(number)` is modelled as decimal rendering; exponent notation for very large chat ids is left out.
- TypeScript exceptions from database or HTTP calls and `console.log` output are left out; a rejected post is counted, not thrown.
- `AccessService.getAccess` (`src/service/access.service.ts:68-71`) is an HTTP call and is not modelled.
- `AccessCheck.AccessService.CreateNotificationRequest`: the nil-access dereference cannot happen for matched tracks, and the method requires that a matching access exists.
- Floating time zones and sub-second precision are out: timestamps are whole seconds.
