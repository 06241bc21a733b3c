/**
 * The older TypeScript WhatsApp client (src/service/whatsapp.service.ts):
 * entry notifications, listings and plain messages, each a POST to the
 * relay. The relay is a log of posts; which posts it rejects is an argument.
 */
module LegacyWhatsapp {
  import opened Common
  import opened Text
  import opened Decimal
  import opened LegacyStore
  import Notification
  import Model

  /** What `checkAccess` hands over per matched track. */
  datatype NotifyTrack = NotifyTrack(chatId: int, run: string, fullName: string, alias: Option<string>, location: string)

  datatype NotifyResult = NotifyResult(fullFilled: nat, rejected: nat)

  const NotifyEntryPath := "webhook/whatsapp/notify-entry"
  const MessagePath := "webhook/whatsapp"

  /** The body of one entry notification; `getLocation` names a location code. */
  function EntryPost(t: NotifyTrack, getLocation: string -> string): (p: Notification.Post)
    ensures p.path == NotifyEntryPath
    ensures p.body.Keys == {"chatId", "fullName", "location"}
    ensures p.body["chatId"] == FormatInt(t.chatId) && p.body["fullName"] == t.fullName
      && p.body["location"] == getLocation(t.location)
  {
    Notification.Post(NotifyEntryPath, map["chatId" := FormatInt(t.chatId), "fullName" := t.fullName, "location" := getLocation(t.location)])
  }

  /** The entry notifications for a list of tracks, in list order. */
  function EntryPosts(tracks: seq<NotifyTrack>, getLocation: string -> string): (ps: seq<Notification.Post>)
    ensures |ps| == |tracks|
    ensures forall i :: 0 <= i < |tracks| ==> ps[i] == EntryPost(tracks[i], getLocation)
  {
    seq(|tracks|, i requires 0 <= i < |tracks| => EntryPost(tracks[i], getLocation))
  }

  /** One more track adds its own post at the end. */
  lemma EntryPostsSnoc(tracks: seq<NotifyTrack>, getLocation: string -> string, i: nat)
    requires i < |tracks|
    ensures EntryPosts(tracks[..i + 1], getLocation) == EntryPosts(tracks[..i], getLocation) + [EntryPost(tracks[i], getLocation)]
  {
  }

  /** How many of the first `n` posts the relay rejects. */
  function Rejections(n: nat, rejects: set<nat>): (k: nat)
    ensures k <= n
  {
    if n == 0 then 0 else Rejections(n - 1, rejects) + (if n - 1 in rejects then 1 else 0)
  }

  /** A relay that rejects nothing lets every post through. */
  lemma {:induction false} NoRejections(n: nat)
    ensures Rejections(n, {}) == 0
  {
    if n > 0 {
      NoRejections(n - 1);
    }
  }

  /** The name a listing shows: `alias || fullName`, so an empty alias falls back to the full name. */
  function DisplayName(t: Track): (name: string)
    ensures t.alias.Some? && t.alias.value != "" ==> name == t.alias.value
    ensures t.alias.None? || t.alias.value == "" ==> name == t.fullName
  {
    if t.alias.Some? && t.alias.value != "" then t.alias.value else t.fullName
  }

  function ListLines(tracks: seq<Track>): (lines: seq<string>)
    ensures |lines| == |tracks|
    ensures forall i :: 0 <= i < |tracks| ==> lines[i] == "- " + tracks[i].run + " " + DisplayName(tracks[i])
  {
    seq(|tracks|, i requires 0 <= i < |tracks| => "- " + tracks[i].run + " " + DisplayName(tracks[i]))
  }

  /** The text `listTracks` sends: lines joined by newlines, with none after the last. */
  function ListMessage(tracks: seq<Track>): string
  {
    if |tracks| == 0 then Notification.EmptyListMessage
    else Notification.ListHeader + Join(ListLines(tracks), "\n")
  }

  /** The Go track a legacy row corresponds to, for comparing the two listings. */
  predicate SameListing(g: Model.Track, t: Track)
  {
    g.run == t.run && g.fullName == t.fullName && g.alias == t.alias
  }

  /**
   * The two implementations list the same follows alike, except that the Go
   * listing ends with a newline, as long as no alias is empty (the Go side
   * shows an empty alias, this one the full name).
   */
  lemma ListingsAgree(goTracks: seq<Model.Track>, tracks: seq<Track>)
    requires |goTracks| == |tracks| > 0
    requires forall i :: 0 <= i < |tracks| ==> SameListing(goTracks[i], tracks[i])
    requires forall i :: 0 <= i < |tracks| ==> tracks[i].alias != Some("")
    ensures Notification.TrackListMessage(goTracks) == ListMessage(tracks) + "\n"
  {
    assert Notification.TrackLines(goTracks) == ListLines(tracks);
    JoinThenNewline(ListLines(tracks));
  }

  /** With an empty alias the two listings differ: the Go one shows the alias, this one the full name. */
  lemma EmptyAliasListingsDiffer(g: Model.Track, t: Track)
    requires SameListing(g, t) && t.alias == Some("") && t.fullName != ""
    ensures Notification.TrackListMessage([g]) != ListMessage([t]) + "\n"
  {
    Notification.SingleListing(g);
    assert ListLines([t]) == ["- " + t.run + " " + t.fullName];
    var goText := Notification.ListHeader + "- " + t.run + " " + "" + "\n";
    var tsText := Notification.ListHeader + "- " + t.run + " " + t.fullName + "\n";
    assert |goText| < |tsText|;
  }

  class WhatsappClient {
    /** Every POST made to the relay, in order. */
    var posts: seq<Notification.Post>

    constructor ()
      ensures posts == []
    {
      posts := [];
    }

    /**
     * `notifyEntry`: one POST per track, all awaited together; the relay's
     * rejections are counted, never thrown.
     */
    method NotifyEntry(tracks: seq<NotifyTrack>, getLocation: string -> string, rejects: set<nat>) returns (r: NotifyResult)
      modifies this
      ensures posts == old(posts) + EntryPosts(tracks, getLocation)
      ensures r.fullFilled + r.rejected == |tracks|
      ensures r == NotifyResult(|tracks| - Rejections(|tracks|, rejects), Rejections(|tracks|, rejects))
    {
      var fulfilled, rejected := 0, 0;
      var i := 0;
      while i < |tracks|
        invariant 0 <= i <= |tracks|
        invariant posts == old(posts) + EntryPosts(tracks[..i], getLocation)
        invariant fulfilled + rejected == i && rejected == Rejections(i, rejects)
      {
        EntryPostsSnoc(tracks, getLocation, i);
        posts := posts + [EntryPost(tracks[i], getLocation)];
        if i in rejects {
          rejected := rejected + 1;
        } else {
          fulfilled := fulfilled + 1;
        }
        i := i + 1;
      }
      assert tracks[..i] == tracks;
      return NotifyResult(fulfilled, rejected);
    }

    /** `sendMessage`: one POST of {chatId, message}; a rejection reaches the caller. */
    method SendMessage(chatId: string, message: string, rejected: bool) returns (err: bool)
      modifies this
      ensures posts == old(posts) + [Notification.Post(MessagePath, map["chatId" := chatId, "message" := message])]
      ensures err == rejected
    {
      posts := posts + [Notification.Post(MessagePath, map["chatId" := chatId, "message" := message])];
      return rejected;
    }

    /** `listTracks`: the chat's listing as one message. */
    method ListTracks(chatId: string, tracks: seq<Track>, rejected: bool) returns (err: bool)
      modifies this
      ensures posts == old(posts) + [Notification.Post(MessagePath, map["chatId" := chatId, "message" := ListMessage(tracks)])]
      ensures err == rejected
    {
      var message := Notification.EmptyListMessage;
      if |tracks| > 0 {
        message := Notification.ListHeader + Join(ListLines(tracks), "\n");
      }
      err := SendMessage(chatId, message, rejected);
    }
  }
}
