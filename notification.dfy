/**
 * The Go notification service (internal/service/notification.go): it
 * publishes notification requests to a Pub/Sub topic, turns each received
 * request into a webhook call, and sends plain chat messages. The topic and
 * the webhook are logs of what was handed to them; whether a hand-off fails
 * is an argument.
 */
module Notification {
  import opened Common
  import opened Model
  import opened AppErrors
  import opened Decimal
  import opened Text

  const Component := "NotificationService"

  function NotifyError(cause: Cause): AppError
  {
    NewAppError(Component, cause)
  }

  /** A message on the topic: the request (serialised as JSON) and its attributes. */
  datatype PubMessage = PubMessage(data: NotificationRequest, attributes: map<string, string>)

  /** A POST to the webhook, by path below the configured base URL, with its JSON body. */
  datatype Post = Post(path: string, body: map<string, string>)

  /**
   * The attributes of a published request. The location is written in
   * decimal, and reading it back yields the request's location.
   */
  function Attributes(r: NotificationRequest): (m: map<string, string>)
    ensures m.Keys == {"type", "chatId", "run", "location"}
    ensures m["type"] == TypeName(r.kind) && m["chatId"] == r.chatId && m["run"] == r.run
    ensures ParseInt(m["location"], 8) == Ok(r.location as int)
  {
    Pow2Bounds();
    FormatThenParse(r.location, 8);
    map["type" := TypeName(r.kind), "chatId" := r.chatId, "run" := r.run, "location" := FormatInt(r.location)]
  }

  function Messages(requests: seq<NotificationRequest>): (ms: seq<PubMessage>)
    ensures |ms| == |requests|
    ensures forall i :: 0 <= i < |requests| ==> ms[i].data == requests[i]
  {
    seq(|requests|, i requires 0 <= i < |requests| => PubMessage(requests[i], Attributes(requests[i])))
  }

  /** `notifyTemplate`'s choice of webhook: exits go to one path, everything else to the other. */
  function TemplatePost(r: NotificationRequest): (p: Post)
    ensures p.path == "webhook/whatsapp/notify-exit" <==> r.kind == NotificationTypeExit
    ensures p.path == "webhook/whatsapp/notify-entry" <==> r.kind != NotificationTypeExit
    ensures p.body.Keys == {"chatId", "fullName", "location"}
    ensures p.body["chatId"] == r.chatId && p.body["fullName"] == r.fullName
    ensures p.body["location"] == LocationName(r.location)
  {
    var finalPath := if r.kind == NotificationTypeExit then "notify-exit" else "notify-entry";
    Post("webhook/whatsapp/" + finalPath,
         map["chatId" := r.chatId, "fullName" := r.fullName, "location" := LocationName(r.location)])
  }

  /** The name a listing shows: the alias whenever there is one, even an empty one. */
  function DisplayName(t: Track): (name: string)
    ensures t.alias.Some? ==> name == t.alias.value
    ensures t.alias.None? ==> name == t.fullName
  {
    if t.alias.Some? then t.alias.value else t.fullName
  }

  function TrackLine(t: Track): string
  {
    "- " + t.run + " " + DisplayName(t)
  }

  function TrackLines(tracks: seq<Track>): (lines: seq<string>)
    ensures |lines| == |tracks|
    ensures forall i :: 0 <= i < |tracks| ==> lines[i] == TrackLine(tracks[i])
  {
    seq(|tracks|, i requires 0 <= i < |tracks| => TrackLine(tracks[i]))
  }

  const EmptyListMessage := "No tienes seguimientos."
  const ListHeader := "\U{1F4CB} Listado:\n"

  /** The text `SendTracks` sends for a chat's tracks. */
  function TrackListMessage(tracks: seq<Track>): string
  {
    if |tracks| == 0 then EmptyListMessage else ListHeader + Terminated(TrackLines(tracks))
  }

  /**
   * A listing of `a + b` is the listing of `a` followed by one line per
   * track of `b`, in order: tracks are listed one per line, in list order.
   */
  lemma ListingSplits(a: seq<Track>, b: seq<Track>)
    requires |a| > 0
    ensures TrackListMessage(a + b) == TrackListMessage(a) + Terminated(TrackLines(b))
  {
    assert TrackLines(a + b) == TrackLines(a) + TrackLines(b);
    TerminatedAppend(TrackLines(a), TrackLines(b));
  }

  /** One track's listing is the header and that track's line. */
  lemma SingleListing(t: Track)
    ensures TrackListMessage([t]) == ListHeader + "- " + t.run + " " + DisplayName(t) + "\n"
  {
    var lines := TrackLines([t]);
    assert lines == [TrackLine(t)] && lines[..0] == [];
    assert Terminated(lines) == Terminated([]) + TrackLine(t) + "\n";
  }

  datatype PublishStage = Serialize | Publish

  /** The request at `index` fails to serialise or to publish. */
  datatype PublishFault = PublishFault(index: nat, stage: PublishStage, cause: Cause)

  /** How many of `n` requests get published before the fault stops the loop. */
  function PublishedCount(fault: Option<PublishFault>, n: nat): (k: nat)
    ensures k <= n
  {
    if fault.Some? && fault.value.index < n then fault.value.index else n
  }

  function PublishError(f: PublishFault): AppError
  {
    if f.stage == Serialize
    then NotifyError(Plain("error serializing notification: " + CauseText(f.cause)))
    else NotifyError(Plain("error publishing message to Pub/Sub: " + CauseText(f.cause)))
  }

  datatype Reply = Ack | Nack

  class NotificationService {
    /** Every batch handed to `SendNotification`, in call order. */
    var batches: seq<seq<NotificationRequest>>
    /** Every message the topic accepted, in order. */
    var published: seq<PubMessage>
    /** Every webhook call made, in order. */
    var posts: seq<Post>

    constructor ()
      ensures batches == [] && published == [] && posts == []
    {
      batches, published, posts := [], [], [];
    }

    /**
     * `SendNotification`: publish in list order, stopping at the first
     * request that fails to serialise or publish.
     */
    method SendNotification(requests: seq<NotificationRequest>, fault: Option<PublishFault>)
      returns (err: Option<AppError>)
      modifies this
      ensures batches == old(batches) + [requests] && posts == old(posts)
      ensures published == old(published) + Messages(requests[..PublishedCount(fault, |requests|)])
      ensures err.Some? <==> PublishedCount(fault, |requests|) < |requests|
      ensures err.Some? ==> err == Some(PublishError(fault.value))
    {
      batches := batches + [requests];
      ghost var start := published;
      var i := 0;
      while i < |requests|
        invariant 0 <= i <= |requests| && i <= PublishedCount(fault, |requests|)
        invariant published == start + Messages(requests[..i])
        invariant batches == old(batches) + [requests] && posts == old(posts)
      {
        var request := requests[i];
        if fault.Some? && fault.value.index == i {
          return Some(PublishError(fault.value));
        }
        assert Messages(requests[..i + 1]) == Messages(requests[..i]) + [PubMessage(request, Attributes(request))];
        published := published + [PubMessage(request, Attributes(request))];
        i := i + 1;
      }
      assert requests[..i] == requests[..PublishedCount(fault, |requests|)];
      return None;
    }

    /** `SendMessage`: one POST of {chatId, message} to the plain-message webhook. */
    method SendMessage(chatId: string, message: string, delivery: Option<Cause>) returns (err: Option<AppError>)
      modifies this
      ensures posts == old(posts) + [Post("webhook/whatsapp", map["chatId" := chatId, "message" := message])]
      ensures batches == old(batches) && published == old(published)
      ensures err == if delivery.Some? then Some(NotifyError(delivery.value)) else None
    {
      posts := posts + [Post("webhook/whatsapp", map["chatId" := chatId, "message" := message])];
      if delivery.Some? {
        return Some(NotifyError(delivery.value));
      }
      return None;
    }

    /** `SendTracks`: send the chat its listing; a failed send is wrapped once more. */
    method SendTracks(chatId: string, tracks: seq<Track>, delivery: Option<Cause>) returns (err: Option<AppError>)
      modifies this
      ensures posts == old(posts) + [Post("webhook/whatsapp", map["chatId" := chatId, "message" := TrackListMessage(tracks)])]
      ensures batches == old(batches) && published == old(published)
      ensures err == if delivery.Some? then Some(NotifyError(Wrapped(NotifyError(delivery.value)))) else None
    {
      var message := EmptyListMessage;
      if |tracks| > 0 {
        var trackList := "";
        var i := 0;
        while i < |tracks|
          invariant 0 <= i <= |tracks|
          invariant trackList == Terminated(TrackLines(tracks[..i]))
        {
          assert TrackLines(tracks[..i + 1]) == TrackLines(tracks[..i]) + [TrackLine(tracks[i])];
          trackList := trackList + TrackLine(tracks[i]) + "\n";
          i := i + 1;
        }
        assert tracks[..i] == tracks;
        message := ListHeader + trackList;
      }
      var sendErr := SendMessage(chatId, message, delivery);
      if sendErr.Some? {
        return Some(NotifyError(Wrapped(sendErr.value)));
      }
      return None;
    }

    /** `notifyTemplate`: one POST to the entry or exit webhook. */
    method NotifyTemplate(request: NotificationRequest, delivery: Option<Cause>) returns (err: Option<AppError>)
      modifies this
      ensures posts == old(posts) + [TemplatePost(request)]
      ensures batches == old(batches) && published == old(published)
      ensures err == if delivery.Some? then Some(NotifyError(delivery.value)) else None
    {
      posts := posts + [TemplatePost(request)];
      if delivery.Some? {
        return Some(NotifyError(delivery.value));
      }
      return None;
    }

    /**
     * The receive callback of `HandleNotification` for one message: a
     * message that does not decode, or whose webhook call fails, is Nacked
     * for redelivery; only a delivered one is Acked.
     */
    method HandleMessage(decoded: Option<NotificationRequest>, delivery: Option<Cause>) returns (reply: Reply)
      modifies this
      ensures reply == Ack <==> decoded.Some? && delivery.None?
      ensures decoded.None? ==> posts == old(posts)
      ensures decoded.Some? ==> posts == old(posts) + [TemplatePost(decoded.value)]
      ensures batches == old(batches) && published == old(published)
    {
      if decoded.None? {
        return Nack;
      }
      var err := NotifyTemplate(decoded.value, delivery);
      if err.Some? {
        return Nack;
      }
      return Ack;
    }
  }
}
