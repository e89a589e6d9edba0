/**
 * `DiscordClient`: the object that holds the two maps and changes them in
 * place. Each method is proved against the functions of `Reconcile`.
 *
 * The chat service is not modelled. What its calls return is passed in:
 * the channel's message history (newest first), what `channel.send` gives,
 * and what fetching and deleting a message gives.
 */
module Discord {
  import opened Wrappers
  import Calendar
  import opened Reconcile

  /** `DiscordEventMessage`: one event-to-message pairing. */
  datatype EventMessage = EventMessage(eventId: string, messageId: int)

  /** How many history messages a sync scans. */
  const DefaultScanLimit := 200

  /** The statistics `sync_events` returns. */
  datatype SyncStats = SyncStats(total: nat, created: nat, skipped: nat, failed: nat)

  class DiscordClient {
    /** Whether the target channel was found once the client became ready. */
    var channelAvailable: bool
    /** The id of the bot's own user, if logged in. */
    var botUserId: Option<int>
    /** `event_message_map`: event id to message id. */
    var eventMessageMap: map<string, int>
    /** `_url_to_message_map`: event link to message id. */
    var urlToMessageMap: map<string, int>
    /** The embeds handed to `channel.send`, in order. */
    ghost var sendCalls: seq<Calendar.Embed>

    /** The client with both maps empty, as the ready handler left channel and user. */
    constructor (channelAvailable: bool, botUserId: Option<int>)
      ensures this.channelAvailable == channelAvailable && this.botUserId == botUserId
      ensures eventMessageMap == map[] && urlToMessageMap == map[] && sendCalls == []
    {
      this.channelAvailable := channelAvailable;
      this.botUserId := botUserId;
      eventMessageMap := map[];
      urlToMessageMap := map[];
      sendCalls := [];
    }

    function CurrentMaps(): Maps
      reads this
    {
      Maps(eventMessageMap, urlToMessageMap)
    }

    /**
     * `rebuild_event_mapping`: with a channel, empties the event map and
     * records every message of ours in the URL map, which is not emptied
     * first. Returns the numbers it logs: messages scanned and mappings found.
     */
    method RebuildEventMapping(history: seq<Message>, limit: nat) returns (messagesScanned: nat, mappingsFound: nat)
      modifies this`eventMessageMap, this`urlToMessageMap
      ensures !channelAvailable ==>
                eventMessageMap == old(eventMessageMap) && urlToMessageMap == old(urlToMessageMap)
                && messagesScanned == 0 && mappingsFound == 0
      ensures channelAvailable ==>
                var scanned := Window(history, limit);
                && eventMessageMap == map[]
                && urlToMessageMap == ScanHistory(old(urlToMessageMap), scanned, botUserId)
                && messagesScanned == |scanned|
                && mappingsFound == CountQualifying(scanned, botUserId)
    {
      messagesScanned, mappingsFound := 0, 0;
      if !channelAvailable {
        return;
      }
      eventMessageMap := map[];
      var scanned := Window(history, limit);
      var i := 0;
      while i < |scanned|
        invariant 0 <= i <= |scanned|
        invariant messagesScanned == i
        invariant eventMessageMap == map[]
        invariant urlToMessageMap == ScanHistory(old(urlToMessageMap), scanned[..i], botUserId)
        invariant mappingsFound == CountQualifying(scanned[..i], botUserId)
      {
        var message := scanned[i];
        messagesScanned := messagesScanned + 1;
        if botUserId.Some? && message.authorId == botUserId.value && |message.embeds| > 0 {
          var embed := message.embeds[0];
          if embed.url.Some? && embed.url.value != "" {
            urlToMessageMap := urlToMessageMap[embed.url.value := message.id];
            mappingsFound := mappingsFound + 1;
          }
        }
        assert scanned[..i + 1][..i] == scanned[..i];
        i := i + 1;
      }
      assert scanned[..i] == scanned;
    }

    /**
     * `upsert_event`: returns the message already posted for the event, or
     * posts one. `outcome` is what `channel.send` gives if it is called.
     */
    method UpsertEvent(event: Calendar.CalendarEvent, fmt: Calendar.Formatter, outcome: SendOutcome)
      returns (messageId: Option<int>)
      modifies this`eventMessageMap, this`urlToMessageMap, this`sendCalls
      ensures var u := UpsertStep(channelAvailable, old(CurrentMaps()), event, outcome);
              && CurrentMaps() == u.maps
              && messageId == u.result
              && sendCalls == if u.sent then old(sendCalls) + [Calendar.EmbedOf(event, fmt)] else old(sendCalls)
    {
      if !channelAvailable {
        return None;
      }

      var embed := Calendar.ToDiscordEmbed(event, fmt);

      var existing := Get(eventMessageMap, event.id);
      if !Truthy(existing) && event.htmlLink != "" {
        existing := Get(urlToMessageMap, event.htmlLink);
        if Truthy(existing) {
          eventMessageMap := eventMessageMap[event.id := existing.value];
        }
      }

      if Truthy(existing) {
        return existing;
      }

      sendCalls := sendCalls + [embed];
      match outcome {
        case SendFailed =>
          return None;
        case Sent(id) =>
          eventMessageMap := eventMessageMap[event.id := id];
          if event.htmlLink != "" {
            urlToMessageMap := urlToMessageMap[event.htmlLink := id];
          }
          return Some(id);
      }
    }

    /**
     * `delete_event_message`. `outcome` is what fetching and deleting the
     * message gives if they are called. The URL map is never touched.
     */
    method DeleteEventMessage(eventId: string, outcome: DeleteOutcome) returns (deleted: bool)
      modifies this`eventMessageMap
      ensures DeleteResult(eventMessageMap, deleted)
              == DeleteStep(channelAvailable, old(eventMessageMap), eventId, outcome)
    {
      if !channelAvailable {
        return false;
      }

      var messageId := Get(eventMessageMap, eventId);
      if !Truthy(messageId) {
        return false;
      }

      match outcome {
        case Deleted =>
          eventMessageMap := eventMessageMap - {eventId};
          return true;
        case NotFound =>
          eventMessageMap := eventMessageMap - {eventId};
          return true;
        case HttpError =>
          return false;
        case OtherError =>
          return false;
      }
    }

    /**
     * `sync_events`: optionally rebuilds the maps from `history`, then upserts
     * every event in order and counts it as created, skipped or failed. The
     * send for the i-th event, if it happens, gives `send(i)`.
     */
    method SyncEvents(events: seq<Calendar.CalendarEvent>, rebuildMapping: bool, history: seq<Message>,
                      fmt: Calendar.Formatter, send: nat -> SendOutcome)
      returns (stats: SyncStats)
      modifies this`eventMessageMap, this`urlToMessageMap, this`sendCalls
      ensures var start :=
                if rebuildMapping && channelAvailable
                then Maps(map[], ScanHistory(old(urlToMessageMap), Window(history, DefaultScanLimit), botUserId))
                else old(CurrentMaps());
              var fin := SyncRun(channelAvailable, RunState(start, 0, 0, 0, 0), events, send);
              && CurrentMaps() == fin.maps
              && stats == SyncStats(|events|, fin.created, fin.skipped, fin.failed)
              && |sendCalls| == |old(sendCalls)| + fin.sends
      ensures stats.created + stats.skipped + stats.failed == stats.total
    {
      if rebuildMapping {
        var _, _ := RebuildEventMapping(history, DefaultScanLimit);
      }

      ghost var start := CurrentMaps();
      ghost var sendsBefore := |sendCalls|;
      ghost var sends := 0;
      var created, skipped, failed := 0, 0, 0;
      var i := 0;
      while i < |events|
        invariant 0 <= i <= |events|
        invariant SyncRun(channelAvailable, RunState(start, 0, 0, 0, 0), events[..i], send)
                  == RunState(CurrentMaps(), created, skipped, failed, sends)
        invariant |sendCalls| == sendsBefore + sends
      {
        var event := events[i];
        ghost var before := CurrentMaps();
        SyncRunNext(channelAvailable, RunState(start, 0, 0, 0, 0), events, send, i,
                    RunState(before, created, skipped, failed, sends));
        var existing := PreLookup(CurrentMaps(), event);
        var messageId := UpsertEvent(event, fmt, send(i));
        ghost var u := UpsertStep(channelAvailable, before, event, send(i));
        if u.sent {
          sends := sends + 1;
        }

        if Truthy(messageId) {
          if Truthy(existing) {
            skipped := skipped + 1;
          } else {
            created := created + 1;
          }
        } else {
          failed := failed + 1;
        }

        i := i + 1;
      }
      assert events[..i] == events;
      SyncCountsAddUp(channelAvailable, RunState(start, 0, 0, 0, 0), events, send);
      stats := SyncStats(|events|, created, skipped, failed);
    }
  }

  /**
   * The URL-matching scenarios of the repository's tests, replayed against
   * the contracts above: a link already mapped is skipped without a send,
   * an unknown link is posted and recorded in both maps, and an empty
   * history leaves empty maps empty.
   */
  method UrlMatchingScenarios(fmt: Calendar.Formatter, known: Calendar.CalendarEvent,
                              unseen: Calendar.CalendarEvent)
    requires known.id == "new_event_123" && known.htmlLink == "https://www.google.com/calendar/event?eid=test123"
    requires unseen.id == "brand_new_event" && unseen.htmlLink == "https://www.google.com/calendar/event?eid=brandnew"
  {
    var client := new DiscordClient(true, Some(999));
    var scanned, found := client.RebuildEventMapping([], DefaultScanLimit);
    assert client.eventMessageMap == map[] && client.urlToMessageMap == map[];
    assert scanned == 0 && found == 0;

    client.urlToMessageMap := map[known.htmlLink := 5000];
    var id := client.UpsertEvent(known, fmt, SendFailed);
    assert id == Some(5000);
    assert client.eventMessageMap[known.id] == 5000;
    assert client.sendCalls == [];

    client.urlToMessageMap := map[];
    id := client.UpsertEvent(unseen, fmt, Sent(6000));
    assert id == Some(6000);
    assert client.eventMessageMap[unseen.id] == 6000;
    assert client.urlToMessageMap[unseen.htmlLink] == 6000;
    assert |client.sendCalls| == 1;
  }
}
