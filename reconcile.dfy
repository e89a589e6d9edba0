/**
 * The bookkeeping of `DiscordClient` as functions on values: how a scanned
 * channel history becomes the URL map, what one upsert, one delete and one
 * sync run do to the two maps, and what they promise.
 *
 * Message ids are looked up and tested the Python way: an absent id and the
 * id 0 are both "no message" (`Truthy`).
 */
module Reconcile {
  import opened Wrappers
  import Calendar

  // ---------------------------------------------------------------------
  // Messages and the two maps
  // ---------------------------------------------------------------------

  datatype MessageEmbed = MessageEmbed(url: Option<string>)

  /** A message of the channel history: its id, its author's id and its embeds. */
  datatype Message = Message(id: int, authorId: int, embeds: seq<MessageEmbed>)

  /** `event_message_map` (event id to message id) and `_url_to_message_map` (event link to message id). */
  datatype Maps = Maps(events: map<string, int>, urls: map<string, int>)

  /** Python truthiness of a looked-up message id. */
  predicate Truthy(x: Option<int>)
  {
    x.Some? && x.value != 0
  }

  /** `dict.get`. */
  function Get(m: map<string, int>, k: string): Option<int>
  {
    if k in m then Some(m[k]) else None
  }

  // ---------------------------------------------------------------------
  // Rebuilding the URL map from history
  // ---------------------------------------------------------------------

  /** A message is one of ours when the bot wrote it and its first embed has a non-empty URL. */
  predicate Qualifies(msg: Message, botUser: Option<int>)
  {
    && botUser.Some?
    && msg.authorId == botUser.value
    && |msg.embeds| > 0
    && msg.embeds[0].url.Some?
    && msg.embeds[0].url.value != ""
  }

  function EmbedUrl(msg: Message): string
    requires |msg.embeds| > 0 && msg.embeds[0].url.Some?
  {
    msg.embeds[0].url.value
  }

  /** The message is one of ours and links to `url`. */
  predicate Carries(msg: Message, botUser: Option<int>, url: string)
  {
    Qualifies(msg, botUser) && EmbedUrl(msg) == url
  }

  /** What `channel.history(limit=limit)` yields of a newest-first history. */
  function Window(history: seq<Message>, limit: nat): (w: seq<Message>)
    ensures |w| <= limit && |w| <= |history| && w == history[..|w|]
    ensures |history| <= limit ==> w == history
    ensures |history| > limit ==> |w| == limit
  {
    if |history| <= limit then history else history[..limit]
  }

  /** One message of the scan: ours is recorded under its URL, overwriting. */
  function ScanStep(urls: map<string, int>, msg: Message, botUser: Option<int>): map<string, int>
  {
    if Qualifies(msg, botUser) then urls[EmbedUrl(msg) := msg.id] else urls
  }

  /** The URL map after scanning `msgs` in order. */
  function ScanHistory(urls: map<string, int>, msgs: seq<Message>, botUser: Option<int>): (r: map<string, int>)
    ensures urls.Keys <= r.Keys
    ensures forall k :: k in r && k !in urls ==> k != ""
    decreases |msgs|
  {
    if msgs == [] then urls
    else ScanStep(ScanHistory(urls, msgs[..|msgs| - 1], botUser), msgs[|msgs| - 1], botUser)
  }

  /** `mapping_count`: how many scanned messages were ours. */
  function CountQualifying(msgs: seq<Message>, botUser: Option<int>): nat
    decreases |msgs|
  {
    if msgs == [] then 0
    else CountQualifying(msgs[..|msgs| - 1], botUser) + (if Qualifies(msgs[|msgs| - 1], botUser) then 1 else 0)
  }

  /** The index of the last scanned message of ours that links to `url`, or -1. */
  function LastCarrier(msgs: seq<Message>, botUser: Option<int>, url: string): (r: int)
    ensures -1 <= r < |msgs|
    ensures r >= 0 ==> Carries(msgs[r], botUser, url)
    ensures forall j :: r < j < |msgs| ==> !Carries(msgs[j], botUser, url)
    decreases |msgs|
  {
    if msgs == [] then -1
    else if Carries(msgs[|msgs| - 1], botUser, url) then |msgs| - 1
    else LastCarrier(msgs[..|msgs| - 1], botUser, url)
  }

  /**
   * Last write wins: after the scan a URL maps to the id of the last scanned
   * message of ours that links to it; a URL no such message links to keeps
   * whatever the map held before.
   */
  lemma {:induction false} ScanLastWriteWins(urls: map<string, int>, msgs: seq<Message>,
                                             botUser: Option<int>, url: string)
    ensures var last := LastCarrier(msgs, botUser, url);
            Get(ScanHistory(urls, msgs, botUser), url)
            == if last >= 0 then Some(msgs[last].id) else Get(urls, url)
    decreases |msgs|
  {
    if msgs != [] {
      var init := msgs[..|msgs| - 1];
      ScanLastWriteWins(urls, init, botUser, url);
      if !Carries(msgs[|msgs| - 1], botUser, url) {
        assert LastCarrier(msgs, botUser, url) == LastCarrier(init, botUser, url);
      }
    }
  }

  /** A URL is in the map after the scan exactly when it was before or some message of ours links to it. */
  lemma ScanKeys(urls: map<string, int>, msgs: seq<Message>, botUser: Option<int>, url: string)
    ensures url in ScanHistory(urls, msgs, botUser) <==>
              url in urls || exists i :: 0 <= i < |msgs| && Carries(msgs[i], botUser, url)
  {
    ScanLastWriteWins(urls, msgs, botUser, url);
    var last := LastCarrier(msgs, botUser, url);
    if last < 0 {
      assert forall i :: 0 <= i < |msgs| ==> !Carries(msgs[i], botUser, url);
    }
  }

  /** `mapping_count` counts messages, not distinct URLs: the scan adds at most that many keys. */
  lemma {:induction false} ScanKeyCount(urls: map<string, int>, msgs: seq<Message>, botUser: Option<int>)
    ensures |ScanHistory(urls, msgs, botUser).Keys| <= |urls.Keys| + CountQualifying(msgs, botUser)
    decreases |msgs|
  {
    if msgs != [] {
      var init := msgs[..|msgs| - 1];
      ScanKeyCount(urls, init, botUser);
      var before := ScanHistory(urls, init, botUser);
      var m := msgs[|msgs| - 1];
      if Qualifies(m, botUser) {
        assert before[EmbedUrl(m) := m.id].Keys == before.Keys + {EmbedUrl(m)};
      }
    }
  }

  /** Two messages of ours with the same URL: the later one's id is kept, and both are counted. */
  lemma DuplicateUrlOverwrites(bot: int, url: string, first: int, second: int)
    requires url != ""
    ensures var msgs := [Message(first, bot, [MessageEmbed(Some(url))]),
                         Message(second, bot, [MessageEmbed(Some(url))])];
            && ScanHistory(map[], msgs, Some(bot)) == map[url := second]
            && CountQualifying(msgs, Some(bot)) == 2
  {
    var msgs := [Message(first, bot, [MessageEmbed(Some(url))]),
                 Message(second, bot, [MessageEmbed(Some(url))])];
    var one := [msgs[0]];
    assert msgs[..|msgs| - 1] == one;
    assert one[..|one| - 1] == [];
    assert Qualifies(msgs[0], Some(bot)) && Qualifies(msgs[1], Some(bot));
    assert ScanHistory(map[], one, Some(bot)) == map[url := first];
    assert CountQualifying(one, Some(bot)) == 1;
  }

  // ---------------------------------------------------------------------
  // Upsert
  // ---------------------------------------------------------------------

  /** What `channel.send` did: the new message's id, or an error. */
  datatype SendOutcome = Sent(messageId: int) | SendFailed

  /** The maps afterwards, the returned id and whether `channel.send` was called. */
  datatype UpsertResult = UpsertResult(maps: Maps, result: Option<int>, sent: bool)

  /** The message `upsert_event` finds for an event: by id first, then by link. */
  function FindExisting(ms: Maps, e: Calendar.CalendarEvent): (r: Option<int>)
    ensures r.Some? ==> r.value != 0
  {
    if Truthy(Get(ms.events, e.id)) then Get(ms.events, e.id)
    else if e.htmlLink != "" && Truthy(Get(ms.urls, e.htmlLink)) then Get(ms.urls, e.htmlLink)
    else None
  }

  /** The look-up `sync_events` makes before each upsert (`a or (b if link else None)`). */
  function PreLookup(ms: Maps, e: Calendar.CalendarEvent): (r: Option<int>)
    ensures r.Some? ==> r == Get(ms.events, e.id) || (e.htmlLink != "" && r == Get(ms.urls, e.htmlLink))
    ensures r.None? ==> FindExisting(ms, e).None?
  {
    var byId := Get(ms.events, e.id);
    if Truthy(byId) then byId
    else if e.htmlLink != "" then Get(ms.urls, e.htmlLink)
    else None
  }

  /** The pre-look-up finds a message exactly when the upsert's look-up does. */
  lemma PreLookupAgrees(ms: Maps, e: Calendar.CalendarEvent)
    ensures Truthy(PreLookup(ms, e)) <==> FindExisting(ms, e).Some?
    ensures Truthy(PreLookup(ms, e)) ==> PreLookup(ms, e) == FindExisting(ms, e)
  {
  }

  /** `upsert_event` on the two maps, given what `channel.send` would do. */
  function UpsertStep(channel: bool, ms: Maps, e: Calendar.CalendarEvent, outcome: SendOutcome): (r: UpsertResult)
    ensures r.sent <==> channel && FindExisting(ms, e).None?
    ensures !r.sent ==> r.result == (if channel then FindExisting(ms, e) else None) && r.maps.urls == ms.urls
    ensures r.sent ==> r.result == (if outcome.Sent? then Some(outcome.messageId) else None)
  {
    if !channel then UpsertResult(ms, None, false)
    else if Truthy(Get(ms.events, e.id)) then UpsertResult(ms, Get(ms.events, e.id), false)
    else if e.htmlLink != "" && Truthy(Get(ms.urls, e.htmlLink)) then
      UpsertResult(Maps(ms.events[e.id := ms.urls[e.htmlLink]], ms.urls), Some(ms.urls[e.htmlLink]), false)
    else
      match outcome
      case SendFailed => UpsertResult(ms, None, true)
      case Sent(id) =>
        UpsertResult(Maps(ms.events[e.id := id],
                          if e.htmlLink != "" then ms.urls[e.htmlLink := id] else ms.urls),
                     Some(id), true)
  }

  /** Without a channel nothing happens and there is no id. */
  lemma UpsertWithoutChannel(ms: Maps, e: Calendar.CalendarEvent, outcome: SendOutcome)
    ensures UpsertStep(false, ms, e, outcome) == UpsertResult(ms, None, false)
  {
  }

  /**
   * A hit returns the message found, never sends, leaves the URL map alone and
   * afterwards maps the event id to that message.
   */
  lemma UpsertHit(ms: Maps, e: Calendar.CalendarEvent, outcome: SendOutcome)
    requires FindExisting(ms, e).Some?
    ensures var u := UpsertStep(true, ms, e, outcome);
            && u.result == FindExisting(ms, e)
            && !u.sent
            && u.maps.urls == ms.urls
            && u.maps.events == ms.events[e.id := FindExisting(ms, e).value]
  {
  }

  /**
   * A miss sends once. On success it returns the new id and records it under
   * the event id, and under the link when there is one; on failure it returns
   * nothing and changes nothing.
   */
  lemma UpsertMiss(ms: Maps, e: Calendar.CalendarEvent, outcome: SendOutcome)
    requires FindExisting(ms, e).None?
    ensures var u := UpsertStep(true, ms, e, outcome);
            && u.sent
            && (outcome.SendFailed? ==> u.result == None && u.maps == ms)
            && (outcome.Sent? ==>
                  && u.result == Some(outcome.messageId)
                  && u.maps.events == ms.events[e.id := outcome.messageId]
                  && (e.htmlLink != "" ==> u.maps.urls == ms.urls[e.htmlLink := outcome.messageId])
                  && (e.htmlLink == "" ==> u.maps.urls == ms.urls))
  {
  }

  /** An upsert never changes the message an entry already names, in either map. */
  lemma UpsertKeepsKnownEntries(channel: bool, ms: Maps, e: Calendar.CalendarEvent,
                                outcome: SendOutcome, k: string)
    ensures var after := UpsertStep(channel, ms, e, outcome).maps;
            && (Truthy(Get(ms.events, k)) ==> Get(after.events, k) == Get(ms.events, k))
            && (Truthy(Get(ms.urls, k)) ==> Get(after.urls, k) == Get(ms.urls, k))
  {
  }

  /** Entries only ever get added by an upsert, never removed. */
  lemma UpsertOnlyAdds(channel: bool, ms: Maps, e: Calendar.CalendarEvent, outcome: SendOutcome)
    ensures var after := UpsertStep(channel, ms, e, outcome).maps;
            ms.events.Keys <= after.events.Keys && ms.urls.Keys <= after.urls.Keys
  {
  }

  // ---------------------------------------------------------------------
  // Delete
  // ---------------------------------------------------------------------

  /** What fetching and deleting the message did. */
  datatype DeleteOutcome = Deleted | NotFound | HttpError | OtherError

  datatype DeleteResult = DeleteResult(events: map<string, int>, deleted: bool)

  /** `delete_event_message` on the event map, given what the channel calls would do. */
  function DeleteStep(channel: bool, events: map<string, int>, eventId: string, outcome: DeleteOutcome): (r: DeleteResult)
    ensures r.deleted ==> channel && Truthy(Get(events, eventId)) && r.events == events - {eventId}
    ensures !r.deleted ==> r.events == events
  {
    if !channel || !Truthy(Get(events, eventId)) then DeleteResult(events, false)
    else
      match outcome
      case Deleted => DeleteResult(events - {eventId}, true)
      case NotFound => DeleteResult(events - {eventId}, true)
      case HttpError => DeleteResult(events, false)
      case OtherError => DeleteResult(events, false)
  }

  /**
   * Delete reports success exactly when there was a message and it is gone (deleted now
   * or already); then only that key is removed. Otherwise the map is unchanged.
   */
  lemma DeleteOutcomes(channel: bool, events: map<string, int>, eventId: string, outcome: DeleteOutcome)
    ensures var d := DeleteStep(channel, events, eventId, outcome);
            && (d.deleted <==> channel && Truthy(Get(events, eventId)) && (outcome.Deleted? || outcome.NotFound?))
            && (d.deleted ==> eventId !in d.events && d.events.Keys == events.Keys - {eventId}
                              && forall k :: k in d.events ==> d.events[k] == events[k])
            && (!d.deleted ==> d.events == events)
  {
  }

  /**
   * Delete forgets the event id but not the link: upserting the same event
   * again answers with the id the link map still holds and does not post.
   * When that entry names the deleted message, the deleted message's id comes back.
   */
  lemma DeleteKeepsLinkEntry(ms: Maps, e: Calendar.CalendarEvent, outcome: DeleteOutcome, send: SendOutcome)
    requires DeleteStep(true, ms.events, e.id, outcome).deleted
    requires e.htmlLink != "" && Truthy(Get(ms.urls, e.htmlLink))
    ensures var after := Maps(DeleteStep(true, ms.events, e.id, outcome).events, ms.urls);
            var u := UpsertStep(true, after, e, send);
            && !u.sent && u.result == Get(ms.urls, e.htmlLink)
            && (Get(ms.urls, e.htmlLink) == Get(ms.events, e.id) ==> u.result == Get(ms.events, e.id))
  {
  }

  // ---------------------------------------------------------------------
  // A sync run
  // ---------------------------------------------------------------------

  datatype Tally = Created | Skipped | Failed

  /** The counters of a run so far, and how many sends it made. */
  datatype RunState = RunState(maps: Maps, created: nat, skipped: nat, failed: nat, sends: nat)

  /** How `sync_events` counts one event, from its pre-look-up and the upsert's answer. */
  function Classify(pre: Option<int>, result: Option<int>): Tally
  {
    if Truthy(result) then (if Truthy(pre) then Skipped else Created) else Failed
  }

  function TallyOf(channel: bool, ms: Maps, e: Calendar.CalendarEvent, outcome: SendOutcome): Tally
  {
    Classify(PreLookup(ms, e), UpsertStep(channel, ms, e, outcome).result)
  }

  function SyncStep(channel: bool, st: RunState, e: Calendar.CalendarEvent, outcome: SendOutcome): RunState
  {
    var u := UpsertStep(channel, st.maps, e, outcome);
    var t := TallyOf(channel, st.maps, e, outcome);
    RunState(u.maps,
             st.created + (if t == Created then 1 else 0),
             st.skipped + (if t == Skipped then 1 else 0),
             st.failed + (if t == Failed then 1 else 0),
             st.sends + (if u.sent then 1 else 0))
  }

  /** The loop of `sync_events`; the i-th event's send, if any, gives `send(i)`. */
  function SyncRun(channel: bool, st: RunState, events: seq<Calendar.CalendarEvent>,
                   send: nat -> SendOutcome): (r: RunState)
    ensures st.sends <= r.sends <= st.sends + |events|
    ensures r.created - st.created <= r.sends - st.sends
    decreases |events|
  {
    if events == [] then st
    else SyncStep(channel, SyncRun(channel, st, events[..|events| - 1], send),
                  events[|events| - 1], send(|events| - 1))
  }

  /** How the i-th event of a run is counted. */
  function TallyAt(channel: bool, st: RunState, events: seq<Calendar.CalendarEvent>,
                   send: nat -> SendOutcome, i: nat): Tally
    requires i < |events|
  {
    TallyOf(channel, SyncRun(channel, st, events[..i], send).maps, events[i], send(i))
  }

  lemma SyncRunUnfold(channel: bool, st: RunState, events: seq<Calendar.CalendarEvent>,
                      send: nat -> SendOutcome, i: nat)
    requires i < |events|
    ensures SyncRun(channel, st, events[..i + 1], send)
            == SyncStep(channel, SyncRun(channel, st, events[..i], send), events[i], send(i))
  {
    assert events[..i + 1][..i] == events[..i];
  }

  /** One more event of a run, with its counters spelled out. */
  lemma SyncRunNext(channel: bool, st: RunState, events: seq<Calendar.CalendarEvent>,
                    send: nat -> SendOutcome, i: nat, cur: RunState)
    requires i < |events| && SyncRun(channel, st, events[..i], send) == cur
    ensures var u := UpsertStep(channel, cur.maps, events[i], send(i));
            var pre := PreLookup(cur.maps, events[i]);
            SyncRun(channel, st, events[..i + 1], send)
            == RunState(u.maps,
                        cur.created + (if Truthy(u.result) && !Truthy(pre) then 1 else 0),
                        cur.skipped + (if Truthy(u.result) && Truthy(pre) then 1 else 0),
                        cur.failed + (if Truthy(u.result) then 0 else 1),
                        cur.sends + (if u.sent then 1 else 0))
  {
    SyncRunUnfold(channel, st, events, send, i);
  }

  /** Every event is counted once: created + skipped + failed grows by the number of events. */
  lemma {:induction false} SyncCountsAddUp(channel: bool, st: RunState, events: seq<Calendar.CalendarEvent>,
                                           send: nat -> SendOutcome)
    ensures var fin := SyncRun(channel, st, events, send);
            fin.created + fin.skipped + fin.failed == st.created + st.skipped + st.failed + |events|
    decreases |events|
  {
    if events != [] {
      SyncCountsAddUp(channel, st, events[..|events| - 1], send);
    }
  }

  /** Without a channel every event fails, nothing is sent and the maps stay as they were. */
  lemma {:induction false} SyncWithoutChannel(st: RunState, events: seq<Calendar.CalendarEvent>,
                                              send: nat -> SendOutcome)
    ensures var fin := SyncRun(false, st, events, send);
            && fin.maps == st.maps && fin.sends == st.sends
            && fin.created == st.created && fin.skipped == st.skipped
            && fin.failed == st.failed + |events|
    decreases |events|
  {
    if events != [] {
      SyncWithoutChannel(st, events[..|events| - 1], send);
    }
  }

  /**
   * With a channel, an event is skipped exactly when the pre-look-up finds a
   * message, created exactly when it does not and the send gives a non-zero
   * id, and failed otherwise.
   */
  lemma TallyCases(ms: Maps, e: Calendar.CalendarEvent, outcome: SendOutcome)
    ensures var t := TallyOf(true, ms, e, outcome);
            && (t == Skipped <==> Truthy(PreLookup(ms, e)))
            && (t == Created <==> !Truthy(PreLookup(ms, e)) && outcome.Sent? && outcome.messageId != 0)
  {
    PreLookupAgrees(ms, e);
  }

  /** An entry that names a message keeps naming it for the rest of the run. */
  lemma {:induction false} SyncKeepsKnownEntries(channel: bool, st: RunState, events: seq<Calendar.CalendarEvent>,
                                                 send: nat -> SendOutcome, i: nat, j: nat, k: string)
    requires i <= j <= |events|
    ensures var before := SyncRun(channel, st, events[..i], send).maps;
            var after := SyncRun(channel, st, events[..j], send).maps;
            && (Truthy(Get(before.events, k)) ==> Get(after.events, k) == Get(before.events, k))
            && (Truthy(Get(before.urls, k)) ==> Get(after.urls, k) == Get(before.urls, k))
    decreases j - i
  {
    if i < j {
      SyncRunUnfold(channel, st, events, send, i);
      var before := SyncRun(channel, st, events[..i], send);
      UpsertKeepsKnownEntries(channel, before.maps, events[i], send(i), k);
      SyncKeepsKnownEntries(channel, st, events, send, i + 1, j, k);
    }
  }

  /**
   * Within a run, an event with the same id as an event created earlier, or
   * the same non-empty link, is skipped.
   */
  lemma RepeatIsSkipped(channel: bool, st: RunState, events: seq<Calendar.CalendarEvent>,
                        send: nat -> SendOutcome, i: nat, j: nat)
    requires i < j < |events|
    requires TallyAt(channel, st, events, send, i) == Created
    requires events[j].id == events[i].id
             || (events[j].htmlLink == events[i].htmlLink && events[i].htmlLink != "")
    ensures TallyAt(channel, st, events, send, j) == Skipped
  {
    var ms := SyncRun(channel, st, events[..i], send).maps;
    var e := events[i];
    assert channel;
    PreLookupAgrees(ms, e);
    assert FindExisting(ms, e).None?;
    assert send(i).Sent? && send(i).messageId != 0;
    SyncRunUnfold(channel, st, events, send, i);
    var next := SyncRun(channel, st, events[..i + 1], send).maps;
    assert Get(next.events, e.id) == Some(send(i).messageId);
    assert e.htmlLink != "" ==> Get(next.urls, e.htmlLink) == Some(send(i).messageId);
    SyncKeepsKnownEntries(channel, st, events, send, i + 1, j, e.id);
    if e.htmlLink != "" {
      SyncKeepsKnownEntries(channel, st, events, send, i + 1, j, e.htmlLink);
    }
    var msj := SyncRun(channel, st, events[..j], send).maps;
    TallyCases(msj, events[j], send(j));
  }

  /**
   * Idempotence: when every event's message is already known, a run creates
   * nothing and sends nothing.
   */
  lemma {:induction false} KnownEventsCreateNothing(channel: bool, st: RunState, events: seq<Calendar.CalendarEvent>,
                                                    send: nat -> SendOutcome)
    requires forall e :: e in events ==> Truthy(PreLookup(st.maps, e))
    ensures var fin := SyncRun(channel, st, events, send);
            fin.created == st.created && fin.sends == st.sends
            && forall e :: e in events ==> Truthy(PreLookup(fin.maps, e))
    decreases |events|
  {
    if events != [] {
      var init := events[..|events| - 1];
      var last := events[|events| - 1];
      assert forall e :: e in init ==> e in events;
      KnownEventsCreateNothing(channel, st, init, send);
      var mid := SyncRun(channel, st, init, send);
      assert Truthy(PreLookup(mid.maps, last)) by {
        assert Truthy(PreLookup(st.maps, last));
        KeepsLookup(channel, st, init, send, last);
      }
      PreLookupAgrees(mid.maps, last);
      forall e | e in events
        ensures Truthy(PreLookup(SyncRun(channel, st, events, send).maps, e))
      {
        KeepsLookup(channel, st, events, send, e);
      }
    }
  }

  /** A pre-look-up that finds a message at the start of a run still finds it at the end. */
  lemma KeepsLookup(channel: bool, st: RunState, events: seq<Calendar.CalendarEvent>,
                    send: nat -> SendOutcome, e: Calendar.CalendarEvent)
    requires Truthy(PreLookup(st.maps, e))
    ensures Truthy(PreLookup(SyncRun(channel, st, events, send).maps, e))
  {
    assert events[..0] == [] && events[..|events|] == events;
    SyncKeepsKnownEntries(channel, st, events, send, 0, |events|, e.id);
    SyncKeepsKnownEntries(channel, st, events, send, 0, |events|, e.htmlLink);
  }

  /**
   * With one link already mapped, the first of two events is skipped and the
   * second, unknown one is created.
   */
  lemma SkipThenCreate(e1: Calendar.CalendarEvent, e2: Calendar.CalendarEvent, send: nat -> SendOutcome)
    requires e1.htmlLink == "https://cal/e1" && e2.htmlLink == "https://cal/e2" && e1.id != e2.id
    requires send(1).Sent? && send(1).messageId != 0
    ensures var st := RunState(Maps(map[], map["https://cal/e1" := 101]), 0, 0, 0, 0);
            && TallyAt(true, st, [e1, e2], send, 0) == Skipped
            && TallyAt(true, st, [e1, e2], send, 1) == Created
  {
    var st := RunState(Maps(map[], map["https://cal/e1" := 101]), 0, 0, 0, 0);
    var events := [e1, e2];
    assert events[..0] == [];
    SyncRunUnfold(true, st, events, send, 0);
    assert events[..1] == [e1];
  }
}
