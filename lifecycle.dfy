/** The request lifecycle of bot_handlers.py: creating a request and
    notifying every manager (`create_and_notify_new_request`), and applying
    the managers' button presses to it (`handle_request_callbacks`). The
    chat API is left outside: a send's outcome is an input, and the messages
    the handlers would send or edit are outputs. */
module Lifecycle {
  import opened Wrappers
  import opened Text
  import opened Config
  import opened Records
  import opened Store
  import opened Render
  import opened Callbacks
  import opened Keyboards

  // ---------------------------------------------------------------------
  // creating a request
  // ---------------------------------------------------------------------

  /** The outcome of `bot.send_message` to one manager: where the message
      landed, or an exception (logged; that manager is skipped). */
  datatype SendResult = Sent(loc: MessageLoc) | SendFailed

  /** A message handed to the chat API: chat, text and keyboard. */
  datatype Notice = Notice(chatId: string, text: string, keyboard: Keyboard)

  /** The request's form data, `client_data`: a JSON object whose values are
      strings or null. */
  type ClientData = map<string, Option<string>>

  /** `d.get(key, default)`. */
  function GetOr(d: ClientData, key: string, default: Option<string>): Option<string> {
    if key in d then d[key] else default
  }

  /** The locations of the messages that were sent, in the order of sending. */
  function Delivered(sends: seq<SendResult>): (locs: seq<MessageLoc>)
    ensures |locs| <= |sends|
  {
    if |sends| == 0 then []
    else (if sends[0].Sent? then [sends[0].loc] else []) + Delivered(sends[1..])
  }

  /** Collecting the sent messages distributes over a split of the sends. */
  lemma {:induction false} DeliveredAppend(a: seq<SendResult>, b: seq<SendResult>)
    ensures Delivered(a + b) == Delivered(a) + Delivered(b)
    decreases |a|
  {
    if |a| == 0 {
      assert a + b == b;
    } else {
      assert (a + b)[0] == a[0];
      assert (a + b)[1..] == a[1..] + b;
      DeliveredAppend(a[1..], b);
    }
  }

  /** Every send that succeeded is recorded, and nothing else: no send
      succeeded exactly when nothing is recorded, and when all succeeded the
      records are the locations in manager order. */
  lemma {:induction false} DeliveredExactly(sends: seq<SendResult>)
    ensures Delivered(sends) == [] <==> forall i :: 0 <= i < |sends| ==> sends[i] == SendFailed
    ensures (forall i :: 0 <= i < |sends| ==> sends[i].Sent?) ==>
              |Delivered(sends)| == |sends| &&
              forall i :: 0 <= i < |sends| ==> Delivered(sends)[i] == sends[i].loc
    decreases |sends|
  {
    if |sends| > 0 {
      DeliveredExactly(sends[1..]);
      assert forall i :: 1 <= i < |sends| ==> sends[i] == sends[1..][i - 1];
    }
  }

  /** `new_req_data`: status new, no claim, no update, and the form fields
      with their defaults. */
  function NewRecord(reqId: int, client: ClientData, nowIso: string, messages: seq<MessageLoc>): Request {
    Request(
      formTimestamp := GetOr(client, "timestamp", Some(nowIso)),
      clientName := GetOr(client, "name", Some("N/A " + Str(reqId))),
      clientPhone := GetOr(client, "phone", Some("N/A")),
      clientMessenger := GetOr(client, "messenger", Some("")),
      rawEventDetails := GetOr(client, "details", Some("")),
      status := Some(STATUS_NEW),
      claimedByName := None,
      claimedTimestamp := None,
      lastUpdatedByName := None,
      lastUpdatedTimestamp := None,
      messages := messages)
  }

  /** A new record is new and unclaimed, takes the defaults for the form
      fields it lacks, and renders as the header and the plain new status. */
  lemma NewRecordShape(reqId: int, client: ClientData, nowIso: string, messages: seq<MessageLoc>, clock: Clock)
    ensures var r := NewRecord(reqId, client, nowIso, messages);
      && r.status == Some(STATUS_NEW)
      && r.claimedByName.None? && r.claimedTimestamp.None?
      && r.lastUpdatedByName.None? && r.lastUpdatedTimestamp.None?
      && r.messages == messages
      && ("timestamp" !in client ==> r.formTimestamp == Some(nowIso))
      && ("name" !in client ==> r.clientName == Some("N/A " + Str(reqId)))
      && ("phone" !in client ==> r.clientPhone == Some("N/A"))
      && ("messenger" !in client ==> r.clientMessenger == Some(""))
      && ("details" !in client ==> r.rawEventDetails == Some(""))
    ensures var r := NewRecord(reqId, client, nowIso, messages);
      && FormatRequestMessage(reqId, r, Some(STATUS_NEW), None, clock).Ok?
      && var v := FormatRequestMessage(reqId, r, Some(STATUS_NEW), None, clock).value;
         v.statusLine == STATUS_NEW && v.claimed.None? && v.updated.None? && MessageText(v) == Head(v)
  {
  }

  /** The view of the notification sent for a new request. */
  function NewRequestView(reqId: int, client: ClientData, nowIso: string, clock: Clock): View {
    FormatRequestMessage(reqId, NewRecord(reqId, client, nowIso, []), Some(STATUS_NEW), None, clock).value
  }

  /** The sending loop of `create_and_notify_new_request`: one notice per
      manager, in order, and the locations of those that were delivered. */
  method SendToManagers(ms: seq<Manager>, text: string, keyboard: Keyboard, sends: seq<SendResult>)
    returns (sent: seq<MessageLoc>, notices: seq<Notice>)
    requires |sends| == |ms|
    ensures sent == Delivered(sends)
    ensures |notices| == |ms|
    ensures forall i :: 0 <= i < |ms| ==> notices[i] == Notice(ms[i].id, text, keyboard)
  {
    sent := [];
    notices := [];
    var i := 0;
    while i < |ms|
      invariant 0 <= i <= |ms|
      invariant sent == Delivered(sends[..i])
      invariant |notices| == i
      invariant forall k :: 0 <= k < i ==> notices[k] == Notice(ms[k].id, text, keyboard)
    {
      notices := notices + [Notice(ms[i].id, text, keyboard)];
      assert sends[..i + 1] == sends[..i] + [sends[i]];
      DeliveredAppend(sends[..i], [sends[i]]);
      match sends[i] {
        case Sent(loc) => sent := sent + [loc];
        case SendFailed =>
      }
      i := i + 1;
    }
    assert sends[..|ms|] == sends;
  }

  /** `create_and_notify_new_request(bot, client_data)`: take the next id,
      send the new request with the claim keyboard to every manager in
      order, and store the record with the locations of the sends that
      succeeded. */
  method CreateAndNotify(store: RequestStore, ms: seq<Manager>, client: ClientData, nowIso: string,
                         clock: Clock, sends: seq<SendResult>)
    returns (reqId: int, notices: seq<Notice>)
    requires NamesNonEmpty(ms) && |sends| == |ms|
    modifies store
    ensures var s := Loaded(old(store.cache), old(store.file));
      && reqId == CounterValue(s.counter) + 1
      && store.cache == Some(Snapshot(s.requests[reqId := NewRecord(reqId, client, nowIso, Delivered(sends))], Num(reqId)))
    ensures store.file == Written(store.cache.value)
    ensures |notices| == |ms|
    ensures forall i :: 0 <= i < |ms| ==>
              notices[i] == Notice(ms[i].id, MessageText(NewRequestView(reqId, client, nowIso, clock)), ClaimRows(ms, reqId))
  {
    reqId := store.NextId();
    var view := FormatRequestMessage(reqId, NewRecord(reqId, client, nowIso, []), Some(STATUS_NEW), None, clock).value;
    var keyboard := BuildInitialClaimKeyboard(ms, reqId);
    var sent;
    sent, notices := SendToManagers(ms, MessageText(view), keyboard, sends);
    store.Save(reqId, NewRecord(reqId, client, nowIso, sent));
  }

  // ---------------------------------------------------------------------
  // button presses
  // ---------------------------------------------------------------------

  /** How `handle_request_callbacks` ends. */
  datatype Outcome =
      /** `split`/`int` raised ValueError; caught at the top level. */
    | Malformed
      /** No record under that id: an alert, no change. */
    | NotFound
      /** Claim for a manager id not in `MANAGERS`: an alert, no change. */
    | UnknownManager
      /** Claim of a request whose `claimed_by_name` is set: an alert, no change. */
    | AlreadyClaimed
      /** Status update of a completed request: an alert, no change. */
    | AlreadyCompleted
      /** The presser is not in `MANAGERS`: subscripting None raised TypeError
          after some fields were already written. */
    | ActorNotManager
      /** The change was saved. */
    | Applied
      /** An action no branch handles: nothing happens. */
    | Ignored

  /** The effect of one press on one record: how it ends, the record
      afterwards, and whether the record was saved. */
  datatype Effect = Effect(outcome: Outcome, record: Request, save: bool)

  /** The status a claim sets: the claimed prefix and the assignee's name. */
  function ClaimedStatus(m: Manager): string {
    STATUS_CLAIMED_PREFIX + " " + m.nameBy
  }

  /** Neither the form fields nor the message locations of a record change. */
  predicate SameRequestData(a: Request, b: Request) {
    && a.formTimestamp == b.formTimestamp && a.clientName == b.clientName
    && a.clientPhone == b.clientPhone && a.clientMessenger == b.clientMessenger
    && a.rawEventDetails == b.rawEventDetails && a.messages == b.messages
  }

  /** The guards and field updates of `handle_request_callbacks` applied to the
      record `r` (the cached dict itself), pressed by `actor`
      (`MANAGERS.get(user_id)`) at time `now`. */
  function ApplyCallback(r: Request, ms: seq<Manager>, actor: Option<Manager>, cb: Callback, now: string): (e: Effect)
    ensures e.save <==> e.outcome == Applied
    ensures e.outcome !in {Applied, ActorNotManager} ==> e.record == r
    ensures e.outcome == ActorNotManager ==> actor.None?
    ensures e.outcome == Applied ==>
              actor.Some? && e.record.lastUpdatedByName == Some(actor.value.name)
              && e.record.lastUpdatedTimestamp == Some(now)
    ensures SameRequestData(e.record, r)
  {
    if cb.action == "claim" then
      var target := Lookup(ms, cb.param);
      if target.None? then Effect(UnknownManager, r, false)
      else if Truthy(r.claimedByName) then Effect(AlreadyClaimed, r, false)
      else
        var claimed := r.(claimedByName := Some(target.value.name),
                          claimedTimestamp := Some(now),
                          status := Some(ClaimedStatus(target.value)));
        if actor.None? then Effect(ActorNotManager, claimed, false)
        else Effect(Applied, claimed.(lastUpdatedByName := Some(actor.value.name),
                                      lastUpdatedTimestamp := Some(now)), true)
    else if cb.action == "updateStatus" || cb.action == "complete" then
      var newStatus := if cb.action == "complete" then Some(STATUS_COMPLETED) else cb.param;
      if r.status == Some(STATUS_COMPLETED) && cb.action != "complete" then Effect(AlreadyCompleted, r, false)
      else
        var updated := r.(status := newStatus);
        if actor.None? then Effect(ActorNotManager, updated, false)
        else Effect(Applied, updated.(lastUpdatedByName := Some(actor.value.name),
                                      lastUpdatedTimestamp := Some(now)), true)
    else
      Effect(Ignored, r, false)
  }

  /** A claim fails exactly for an assignee missing from the managers or a
      request that already has a claimant; whether it goes through does not
      depend on the status. Applied, it records the assignee, the claim time,
      the claimed status and the last update, and changes nothing else. */
  lemma ClaimRules(r: Request, ms: seq<Manager>, actor: Option<Manager>, cb: Callback, now: string,
                   otherStatus: Option<string>)
    requires cb.action == "claim"
    ensures var e := ApplyCallback(r, ms, actor, cb, now);
      && (e.outcome == UnknownManager <==> Lookup(ms, cb.param).None?)
      && (e.outcome == AlreadyClaimed <==> Lookup(ms, cb.param).Some? && Truthy(r.claimedByName))
      && (e.outcome == Applied <==> Lookup(ms, cb.param).Some? && !Truthy(r.claimedByName) && actor.Some?)
      && ApplyCallback(r.(status := otherStatus), ms, actor, cb, now).outcome == e.outcome
      && (e.outcome == Applied ==>
            var m := Lookup(ms, cb.param).value;
            e.record == r.(claimedByName := Some(m.name), claimedTimestamp := Some(now),
                           status := Some(ClaimedStatus(m)),
                           lastUpdatedByName := Some(actor.value.name), lastUpdatedTimestamp := Some(now)))
  {
  }

  /** A status update of a completed request is refused; otherwise the
      status becomes the chosen label (completed for `complete`, from any
      status) and the presser is the last updater. The claim is never
      touched. */
  lemma UpdateRules(r: Request, ms: seq<Manager>, actor: Option<Manager>, cb: Callback, now: string)
    requires cb.action == "updateStatus" || cb.action == "complete"
    ensures var e := ApplyCallback(r, ms, actor, cb, now);
      && (e.outcome == AlreadyCompleted <==> r.status == Some(STATUS_COMPLETED) && cb.action == "updateStatus")
      && (e.outcome == Applied <==> actor.Some? && !(r.status == Some(STATUS_COMPLETED) && cb.action == "updateStatus"))
      && (e.outcome == Applied ==>
            e.record == r.(status := if cb.action == "complete" then Some(STATUS_COMPLETED) else cb.param,
                           lastUpdatedByName := Some(actor.value.name), lastUpdatedTimestamp := Some(now)))
      && e.record.claimedByName == r.claimedByName && e.record.claimedTimestamp == r.claimedTimestamp
  {
  }

  /** Completing a completed request by the same manager at the same time
      changes nothing further. */
  lemma CompleteIdempotent(r: Request, ms: seq<Manager>, m: Manager, cb: Callback, now: string)
    requires cb.action == "complete"
    ensures var e1 := ApplyCallback(r, ms, Some(m), cb, now);
      var e2 := ApplyCallback(e1.record, ms, Some(m), cb, now);
      && e1.outcome == Applied && e1.record.status == Some(STATUS_COMPLETED)
      && e2.outcome == Applied && e2.record == e1.record
  {
  }

  /** A claimed status never reads as completed. */
  lemma ClaimedStatusNotCompleted(m: Manager)
    ensures ClaimedStatus(m) != STATUS_COMPLETED
  {
    StatusLabelsDistinct();
    assert ClaimedStatus(m)[..|STATUS_CLAIMED_PREFIX|] == STATUS_CLAIMED_PREFIX;
  }

  /** The claim branch does not look at the status, so a completed request
      nobody claimed can be claimed, and it leaves the completed state. */
  lemma ClaimLeavesCompleted(r: Request, ms: seq<Manager>, m: Manager, cb: Callback, now: string)
    requires cb.action == "claim" && Lookup(ms, cb.param).Some?
    requires r.status == Some(STATUS_COMPLETED) && !Truthy(r.claimedByName)
    ensures var e := ApplyCallback(r, ms, Some(m), cb, now);
      e.outcome == Applied && e.save && e.record.status != Some(STATUS_COMPLETED)
  {
    ClaimedStatusNotCompleted(Lookup(ms, cb.param).value);
  }

  /** A press by someone outside the managers still writes into the record
      before it raises: a claim of an unclaimed request leaves the
      assignee, the claim time and the claimed status in it, unsaved. */
  lemma NonManagerClaimWrites(r: Request, ms: seq<Manager>, cb: Callback, now: string)
    requires cb.action == "claim" && Lookup(ms, cb.param).Some? && !Truthy(r.claimedByName)
    ensures var e := ApplyCallback(r, ms, None, cb, now);
      var m := Lookup(ms, cb.param).value;
      && e.outcome == ActorNotManager && !e.save
      && e.record.claimedByName == Some(m.name) && e.record.claimedTimestamp == Some(now)
      && e.record.status == Some(ClaimedStatus(m))
  {
  }

  /** Likewise a status change or completion pressed by someone outside
      the managers writes the new status into the record before it raises,
      unsaved, unless the request is already completed. */
  lemma NonManagerUpdateWrites(r: Request, ms: seq<Manager>, cb: Callback, now: string)
    requires cb.action == "updateStatus" || cb.action == "complete"
    requires !(r.status == Some(STATUS_COMPLETED) && cb.action == "updateStatus")
    ensures var e := ApplyCallback(r, ms, None, cb, now);
      && e.outcome == ActorNotManager && !e.save
      && e.record == r.(status := if cb.action == "complete" then Some(STATUS_COMPLETED) else cb.param)
  {
  }

  /** The press with both defects removed: the presser is checked before
      anything is written, and a completed request cannot be claimed. */
  function ApplyCallbackFixed(r: Request, ms: seq<Manager>, actor: Option<Manager>, cb: Callback, now: string): (e: Effect)
    ensures e.save <==> e.outcome == Applied
    ensures e.outcome != Applied ==> e.record == r
    ensures r.status == Some(STATUS_COMPLETED) ==> e.record.status == Some(STATUS_COMPLETED)
    ensures SameRequestData(e.record, r)
  {
    if actor.None? then Effect(ActorNotManager, r, false)
    else if cb.action == "claim" && Lookup(ms, cb.param).Some? && !Truthy(r.claimedByName)
            && r.status == Some(STATUS_COMPLETED) then Effect(AlreadyCompleted, r, false)
    else ApplyCallback(r, ms, actor, cb, now)
  }

  /** For a manager's press on a request that is not completed, the
      corrected press does exactly what the written one does. */
  lemma FixedAgreesOnManagers(r: Request, ms: seq<Manager>, m: Manager, cb: Callback, now: string)
    requires r.status != Some(STATUS_COMPLETED)
    ensures ApplyCallbackFixed(r, ms, Some(m), cb, now) == ApplyCallback(r, ms, Some(m), cb, now)
  {
  }

  // ---------------------------------------------------------------------
  // refreshing the managers' messages
  // ---------------------------------------------------------------------

  /** An edit of one stored message: its new text and keyboard (None
      removes the keyboard). */
  datatype Edit = Edit(loc: MessageLoc, text: string, keyboard: Option<Keyboard>)

  /** `new_keyboard`: none once completed, the status keyboard otherwise. */
  function KeyboardAfter(reqId: int, status: Option<string>): (kb: Option<Keyboard>)
    ensures kb.None? <==> status == Some(STATUS_COMPLETED)
  {
    if status == Some(STATUS_COMPLETED) then None else Some(StatusKeyboard(reqId))
  }

  /** The refresh of every stored message after a change, rendered with the
      status attributed to the last updater. Rendering raises only for a
      null status (then nothing is edited). */
  function RefreshEdits(reqId: int, r: Request, clock: Clock): (edits: seq<Edit>)
    ensures edits == [] || |edits| == |r.messages|
    ensures |edits| != |r.messages| ==> r.status.None? && Truthy(r.lastUpdatedByName)
    ensures forall i :: 0 <= i < |edits| ==> edits[i].loc == r.messages[i]
  {
    match FormatRequestMessageFixed(reqId, r, r.status, r.lastUpdatedByName, clock)
    case Err(_) => []
    case Ok(v) => seq(|r.messages|, i requires 0 <= i < |r.messages| =>
                        Edit(r.messages[i], MessageText(v), KeyboardAfter(reqId, r.status)))
  }

  /** After a change with a status set, every stored message is edited, in
      order, to one and the same text; the keyboard is removed exactly when
      the request is completed; and the text never carries the "last
      updated" footer, whose attribution the status line already gives. */
  lemma RefreshCoversMessages(reqId: int, r: Request, clock: Clock)
    requires r.status.Some?
    ensures var edits := RefreshEdits(reqId, r, clock);
      && |edits| == |r.messages|
      && (forall i :: 0 <= i < |edits| ==> edits[i].loc == r.messages[i])
      && (forall i :: 0 <= i < |edits| ==> (edits[i].keyboard.None? <==> r.status == Some(STATUS_COMPLETED)))
      && (forall i, j :: 0 <= i < j < |edits| ==> edits[i].text == edits[j].text)
    ensures var v := FormatRequestMessageFixed(reqId, r, r.status, r.lastUpdatedByName, clock);
      v.Ok? && v.value.updated.None?
    ensures var v := FormatRequestMessageFixed(reqId, r, r.status, r.lastUpdatedByName, clock);
      var edits := RefreshEdits(reqId, r, clock);
      forall i :: 0 <= i < |edits| ==>
        edits[i] == Edit(r.messages[i], MessageText(v.value), KeyboardAfter(reqId, r.status))
  {
    var v := FormatRequestMessageFixed(reqId, r, r.status, r.lastUpdatedByName, clock);
    var edits := RefreshEdits(reqId, r, clock);
    assert forall i :: 0 <= i < |edits| ==>
      edits[i] == Edit(r.messages[i], MessageText(v.value), KeyboardAfter(reqId, r.status));
  }

  // ---------------------------------------------------------------------
  // the handler
  // ---------------------------------------------------------------------

  /** The callback data the router hands to the handler. */
  predicate Routed(data: string) {
    StartsWith(data, "claim|") || StartsWith(data, "updateStatus|") || StartsWith(data, "complete|")
  }

  /** Routed data that parses names one of the three handled actions. */
  lemma RoutedActions(data: string)
    requires Routed(data) && ParseCallback(data).Some?
    ensures ParseCallback(data).value.action in {"claim", "updateStatus", "complete"}
  {
    var a := if StartsWith(data, "claim|") then "claim"
             else if StartsWith(data, "updateStatus|") then "updateStatus"
             else "complete";
    assert data[..|a| + 1] == a + "|";
    var rest := data[|a| + 1..];
    assert data == a + ['|'] + rest;
    SplitAfterPiece(a, rest, '|');
  }

  /** What one press leaves behind: its outcome, the store's cache and file,
      and the edits of the stored messages. */
  datatype Handled = Handled(outcome: Outcome, cache: Option<Snapshot>, file: DataFile, edits: seq<Edit>)

  /** `handle_request_callbacks` as written, for a press by `userId`: the
      record is changed in the cache in place and saved only when the
      change is applied. The refresh that follows is never reached, because
      the call of the undefined `notifyOtherManagers` raises first. */
  function Handle(cache: Option<Snapshot>, file: DataFile, ms: seq<Manager>,
                  userId: string, data: string, now: string): (h: Handled)
    requires Routed(data)
    ensures h.edits == []
    ensures h.outcome == Malformed <==> ParseCallback(data).None?
    ensures h.outcome == Malformed ==> h.cache == cache && h.file == file
    ensures h.outcome != Malformed ==> h.cache.Some?
  {
    match ParseCallback(data)
    case None => Handled(Malformed, cache, file, [])
    case Some(cb) =>
      var s := Loaded(cache, file);
      if cb.reqId !in s.requests then Handled(NotFound, Some(s), FileAfterLoad(cache, file), [])
      else
        var e := ApplyCallback(s.requests[cb.reqId], ms, Lookup(ms, Some(userId)), cb, now);
        var s' := s.(requests := s.requests[cb.reqId := e.record]);
        Handled(e.outcome, Some(s'), if e.save then Written(s') else FileAfterLoad(cache, file), [])
  }

  /** The handler with the defects corrected: the corrected press, and
      after an applied change the refresh of every stored message. */
  function HandleFixed(cache: Option<Snapshot>, file: DataFile, ms: seq<Manager>,
                       userId: string, data: string, now: string, clock: Clock): (h: Handled)
    requires Routed(data)
    ensures h.outcome == Malformed <==> ParseCallback(data).None?
    ensures h.outcome == Malformed ==> h.cache == cache && h.file == file
    ensures h.outcome != Applied ==> h.edits == []
    ensures h.outcome == Applied ==>
              h.cache.Some? && h.file == Written(h.cache.value)
              && var id := ParseCallback(data).value.reqId;
                 id in h.cache.value.requests
                 && h.edits == RefreshEdits(id, h.cache.value.requests[id], clock)
    ensures h.outcome !in {Applied, Malformed} ==>
              h.cache == Some(Loaded(cache, file)) && h.file == FileAfterLoad(cache, file)
  {
    match ParseCallback(data)
    case None => Handled(Malformed, cache, file, [])
    case Some(cb) =>
      var s := Loaded(cache, file);
      if cb.reqId !in s.requests then Handled(NotFound, Some(s), FileAfterLoad(cache, file), [])
      else
        var e := ApplyCallbackFixed(s.requests[cb.reqId], ms, Lookup(ms, Some(userId)), cb, now);
        assert e.outcome != Applied ==> s.requests[cb.reqId := e.record] == s.requests;
        var s' := s.(requests := s.requests[cb.reqId := e.record]);
        Handled(e.outcome, Some(s'), if e.save then Written(s') else FileAfterLoad(cache, file),
                if e.save then RefreshEdits(cb.reqId, e.record, clock) else [])
  }

  /** A routed press never falls through the action branches. */
  lemma HandleNeverIgnored(cache: Option<Snapshot>, file: DataFile, ms: seq<Manager>,
                           userId: string, data: string, now: string)
    requires Routed(data)
    ensures Handle(cache, file, ms, userId, data, now).outcome != Ignored
  {
    if ParseCallback(data).Some? {
      RoutedActions(data);
    }
  }

  /** A press changes at most the pressed request: the ids, the counter and
      every other record stay as loaded. A refused press (anything but an
      applied change or a non-manager's partial write) changes nothing and
      writes nothing beyond what loading does; an applied change is written,
      so a reload sees it. */
  lemma HandleFrame(cache: Option<Snapshot>, file: DataFile, ms: seq<Manager>,
                    userId: string, data: string, now: string)
    requires Routed(data) && ParseCallback(data).Some?
    ensures var h := Handle(cache, file, ms, userId, data, now);
      var s := Loaded(cache, file);
      var id := ParseCallback(data).value.reqId;
      && h.cache.Some?
      && (id !in s.requests <==> h.outcome == NotFound)
      && (h.outcome == NotFound ==> h.cache == Some(s) && h.file == FileAfterLoad(cache, file) && h.edits == [])
      && h.cache.value.counter == s.counter
      && h.cache.value.requests.Keys == s.requests.Keys
      && (forall k :: k in s.requests && k != id ==> h.cache.value.requests[k] == s.requests[k])
      && (h.outcome !in {Applied, ActorNotManager} ==> h.cache == Some(s) && h.file == FileAfterLoad(cache, file))
      && (h.outcome == Applied ==> h.file == Written(h.cache.value) && Loaded(None, h.file) == h.cache.value)
  {
    var h := Handle(cache, file, ms, userId, data, now);
    var s := Loaded(cache, file);
    var cb := ParseCallback(data).value;
    if cb.reqId in s.requests {
      var e := ApplyCallback(s.requests[cb.reqId], ms, Lookup(ms, Some(userId)), cb, now);
      if e.outcome !in {Applied, ActorNotManager} {
        assert s.requests[cb.reqId := e.record] == s.requests;
      }
      if e.outcome == Applied {
        ReloadIsIdentity(h.cache.value);
      }
    }
  }

  /** A claim pressed by someone outside the managers leaves the cache
      ahead of the file: the cached record is claimed, the file still holds
      the unclaimed one, and the next save of any request persists the
      claim. */
  lemma NonManagerClaimLeavesCacheAhead(s: Snapshot, ms: seq<Manager>, userId: string, data: string, now: string)
    requires ManagersOk(ms) && Routed(data)
    requires ParseCallback(data).Some? && ParseCallback(data).value.action == "claim"
    requires var cb := ParseCallback(data).value;
      cb.reqId in s.requests && Lookup(ms, cb.param).Some? && !Truthy(s.requests[cb.reqId].claimedByName)
    requires Lookup(ms, Some(userId)).None?
    ensures var h := Handle(Some(s), Written(s), ms, userId, data, now);
      && h.outcome == ActorNotManager
      && h.file == Written(s)
      && h.cache.Some? && h.file != Written(h.cache.value)
    ensures var cb := ParseCallback(data).value;
      var m := Lookup(ms, cb.param).value;
      var h := Handle(Some(s), Written(s), ms, userId, data, now);
      && h.cache.Some? && cb.reqId in h.cache.value.requests
      && h.cache.value.requests[cb.reqId].claimedByName == Some(m.name)
      && h.cache.value.requests[cb.reqId].status == Some(ClaimedStatus(m))
  {
    var cb := ParseCallback(data).value;
    var m := Lookup(ms, cb.param).value;
    var h := Handle(Some(s), Written(s), ms, userId, data, now);
    NonManagerClaimWrites(s.requests[cb.reqId], ms, cb, now);
    assert m.name != "";
    assert h.cache.value.requests[cb.reqId].claimedByName == Some(m.name);
    assert h.cache.value.requests[cb.reqId] != s.requests[cb.reqId];
  }

  /** The written handler edits no message even after an applied change,
      where the corrected one edits every stored message: for a manager
      completing a request with stored messages. */
  lemma AppliedChangeEditsNothing(s: Snapshot, ms: seq<Manager>, i: int, reqId: int, now: string, clock: Clock)
    requires ManagersOk(ms) && 0 <= i < |ms|
    requires reqId in s.requests && |s.requests[reqId].messages| > 0
    ensures Routed(CompleteData(reqId))
    ensures var h := Handle(Some(s), Written(s), ms, ms[i].id, CompleteData(reqId), now);
      h.outcome == Applied && h.edits == []
    ensures var h := HandleFixed(Some(s), Written(s), ms, ms[i].id, CompleteData(reqId), now, clock);
      h.outcome == Applied && |h.edits| == |s.requests[reqId].messages| > 0
  {
    assert CompleteData(reqId)[..|"complete|"|] == "complete|";
    CompleteDataRoundTrip(reqId);
    LookupFinds(ms, i);
    var e := ApplyCallbackFixed(s.requests[reqId], ms, Some(ms[i]), Callback("complete", reqId, None), now);
    RefreshCoversMessages(reqId, e.record, clock);
  }

  /** `handle_request_callbacks` over the store: parse the data, fetch the
      record (the cached dict itself), apply the press to it in place, and
      save it when the change is applied. */
  method HandleRequestCallback(store: RequestStore, ms: seq<Manager>, userId: string, data: string, now: string)
    returns (outcome: Outcome)
    requires Routed(data)
    modifies store
    ensures var h := Handle(old(store.cache), old(store.file), ms, userId, data, now);
      outcome == h.outcome && store.cache == h.cache && store.file == h.file
  {
    var actor := Lookup(ms, Some(userId));
    var parsed := ParseCallback(data);
    if parsed.None? {
      return Malformed;
    }
    var cb := parsed.value;
    var found := store.Get(cb.reqId);
    if found.None? {
      return NotFound;
    }
    var r := found.value;
    assert store.cache.value.requests[cb.reqId := r] == store.cache.value.requests;
    if cb.action == "claim" {
      var target := Lookup(ms, cb.param);
      if target.None? {
        return UnknownManager;
      }
      if Truthy(r.claimedByName) {
        return AlreadyClaimed;
      }
      r := r.(claimedByName := Some(target.value.name));
      r := r.(claimedTimestamp := Some(now));
      r := r.(status := Some(ClaimedStatus(target.value)));
      if actor.None? {
        store.UpdateCached(cb.reqId, r);
        return ActorNotManager;
      }
      r := r.(lastUpdatedByName := Some(actor.value.name));
      r := r.(lastUpdatedTimestamp := Some(now));
      store.Save(cb.reqId, r);
      return Applied;
    } else if cb.action == "updateStatus" || cb.action == "complete" {
      var newStatus := if cb.action == "complete" then Some(STATUS_COMPLETED) else cb.param;
      if r.status == Some(STATUS_COMPLETED) && cb.action != "complete" {
        return AlreadyCompleted;
      }
      r := r.(status := newStatus);
      if actor.None? {
        store.UpdateCached(cb.reqId, r);
        return ActorNotManager;
      }
      r := r.(lastUpdatedByName := Some(actor.value.name));
      r := r.(lastUpdatedTimestamp := Some(now));
      store.Save(cb.reqId, r);
      return Applied;
    }
    return Ignored;
  }
}
