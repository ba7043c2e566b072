/** The form-submission endpoint of main.py (`handle_form_submit`): check
    the shared secret, parse the JSON body, check the required fields, and
    hand the client data to request creation. */
module Form {
  import opened Wrappers
  import opened Config
  import opened Records
  import opened Store
  import opened Render
  import opened Keyboards
  import opened Lifecycle

  /** The request body as `request.json()` sees it: not JSON at all, or a
      JSON object whose values are strings or null. */
  datatype Body = Unparseable | Object(fields: map<string, Option<string>>)

  /** The fields a submission must carry. */
  const REQUIRED: set<string> := {"timestamp", "name", "phone", "details"}

  /** What the endpoint decides before any request is created. */
  datatype Decision =
    | Forbidden                     // secret header missing, empty or wrong
    | InvalidJson                   // JSONDecodeError
    | MissingFields                 // a required field is absent
    | Accept(client: ClientData)    // the client data passed on

  /** The checks of `handle_form_submit` in their order: the secret first,
      then the body, then the required fields. The client data has exactly
      the five fields, the messenger defaulting to the empty string. */
  function Classify(header: Option<string>, secret: Option<string>, body: Body): (d: Decision)
    ensures d.Forbidden? <==> !Truthy(header) || header != secret
    ensures d.InvalidJson? <==> Truthy(header) && header == secret && body.Unparseable?
    ensures d.MissingFields? <==> Truthy(header) && header == secret && body.Object?
                                  && exists k :: k in REQUIRED && k !in body.fields
    ensures d.Accept? ==> body.Object? && REQUIRED <= body.fields.Keys
    ensures d.Accept? ==> d.client.Keys == REQUIRED + {"messenger"}
    ensures d.Accept? ==> (forall k :: k in REQUIRED ==> d.client[k] == body.fields[k])
    ensures d.Accept? ==> d.client["messenger"] == (if "messenger" in body.fields then body.fields["messenger"] else Some(""))
  {
    if !Truthy(header) || header != secret then Forbidden
    else match body
      case Unparseable => InvalidJson
      case Object(fields) =>
        if !(REQUIRED <= fields.Keys) then MissingFields
        else Accept(map[
          "timestamp" := fields["timestamp"],
          "name" := fields["name"],
          "phone" := fields["phone"],
          "messenger" := GetOr(fields, "messenger", Some("")),
          "details" := fields["details"]])
  }

  /** What the endpoint answers. */
  datatype ReplyBody =
    | PlainText(text: string)
    | ErrorJson(message: string)    // {"status": "error", "message": ...}
    | OkJson(requestId: int)        // {"status": "ok", "request_id": ...}

  datatype Reply = Reply(status: int, body: ReplyBody)

  /** The answer to a refused submission: 403 for a bad secret, 400 for a
      bad body. */
  function Rejection(d: Decision): (r: Reply)
    requires !d.Accept?
    ensures r.status == 403 <==> d.Forbidden?
    ensures r.status == 400 <==> d.InvalidJson? || d.MissingFields?
    ensures r.body.ErrorJson? <==> r.status == 400
  {
    match d
    case Forbidden => Reply(403, PlainText("Forbidden: Invalid Secret"))
    case InvalidJson => Reply(400, ErrorJson("Invalid JSON payload"))
    case MissingFields => Reply(400, ErrorJson("Missing required fields"))
  }

  /** An accepted submission becomes a record holding the submitted values
      themselves: none of the record's fallbacks for absent fields applies. */
  lemma AcceptedRecordKeepsForm(header: Option<string>, secret: Option<string>, body: Body,
                                reqId: int, nowIso: string, messages: seq<MessageLoc>)
    requires Classify(header, secret, body).Accept?
    ensures var fields := body.fields;
      var r := NewRecord(reqId, Classify(header, secret, body).client, nowIso, messages);
      && r.formTimestamp == fields["timestamp"] && r.clientName == fields["name"]
      && r.clientPhone == fields["phone"] && r.rawEventDetails == fields["details"]
      && r.clientMessenger == (if "messenger" in fields then fields["messenger"] else Some(""))
      && r.status == Some(STATUS_NEW) && r.messages == messages
  {
  }

  /** `handle_form_submit`: a refused submission answers at once and leaves
      the store alone; an accepted one creates and announces the request
      and answers with its id. */
  method SubmitForm(store: RequestStore, ms: seq<Manager>, header: Option<string>, secret: Option<string>,
                    body: Body, nowIso: string, clock: Clock, sends: seq<SendResult>)
    returns (reply: Reply, notices: seq<Notice>)
    requires NamesNonEmpty(ms) && |sends| == |ms|
    modifies store
    ensures var d := Classify(header, secret, body);
      !d.Accept? ==> reply == Rejection(d) && notices == []
                     && store.cache == old(store.cache) && store.file == old(store.file)
    ensures var d := Classify(header, secret, body);
      d.Accept? ==>
        var s := Loaded(old(store.cache), old(store.file));
        var reqId := CounterValue(s.counter) + 1;
        && reply == Reply(200, OkJson(reqId))
        && store.cache == Some(Snapshot(s.requests[reqId := NewRecord(reqId, d.client, nowIso, Delivered(sends))], Num(reqId)))
        && store.file == Written(store.cache.value)
        && |notices| == |ms|
        && (forall i :: 0 <= i < |ms| ==>
              notices[i] == Notice(ms[i].id, MessageText(NewRequestView(reqId, d.client, nowIso, clock)),
                                   ClaimRows(ms, reqId)))
  {
    var d := Classify(header, secret, body);
    if !d.Accept? {
      return Rejection(d), [];
    }
    var reqId;
    reqId, notices := CreateAndNotify(store, ms, d.client, nowIso, clock, sends);
    reply := Reply(200, OkJson(reqId));
  }
}
