/** The callback data carried by the inline buttons: `claim|<id>|<manager>`,
    `updateStatus|<id>|<statusLabel>` and `complete|<id>`, and how
    `handle_request_callbacks` takes them apart. */
module Callbacks {
  import opened Wrappers
  import opened Text

  /** `action, req_id_str, *params = data.split('|')`, with `req_id` the
      parsed id and `param` the first extra field, if any. */
  datatype Callback = Callback(action: string, reqId: int, param: Option<string>)

  function ClaimData(reqId: int, managerId: string): string {
    "claim|" + Str(reqId) + "|" + managerId
  }

  function UpdateStatusData(reqId: int, statusLabel: string): string {
    "updateStatus|" + Str(reqId) + "|" + statusLabel
  }

  function CompleteData(reqId: int): string {
    "complete|" + Str(reqId)
  }

  /** The parsing at the top of `handle_request_callbacks`: None when the
      unpacking (fewer than two fields) or `int(req_id_str)` raises
      ValueError. */
  function ParseCallback(data: string): (r: Option<Callback>)
    ensures r.Some? ==> |Split(data, '|')| >= 2 && r.value.action == Split(data, '|')[0]
    ensures r.Some? ==> ParseInt(Split(data, '|')[1]) == Some(r.value.reqId)
    ensures r.None? <==> |Split(data, '|')| < 2 || ParseInt(Split(data, '|')[1]).None?
  {
    var parts := Split(data, '|');
    if |parts| < 2 then None
    else
      match ParseInt(parts[1])
      case None => None
      case Some(id) => Some(Callback(parts[0], id, if |parts| > 2 then Some(parts[2]) else None))
  }

  /** Parsing `<action>|str(id)[|<param>]` built from separator-free parts
      gives back the action, the id and the parameter. */
  lemma {:induction false} ParseBuiltData(action: string, reqId: int, param: Option<string>)
    requires '|' !in action
    requires param.Some? ==> '|' !in param.value
    ensures ParseCallback(action + "|" + Str(reqId) + (if param.Some? then "|" + param.value else ""))
            == Some(Callback(action, reqId, param))
  {
    var id := Str(reqId);
    var data := action + "|" + id + (if param.Some? then "|" + param.value else "");
    var parts := if param.Some? then [action, id, param.value] else [action, id];
    assert '|' !in id;
    if param.Some? {
      assert parts[1..] == [id, param.value];
      assert Join([id, param.value], '|') == id + ['|'] + Join([param.value], '|');
      assert Join(parts, '|') == action + ['|'] + (id + ['|'] + param.value);
      assert data == action + ['|'] + (id + ['|'] + param.value);
    } else {
      assert Join(parts, '|') == action + ['|'] + id;
      assert data == action + ['|'] + id;
    }
    SplitJoin(parts, '|');
    ParseIntStr(reqId);
  }

  /** A claim button's data decodes to the claim of that request for that
      manager. */
  lemma ClaimDataRoundTrip(reqId: int, managerId: string)
    requires '|' !in managerId
    ensures ParseCallback(ClaimData(reqId, managerId)) == Some(Callback("claim", reqId, Some(managerId)))
  {
    assert ClaimData(reqId, managerId) == "claim" + "|" + Str(reqId) + ("|" + managerId);
    ParseBuiltData("claim", reqId, Some(managerId));
  }

  /** A status button's data decodes to a status update of that request to
      that statusLabel. */
  lemma UpdateStatusDataRoundTrip(reqId: int, statusLabel: string)
    requires '|' !in statusLabel
    ensures ParseCallback(UpdateStatusData(reqId, statusLabel)) == Some(Callback("updateStatus", reqId, Some(statusLabel)))
  {
    assert UpdateStatusData(reqId, statusLabel) == "updateStatus" + "|" + Str(reqId) + ("|" + statusLabel);
    ParseBuiltData("updateStatus", reqId, Some(statusLabel));
  }

  /** The complete button's data decodes to completing that request, with no
      parameter. */
  lemma CompleteDataRoundTrip(reqId: int)
    ensures ParseCallback(CompleteData(reqId)) == Some(Callback("complete", reqId, None))
  {
    assert CompleteData(reqId) == "complete" + "|" + Str(reqId) + "";
    ParseBuiltData("complete", reqId, None);
  }
}
