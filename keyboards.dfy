/** The inline keyboards of bot_handlers.py: the claim keyboard of a new
    request (one button per manager, two per row) and the status keyboard of
    a claimed one. */
module Keyboards {
  import opened Wrappers
  import opened Config
  import opened Callbacks

  /** `InlineKeyboardButton(text=..., callback_data=...)`. */
  datatype Button = Button(text: string, data: string)

  /** `InlineKeyboardMarkup(inline_keyboard=rows)`. */
  type Keyboard = seq<seq<Button>>

  const CLAIM_TEXT: string := "Прыняць ("

  predicate NamesNonEmpty(ms: seq<Manager>) {
    forall i :: 0 <= i < |ms| ==> ms[i].name != ""
  }

  function Min(a: int, b: int): int {
    if a < b then a else b
  }

  /** The claim button for one manager: the first letter of the manager's
      name, and the claim of request `reqId` for that manager. */
  function ClaimButton(m: Manager, reqId: int): Button
    requires m.name != ""
  {
    Button(CLAIM_TEXT + [m.name[0]] + ")", ClaimData(reqId, m.id))
  }

  /** The claim buttons of the given managers, in order. */
  function ClaimButtons(ms: seq<Manager>, reqId: int): (bs: seq<Button>)
    requires NamesNonEmpty(ms)
    ensures |bs| == |ms|
  {
    seq(|ms|, i requires 0 <= i < |ms| => ClaimButton(ms[i], reqId))
  }

  /** The claim keyboard: the managers taken two at a time, in order. */
  function ClaimRows(ms: seq<Manager>, reqId: int): Keyboard
    requires NamesNonEmpty(ms)
    decreases |ms|
  {
    if |ms| == 0 then []
    else
      var k := Min(2, |ms|);
      [ClaimButtons(ms[..k], reqId)] + ClaimRows(ms[k..], reqId)
  }

  /** The buttons of a keyboard, row after row. */
  function Flatten(kb: Keyboard): seq<Button> {
    if |kb| == 0 then [] else kb[0] + Flatten(kb[1..])
  }

  /** `build_initial_claim_keyboard(req_id)`. */
  method BuildInitialClaimKeyboard(ms: seq<Manager>, reqId: int) returns (kb: Keyboard)
    requires NamesNonEmpty(ms)
    ensures kb == ClaimRows(ms, reqId)
  {
    kb := [];
    var i := 0;
    while i < |ms|
      invariant 0 <= i <= |ms| + 1
      invariant kb + ClaimRows(ms[Min(i, |ms|)..], reqId) == ClaimRows(ms, reqId)
      decreases |ms| - i
    {
      var end := Min(i + 2, |ms|);
      var row := seq(end - i, k requires 0 <= k < end - i => ClaimButton(ms[i + k], reqId));
      assert row == ClaimButtons(ms[i..][..Min(2, |ms| - i)], reqId);
      assert ms[i..][Min(2, |ms| - i)..] == ms[end..];
      if |row| > 0 {
        kb := kb + [row];
      }
      i := i + 2;
    }
  }

  /** The claim keyboard holds one button per manager, in manager order, in
      rows of one or two; there are `ceil(n / 2)` rows. */
  lemma {:induction false} ClaimKeyboardShape(ms: seq<Manager>, reqId: int)
    requires NamesNonEmpty(ms)
    ensures Flatten(ClaimRows(ms, reqId)) == ClaimButtons(ms, reqId)
    ensures |ClaimRows(ms, reqId)| == (|ms| + 1) / 2
    ensures forall r :: 0 <= r < |ClaimRows(ms, reqId)| ==> 1 <= |ClaimRows(ms, reqId)[r]| <= 2
    decreases |ms|
  {
    if |ms| > 0 {
      var k := Min(2, |ms|);
      var rows := ClaimRows(ms, reqId);
      ClaimKeyboardShape(ms[k..], reqId);
      assert rows[1..] == ClaimRows(ms[k..], reqId);
      assert ClaimButtons(ms, reqId) == ClaimButtons(ms[..k], reqId) + ClaimButtons(ms[k..], reqId);
      forall r | 0 <= r < |rows|
        ensures 1 <= |rows[r]| <= 2
      {
        if r > 0 {
          assert rows[r] == ClaimRows(ms[k..], reqId)[r - 1];
        }
      }
    }
  }

  /** Pressing the claim button of the `i`-th manager asks to assign request
      `reqId` to exactly that manager. */
  lemma ClaimButtonsDecode(ms: seq<Manager>, reqId: int, i: int)
    requires ManagersOk(ms) && 0 <= i < |ms|
    ensures NamesNonEmpty(ms)
    ensures ParseCallback(ClaimButtons(ms, reqId)[i].data) == Some(Callback("claim", reqId, Some(ms[i].id)))
    ensures Lookup(ms, Some(ms[i].id)) == Some(ms[i])
  {
    ClaimDataRoundTrip(reqId, ms[i].id);
    LookupFinds(ms, i);
  }

  /** `build_status_update_keyboard(req_id)`: will-come and alerted, then
      canceled, then complete. */
  function StatusKeyboard(reqId: int): (kb: Keyboard)
    ensures |kb| == 3 && |kb[0]| == 2 && |kb[1]| == 1 && |kb[2]| == 1
  {
    [
      [Button(STATUS_WILL_COME, UpdateStatusData(reqId, STATUS_WILL_COME)),
       Button(STATUS_ALERTED, UpdateStatusData(reqId, STATUS_ALERTED))],
      [Button(STATUS_CANCELED_CLIENT, UpdateStatusData(reqId, STATUS_CANCELED_CLIENT))],
      [Button(STATUS_COMPLETED, CompleteData(reqId))]
    ]
  }

  /** The status keyboard has exactly four buttons: three status updates of
      request `reqId`, to will-come, alerted and canceled, then its
      completion; each is labelled with the status it sets. */
  lemma StatusKeyboardDecode(reqId: int)
    ensures var bs := Flatten(StatusKeyboard(reqId));
      && |bs| == 4
      && ParseCallback(bs[0].data) == Some(Callback("updateStatus", reqId, Some(STATUS_WILL_COME)))
      && ParseCallback(bs[1].data) == Some(Callback("updateStatus", reqId, Some(STATUS_ALERTED)))
      && ParseCallback(bs[2].data) == Some(Callback("updateStatus", reqId, Some(STATUS_CANCELED_CLIENT)))
      && ParseCallback(bs[3].data) == Some(Callback("complete", reqId, None))
      && bs[0].text == STATUS_WILL_COME && bs[1].text == STATUS_ALERTED
      && bs[2].text == STATUS_CANCELED_CLIENT && bs[3].text == STATUS_COMPLETED
  {
    var kb := StatusKeyboard(reqId);
    assert Flatten(kb[2..]) == kb[2] + Flatten(kb[3..]);
    assert Flatten(kb[1..]) == kb[1] + Flatten(kb[2..]);
    StatusLabelsDistinct();
    UpdateStatusDataRoundTrip(reqId, STATUS_WILL_COME);
    UpdateStatusDataRoundTrip(reqId, STATUS_ALERTED);
    UpdateStatusDataRoundTrip(reqId, STATUS_CANCELED_CLIENT);
    CompleteDataRoundTrip(reqId);
  }
}
