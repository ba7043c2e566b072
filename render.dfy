/** The message renderer of utils.py: `format_request_message` and
    `format_datetime`. A rendering is kept as a `View` (the values that fill
    the message template) and `MessageText` lays a view out as the message string.
    The template literals are kept exactly as the source spells them,
    including the doubly-encoded ones. */
module Render {
  import opened Wrappers
  import opened Text
  import opened Config
  import opened Records

  // The literal pieces of the message template.
  const TITLE: string := "\U{2013}\U{F3}\U{2013}\U{221E}\U{2014}\U{E8}\U{2014}\U{FB}\U{2013}\U{222B}\U{2013}\U{221E} #"
  const NAME_LABEL: string := "\U{F8FF}\U{FC}\U{EB}\U{A7} "
  const PHONE_LABEL: string := "\U{F8FF}\U{FC}\U{EC}\U{FB} "
  const MESSENGER_LABEL: string := "\U{F8FF}\U{FC}\U{EC}\U{2264} Tg/Viber: "
  const EVENTS_LABEL: string := "\U{2013}\U{FA}\U{2013}\U{B5}\U{2014}\U{C4}\U{2013}\U{221E}\U{2013}\U{F8}\U{2014}\U{C4}\U{2014}\U{E3}\U{2013}\U{B5}\U{2013}\U{BA}\U{2014}\U{C5}\U{2014}\U{C7}\U{2013}\U{2264}\U{2013}\U{221E}:"
  const RECEIVED_LABEL: string := "\U{201A}\U{E8}\U{221E} \U{2013}\U{F3}\U{2013}\U{221E}\U{2014}\U{E8}\U{2014}\U{FB}\U{2013}\U{222B}\U{2013}\U{221E} \U{2013}\U{221E}\U{2013}\U{A5}: "
  const STATUS_LABEL: string := "\U{2013}\U{B0}\U{2014}\U{C7}\U{2013}\U{221E}\U{2014}\U{C7}\U{2014}\U{C9}\U{2014}\U{C5}: "
  const CLAIMED_LABEL: string := "\U{F8FF}\U{FC}\U{EE}\U{EB} \U{2013}\U{F3}\U{2013}\U{221E}\U{2013}\U{BA}\U{2013}\U{221E}\U{2014}\U{DC}\U{2013}\U{221E}\U{2013}\U{2264}\U{2013}\U{221E}\U{2013}\U{3A9}\U{2013}\U{221E} \U{2013}\U{2211}\U{2013}\U{221E}: "
  const UPDATED_LABEL: string := "\U{F8FF}\U{FC}\U{EC}\U{F9} \U{2013}\U{EA}\U{2013}\U{F8}\U{2013}\U{E6}\U{2014}\U{E0}\U{2013}\U{3A9}\U{2014}\U{E8}\U{2013}\U{B5} \U{2013}\U{221E}\U{2013}\U{B1}\U{2013}\U{3A9}\U{2013}\U{221E}\U{2014}\U{FB}\U{2013}\U{AA}\U{2013}\U{B5}\U{2013}\U{3A9}\U{2013}\U{3A9}\U{2013}\U{B5}: "
  const BULLET: string := "\U{201A}\U{F3}\U{E8} "
  const NO_EVENTS: string := "N/A"

  // ---------------------------------------------------------------------
  // format_datetime
  // ---------------------------------------------------------------------

  /** What `format_datetime` needs from outside: the current time already
      formatted, and `datetime.fromisoformat(s).strftime('%d.%m.%Y %H:%M:%S')`,
      which is None when `fromisoformat` raises. */
  datatype Clock = Clock(now: string, strftime: string -> Option<string>)

  /** `format_datetime(dt)`: the formatted time; with no argument, the current
      time; and the text itself (`str(dt)`) when it does not parse. */
  function FormatDatetime(dt: Option<string>, clock: Clock): (r: string)
    ensures dt.Some? && clock.strftime(dt.value).None? ==> r == dt.value
  {
    match dt
    case None => clock.now
    case Some(s) =>
      match clock.strftime(s)
      case Some(t) => t
      case None => s
  }

  // ---------------------------------------------------------------------
  // event details
  // ---------------------------------------------------------------------

  /** One bullet line per comma-separated piece, trimmed. */
  function EventLines(details: string): seq<string> {
    var pieces := Split(details, ',');
    seq(|pieces|, i requires 0 <= i < |pieces| => BULLET + Strip(pieces[i]))
  }

  /** `events_fmt`: the bullet lines joined by newlines, or "N/A" when the
      details are empty or null. */
  function FormatEvents(details: Option<string>): (r: string)
    ensures !Truthy(details) ==> r == NO_EVENTS
  {
    if Truthy(details) then Join(EventLines(details.value), '\n') else NO_EVENTS
  }

  /** Details without line breaks render as exactly one line per
      comma-separated piece: the bullet and the trimmed piece. */
  lemma EventsOnePerLine(details: string)
    requires details != "" && '\n' !in details
    ensures Split(FormatEvents(Some(details)), '\n') == EventLines(details)
    ensures |EventLines(details)| == |Split(details, ',')|
    ensures forall i :: 0 <= i < |EventLines(details)| ==>
              EventLines(details)[i] == BULLET + Strip(Split(details, ',')[i])
  {
    var lines := EventLines(details);
    var pieces := Split(details, ',');
    SplitPiecesAvoid(details, ',', '\n');
    assert '\n' !in BULLET;
    forall i | 0 <= i < |lines|
      ensures '\n' !in lines[i]
    {
      assert '\n' !in pieces[i];
      assert '\n' !in Strip(pieces[i]);
    }
    SplitJoin(lines, '\n');
  }

  // ---------------------------------------------------------------------
  // status line and footers
  // ---------------------------------------------------------------------

  /** `current_display_status`: the target status when one is given, else
      the stored one. */
  function DisplayStatus(r: Request, target: Option<string>): Option<string> {
    if target.Some? then target else r.status
  }

  /** The status line carries the " (name)" attribution: a processing
      manager is named, and the status shown is completed, or is neither new
      nor a claimed label. */
  predicate Annotated(display: Option<string>, processedBy: Option<string>) {
    && Truthy(processedBy)
    && display.Some?
    && (display.value == STATUS_COMPLETED
        || (display.value != STATUS_NEW && !StartsWith(display.value, STATUS_CLAIMED_PREFIX)))
  }

  /** `display_status_line` as utils.py:115-125 would compute it with
      `STATUS_COMPLETED` and `STATUS_CLAIMED_PREFIX` in scope. With a null
      status shown and a manager named, `.startswith` on None raises. */
  function StatusLine(display: Option<string>, processedBy: Option<string>): (r: Result<string>)
    ensures r.Err? <==> Truthy(processedBy) && display.None?
    ensures r.Ok? ==> (r.value == PyStr(display) +
                        (if Annotated(display, processedBy) then " (" + processedBy.value + ")" else ""))
  {
    if !Truthy(processedBy) then Ok(PyStr(display))
    else if display == Some(STATUS_COMPLETED) then Ok(STATUS_COMPLETED + " (" + processedBy.value + ")")
    else if display == Some(STATUS_NEW) then Ok(STATUS_NEW)
    else if display.None? then Err(AttributeError)
    else if StartsWith(display.value, STATUS_CLAIMED_PREFIX) then Ok(display.value)
    else Ok(display.value + " (" + processedBy.value + ")")
  }

  /** `display_status_line` as utils.py:115-125 is written: utils.py imports
      only `DATA_FILE_PATH` and `STATUS_NEW`, so the first comparison with
      `STATUS_COMPLETED` raises NameError whenever a manager is named. */
  function StatusLineAsWritten(display: Option<string>, processedBy: Option<string>): (r: Result<string>)
    ensures r.Err? <==> Truthy(processedBy)
    ensures r.Err? ==> r.error == NameError("STATUS_COMPLETED")
    ensures r.Ok? ==> r.value == PyStr(display)
  {
    if Truthy(processedBy) then Err(NameError("STATUS_COMPLETED")) else Ok(PyStr(display))
  }

  /** A footer line: who, and when (formatted). */
  datatype Footer = Footer(who: string, when: string)

  /** The "claimed by" footer: present exactly when both the claimant and the
      claim time are set. */
  function ClaimedFooter(r: Request, clock: Clock): (f: Option<Footer>)
    ensures f.Some? <==> Truthy(r.claimedByName) && Truthy(r.claimedTimestamp)
    ensures f.Some? ==> f.value == Footer(r.claimedByName.value, FormatDatetime(r.claimedTimestamp, clock))
  {
    if Truthy(r.claimedByName) && Truthy(r.claimedTimestamp) then
      Some(Footer(r.claimedByName.value, FormatDatetime(r.claimedTimestamp, clock)))
    else None
  }

  /** The "last updated" footer: present when both last-update fields are
      set, unless it would repeat the attribution just shown (the same
      manager named, and the status shown is the stored one). */
  function UpdatedFooter(r: Request, target: Option<string>, processedBy: Option<string>, clock: Clock): (f: Option<Footer>)
    ensures f.Some? <==> Truthy(r.lastUpdatedByName) && Truthy(r.lastUpdatedTimestamp)
                         && !(processedBy == r.lastUpdatedByName && DisplayStatus(r, target) == r.status)
    ensures f.Some? ==> f.value == Footer(r.lastUpdatedByName.value, FormatDatetime(r.lastUpdatedTimestamp, clock))
  {
    if Truthy(r.lastUpdatedByName) && Truthy(r.lastUpdatedTimestamp)
       && !(processedBy == r.lastUpdatedByName && DisplayStatus(r, target) == r.status)
    then Some(Footer(r.lastUpdatedByName.value, FormatDatetime(r.lastUpdatedTimestamp, clock)))
    else None
  }

  // ---------------------------------------------------------------------
  // the message
  // ---------------------------------------------------------------------

  /** The values that fill the message template. */
  datatype View = View(
    reqId: int,
    name: string,
    phone: string,
    messenger: string,
    events: string,
    receivedAt: string,
    statusLine: string,
    claimed: Option<Footer>,
    updated: Option<Footer>)

  /** The header and status line of the message. */
  function Head(v: View): string {
    "<b>" + TITLE + Str(v.reqId) + "</b>\n"
    + NAME_LABEL + v.name + "\n"
    + PHONE_LABEL + v.phone + "\n"
    + MESSENGER_LABEL + v.messenger + "\n\n"
    + EVENTS_LABEL + "\n" + v.events + "\n\n"
    + RECEIVED_LABEL + v.receivedAt + "\n"
    + "<b>" + STATUS_LABEL + v.statusLine + "</b>\n"
  }

  /** The message text: the header and status line, then the footers that
      are present. */
  function MessageText(v: View): (t: string)
    ensures v.claimed.None? && v.updated.None? ==> t == Head(v)
  {
    Head(v)
    + (if v.claimed.Some? then CLAIMED_LABEL + v.claimed.value.who + " (" + v.claimed.value.when + ")\n" else "")
    + (if v.updated.Some? then UPDATED_LABEL + v.updated.value.who + " (" + v.updated.value.when + ")\n" else "")
  }

  function ViewOf(reqId: int, r: Request, target: Option<string>, processedBy: Option<string>,
                  clock: Clock, statusLine: string): View
  {
    View(reqId, PyStr(r.clientName), PyStr(r.clientPhone), PyStr(r.clientMessenger),
         FormatEvents(r.rawEventDetails), FormatDatetime(r.formTimestamp, clock), statusLine,
         ClaimedFooter(r, clock), UpdatedFooter(r, target, processedBy, clock))
  }

  /** `format_request_message(req_id, req_data, target_status, processed_by_name)`
      as written: it raises NameError whenever a manager is named. */
  function FormatRequestMessage(reqId: int, r: Request, target: Option<string>,
                                processedBy: Option<string>, clock: Clock): (res: Result<View>)
    ensures res.Err? <==> Truthy(processedBy)
    ensures res.Ok? ==> res.value.statusLine == PyStr(DisplayStatus(r, target))
                        && res.value.updated == UpdatedFooter(r, target, processedBy, clock)
  {
    match StatusLineAsWritten(DisplayStatus(r, target), processedBy)
    case Err(e) => Err(e)
    case Ok(line) => Ok(ViewOf(reqId, r, target, processedBy, clock, line))
  }

  /** `format_request_message` with the two missing constants imported. */
  function FormatRequestMessageFixed(reqId: int, r: Request, target: Option<string>,
                                     processedBy: Option<string>, clock: Clock): (res: Result<View>)
    ensures res.Err? <==> Truthy(processedBy) && DisplayStatus(r, target).None?
    ensures res.Ok? ==> (res.value.statusLine == PyStr(DisplayStatus(r, target)) +
                          (if Annotated(DisplayStatus(r, target), processedBy)
                           then " (" + processedBy.value + ")" else ""))
  {
    match StatusLine(DisplayStatus(r, target), processedBy)
    case Err(e) => Err(e)
    case Ok(line) => Ok(ViewOf(reqId, r, target, processedBy, clock, line))
  }

  /** With no manager named the two renderers agree, so the notification of
      a new request (which names none) is unaffected by the missing
      constants. */
  lemma RenderersAgreeWithoutName(reqId: int, r: Request, target: Option<string>,
                                  processedBy: Option<string>, clock: Clock)
    requires !Truthy(processedBy)
    ensures FormatRequestMessage(reqId, r, target, processedBy, clock)
            == FormatRequestMessageFixed(reqId, r, target, processedBy, clock)
  {
  }

  /** Counterexample: rendering a completed request with the acting manager
      named raises under the code as written, while the intended rendering
      is the attributed completed line. */
  lemma CompletedRenderingRaises(reqId: int, r: Request, clock: Clock)
    ensures FormatRequestMessage(reqId, r, Some(STATUS_COMPLETED), Some("M"), clock)
            == Err(NameError("STATUS_COMPLETED"))
    ensures FormatRequestMessageFixed(reqId, r, Some(STATUS_COMPLETED), Some("M"), clock).Ok?
    ensures FormatRequestMessageFixed(reqId, r, Some(STATUS_COMPLETED), Some("M"), clock).value.statusLine
            == STATUS_COMPLETED + " (M)"
  {
    StatusLabelsDistinct();
  }

  /** A record with neither a claim nor a last update renders as the header
      and the plain status line, with no footer. */
  lemma BareRecordRendersHeadOnly(reqId: int, r: Request, target: Option<string>, clock: Clock)
    requires r.claimedByName.None? && r.claimedTimestamp.None?
    requires r.lastUpdatedByName.None? && r.lastUpdatedTimestamp.None?
    ensures FormatRequestMessage(reqId, r, target, None, clock).Ok?
    ensures var v := FormatRequestMessage(reqId, r, target, None, clock).value;
            MessageText(v) == Head(v) && v.statusLine == PyStr(DisplayStatus(r, target))
  {
  }
}
