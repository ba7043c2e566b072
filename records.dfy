/** The request record as the bot stores it: one JSON object per request.
    Every value the form can supply is a string or null, so text fields are
    `Option<string>` (None is null). */
module Records {
  import opened Wrappers

  /** One entry of `messages`: where a manager's copy of the notification is. */
  datatype MessageLoc = MessageLoc(chatId: int, messageId: int)

  /** A request record, with the keys `create_and_notify_new_request` writes. */
  datatype Request = Request(
    formTimestamp: Option<string>,         // form_timestamp (ISO text)
    clientName: Option<string>,            // client_name
    clientPhone: Option<string>,           // client_phone
    clientMessenger: Option<string>,       // client_messenger
    rawEventDetails: Option<string>,       // raw_event_details (comma-separated)
    status: Option<string>,                // status
    claimedByName: Option<string>,         // claimed_by_name
    claimedTimestamp: Option<string>,      // claimed_timestamp
    lastUpdatedByName: Option<string>,     // last_updated_by_name
    lastUpdatedTimestamp: Option<string>,  // last_updated_timestamp
    messages: seq<MessageLoc>              // messages
  )
}
