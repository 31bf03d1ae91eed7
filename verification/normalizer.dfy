/** The message normaliser of `print_message`: one incoming content unit
    becomes at most one message record. The conversation key is derived first;
    the content kind then decides the direction and the body; the key and the
    direction decide the `who`, `group` and `sent` fields. */
module Normalizer {
  import opened Wrappers
  import Hex
  import Uuid
  import opened Protocol
  import opened Record

  const NullMessageBody: string := "Null message (for example deleted)"
  const CallBody: string := "is calling!"
  const EmptyDataMessageBody: string := "Empty data message"

  function AnswerBody(quoted: string, body: string): string {
    "Answer to message \"" + quoted + "\": " + body
  }

  function ReactionBody(emoji: string, target: string): string {
    "Reacted with " + emoji + " to message: \"" + target + "\""
  }

  /** A quote that carries text, in a message that carries a body. */
  predicate IsAnswer(dm: DataMessage) {
    dm.quote.Some? && dm.quote.value.text.Some? && dm.body.Some?
  }

  /** A reaction that names both its emoji and its target timestamp. */
  predicate IsReaction(dm: DataMessage) {
    dm.reaction.Some? && dm.reaction.value.targetSentTimestamp.Some? && dm.reaction.value.emoji.Some?
  }

  /** The body of the message stored in `thread` at `timestamp`, when that
      message is a data message that has one. */
  function TargetBody(store: MessageStore, thread: Thread, timestamp: u64): (r: Option<string>)
    ensures r.Some? <==>
      && (thread, timestamp) in store
      && store[(thread, timestamp)].body.Data?
      && store[(thread, timestamp)].body.dataMessage.body.Some?
    ensures r.Some? ==> r == store[(thread, timestamp)].body.dataMessage.body
  {
    if (thread, timestamp) !in store then None
    else
      match store[(thread, timestamp)].body
      case Data(DataMessage(Some(body), _, _)) => Some(body)
      case _ => None
  }

  /** A reaction whose target cannot be shown: the unit is dropped. */
  predicate ReactionDropped(store: MessageStore, thread: Thread, dm: DataMessage) {
    && !IsAnswer(dm)
    && IsReaction(dm)
    && TargetBody(store, thread, dm.reaction.value.targetSentTimestamp.value).None?
  }

  /** The `format_data_message` closure: quote, then reaction, then plain
      body, then the sentinel. `None` drops the content unit. */
  function FormatDataMessage(store: MessageStore, thread: Thread, dm: DataMessage): (r: Option<string>)
    ensures r.None? <==> ReactionDropped(store, thread, dm)
    ensures !IsReaction(dm) && dm.body.None? ==> r == Some(EmptyDataMessageBody)
  {
    if IsAnswer(dm) then
      Some(AnswerBody(dm.quote.value.text.value, dm.body.value))
    else if IsReaction(dm) then
      var target := TargetBody(store, thread, dm.reaction.value.targetSentTimestamp.value);
      if target.None? then None
      else Some(ReactionBody(dm.reaction.value.emoji.value, target.value))
    else if dm.body.Some? then
      Some(dm.body.value)
    else
      Some(EmptyDataMessageBody)
  }

  datatype Direction = Received | Sent

  /** The `Msg` of `print_message` without its thread: a direction and a body. */
  datatype Msg = Msg(direction: Direction, body: string)

  /** A synchronised transcript that wraps a data message this account sent. */
  predicate IsSyncSent(body: ContentBody) {
    body.Synchronize? && body.syncMessage.sent.Some? && body.syncMessage.sent.value.message.Some?
  }

  /** The data message a content body carries, directly or in a transcript. */
  function CarriedData(body: ContentBody): Option<DataMessage> {
    if body.Data? then Some(body.dataMessage)
    else if IsSyncSent(body) then body.syncMessage.sent.value.message
    else None
  }

  /** The classification of a content body into a direction and a body. */
  function Classify(store: MessageStore, thread: Thread, body: ContentBody): (r: Option<Msg>)
    ensures body.NullMessage? ==> r == Some(Msg(Received, NullMessageBody))
    ensures body.Call? ==> r == Some(Msg(Received, CallBody))
    ensures r.Some? && r.value.direction == Sent <==>
      IsSyncSent(body) && !ReactionDropped(store, thread, CarriedData(body).value)
    ensures r.None? <==>
      (CarriedData(body).None? && !body.NullMessage? && !body.Call?)
      || (CarriedData(body).Some? && ReactionDropped(store, thread, CarriedData(body).value))
    ensures CarriedData(body).Some? && r.Some? ==> Some(r.value.body) == FormatDataMessage(store, thread, CarriedData(body).value)
  {
    match body
    case NullMessage => Some(Msg(Received, NullMessageBody))
    case Data(dm) =>
      var text := FormatDataMessage(store, thread, dm);
      if text.Some? then Some(Msg(Received, text.value)) else None
    case Synchronize(SyncMessage(Some(SentTranscript(Some(dm))))) =>
      var text := FormatDataMessage(store, thread, dm);
      if text.Some? then Some(Msg(Sent, text.value)) else None
    case Call => Some(Msg(Received, CallBody))
    case _ => None
  }

  /** The `who`, `group` and `sent` values of a message record. */
  datatype Attribution = Attribution(who: string, group: string, sent: bool)

  /** The mapping of a conversation key and a direction onto the record's
      identity fields. */
  function Attribute(thread: Thread, direction: Direction, sender: Uuid.Uuid): (a: Attribution)
    ensures a.sent <==> direction == Sent
    ensures a.group == "" <==> thread.Contact?
    ensures a.who == "" <==> thread.Group? && direction == Sent
  {
    Uuid.HyphenatedIsCString(sender);
    match (direction, thread)
    case (Received, Contact(uuid)) =>
      Uuid.HyphenatedIsCString(uuid);
      Attribution(Uuid.Hyphenated(uuid), "", false)
    case (Sent, Contact(uuid)) =>
      Uuid.HyphenatedIsCString(uuid);
      Attribution(Uuid.Hyphenated(uuid), "", true)
    case (Received, Group(key)) => Attribution(Uuid.Hyphenated(sender), Hex.Encode(key), false)
    case (Sent, Group(key)) => Attribution("", Hex.Encode(key), true)
  }

  /** `print_message`: the record, if any, that one content unit produces. */
  function Normalize(threadOf: ThreadOf, store: MessageStore, account: Address, content: Content): (s: Step)
    ensures threadOf(content).None? ==> s.Skip?
    ensures s.Skip? <==> threadOf(content).None? || Classify(store, threadOf(content).value, content.body).None?
    ensures s.Emit? ==>
      && s.record.account == account
      && s.record.txPtr.None? && s.record.qrcode.None? && s.record.uuid.None?
      && s.record.timestamp == content.metadata.timestamp
      && s.record.body == Some(Classify(store, threadOf(content).value, content.body).value.body)
  {
    match threadOf(content)
    case None => Skip
    case Some(thread) =>
      match Classify(store, thread, content.body)
      case None => Skip
      case Some(msg) =>
        var a := Attribute(thread, msg.direction, content.metadata.sender.uuid);
        MessageRecord(account, content.metadata.timestamp, a.who, a.group, msg.body, a.sent)
  }
}
