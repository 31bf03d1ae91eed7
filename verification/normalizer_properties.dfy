/** Properties of the message normaliser: the body precedence, the reaction
    lookup, the identity mapping, the recovery of the conversation key from a
    record, and the absence of panics on NUL-free content. */
module NormalizerProperties {
  import opened Wrappers
  import Hex
  import Uuid
  import opened Protocol
  import opened Record
  import opened Normalizer

  /** A quote with text in a message with a body wins over any reaction. */
  lemma QuoteWinsOverReaction(store: MessageStore, thread: Thread, dm: DataMessage, reaction: Option<Reaction>)
    requires IsAnswer(dm)
    ensures FormatDataMessage(store, thread, dm.(reaction := reaction))
         == Some(AnswerBody(dm.quote.value.text.value, dm.body.value))
  {
  }

  /** A complete reaction (not overridden by a quote) is shown exactly when the
      target is a stored data message with a body, and then names both. */
  lemma ReactionResolution(store: MessageStore, thread: Thread, dm: DataMessage)
    requires !IsAnswer(dm) && IsReaction(dm)
    ensures var key := (thread, dm.reaction.value.targetSentTimestamp.value);
      && (FormatDataMessage(store, thread, dm).Some? <==>
            key in store && store[key].body.Data? && store[key].body.dataMessage.body.Some?)
      && (FormatDataMessage(store, thread, dm).Some? ==>
            FormatDataMessage(store, thread, dm)
            == Some(ReactionBody(dm.reaction.value.emoji.value, store[key].body.dataMessage.body.value)))
  {
  }

  /** Without an answer or a reaction, the body is passed on unchanged. */
  lemma PlainBodyUnchanged(store: MessageStore, thread: Thread, dm: DataMessage)
    requires !IsAnswer(dm) && !IsReaction(dm) && dm.body.Some?
    ensures FormatDataMessage(store, thread, dm) == dm.body
  {
  }

  /** The stored messages are consulted only to resolve a reaction. */
  lemma StoreOnlyForReactions(s1: MessageStore, s2: MessageStore, thread: Thread, dm: DataMessage)
    requires IsAnswer(dm) || !IsReaction(dm)
    ensures FormatDataMessage(s1, thread, dm) == FormatDataMessage(s2, thread, dm)
    ensures FormatDataMessage(s1, thread, dm).Some?
  {
  }

  /** A quote without a body does not make an answer: a complete reaction in
      the same message is then resolved instead. */
  lemma QuoteWithoutBodyYieldsToReaction(store: MessageStore, thread: Thread, dm: DataMessage)
    requires dm.body.None? && IsReaction(dm)
    ensures !IsAnswer(dm)
    ensures FormatDataMessage(store, thread, dm).Some? ==>
      FormatDataMessage(store, thread, dm).value[..13] == "Reacted with "
  {
  }

  /** Typing indicators, receipts, other kinds and transcripts that carry no
      sent data message never produce a record. */
  lemma UnsupportedKindsAreDropped(threadOf: ThreadOf, store: MessageStore, account: Address, content: Content)
    requires content.body.Typing? || content.body.Receipt? || content.body.Other?
          || (content.body.Synchronize? && !IsSyncSent(content.body))
    ensures Normalize(threadOf, store, account, content).Skip?
  {
  }

  /** A record is marked sent exactly when it comes from a transcript of a
      message sent from another device. */
  lemma SentExactlyForTranscripts(threadOf: ThreadOf, store: MessageStore, account: Address, content: Content)
    requires Normalize(threadOf, store, account, content).Emit?
    ensures var r := Normalize(threadOf, store, account, content).record;
      && (r.sent == 1 <==> IsSyncSent(content.body))
      && (r.sent == 0 <==> !IsSyncSent(content.body))
  {
  }

  /** The identity fields of a message record, for each kind of conversation
      and each direction. */
  lemma IdentityFields(threadOf: ThreadOf, store: MessageStore, account: Address, content: Content)
    requires Normalize(threadOf, store, account, content).Emit?
    ensures threadOf(content).Some?
    ensures var r := Normalize(threadOf, store, account, content).record;
      var sender := content.metadata.sender.uuid;
      match threadOf(content).value
      case Contact(uuid) => r.who == Some(Uuid.Hyphenated(uuid)) && r.group.None?
      case Group(key) =>
        && r.group == Some(Hex.Encode(key))
        && (r.sent == 0 ==> r.who == Some(Uuid.Hyphenated(sender)))
        && (r.sent == 1 ==> r.who.None?)
  {
  }

  /** The conversation a message record belongs to, read back from its
      `group` and `who` fields. */
  function ConversationOf(r: Presage): (t: Option<Thread>)
  {
    if r.group.Some? then
      match Hex.Decode(r.group.value)
      case Some(key) => if |key| == 32 then Some(Group(key)) else None
      case None => None
    else if r.who.Some? then
      match Uuid.Parse(r.who.value)
      case Some(uuid) => Some(Contact(uuid))
      case None => None
    else None
  }

  /** A message record identifies its conversation: reading back its `group`
      and `who` fields gives the key the content unit was filed under. */
  lemma ConversationRecovered(threadOf: ThreadOf, store: MessageStore, account: Address, content: Content)
    requires Normalize(threadOf, store, account, content).Emit?
    ensures ConversationOf(Normalize(threadOf, store, account, content).record) == threadOf(content)
  {
    IdentityFields(threadOf, store, account, content);
    match threadOf(content).value
    case Contact(uuid) => Uuid.ParseHyphenated(uuid);
    case Group(key) => Hex.DecodeEncode(key);
  }

  /** The sender of a received group message can be read back from `who`. */
  lemma GroupSenderRecovered(threadOf: ThreadOf, store: MessageStore, account: Address, content: Content)
    requires Normalize(threadOf, store, account, content).Emit?
    requires threadOf(content).Some? && threadOf(content).value.Group?
    requires Normalize(threadOf, store, account, content).record.sent == 0
    ensures var r := Normalize(threadOf, store, account, content).record;
      r.who.Some? && Uuid.Parse(r.who.value) == Some(content.metadata.sender.uuid)
  {
    IdentityFields(threadOf, store, account, content);
    Uuid.ParseHyphenated(content.metadata.sender.uuid);
  }

  predicate NulFreeOpt(s: Option<string>) {
    s.Some? ==> NulFree(s.value)
  }

  /** Every string of a data message that can reach a body is NUL-free. */
  predicate NulFreeData(dm: DataMessage) {
    && NulFreeOpt(dm.body)
    && (dm.quote.Some? ==> NulFreeOpt(dm.quote.value.text))
    && (dm.reaction.Some? ==> NulFreeOpt(dm.reaction.value.emoji))
  }

  predicate NulFreeContent(content: Content) {
    CarriedData(content.body).Some? ==> NulFreeData(CarriedData(content.body).value)
  }

  /** Every stored body a reaction can quote is NUL-free. */
  predicate NulFreeStore(store: MessageStore) {
    forall key :: key in store && store[key].body.Data? ==> NulFreeOpt(store[key].body.dataMessage.body)
  }

  /** Every body the formatter produces from NUL-free text is NUL-free. */
  lemma FormattedBodyNulFree(store: MessageStore, thread: Thread, dm: DataMessage)
    requires NulFreeData(dm) && NulFreeStore(store)
    ensures NulFreeOpt(FormatDataMessage(store, thread, dm))
  {
  }

  /** Every body the classification produces from NUL-free text is NUL-free. */
  lemma ClassifiedBodyNulFree(store: MessageStore, thread: Thread, content: Content)
    requires NulFreeContent(content) && NulFreeStore(store)
    requires Classify(store, thread, content.body).Some?
    ensures NulFree(Classify(store, thread, content.body).value.body)
  {
    match content.body
    case NullMessage => assert NulFree(NullMessageBody);
    case Call => assert NulFree(CallBody);
    case Data(dm) => FormattedBodyNulFree(store, thread, dm);
    case Synchronize(_) => FormattedBodyNulFree(store, thread, CarriedData(content.body).value);
  }

  /** On NUL-free text the normaliser never panics. */
  lemma NoPanicOnNulFreeText(threadOf: ThreadOf, store: MessageStore, account: Address, content: Content)
    requires NulFreeContent(content) && NulFreeStore(store)
    ensures !Normalize(threadOf, store, account, content).Panic?
  {
    if threadOf(content).Some? {
      var thread := threadOf(content).value;
      var msg := Classify(store, thread, content.body);
      if msg.Some? {
        ClassifiedBodyNulFree(store, thread, content);
        Uuid.HyphenatedIsCString(content.metadata.sender.uuid);
        match thread
        case Contact(uuid) => Uuid.HyphenatedIsCString(uuid);
        case Group(key) => Hex.EncodeHasNoNul(key);
      }
    }
  }

  /** The two fixed bodies hold no NUL character. */
  lemma FixedBodiesNulFree()
    ensures NulFree(NullMessageBody) && NulFree(CallBody)
  {
  }

  /** A null message or a call whose conversation key is derived emits a
      received record with its fixed body. */
  lemma NullAndCallBodies(threadOf: ThreadOf, store: MessageStore, account: Address, content: Content)
    requires threadOf(content).Some?
    requires content.body.NullMessage? || content.body.Call?
    ensures var s := Normalize(threadOf, store, account, content);
      && s.Emit?
      && s.record.sent == 0
      && s.record.body == Some(if content.body.NullMessage? then NullMessageBody else CallBody)
  {
    FixedBodiesNulFree();
    var thread := threadOf(content).value;
    Uuid.HyphenatedIsCString(content.metadata.sender.uuid);
    match thread
    case Contact(uuid) => Uuid.HyphenatedIsCString(uuid);
    case Group(key) => Hex.EncodeHasNoNul(key);
  }

  /** A reply quoting "hello" with the body "yes". */
  lemma AnswerExample(store: MessageStore, thread: Thread)
    ensures FormatDataMessage(store, thread, DataMessage(Some("yes"), Some(Quote(Some("hello"))), None))
         == Some("Answer to message \"hello\": yes")
  {
    assert AnswerBody("hello", "yes") == "Answer to message \"hello\": yes";
  }

  /** A thumbs-up reaction to the message "hi" stored at timestamp 1000. */
  lemma ReactionExample(thread: Thread, stored: Metadata)
    ensures var store := map[(thread, 1000) := Content(stored, Data(DataMessage(Some("hi"), None, None)))];
      FormatDataMessage(store, thread, DataMessage(None, None, Some(Reaction(Some("👍"), Some(1000)))))
      == Some("Reacted with 👍 to message: \"hi\"")
  {
    var store := map[(thread, 1000) := Content(stored, Data(DataMessage(Some("hi"), None, None)))];
    assert TargetBody(store, thread, 1000) == Some("hi");
    assert ReactionBody("👍", "hi") == "Reacted with 👍 to message: \"hi\"";
  }
}
