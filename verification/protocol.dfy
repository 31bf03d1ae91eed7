/** The incoming protocol content the bridge consumes, reduced to the fields
    the message normaliser reads. Each `Option` field is an optional protobuf
    field of the messaging library. */
module Protocol {
  import opened Wrappers
  import Hex
  import Uuid

  /** An unsigned 64-bit protocol timestamp. */
  type u64 = x: int | 0 <= x < 0x1_0000_0000_0000_0000

  /** The 32-byte master key that names a group conversation. */
  type GroupMasterKey = s: seq<Hex.byte> | |s| == 32 witness seq(32, i => 0)

  /** A conversation key: a direct conversation with one contact, or a group. */
  datatype Thread = Contact(uuid: Uuid.Uuid) | Group(key: GroupMasterKey)

  datatype ServiceAddress = ServiceAddress(uuid: Uuid.Uuid)

  /** Envelope data of a content unit: who sent it and its protocol time. */
  datatype Metadata = Metadata(sender: ServiceAddress, timestamp: u64)

  datatype Quote = Quote(text: Option<string>)

  datatype Reaction = Reaction(emoji: Option<string>, targetSentTimestamp: Option<u64>)

  datatype DataMessage = DataMessage(body: Option<string>, quote: Option<Quote>, reaction: Option<Reaction>)

  /** The transcript of a message this account sent from another device. */
  datatype SentTranscript = SentTranscript(message: Option<DataMessage>)

  datatype SyncMessage = SyncMessage(sent: Option<SentTranscript>)

  /** The kinds of content body; `Typing`, `Receipt` and `Other` stand for every
      kind the bridge does not forward. */
  datatype ContentBody =
    | NullMessage
    | Data(dataMessage: DataMessage)
    | Synchronize(syncMessage: SyncMessage)
    | Call
    | Typing
    | Receipt
    | Other

  datatype Content = Content(metadata: Metadata, body: ContentBody)

  /** What `manager.message(thread, timestamp)` can find: the stored content
      units by conversation and sent timestamp. A missing key stands both for
      "not found" and for a failed lookup, which the bridge treats alike. */
  type MessageStore = map<(Thread, u64), Content>

  /** The deriving of a conversation key from a content unit
      (`Thread::try_from`) belongs to the messaging library; the model takes it
      as a parameter of this type. */
  type ThreadOf = Content -> Option<Thread>
}
