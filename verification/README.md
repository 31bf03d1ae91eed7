# purple-presage bridge — a Dafny model

This project models the core of the Rust bridge in `src/rust/src/lib.rs` that
lets a C host drive a Signal session through the `presage` library. It covers:

- the `Presage` record handed to the host callback `presage_append_message`,
  and the builders for its four shapes: the command-sender handle, the
  provisioning QR code, the identity, and a message;
- the message normaliser `print_message` with its `format_data_message`
  closure. It takes one incoming content unit and produces zero or one
  message record. It derives the conversation key, classifies the content
  kind, picks the body (quote, then reaction, then plain body, then a
  sentinel), and fills `who`, `group` and `sent`;
- the command processor `run` for `LinkDevice`, `Whoami` and `Receive`;
- the consumer loop of `presage_rust_main`, which runs queued commands one at
  a time in arrival order.

Modelling choices:

- A null pointer is `None`. A `CString` pointer is `Some` of its string.
- `CString::new(..).unwrap()` panics on an interior NUL character. The model
  keeps that panic as an outcome (`Step.Panic`, `Outcome.panicked`). A panic
  inside `block_on` ends the session, so no later command runs. The other
  panicking `unwrap`s are modelled the same way: `whoami()` after a
  successful link, and `receive_messages()`.
- Everything the `presage` library decides is an input of the model:
  - the deriving of the conversation key (`Thread::try_from`) is a function
    parameter `threadOf`;
  - the messages `manager.message(thread, ts)` can find are a map. Each
    streamed unit carries the map as it stands when that unit is processed.
    A missing key covers both `Ok(None)` and `Err`, which the code treats
    alike;
  - the outcomes of linking, `load_registered`, `whoami` and
    `receive_messages`, and the provisioning URL, are given per command
    (`Commands.Library`).
- An identity renders as `Uuid::to_string` does: hyphenated lower-case hex.
  A group key renders as `hex::encode` does: lower-case hex, two characters
  per byte. Each rendering has an inverse (`Uuid.Parse`, `Hex.Decode`). That
  inverse is what shows a record identifies its conversation.

Behaviour of the code worth noting:

- The handle record is emitted before the store is opened
  (`lib.rs:368-374`), so it is emitted even when opening the store fails.
  `Session.RunSession` states this.
- The `group` field is the hex encoding of the group master key
  (`lib.rs:177`, `lib.rs:181`), not a group title. Contact-name and
  group-title resolution are commented out (`lib.rs:116-134`).
- A message sent in a group has an empty `who` (`lib.rs:180-183`), which
  becomes a null pointer (`lib.rs:189-191`).
- After a successful link, a failing `whoami` panics (`unwrap`,
  `lib.rs:303`).

## Model

| member | source | states |
|---|---|---|
| Record.FromAccount | src/rust/src/lib.rs:24-38 | the default record echoes the account token; every pointer is null; `timestamp` and `sent` are 0 |
| Record.CString | src/rust/src/lib.rs:190-195 | string allocation fails exactly on a string holding a NUL character; otherwise the pointer holds the string unchanged |
| Record.ChannelReady | src/rust/src/lib.rs:368-374 | the handle record is the default record with only `tx_ptr` set |
| Record.QrCodeRecord | src/rust/src/lib.rs:288-293 | the QR record is the default record with only `qrcode` set to the URL; it panics exactly on a URL holding NUL |
| Record.IdentityRecord | src/rust/src/lib.rs:336-340 | the identity record is the default record with only `uuid` set; it panics exactly on an identity holding NUL |
| Record.MessageRecord | src/rust/src/lib.rs:186-198 | `timestamp` is copied; `sent` is 1 for sent and 0 for received; `who` and `group` are null exactly when empty and otherwise hold the string; `body` is always set; `qrcode`, `uuid` and `tx_ptr` stay null; a panic happens exactly when a string that is allocated holds NUL |
| Normalizer.TargetBody | src/rust/src/lib.rs:97-105 | the reaction target resolves exactly when the stored unit at (thread, timestamp) is a data message with a body, and then yields that body |
| Normalizer.FormatDataMessage | src/rust/src/lib.rs:76-114 | the data message is dropped exactly when it is a complete reaction that no quote-with-body overrides and whose target does not resolve; a message with no complete reaction and no body gets "Empty data message" |
| Normalizer.Classify | src/rust/src/lib.rs:141-168 | a null message gives a received "Null message (for example deleted)"; a call gives a received "is calling!"; the result is sent exactly for a transcript wrapping a data message that is not dropped; nothing comes of typing, receipts, other kinds or transcripts without a data message; data bodies follow the formatter |
| Normalizer.Attribute | src/rust/src/lib.rs:169-184 | `sent` holds exactly for the sent direction; `group` is empty exactly for a contact thread; `who` is empty exactly for a sent group message |
| Normalizer.Normalize | src/rust/src/lib.rs:65-199 | a unit whose conversation key cannot be derived gives nothing; a unit gives nothing exactly when the key is missing or the content is not classified; an emitted record echoes the account, leaves `qrcode`, `uuid` and `tx_ptr` null, copies the metadata timestamp, and carries exactly the classified body |
| NormalizerProperties.NullAndCallBodies | src/rust/src/lib.rs:141-161 | with a derived key, a null message emits a received record with body "Null message (for example deleted)", and a call emits a received record with body "is calling!" |
| NormalizerProperties.QuoteWinsOverReaction | src/rust/src/lib.rs:78-96 | a quote with text in a message with a body gives `Answer to message "<q>": <body>`, whatever reaction the message also carries |
| NormalizerProperties.ReactionResolution | src/rust/src/lib.rs:88-108 | a complete reaction not overridden by an answer gives a body exactly when the target in the same thread is a stored data message with a body, and that body is `Reacted with <emoji> to message: "<target>"` |
| NormalizerProperties.PlainBodyUnchanged | src/rust/src/lib.rs:109-111 | without an answer or a complete reaction, the message body is passed on unchanged |
| NormalizerProperties.StoreOnlyForReactions | src/rust/src/lib.rs:78-113 | the stored messages affect the body only for a reaction; every other data message is always forwarded |
| NormalizerProperties.QuoteWithoutBodyYieldsToReaction | src/rust/src/lib.rs:79-108 | a quote in a message without a body is no answer, so a complete reaction in it is resolved as a reaction |
| NormalizerProperties.UnsupportedKindsAreDropped | src/rust/src/lib.rs:149-167 | typing indicators, receipts, other kinds and transcripts without a sent data message never give a record |
| NormalizerProperties.SentExactlyForTranscripts | src/rust/src/lib.rs:149-158 | an emitted record has `sent` 1 exactly when it comes from a transcript of a sent message, and 0 otherwise |
| NormalizerProperties.IdentityFields | src/rust/src/lib.rs:169-194 | a contact thread gives `who` = the contact's identity and a null `group` in both directions; a group thread gives `group` = hex of the key, `who` = the metadata sender when received and null when sent |
| NormalizerProperties.ConversationRecovered | src/rust/src/lib.rs:169-194 | reading back `group` (hex) or else `who` (identity) of an emitted record gives exactly the conversation key of the unit |
| NormalizerProperties.GroupSenderRecovered | src/rust/src/lib.rs:176-179 | for a received group message, `who` reads back as the metadata sender |
| NormalizerProperties.NoPanicOnNulFreeText | src/rust/src/lib.rs:189-195 | when the unit's texts and the stored bodies hold no NUL, building the record never panics |
| NormalizerProperties.AnswerExample | src/rust/src/lib.rs:79-87 | a reply quoting "hello" with body "yes" reads `Answer to message "hello": yes` |
| NormalizerProperties.ReactionExample | src/rust/src/lib.rs:88-107 | a thumbs-up reaction to a stored "hi" reads `Reacted with 👍 to message: "hi"` |
| Hex.Encode | src/rust/src/lib.rs:177 | the group rendering has two characters per key byte, all lower-case hex digits |
| Hex.DecodeEncode | src/rust/src/lib.rs:177 | decoding a rendered key gives the key back |
| Hex.EncodeInjective | src/rust/src/lib.rs:177-181 | distinct group keys never share a `group` string |
| Uuid.ParseHyphenated | src/rust/src/lib.rs:170-178 | reading back a rendered identity gives the identity |
| Uuid.HyphenatedInjective | src/rust/src/lib.rs:170-178 | distinct identities never share a `who` string |
| Uuid.HyphenatedIsCString | src/rust/src/lib.rs:189-191 | a rendered identity is never empty and holds no NUL, so `who` is never null for a received message and never panics |
| Commands.ReceiveAll | src/rust/src/lib.rs:242-253 | receiving yields at most one record per unit, each a message record for the account |
| Commands.WhoamiIdentity | src/rust/src/lib.rs:316-335 | the identity is empty exactly when `load_registered` or `whoami` fails, and otherwise reads back as the identity `whoami` returned |
| Commands.Link | src/rust/src/lib.rs:271-314 | the QR record comes first whenever the URL arrives, whatever linking does; the identity record follows only after a successful link; a panic happens exactly when the URL holds NUL or the linked session cannot report its identity, and a URL panic leaves no record |
| Commands.LinkedIdentity | src/rust/src/lib.rs:301-313 | a failed link emits nothing; a linked session that cannot report its identity panics; otherwise exactly one record, the default record with `uuid` set to the rendered identity |
| Commands.Run | src/rust/src/lib.rs:265-356 | every record a command emits echoes the account and leaves `tx_ptr` null |
| Commands.ReceiveLoop | src/rust/src/lib.rs:250-252 | the pull loop emits the same records and panics in the same case as the stream fold |
| CommandProperties.ReceiveAllAppend | src/rust/src/lib.rs:250-252 | the records of a stream are those of its first part followed, unless that part panicked, by those of the rest |
| CommandProperties.ReceiveOne | src/rust/src/lib.rs:250-252 | one unit alone yields exactly what the normaliser makes of it |
| CommandProperties.ReceiveEmitsInDeliveryOrder | src/rust/src/lib.rs:250-252 | the record of a later unit comes after every record of the units delivered before it |
| CommandProperties.UnsupportedStreamEmitsNothing | src/rust/src/lib.rs:164-167 | a stream of only unsupported kinds emits nothing and does not panic |
| CommandProperties.NulFreeStreamNeverPanics | src/rust/src/lib.rs:189-195 | a stream of NUL-free units is received to its end without a panic |
| CommandProperties.WhoamiEmitsExactlyOne | src/rust/src/lib.rs:316-340 | `Whoami` emits exactly one record, the default record with `uuid` set to the identity or to "" |
| CommandProperties.ReceiveUnregisteredEmitsNothing | src/rust/src/lib.rs:343-353 | `Receive` without a registered session emits nothing and does not panic |
| CommandProperties.ReceiveRegistered | src/rust/src/lib.rs:343-353 | `Receive` with a registered session panics when the stream cannot be opened (`unwrap`) and otherwise emits exactly what receiving the whole stream emits |
| CommandProperties.LinkDeviceRecords | src/rust/src/lib.rs:271-314 | `LinkDevice` emits the QR record first whenever the URL arrives, then the identity record only after a successful link; it panics exactly when the linked session cannot report its identity |
| Session.RunAll | src/rust/src/lib.rs:388-391 | every record of the consumer loop echoes the account and leaves `tx_ptr` null |
| Session.RunSession | src/rust/src/lib.rs:359-398 | the first record of a session carries the command-sender handle and no later one does; every record echoes the account; a store that fails to open leaves that one record only |
| Session.ConsumerLoop | src/rust/src/lib.rs:388-391 | the receive-and-run loop emits the same records and panics in the same case as the fold over the queue |
| Session.RunAllAppend | src/rust/src/lib.rs:388-391 | commands run in arrival order: the records of a later batch follow those of an earlier batch |
| Session.PanicStopsTheLoop | src/rust/src/lib.rs:376-397 | after a command panics, no later command contributes a record |
| Session.WhoamiQueueOneRecordEach | src/rust/src/lib.rs:316-341 | a queue of `Whoami` commands yields exactly one identity record per command and no panic |

## Left out

- Runtime creation and destruction (`presage_rust_init`, `presage_rust_destroy`) and `block_on`. These are concurrency plumbing.
- The bounded command channel (capacity 32), backpressure, and `send_cmd` with its `presage_rust_link`, `presage_rust_whoami` and `presage_rust_receive` entry points. The model keeps only the arrival-ordered queue the consumer drains.
- Raw-pointer ownership (`Box::into_raw`, `CString::into_raw`) and the foreign `presage_append_message` call. Emitting a record is appending it to the output sequence.
- The store-path conversion in `presage_rust_main` (`CStr::to_str().unwrap()`). Host strings are modelled as already valid text.
- Store opening, device linking, session loading, identity lookup and the message stream. These are library and network calls, and their outcomes are inputs. The stream is finite in the model.
- How `Thread::try_from` derives a conversation key. It is library code and is a parameter here.
- The reaction-target lookup matches only a stored plain data message (`lib.rs:102`). If the library stores a message this account sent from another device as a sync transcript, a reaction to that message is dropped. The model keeps this as written.
- The concurrent interleaving of the provisioning-URL wait and the link call. The identity record is only emitted after both finish, so the model puts the QR record first.
- The commented-out contact-name and group-title resolution, the attachment download, and typing-indicator forwarding. None of these is live code.
- `println!` logging.
