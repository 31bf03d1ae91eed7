/** The command processor `run`: one command executed to completion against
    the store, emitting records as it goes. The presage library's answers
    (provisioning URL, link result, loaded session, identity, message stream)
    are inputs of the model. */
module Commands {
  import opened Wrappers
  import Uuid
  import opened Protocol
  import opened Record
  import opened Normalizer

  datatype Servers = Production | Staging

  datatype Cmd = LinkDevice(servers: Servers, deviceName: string) | Whoami | Receive

  /** One content unit of the live stream, with the stored messages as they
      stand when the unit is processed. */
  datatype Incoming = Incoming(content: Content, store: MessageStore)

  /** A registered manager's answers: to `whoami`, and to `receive_messages`
      (the finite stream it delivers until it ends). `None` is an error. */
  datatype Registered = Registered(whoami: Option<Uuid.Uuid>, messages: Option<seq<Incoming>>)

  /** The presage library's answers to one command: the provisioning URL (or
      a closed channel), the result of linking, the result of
      `load_registered`. */
  datatype Library = Library(provisioningUrl: Option<string>, linked: Option<Registered>, loaded: Option<Registered>)

  /** A command together with the answers it will get. */
  datatype Job = Job(cmd: Cmd, library: Library)

  /** The records a piece of work hands to the host, in order, and whether it
      ended in a panic. */
  datatype Outcome = Outcome(records: seq<Presage>, panicked: bool)

  function Done(records: seq<Presage>): Outcome {
    Outcome(records, false)
  }

  function StepOutcome(s: Step): (o: Outcome)
    ensures o.panicked <==> s.Panic?
    ensures o.records == if s.Emit? then [s.record] else []
  {
    match s
    case Skip => Done([])
    case Emit(r) => Done([r])
    case Panic => Outcome([], true)
  }

  /** Sequential composition: `rest` runs only when `first` did not panic. */
  function Then(first: Outcome, rest: Outcome): (o: Outcome)
    ensures o.panicked <==> first.panicked || rest.panicked
    ensures o.records == if first.panicked then first.records else first.records + rest.records
  {
    if first.panicked then first else Outcome(first.records + rest.records, rest.panicked)
  }

  lemma ThenAssociative(a: Outcome, b: Outcome, c: Outcome)
    ensures Then(Then(a, b), c) == Then(a, Then(b, c))
  {
  }

  /** A record the normaliser can produce for this account. */
  predicate IsMessageRecord(r: Presage, account: Address) {
    && r.account == account
    && r.txPtr.None? && r.qrcode.None? && r.uuid.None?
    && r.body.Some?
  }

  /** The `receive` loop: every unit of the stream through the normaliser,
      in delivery order, stopping at the first panic. */
  function ReceiveAll(threadOf: ThreadOf, account: Address, stream: seq<Incoming>): (o: Outcome)
    ensures |o.records| <= |stream|
    ensures forall i :: 0 <= i < |o.records| ==> IsMessageRecord(o.records[i], account)
    decreases |stream|
  {
    if stream == [] then Done([])
    else
      Then(StepOutcome(Normalize(threadOf, stream[0].store, account, stream[0].content)),
           ReceiveAll(threadOf, account, stream[1..]))
  }

  /** The identity string `Whoami` reports: the hyphenated identity, or the
      empty string when the session or the identity could not be loaded. */
  function WhoamiIdentity(library: Library): (id: string)
    ensures id == "" <==> library.loaded.None? || library.loaded.value.whoami.None?
    ensures id != "" ==> Uuid.Parse(id) == library.loaded.value.whoami
    ensures NulFree(id)
  {
    if library.loaded.Some? && library.loaded.value.whoami.Some? then
      var u := library.loaded.value.whoami.value;
      Uuid.HyphenatedIsCString(u);
      Uuid.ParseHyphenated(u);
      Uuid.Hyphenated(u)
    else ""
  }

  /** `LinkDevice`: the QR record when the URL arrives, then, once linking
      succeeded, the identity of the new session. */
  function Link(account: Address, library: Library): (o: Outcome)
    ensures var url := library.provisioningUrl;
      o.panicked <==>
        (url.Some? && !NulFree(url.value)) || (library.linked.Some? && library.linked.value.whoami.None?)
    ensures library.provisioningUrl.Some? && !NulFree(library.provisioningUrl.value) ==> o.records == []
    ensures library.provisioningUrl.None? || NulFree(library.provisioningUrl.value) ==>
      var qr := if library.provisioningUrl.Some? then [FromAccount(account).(qrcode := library.provisioningUrl)] else [];
      if library.linked.Some? && library.linked.value.whoami.Some? then
        o.records == qr + [FromAccount(account).(uuid := Some(Uuid.Hyphenated(library.linked.value.whoami.value)))]
      else o.records == qr
  {
    var qr := if library.provisioningUrl.Some? then StepOutcome(QrCodeRecord(account, library.provisioningUrl.value))
      else Done([]);
    Then(qr, LinkedIdentity(account, library.linked))
  }

  /** The second half of `LinkDevice`: nothing when linking failed, a panic
      when the linked session cannot report its identity (`unwrap`), and
      otherwise the identity record. */
  function LinkedIdentity(account: Address, linked: Option<Registered>): (o: Outcome)
    ensures o.panicked <==> linked.Some? && linked.value.whoami.None?
    ensures o.records == if linked.Some? && linked.value.whoami.Some?
      then [FromAccount(account).(uuid := Some(Uuid.Hyphenated(linked.value.whoami.value)))] else []
  {
    if linked.None? then Done([])
    else if linked.value.whoami.None? then Outcome([], true)
    else
      Uuid.HyphenatedIsCString(linked.value.whoami.value);
      StepOutcome(IdentityRecord(account, Uuid.Hyphenated(linked.value.whoami.value)))
  }

  /** `run`: one command executed to completion. */
  function Run(threadOf: ThreadOf, account: Address, job: Job): (o: Outcome)
    ensures forall i :: 0 <= i < |o.records| ==> o.records[i].account == account && o.records[i].txPtr.None?
  {
    match job.cmd
    case LinkDevice(_, _) => Link(account, job.library)
    case Whoami => StepOutcome(IdentityRecord(account, WhoamiIdentity(job.library)))
    case Receive =>
      match job.library.loaded
      case None => Done([])
      case Some(manager) =>
        match manager.messages
        case None => Outcome([], true)
        case Some(stream) => ReceiveAll(threadOf, account, stream)
  }

  /** The `receive` loop as written: pull units one at a time until the
      stream ends, handing each record to the host as it is built. */
  method ReceiveLoop(threadOf: ThreadOf, account: Address, stream: seq<Incoming>)
    returns (records: seq<Presage>, panicked: bool)
    ensures Outcome(records, panicked) == ReceiveAll(threadOf, account, stream)
  {
    records, panicked := [], false;
    var i := 0;
    while i < |stream| && !panicked
      invariant 0 <= i <= |stream|
      invariant Then(Outcome(records, panicked), ReceiveAll(threadOf, account, stream[i..]))
             == ReceiveAll(threadOf, account, stream)
    {
      var step := Normalize(threadOf, stream[i].store, account, stream[i].content);
      assert stream[i..][0] == stream[i] && stream[i..][1..] == stream[i + 1..];
      assert ReceiveAll(threadOf, account, stream[i..])
          == Then(StepOutcome(step), ReceiveAll(threadOf, account, stream[i + 1..]));
      ThenAssociative(Outcome(records, panicked), StepOutcome(step), ReceiveAll(threadOf, account, stream[i + 1..]));
      var next := Then(Outcome(records, panicked), StepOutcome(step));
      records, panicked := next.records, next.panicked;
      i := i + 1;
    }
    assert !panicked ==> stream[i..] == [];
  }
}
