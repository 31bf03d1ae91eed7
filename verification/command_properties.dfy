/** Properties of the command processor: the record each command emits, and
    the order in which `Receive` hands messages to the host. */
module CommandProperties {
  import opened Wrappers
  import Uuid
  import opened Protocol
  import opened Record
  import opened Normalizer
  import NormalizerProperties
  import opened Commands

  /** Receiving a stream in two parts emits the records of the first part,
      then (unless it panicked) those of the second: delivery order is kept. */
  lemma {:induction false} ReceiveAllAppend(threadOf: ThreadOf, account: Address, a: seq<Incoming>, b: seq<Incoming>)
    ensures ReceiveAll(threadOf, account, a + b) == Then(ReceiveAll(threadOf, account, a), ReceiveAll(threadOf, account, b))
  {
    if a == [] {
      assert a + b == b;
    } else {
      assert (a + b)[0] == a[0];
      assert (a + b)[1..] == a[1..] + b;
      ReceiveAllAppend(threadOf, account, a[1..], b);
      var head := StepOutcome(Normalize(threadOf, a[0].store, account, a[0].content));
      ThenAssociative(head, ReceiveAll(threadOf, account, a[1..]), ReceiveAll(threadOf, account, b));
    }
  }

  /** One unit on its own yields exactly what the normaliser makes of it. */
  lemma ReceiveOne(threadOf: ThreadOf, account: Address, x: Incoming)
    ensures ReceiveAll(threadOf, account, [x]) == StepOutcome(Normalize(threadOf, x.store, account, x.content))
  {
  }

  /** The record of a unit delivered after others follows all of theirs. */
  lemma ReceiveEmitsInDeliveryOrder(threadOf: ThreadOf, account: Address, before: seq<Incoming>, x: Incoming)
    requires !ReceiveAll(threadOf, account, before).panicked
    requires Normalize(threadOf, x.store, account, x.content).Emit?
    ensures var o := ReceiveAll(threadOf, account, before + [x]);
      o.records == ReceiveAll(threadOf, account, before).records + [Normalize(threadOf, x.store, account, x.content).record]
  {
    ReceiveAllAppend(threadOf, account, before, [x]);
    ReceiveOne(threadOf, account, x);
  }

  predicate Unsupported(content: Content) {
    content.body.Typing? || content.body.Receipt? || content.body.Other?
  }

  /** A stream of only unsupported kinds emits nothing and does not panic. */
  lemma {:induction false} UnsupportedStreamEmitsNothing(threadOf: ThreadOf, account: Address, stream: seq<Incoming>)
    requires forall i :: 0 <= i < |stream| ==> Unsupported(stream[i].content)
    ensures ReceiveAll(threadOf, account, stream) == Done([])
  {
    if stream != [] {
      NormalizerProperties.UnsupportedKindsAreDropped(threadOf, stream[0].store, account, stream[0].content);
      UnsupportedStreamEmitsNothing(threadOf, account, stream[1..]);
    }
  }

  /** A stream of NUL-free units is received to its end without a panic. */
  lemma {:induction false} NulFreeStreamNeverPanics(threadOf: ThreadOf, account: Address, stream: seq<Incoming>)
    requires forall i :: 0 <= i < |stream| ==>
      NormalizerProperties.NulFreeContent(stream[i].content) && NormalizerProperties.NulFreeStore(stream[i].store)
    ensures !ReceiveAll(threadOf, account, stream).panicked
  {
    if stream != [] {
      NormalizerProperties.NoPanicOnNulFreeText(threadOf, stream[0].store, account, stream[0].content);
      NulFreeStreamNeverPanics(threadOf, account, stream[1..]);
    }
  }

  /** `Whoami` emits exactly one record, carrying the identity or the empty
      string, with every other field at its default. */
  lemma WhoamiEmitsExactlyOne(threadOf: ThreadOf, account: Address, library: Library)
    ensures var o := Run(threadOf, account, Job(Whoami, library));
      && !o.panicked
      && o.records == [FromAccount(account).(uuid := Some(WhoamiIdentity(library)))]
  {
  }

  /** `Receive` without a registered session emits nothing. */
  lemma ReceiveUnregisteredEmitsNothing(threadOf: ThreadOf, account: Address, library: Library)
    requires library.loaded.None?
    ensures Run(threadOf, account, Job(Receive, library)) == Done([])
  {
  }

  /** `Receive` with a registered session panics when the stream cannot be
      opened, and otherwise emits what receiving the whole stream emits. */
  lemma ReceiveRegistered(threadOf: ThreadOf, account: Address, library: Library)
    requires library.loaded.Some?
    ensures var o := Run(threadOf, account, Job(Receive, library));
      && (library.loaded.value.messages.None? ==> o == Outcome([], true))
      && (library.loaded.value.messages.Some? ==> o == ReceiveAll(threadOf, account, library.loaded.value.messages.value))
  {
  }

  /** `LinkDevice` with a NUL-free URL: the QR record first whenever the URL
      arrives, whatever linking does; the identity record only after a
      successful link; a panic exactly when the new session cannot report its
      identity. */
  lemma LinkDeviceRecords(threadOf: ThreadOf, account: Address, servers: Servers, name: string, library: Library)
    requires library.provisioningUrl.Some? ==> NulFree(library.provisioningUrl.value)
    ensures var o := Run(threadOf, account, Job(LinkDevice(servers, name), library));
      var qr := if library.provisioningUrl.Some? then [FromAccount(account).(qrcode := library.provisioningUrl)] else [];
      var linkedIdentity := library.linked.Some? && library.linked.value.whoami.Some?;
      && (o.panicked <==> library.linked.Some? && library.linked.value.whoami.None?)
      && (linkedIdentity ==>
            o.records == qr + [FromAccount(account).(uuid := Some(Uuid.Hyphenated(library.linked.value.whoami.value)))])
      && (!linkedIdentity ==> o.records == qr)
  {
  }
}
