/** The session of `presage_rust_main`: the record that hands the
    command-sender handle to the host, then (once the store opens) every
    queued command in arrival order, one at a time, until the queue closes or
    a command panics. */
module Session {
  import opened Wrappers
  import opened Protocol
  import opened Record
  import opened Commands

  /** The consumer loop: the commands in arrival order, stopping at a panic. */
  function RunAll(threadOf: ThreadOf, account: Address, jobs: seq<Job>): (o: Outcome)
    ensures forall i :: 0 <= i < |o.records| ==> o.records[i].account == account && o.records[i].txPtr.None?
    decreases |jobs|
  {
    if jobs == [] then Done([])
    else Then(Run(threadOf, account, jobs[0]), RunAll(threadOf, account, jobs[1..]))
  }

  /** A whole session. The handle record is sent before the store is opened,
      so it is sent even when opening the store fails. */
  function RunSession(threadOf: ThreadOf, account: Address, tx: Address, storeOpens: bool, jobs: seq<Job>)
    : (o: Outcome)
    ensures |o.records| >= 1 && o.records[0] == ChannelReady(account, tx)
    ensures forall i :: 0 <= i < |o.records| ==> o.records[i].account == account
    ensures forall i :: 1 <= i < |o.records| ==> o.records[i].txPtr.None?
    ensures !storeOpens ==> o == Done([ChannelReady(account, tx)])
  {
    Then(Done([ChannelReady(account, tx)]), if storeOpens then RunAll(threadOf, account, jobs) else Done([]))
  }

  /** The consumer loop as written: receive the next command, run it to
      completion, repeat. */
  method ConsumerLoop(threadOf: ThreadOf, account: Address, jobs: seq<Job>)
    returns (records: seq<Presage>, panicked: bool)
    ensures Outcome(records, panicked) == RunAll(threadOf, account, jobs)
  {
    records, panicked := [], false;
    var i := 0;
    while i < |jobs| && !panicked
      invariant 0 <= i <= |jobs|
      invariant Then(Outcome(records, panicked), RunAll(threadOf, account, jobs[i..]))
             == RunAll(threadOf, account, jobs)
    {
      var done := Run(threadOf, account, jobs[i]);
      assert jobs[i..][0] == jobs[i] && jobs[i..][1..] == jobs[i + 1..];
      ThenAssociative(Outcome(records, panicked), done, RunAll(threadOf, account, jobs[i + 1..]));
      var next := Then(Outcome(records, panicked), done);
      records, panicked := next.records, next.panicked;
      i := i + 1;
    }
    assert !panicked ==> jobs[i..] == [];
  }

  /** Commands run in arrival order: the records of a later batch follow
      those of an earlier one. */
  lemma {:induction false} RunAllAppend(threadOf: ThreadOf, account: Address, a: seq<Job>, b: seq<Job>)
    ensures RunAll(threadOf, account, a + b) == Then(RunAll(threadOf, account, a), RunAll(threadOf, account, b))
  {
    if a == [] {
      assert a + b == b;
    } else {
      assert (a + b)[0] == a[0];
      assert (a + b)[1..] == a[1..] + b;
      RunAllAppend(threadOf, account, a[1..], b);
      ThenAssociative(Run(threadOf, account, a[0]), RunAll(threadOf, account, a[1..]), RunAll(threadOf, account, b));
    }
  }

  /** After a panic no later command runs. */
  lemma PanicStopsTheLoop(threadOf: ThreadOf, account: Address, a: seq<Job>, b: seq<Job>)
    requires RunAll(threadOf, account, a).panicked
    ensures RunAll(threadOf, account, a + b) == RunAll(threadOf, account, a)
  {
    RunAllAppend(threadOf, account, a, b);
  }

  /** A queue of `Whoami` commands yields exactly one record per command. */
  lemma {:induction false} WhoamiQueueOneRecordEach(threadOf: ThreadOf, account: Address, jobs: seq<Job>)
    requires forall i :: 0 <= i < |jobs| ==> jobs[i].cmd.Whoami?
    ensures var o := RunAll(threadOf, account, jobs);
      !o.panicked && |o.records| == |jobs|
      && forall i :: 0 <= i < |o.records| ==> o.records[i].uuid.Some? && o.records[i].body.None?
  {
    if jobs != [] {
      assert jobs[0].cmd.Whoami?;
      var first := Run(threadOf, account, jobs[0]);
      assert first.records == [FromAccount(account).(uuid := Some(WhoamiIdentity(jobs[0].library)))];
      WhoamiQueueOneRecordEach(threadOf, account, jobs[1..]);
    }
  }
}
