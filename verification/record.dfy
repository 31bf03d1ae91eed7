/** The fixed-layout `Presage` record handed to the host callback, and the
    builders for each kind of record. A null pointer is `None`; a string
    pointer is `Some` of the string it points to. `CString::new(..).unwrap()`
    panics on an interior NUL character, so every builder that allocates a
    string can end in `Panic`. */
module Record {
  import opened Wrappers
  import opened Protocol

  /** An opaque pointer value (the host's account token, the command-sender
      handle). */
  type Address = nat

  datatype Presage = Presage(
    account: Address,
    txPtr: Option<Address>,
    qrcode: Option<string>,
    uuid: Option<string>,
    timestamp: u64,
    sent: u64,
    who: Option<string>,
    group: Option<string>,
    body: Option<string>)

  /** What building and emitting one record comes to: nothing, one record
      handed to the host, or a panic. */
  datatype Step = Skip | Emit(record: Presage) | Panic

  predicate NulFree(s: string) {
    '\0' !in s
  }

  /** `CString::new(s)`: fails exactly when `s` holds a NUL character. */
  function CString(s: string): (r: Option<string>)
    ensures r.Some? <==> NulFree(s)
    ensures r.Some? ==> r.value == s
  {
    if NulFree(s) then Some(s) else None
  }

  /** `Presage::from_account`: the account token and nothing else. */
  function FromAccount(account: Address): (r: Presage)
    ensures r.account == account
    ensures r.txPtr.None? && r.qrcode.None? && r.uuid.None?
    ensures r.who.None? && r.group.None? && r.body.None?
    ensures r.timestamp == 0 && r.sent == 0
  {
    Presage(account, None, None, None, 0, 0, None, None, None)
  }

  /** The record that hands the command-sender handle to the host. */
  function ChannelReady(account: Address, tx: Address): (r: Presage)
    ensures r == FromAccount(account).(txPtr := Some(tx))
  {
    Presage(account, Some(tx), None, None, 0, 0, None, None, None)
  }

  /** The record that carries a provisioning URL. */
  function QrCodeRecord(account: Address, url: string): (s: Step)
    ensures s.Panic? <==> !NulFree(url)
    ensures s.Emit? ==> s.record == FromAccount(account).(qrcode := Some(url))
  {
    match CString(url)
    case None => Panic
    case Some(p) => Emit(FromAccount(account).(qrcode := Some(p)))
  }

  /** The record that carries an identity string. */
  function IdentityRecord(account: Address, identity: string): (s: Step)
    ensures s.Panic? <==> !NulFree(identity)
    ensures s.Emit? ==> s.record == FromAccount(account).(uuid := Some(identity))
  {
    match CString(identity)
    case None => Panic
    case Some(p) => Emit(FromAccount(account).(uuid := Some(p)))
  }

  /** The filling of a message record: the timestamp, the direction as 0 or 1,
      `who` and `group` only when non-empty, and always the body. */
  function MessageRecord(account: Address, timestamp: u64, who: string, group: string, body: string, sent: bool)
    : (s: Step)
    ensures s.Panic? <==> (who != "" && !NulFree(who)) || (group != "" && !NulFree(group)) || !NulFree(body)
    ensures !s.Skip?
    ensures s.Emit? ==>
      && s.record.account == account
      && s.record.txPtr.None? && s.record.qrcode.None? && s.record.uuid.None?
      && s.record.timestamp == timestamp
      && (s.record.sent == 1 <==> sent) && (s.record.sent == 0 <==> !sent)
      && (s.record.who.None? <==> who == "") && (s.record.who.Some? ==> s.record.who.value == who)
      && (s.record.group.None? <==> group == "") && (s.record.group.Some? ==> s.record.group.value == group)
      && s.record.body == Some(body)
  {
    var whoPtr := if who != "" then CString(who) else Some("");
    var groupPtr := if group != "" then CString(group) else Some("");
    var bodyPtr := CString(body);
    if whoPtr.None? || groupPtr.None? || bodyPtr.None? then Panic
    else
      Emit(FromAccount(account).(
        timestamp := timestamp,
        sent := if sent then 1 else 0,
        who := if who != "" then Some(whoPtr.value) else None,
        group := if group != "" then Some(groupPtr.value) else None,
        body := Some(bodyPtr.value)))
  }
}
