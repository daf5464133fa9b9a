/** What DefaultServerService keeps and promises, under every pattern of failing calls. */
module ServerTheorems {
  import opened Options
  import opened CredentialIds
  import opened ServerModel

  // ---------- the invariant ----------

  /** A record's credential id is one of its own and resolves. */
  ghost predicate RecordOk(s: Stores, id: ServerId) {
    id in s.records ==>
      && id != ""
      && (s.records[id].credential.Some? ==>
            Own(id, s.records[id].credential.value) && s.records[id].credential.value in s.secrets)
  }

  ghost predicate Inv(s: Stores) {
    forall id :: RecordOk(s, id)
  }

  /** Some record refers to the secret. */
  ghost predicate Used(s: Stores, key: string) {
    exists id :: Refers(s, id, key)
  }

  predicate Refers(s: Stores, id: ServerId, key: string) {
    id in s.records && s.records[id].credential == Some(key)
  }

  /** No secret is left that no record refers to. */
  ghost predicate Tight(s: Stores) {
    forall key :: TightAt(s, key)
  }

  ghost predicate TightAt(s: Stores, key: string) {
    key in s.secrets ==> Used(s, key)
  }

  /** A new id is non-empty and unused. */
  predicate Allowed(s: Stores, op: Op) {
    op.Create? ==> op.id != "" && op.id !in s.records
  }

  // ---------- what a reader of the records sees ----------

  datatype Shown = NoSecret | Shown(kind: Kind, text: string) | Dangling

  datatype Account = Account(input: Input, secret: Shown)

  function ShownOf(s: Stores, credential: Option<string>): Shown {
    if credential.None? then NoSecret
    else
      var parts := CredentialParts(credential.value);
      if parts.None? || credential.value !in s.secrets then Dangling
      else Shown(parts.value.kind, s.secrets[credential.value])
  }

  function AccountOf(s: Stores, id: ServerId): Option<Account> {
    if id in s.records then Some(Account(s.records[id].input, ShownOf(s, s.records[id].credential))) else None
  }

  function ShownFrom(secret: Option<Secret>): Shown {
    if secret.None? then NoSecret else Shown(secret.value.kind, secret.value.text)
  }

  /** The account that the operation is asked to leave behind. */
  function Intended(a: Option<Account>, op: Op): Option<Account> {
    match op
    case Create(id, input, secret) =>
      if input.None? then a else Some(Account(input.value, ShownFrom(secret)))
    case Update(id, input, secret) =>
      if input.None? || a.None? then a
      else Some(Account(input.value, if secret.None? then a.value.secret else ShownFrom(secret)))
    case SetCredential(id, chosen) =>
      if a.None? then a else Some(a.value.(secret := ShownFrom(Some(chosen))))
    case DeleteCredential(id) =>
      if a.None? then a else Some(a.value.(secret := NoSecret))
    case Remove(id, busy) => None
  }

  // ---------- conditions on one operation ----------

  predicate Rekeys(s: Stores, id: ServerId, secret: Option<Secret>) {
    && id in s.records && s.records[id].credential.Some? && secret.Some?
    && s.records[id].credential.value != CredentialId(id, secret.value.kind)
  }

  /** The only way to a credential id that does not resolve: a secret is deleted first, the write
      then fails, and putting the secret back fails too. */
  predicate Dangles(s: Stores, op: Op, f: Faults) {
    (op.DeleteCredential? || (op.Remove? && !op.busy)) && DropDangles(s, op.id, f)
  }

  predicate DropDangles(s: Stores, id: ServerId, f: Faults) {
    && id in s.records && s.records[id].credential.Some?
    && Readable(s, s.records[id].credential.value, f)
    && !f.drop && f.write && f.undo
  }

  function NewSecret(op: Op): Option<Secret> {
    match op
    case Create(_, _, secret) => secret
    case Update(_, _, secret) => secret
    case SetCredential(_, chosen) => Some(chosen)
    case _ => None
  }

  /** The new secret was stored. */
  predicate Stored(s: Stores, op: Op, f: Faults) {
    && NewSecret(op).Some? && !f.store
    && (op.Create? ==> op.input.Some?)
    && (op.Update? ==> op.input.Some?)
    && (!op.Create? ==> op.id in s.records && OldReadable(s, s.records[op.id].credential, f))
  }

  /** How a secret without a record comes about: a failed write whose compensation either fails or,
      with a credential of another kind, restores the old one but leaves the new; or a failed delete of the old. */
  predicate Leaks(s: Stores, op: Op, f: Faults) {
    && Stored(s, op, f)
    && if !op.Create? && Rekeys(s, op.id, NewSecret(op)) then f.write || f.drop
       else f.write && f.undo && (op.Create? || s.records[op.id].credential.None?)
  }

  /** The write to the repository was reached and did not fail, or there was nothing to write. */
  predicate Committed(s: Stores, op: Op, f: Faults) {
    match op
    case Create(_, input, secret) => input.Some? && (secret.Some? ==> !f.store) && !f.write
    case Update(id, input, secret) =>
      input.Some? && id in s.records && OldReadable(s, s.records[id].credential, f) && (secret.Some? ==> !f.store)
        && !f.write
    case SetCredential(id, _) =>
      id in s.records && OldReadable(s, s.records[id].credential, f) && !f.store && !f.write
    case DeleteCredential(id) =>
      id in s.records && (s.records[id].credential.Some?
        ==> Readable(s, s.records[id].credential.value, f) && !f.drop && !f.write)
    case Remove(id, busy) =>
      id in s.records && !busy && (s.records[id].credential.Some?
        ==> Readable(s, s.records[id].credential.value, f) && !f.drop) && !f.write
  }

  /** A failed operation changes what the record shows: it dangles, or the old secret was overwritten
      by another text under the same id and putting it back failed. */
  predicate Spoils(s: Stores, op: Op, f: Faults) {
    || Dangles(s, op, f)
    || (!op.Create? && Stored(s, op, f) && Overwrites(s, op.id, NewSecret(op).value, f))
  }

  predicate Overwrites(s: Stores, id: ServerId, chosen: Secret, f: Faults)
    requires id in s.records && OldReadable(s, s.records[id].credential, f)
  {
    && f.write && f.undo
    && s.records[id].credential == Some(CredentialId(id, chosen.kind))
    && s.secrets[s.records[id].credential.value] != chosen.text
  }

  // ---------- what an operation touches ----------

  lemma OwnParts(id: ServerId, key: string)
    requires id != "" && Own(id, key)
    ensures CredentialParts(key).Some? && CredentialParts(key).value.serverId == id
    ensures key == CredentialId(id, CredentialParts(key).value.kind)
  {
    PartsExact(key, id, Password);
    PartsExact(key, id, PrivateKeyPassphrase);
  }

  function After(s: Stores, op: Op, f: Faults): Stores {
    Perform(s, op, f).stores
  }

  predicate SameSecret(s: Stores, t: Stores, key: string) {
    (key in s.secrets <==> key in t.secrets) && (key in s.secrets ==> s.secrets[key] == t.secrets[key])
  }

  predicate SameRecord(s: Stores, t: Stores, id: ServerId) {
    (id in s.records <==> id in t.records) && (id in s.records ==> s.records[id] == t.records[id])
  }

  /** An operation on one server touches no other record. */
  lemma OnlyItsRecord(s: Stores, op: Op, f: Faults, other: ServerId)
    requires other != op.id
    ensures SameRecord(s, After(s, op, f), other)
  {
  }

  lemma CreateOnlyItsSecrets(s: Stores, op: Op, f: Faults, key: string)
    requires op.Create? && !Own(op.id, key)
    ensures SameSecret(s, After(s, op, f), key)
  {
  }

  lemma ChangeOnlyItsSecrets(s: Stores, id: ServerId, input: Input, secret: Option<Secret>, f: Faults, key: string)
    requires id in s.records && RecordOk(s, id) && !Own(id, key)
    ensures SameSecret(s, Changed(s, id, input, secret, f).stores, key)
  {
  }

  lemma DeleteOnlyItsSecrets(s: Stores, id: ServerId, f: Faults, key: string)
    requires id in s.records && s.records[id].credential != Some(key)
    ensures SameSecret(s, CredentialDeleted(s, id, f).stores, key)
  {
  }

  lemma RemoveOnlyItsSecrets(s: Stores, id: ServerId, busy: bool, f: Faults, key: string)
    requires id in s.records && s.records[id].credential != Some(key)
    ensures SameSecret(s, Removed(s, id, busy, f).stores, key)
  {
  }

  /** And no secret that is not its own. */
  lemma OnlyItsSecrets(s: Stores, op: Op, f: Faults, key: string)
    requires RecordOk(s, op.id) && !Own(op.id, key)
    ensures SameSecret(s, After(s, op, f), key)
  {
    match op
    case Create(_, _, _) => CreateOnlyItsSecrets(s, op, f, key);
    case Update(id, input, secret) =>
      if id in s.records && input.Some? { ChangeOnlyItsSecrets(s, id, input.value, secret, f, key); }
    case SetCredential(id, chosen) =>
      if id in s.records { ChangeOnlyItsSecrets(s, id, s.records[id].input, Some(chosen), f, key); }
    case DeleteCredential(id) =>
      if id in s.records { DeleteOnlyItsSecrets(s, id, f, key); }
    case Remove(id, busy) =>
      if id in s.records { RemoveOnlyItsSecrets(s, id, busy, f, key); }
  }

  lemma OthersStay(s: Stores, op: Op, f: Faults, other: ServerId)
    requires Inv(s) && Allowed(s, op) && other != op.id
    ensures AccountOf(After(s, op, f), other) == AccountOf(s, other)
    ensures RecordOk(After(s, op, f), other)
  {
    OnlyItsRecord(s, op, f, other);
    assert RecordOk(s, other) && RecordOk(s, op.id);
    if other in s.records && s.records[other].credential.Some? {
      var key := s.records[other].credential.value;
      if op.id != "" && Own(op.id, key) {
        OwnersDiffer(op.id, other, key);
      } else if op.id != "" {
        OnlyItsSecrets(s, op, f, key);
      }
    }
  }

  // ---------- the record an operation is about ----------

  lemma OwnRecordCreated(s: Stores, op: Op, f: Faults)
    requires op.Create? && Inv(s) && Allowed(s, op)
    ensures RecordOk(After(s, op, f), op.id)
  {
    assert RecordOk(s, op.id);
  }

  lemma OwnRecordChanged(s: Stores, id: ServerId, input: Input, secret: Option<Secret>, f: Faults)
    requires Inv(s) && id in s.records
    ensures RecordOk(Changed(s, id, input, secret, f).stores, id)
  {
    assert RecordOk(s, id);
  }

  lemma OwnRecordDeleted(s: Stores, id: ServerId, f: Faults)
    requires Inv(s) && id in s.records
    ensures RecordOk(CredentialDeleted(s, id, f).stores, id) <==> !DropDangles(s, id, f)
  {
    assert RecordOk(s, id);
    if s.records[id].credential.Some? { OwnParts(id, s.records[id].credential.value); }
  }

  lemma OwnRecordRemoved(s: Stores, id: ServerId, busy: bool, f: Faults)
    requires Inv(s) && id in s.records
    ensures RecordOk(Removed(s, id, busy, f).stores, id) <==> busy || !DropDangles(s, id, f)
  {
    assert RecordOk(s, id);
    if s.records[id].credential.Some? { OwnParts(id, s.records[id].credential.value); }
  }

  lemma OwnRecord(s: Stores, op: Op, f: Faults)
    requires Inv(s) && Allowed(s, op)
    ensures RecordOk(After(s, op, f), op.id) <==> !Dangles(s, op, f)
  {
    assert RecordOk(s, op.id);
    match op
    case Create(_, _, _) => OwnRecordCreated(s, op, f);
    case Update(id, input, secret) =>
      if id in s.records && input.Some? { OwnRecordChanged(s, id, input.value, secret, f); }
    case SetCredential(id, chosen) =>
      if id in s.records { OwnRecordChanged(s, id, s.records[id].input, Some(chosen), f); }
    case DeleteCredential(id) =>
      if id in s.records { OwnRecordDeleted(s, id, f); }
    case Remove(id, busy) =>
      if id in s.records { OwnRecordRemoved(s, id, busy, f); }
  }

  /** Every credential id still resolves after an operation, unless it dangles as Dangles says;
      no other pattern of failures can break one, not even when compensations fail. */
  lemma KeepsInvExactly(s: Stores, op: Op, f: Faults)
    requires Inv(s) && Allowed(s, op)
    ensures Inv(After(s, op, f)) <==> !Dangles(s, op, f)
  {
    var t := After(s, op, f);
    OwnRecord(s, op, f);
    forall id ensures id != op.id ==> RecordOk(t, id) {
      if id != op.id { OthersStay(s, op, f, id); }
    }
    assert Inv(t) ==> RecordOk(t, op.id);
  }

  lemma KeyParts(id: ServerId, kind: Kind)
    requires id != ""
    ensures CredentialParts(CredentialId(id, kind)) == Some(Parts(id, kind))
  {
    PartsExact(CredentialId(id, kind), id, kind);
  }

  ghost predicate AsPromised(s: Stores, op: Op, f: Faults) {
    AccountOf(After(s, op, f), op.id)
      == if Committed(s, op, f) then Intended(AccountOf(s, op.id), op) else AccountOf(s, op.id)
  }

  lemma OwnAccountCreated(s: Stores, op: Op, f: Faults)
    requires op.Create? && Inv(s) && Allowed(s, op)
    ensures AsPromised(s, op, f)
  {
    if op.secret.Some? { KeyParts(op.id, op.secret.value.kind); }
  }

  /** update without a new secret. */
  lemma ShownAfterEdit(s: Stores, id: ServerId, input: Input, f: Faults)
    requires Inv(s) && id in s.records && OldReadable(s, s.records[id].credential, f)
    ensures AccountOf(Changed(s, id, input, None, f).stores, id)
         == if f.write then AccountOf(s, id) else Some(AccountOf(s, id).value.(input := input))
  {
  }

  /** update with a new secret, and setCredential: the write succeeds. */
  lemma ShownAfterRekey(s: Stores, id: ServerId, input: Input, chosen: Secret, f: Faults)
    requires Inv(s) && id in s.records && OldReadable(s, s.records[id].credential, f) && !f.store && !f.write
    ensures AccountOf(Changed(s, id, input, Some(chosen), f).stores, id)
        == Some(Account(input, ShownFrom(Some(chosen))))
  {
    assert RecordOk(s, id);
    KeyParts(id, chosen.kind);
  }

  /** update with a new secret, and setCredential: the write fails. */
  lemma ShownAfterRollback(s: Stores, id: ServerId, input: Input, chosen: Secret, f: Faults)
    requires Inv(s) && id in s.records && OldReadable(s, s.records[id].credential, f) && !f.store && f.write
    ensures AccountOf(Changed(s, id, input, Some(chosen), f).stores, id) == AccountOf(s, id)
        <==> !Overwrites(s, id, chosen, f)
  {
    assert RecordOk(s, id);
    if s.records[id].credential.Some? { OwnParts(id, s.records[id].credential.value); }
  }

  lemma ShownAfterSecret(s: Stores, id: ServerId, input: Input, chosen: Secret, f: Faults)
    requires Inv(s) && id in s.records && OldReadable(s, s.records[id].credential, f) && !f.store
    ensures AccountOf(Changed(s, id, input, Some(chosen), f).stores, id)
         == (if f.write then AccountOf(s, id) else Some(Account(input, ShownFrom(Some(chosen)))))
       <==> !Overwrites(s, id, chosen, f)
  {
    if f.write { ShownAfterRollback(s, id, input, chosen, f); } else { ShownAfterRekey(s, id, input, chosen, f); }
  }

  lemma OwnAccountDropped(s: Stores, op: Op, f: Faults)
    requires (op.DeleteCredential? || op.Remove?) && Inv(s)
    ensures AsPromised(s, op, f) <==> !Dangles(s, op, f)
  {
    assert RecordOk(s, op.id);
    if op.id in s.records && s.records[op.id].credential.Some? {
      OwnParts(op.id, s.records[op.id].credential.value);
    }
  }

  lemma OwnAccount(s: Stores, op: Op, f: Faults)
    requires Inv(s) && Allowed(s, op)
    ensures AsPromised(s, op, f) <==> !Spoils(s, op, f)
  {
    match op
    case Create(_, _, _) => OwnAccountCreated(s, op, f);
    case Update(id, input, secret) =>
      if id in s.records && input.Some? && OldReadable(s, s.records[id].credential, f) {
        if secret.None? { ShownAfterEdit(s, id, input.value, f); }
        else if !f.store { ShownAfterSecret(s, id, input.value, secret.value, f); }
      }
    case SetCredential(id, chosen) =>
      if id in s.records && OldReadable(s, s.records[id].credential, f) && !f.store {
        ShownAfterSecret(s, id, s.records[id].input, chosen, f);
      }
    case _ => OwnAccountDropped(s, op, f);
  }

  /** What every account shows afterwards, if the operation is all or nothing. */
  function Promised(s: Stores, op: Op, f: Faults, id: ServerId): Option<Account> {
    if id == op.id && Committed(s, op, f) then Intended(AccountOf(s, id), op) else AccountOf(s, id)
  }

  ghost predicate AllOrNothing(s: Stores, op: Op, f: Faults) {
    forall id :: AccountOf(After(s, op, f), id) == Promised(s, op, f, id)
  }

  /** Input, credential kind and secret of every server are as asked for if the write was committed,
      and as before if not; this fails exactly when the operation spoils its own record. */
  lemma AllOrNothingExactly(s: Stores, op: Op, f: Faults)
    requires Inv(s) && Allowed(s, op)
    ensures AllOrNothing(s, op, f) <==> !Spoils(s, op, f)
  {
    OwnAccount(s, op, f);
    assert AllOrNothing(s, op, f) ==> AccountOf(After(s, op, f), op.id) == Promised(s, op, f, op.id);
    forall id ensures id != op.id ==> AccountOf(After(s, op, f), id) == Promised(s, op, f, id) {
      if id != op.id { OthersStay(s, op, f, id); }
    }
  }

  lemma ChangeSucceeds(s: Stores, id: ServerId, input: Input, secret: Option<Secret>, f: Faults)
    requires id in s.records
    ensures Changed(s, id, input, secret, f).result.Done?
       <==> && OldReadable(s, s.records[id].credential, f) && (secret.Some? ==> !f.store) && !f.write
            && !(Rekeys(s, id, secret) && f.drop)
  {
  }

  lemma DropSucceeds(s: Stores, op: Op, f: Faults)
    requires (op.DeleteCredential? || op.Remove?) && RecordOk(s, op.id)
    ensures Perform(s, op, f).result.Done? <==> Committed(s, op, f)
  {
    if op.id in s.records && s.records[op.id].credential.Some? {
      OwnParts(op.id, s.records[op.id].credential.value);
    }
  }

  /** The caller is told of success exactly when the write was committed and, with a credential of
      another kind, the old secret was deleted. */
  lemma SuccessMeansCommitted(s: Stores, op: Op, f: Faults)
    requires Inv(s) && Allowed(s, op)
    ensures Perform(s, op, f).result.Done?
       <==> Committed(s, op, f) && !(!op.Create? && Rekeys(s, op.id, NewSecret(op)) && f.drop)
  {
    assert RecordOk(s, op.id);
    match op
    case Create(_, _, _) =>
    case Update(id, input, secret) =>
      if id in s.records && input.Some? { ChangeSucceeds(s, id, input.value, secret, f); }
    case SetCredential(id, chosen) =>
      if id in s.records { ChangeSucceeds(s, id, s.records[id].input, Some(chosen), f); }
    case _ => DropSucceeds(s, op, f);
  }

  // ---------- which error a failed operation reports ----------

  predicate Invalid(op: Op) {
    (op.Create? || op.Update?) && op.input.None?
  }

  predicate Missing(s: Stores, op: Op) {
    !op.Create? && op.id !in s.records
  }

  predicate InUse(op: Op) {
    op.Remove? && op.busy
  }

  predicate Drops(op: Op) {
    op.DeleteCredential? || op.Remove?
  }

  predicate Holds(s: Stores, op: Op) {
    !op.Create? && op.id in s.records && s.records[op.id].credential.Some?
  }

  /** A call to the credential store fails before the write: reading the old secret, storing the new one, or
      deleting the secret that is to go. */
  predicate SecretsFail(s: Stores, op: Op, f: Faults) {
    || (Holds(s, op) && !Readable(s, s.records[op.id].credential.value, f))
    || (NewSecret(op).Some? && f.store)
    || (Drops(op) && Holds(s, op) && f.drop)
  }

  /** There is nothing to write: the credential to delete is not there. */
  predicate Idle(s: Stores, op: Op) {
    op.DeleteCredential? && !Holds(s, op)
  }

  /** The result, told from the first thing that went wrong. */
  predicate Reports(s: Stores, op: Op, f: Faults, r: Result) {
    if Invalid(op) then r == Failed(InvalidInput)
    else if Missing(s, op) then r == Failed(NotFound)
    else if InUse(op) then r == Failed(if f.write then StoreFailed else Busy)
    else if SecretsFail(s, op, f) then r == Failed(Unavailable)
    else if Idle(s, op) then r == Done
    else if f.write then r == Failed(StoreFailed)
    else if !op.Create? && Rekeys(s, op.id, NewSecret(op)) && f.drop then r == Failed(Unavailable)
    else r == Done
  }

  lemma ChangeReports(s: Stores, op: Op, f: Faults)
    requires RecordOk(s, op.id) && op.id in s.records && (op.SetCredential? || (op.Update? && op.input.Some?))
    ensures Reports(s, op, f, Perform(s, op, f).result)
  {
    if Holds(s, op) { OwnParts(op.id, s.records[op.id].credential.value); }
  }

  lemma DropReports(s: Stores, op: Op, f: Faults)
    requires RecordOk(s, op.id) && op.id in s.records && Drops(op)
    ensures Reports(s, op, f, Perform(s, op, f).result)
  {
    if Holds(s, op) { OwnParts(op.id, s.records[op.id].credential.value); }
  }

  /** The caller learns what went wrong first: an invalid input before a missing server, that before a server in use,
      that before the credential store, and that before the repository.  Success is reported exactly if nothing went
      wrong, and no error about a malformed credential id ever is. */
  lemma ErrorsExactly(s: Stores, op: Op, f: Faults)
    requires Inv(s) && Allowed(s, op)
    ensures Reports(s, op, f, Perform(s, op, f).result)
    ensures Perform(s, op, f).result != Failed(InvalidCredentialId)
  {
    assert RecordOk(s, op.id);
    if !Invalid(op) && !Missing(s, op) && !op.Create? {
      if Drops(op) { DropReports(s, op, f); } else { ChangeReports(s, op, f); }
    }
  }

  // ---------- secrets that no record refers to ----------

  predicate OwnTightAt(s: Stores, id: ServerId, kind: Kind) {
    CredentialId(id, kind) in s.secrets ==> Refers(s, id, CredentialId(id, kind))
  }

  predicate OwnTight(s: Stores, id: ServerId) {
    OwnTightAt(s, id, Password) && OwnTightAt(s, id, PrivateKeyPassphrase)
  }

  /** A secret of a server is used by that server or by none. */
  lemma OnlyOwnerRefers(s: Stores, id: ServerId, other: ServerId, kind: Kind)
    requires id != "" && RecordOk(s, other) && Refers(s, other, CredentialId(id, kind))
    ensures other == id
  {
    OwnersDiffer(id, other, CredentialId(id, kind));
  }

  lemma TightIsOwnTight(s: Stores, id: ServerId, kind: Kind)
    requires id != ""
    requires forall other :: other != id ==> RecordOk(s, other)
    ensures TightAt(s, CredentialId(id, kind)) <==> OwnTightAt(s, id, kind)
  {
    var key := CredentialId(id, kind);
    if Used(s, key) {
      var other :| Refers(s, other, key);
      if other != id { OnlyOwnerRefers(s, id, other, kind); }
    }
  }

  lemma OwnTightCreated(s: Stores, op: Op, f: Faults)
    requires op.Create? && op.id !in s.records && OwnTight(s, op.id)
    ensures OwnTight(After(s, op, f), op.id) <==> !Leaks(s, op, f)
  {
    KindTexts(Password);
  }

  lemma OwnTightWritten(s: Stores, id: ServerId, input: Input, chosen: Secret, f: Faults)
    requires id in s.records && RecordOk(s, id) && OwnTight(s, id)
    requires OldReadable(s, s.records[id].credential, f) && !f.store && !f.write
    ensures OwnTight(Changed(s, id, input, Some(chosen), f).stores, id) <==> !(Rekeys(s, id, Some(chosen)) && f.drop)
  {
    if s.records[id].credential.Some? { OwnParts(id, s.records[id].credential.value); }
  }

  lemma OwnTightFirst(s: Stores, id: ServerId, input: Input, chosen: Secret, f: Faults)
    requires id in s.records && OwnTight(s, id) && s.records[id].credential.None? && !f.store && f.write
    ensures OwnTight(Changed(s, id, input, Some(chosen), f).stores, id) <==> !f.undo
  {
  }

  lemma OwnTightRestored(s: Stores, id: ServerId, input: Input, chosen: Secret, f: Faults)
    requires id in s.records && RecordOk(s, id) && OwnTight(s, id) && s.records[id].credential.Some?
    requires OldReadable(s, s.records[id].credential, f) && !f.store && f.write
    ensures OwnTight(Changed(s, id, input, Some(chosen), f).stores, id) <==> !Rekeys(s, id, Some(chosen))
  {
    OwnParts(id, s.records[id].credential.value);
  }

  lemma OwnTightUnwritten(s: Stores, id: ServerId, input: Input, chosen: Secret, f: Faults)
    requires id in s.records && RecordOk(s, id) && OwnTight(s, id)
    requires OldReadable(s, s.records[id].credential, f) && !f.store && f.write
    ensures OwnTight(Changed(s, id, input, Some(chosen), f).stores, id)
       <==> !Rekeys(s, id, Some(chosen)) && !(f.undo && s.records[id].credential.None?)
  {
    if s.records[id].credential.None? { OwnTightFirst(s, id, input, chosen, f); }
    else { OwnTightRestored(s, id, input, chosen, f); }
  }

  lemma OwnTightChanged(s: Stores, id: ServerId, input: Input, chosen: Secret, f: Faults)
    requires id in s.records && RecordOk(s, id) && OwnTight(s, id)
    requires OldReadable(s, s.records[id].credential, f) && !f.store
    ensures OwnTight(Changed(s, id, input, Some(chosen), f).stores, id)
       <==> !(if Rekeys(s, id, Some(chosen)) then f.write || f.drop
              else f.write && f.undo && s.records[id].credential.None?)
  {
    if f.write { OwnTightUnwritten(s, id, input, chosen, f); } else { OwnTightWritten(s, id, input, chosen, f); }
  }

  lemma OwnTightDropped(s: Stores, op: Op, f: Faults)
    requires (op.DeleteCredential? || op.Remove?) && RecordOk(s, op.id) && OwnTight(s, op.id)
    ensures OwnTight(After(s, op, f), op.id)
  {
  }

  lemma OwnTightEdited(s: Stores, id: ServerId, input: Input, f: Faults)
    requires id in s.records && OwnTight(s, id)
    ensures OwnTight(Changed(s, id, input, None, f).stores, id)
  {
  }

  lemma OwnTightAfter(s: Stores, op: Op, f: Faults)
    requires Inv(s) && Allowed(s, op) && OwnTight(s, op.id)
    ensures OwnTight(After(s, op, f), op.id) <==> !Leaks(s, op, f)
  {
    assert RecordOk(s, op.id);
    match op
    case Create(_, _, _) => OwnTightCreated(s, op, f);
    case Update(id, input, secret) =>
      if id in s.records && input.Some? && OldReadable(s, s.records[id].credential, f) {
        if secret.None? { OwnTightEdited(s, id, input.value, f); }
        else if !f.store { OwnTightChanged(s, id, input.value, secret.value, f); }
      }
    case SetCredential(id, chosen) =>
      if id in s.records && OldReadable(s, s.records[id].credential, f) && !f.store {
        OwnTightChanged(s, id, s.records[id].input, chosen, f);
      }
    case _ => OwnTightDropped(s, op, f);
  }

  lemma OtherKeysStayTight(s: Stores, op: Op, f: Faults, key: string)
    requires Inv(s) && !Own(op.id, key) && TightAt(s, key)
    ensures TightAt(After(s, op, f), key)
  {
    assert RecordOk(s, op.id);
    OnlyItsSecrets(s, op, f, key);
    if key in s.secrets {
      var id :| Refers(s, id, key);
      if id != op.id { OnlyItsRecord(s, op, f, id); }
      assert Refers(After(s, op, f), id, key);
    }
  }

  /** An operation leaves a secret behind without a record exactly when Leaks says so. */
  lemma TightExactly(s: Stores, op: Op, f: Faults)
    requires Inv(s) && Tight(s) && Allowed(s, op)
    ensures Tight(After(s, op, f)) <==> !Leaks(s, op, f)
  {
    var t := After(s, op, f);
    if op.id == "" {
      assert RecordOk(s, op.id);
    } else {
      forall other | other != op.id ensures RecordOk(t, other) { OthersStay(s, op, f, other); }
      TightIsOwnTight(s, op.id, Password);
      TightIsOwnTight(s, op.id, PrivateKeyPassphrase);
      TightIsOwnTight(t, op.id, Password);
      TightIsOwnTight(t, op.id, PrivateKeyPassphrase);
      assert TightAt(s, CredentialId(op.id, Password)) && TightAt(s, CredentialId(op.id, PrivateKeyPassphrase));
      OwnTightAfter(s, op, f);
      assert Tight(t) ==>
          TightAt(t, CredentialId(op.id, Password)) && TightAt(t, CredentialId(op.id, PrivateKeyPassphrase));
      forall key ensures !Own(op.id, key) ==> TightAt(t, key) {
        assert TightAt(s, key);
        if !Own(op.id, key) { OtherKeysStayTight(s, op, f, key); }
      }
    }
  }

  lemma CreateRollsBack(s: Stores, op: Op, f: Faults)
    requires op.Create? && op.id !in s.records && OwnTight(s, op.id) && !Committed(s, op, f) && !f.undo
    ensures After(s, op, f) == s
  {
    if op.secret.Some? {
      var key := CredentialId(op.id, op.secret.value.kind);
      assert key !in s.secrets;
      assert s.secrets[key := op.secret.value.text] - {key} == s.secrets;
    }
  }

  lemma ChangeRollsBack(s: Stores, id: ServerId, input: Input, chosen: Secret, f: Faults)
    requires id in s.records && RecordOk(s, id) && OwnTight(s, id)
    requires OldReadable(s, s.records[id].credential, f) && !f.store && f.write && !f.undo
    ensures Changed(s, id, input, Some(chosen), f).stores.records == s.records
    ensures Changed(s, id, input, Some(chosen), f).stores == s <==> !Rekeys(s, id, Some(chosen))
  {
    var key, held := CredentialId(id, chosen.kind), s.records[id].credential;
    var stored := s.secrets[key := chosen.text];
    if held.None? {
      assert stored - {key} == s.secrets;
    } else {
      OwnParts(id, held.value);
      assert held.value == key ==> stored[key := s.secrets[key]] == s.secrets;
      assert held.value != key ==> key !in s.secrets && key in stored[held.value := s.secrets[held.value]];
    }
  }

  lemma TightGivesOwn(s: Stores, id: ServerId)
    requires Inv(s) && Tight(s) && id != ""
    ensures OwnTight(s, id)
  {
    assert TightAt(s, CredentialId(id, Password)) && TightAt(s, CredentialId(id, PrivateKeyPassphrase));
    TightIsOwnTight(s, id, Password);
    TightIsOwnTight(s, id, PrivateKeyPassphrase);
  }

  /** Without a new secret, what was not committed has changed nothing. */
  lemma OthersRollBack(s: Stores, op: Op, f: Faults)
    requires RecordOk(s, op.id) && !op.Create? && !Stored(s, op, f) && !Committed(s, op, f) && !f.undo
    ensures After(s, op, f) == s
  {
    if (op.DeleteCredential? || op.Remove?) && op.id in s.records && s.records[op.id].credential.Some? {
      OwnParts(op.id, s.records[op.id].credential.value);
    }
  }

  /** Whatever was not committed is undone to the last secret, if compensations succeed, except that a
      failed write with a credential of another kind leaves the new secret behind. */
  lemma RollsBackExactly(s: Stores, op: Op, f: Faults)
    requires Inv(s) && Tight(s) && Allowed(s, op) && !Committed(s, op, f) && !f.undo
    ensures After(s, op, f).records == s.records
    ensures After(s, op, f) == s <==> !Leaks(s, op, f)
  {
    assert RecordOk(s, op.id);
    if op.Create? {
      TightGivesOwn(s, op.id);
      CreateRollsBack(s, op, f);
    } else if !Stored(s, op, f) {
      OthersRollBack(s, op, f);
    } else {
      TightGivesOwn(s, op.id);
      ChangeRollsBack(s, op.id, if op.Update? then op.input.value else s.records[op.id].input, NewSecret(op).value, f);
    }
  }

  // ---------- runs ----------

  ghost predicate IsRun(states: seq<Stores>, ops: seq<Op>, faults: seq<Faults>) {
    && |states| == |ops| + 1 && |faults| == |ops|
    && states[0] == Stores(map[], map[])
    && forall i :: 0 <= i < |ops| ==> Allowed(states[i], ops[i]) && states[i + 1] == After(states[i], ops[i], faults[i])
  }

  /** In any run, whatever fails, every credential id resolves as long as no operation dangled. */
  lemma {:induction false} RunKeepsInv(states: seq<Stores>, ops: seq<Op>, faults: seq<Faults>, n: nat)
    requires IsRun(states, ops, faults) && n <= |ops|
    requires forall i :: 0 <= i < n ==> !Dangles(states[i], ops[i], faults[i])
    ensures Inv(states[n])
  {
    if n > 0 {
      RunKeepsInv(states, ops, faults, n - 1);
      KeepsInvExactly(states[n - 1], ops[n - 1], faults[n - 1]);
    }
  }

  lemma {:induction false} RunKeepsTight(states: seq<Stores>, ops: seq<Op>, faults: seq<Faults>, n: nat)
    requires IsRun(states, ops, faults) && n <= |ops|
    requires forall i :: 0 <= i < n ==> !Dangles(states[i], ops[i], faults[i]) && !Leaks(states[i], ops[i], faults[i])
    ensures Inv(states[n]) && Tight(states[n])
  {
    RunKeepsInv(states, ops, faults, n);
    if n > 0 {
      RunKeepsTight(states, ops, faults, n - 1);
      TightExactly(states[n - 1], ops[n - 1], faults[n - 1]);
    } else {
      forall key ensures TightAt(states[0], key) {}
    }
  }

  lemma SuccessIsClean(s: Stores, op: Op, f: Faults)
    requires Inv(s) && Allowed(s, op) && Perform(s, op, f).result.Done?
    ensures !Dangles(s, op, f) && !Leaks(s, op, f)
  {
    SuccessMeansCommitted(s, op, f);
  }

  /** The ids that records refer to. */
  ghost function Referenced(s: Stores): set<string> {
    set id | id in s.records && s.records[id].credential.Some? :: s.records[id].credential.value
  }

  /** After a run of successful operations the store holds exactly the secrets that records refer to. */
  lemma {:induction false} SuccessesKeepStoresEqual(states: seq<Stores>, ops: seq<Op>, faults: seq<Faults>, n: nat)
    requires IsRun(states, ops, faults) && n <= |ops|
    requires forall i :: 0 <= i < n ==> Perform(states[i], ops[i], faults[i]).result.Done?
    ensures Inv(states[n]) && Tight(states[n])
    ensures states[n].secrets.Keys == Referenced(states[n])
  {
    if n == 0 {
      RunKeepsTight(states, ops, faults, 0);
    } else {
      SuccessesKeepStoresEqual(states, ops, faults, n - 1);
      SuccessIsClean(states[n - 1], ops[n - 1], faults[n - 1]);
      KeepsInvExactly(states[n - 1], ops[n - 1], faults[n - 1]);
      TightExactly(states[n - 1], ops[n - 1], faults[n - 1]);
    }
    KeysAreReferenced(states[n]);
  }

  lemma KeysAreReferenced(s: Stores)
    requires Inv(s) && Tight(s)
    ensures s.secrets.Keys == Referenced(s)
  {
    forall key ensures key in s.secrets.Keys <==> key in Referenced(s) {
      assert TightAt(s, key);
      if key in s.secrets {
        var id :| Refers(s, id, key);
        assert RecordOk(s, id);
      }
      if key in Referenced(s) {
        var id :| id in s.records && s.records[id].credential.Some? && s.records[id].credential.value == key;
        assert RecordOk(s, id);
      }
    }
  }

  /** A server whose stored secret cannot be read is stuck: no operation on it can succeed or change anything. */
  lemma UnreadableSecretBlocks(s: Stores, op: Op, f: Faults)
    requires op.id in s.records && !op.Create?
    requires s.records[op.id].credential.Some? && !Readable(s, s.records[op.id].credential.value, f)
    ensures !Perform(s, op, f).result.Done? && After(s, op, f) == s
  {
  }

  const NO_FAULTS := Faults(false, false, false, false, false)

  /** That needs no failing call: a server created with an empty secret is created with success, and then no
      operation on it succeeds or changes anything, ever. */
  lemma EmptySecretBlocks(id: ServerId, input: Input, kind: Kind) returns (states: seq<Stores>)
    requires id != ""
    ensures IsRun(states, [Create(id, Some(input), Some(Secret(kind, "")))], [NO_FAULTS])
    ensures Perform(states[0], Create(id, Some(input), Some(Secret(kind, ""))), NO_FAULTS).result.Done?
    ensures forall op: Op, f: Faults :: op.id == id && !op.Create? ==>
              !Perform(states[1], op, f).result.Done? && Perform(states[1], op, f).stores == states[1]
  {
    var op := Create(id, Some(input), Some(Secret(kind, "")));
    states := [Stores(map[], map[]), After(Stores(map[], map[]), op, NO_FAULTS)];
    forall o: Op, f: Faults | o.id == id && !o.Create?
      ensures !Perform(states[1], o, f).result.Done? && Perform(states[1], o, f).stores == states[1]
    {
      UnreadableSecretBlocks(states[1], o, f);
    }
  }
}
