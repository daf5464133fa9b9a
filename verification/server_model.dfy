/** DefaultServerService over its two stores, records and secrets, when any call to a store may fail.
    Operations do not overlap, and a call that fails leaves its store as it was.
 */
module ServerModel {
  import opened Options
  import opened CredentialIds

  type ServerId = string

  datatype Input = Input(name: string, host: string, port: int, username: string, notes: string)

  /** A credential id holds a colon, so it is never empty. */
  datatype Record = Record(input: Input, credential: Option<string>)

  datatype Secret = Secret(kind: Kind, text: string)

  datatype Stores = Stores(records: map<ServerId, Record>, secrets: map<string, string>)

  datatype Error = NotFound | Busy | Unavailable | StoreFailed | InvalidInput | InvalidCredentialId

  datatype Result = Done | Failed(error: Error)

  datatype Outcome = Outcome(stores: Stores, result: Result)

  /** Which calls fail: reading the old secret, storing the new one, the write to the repository,
      deleting the old secret, and the compensating call. */
  datatype Faults = Faults(read: bool, store: bool, write: bool, drop: bool, undo: bool)

  /** An input is None where validation rejects it; a server is busy while an application refers to it. */
  datatype Op =
    | Create(id: ServerId, input: Option<Input>, secret: Option<Secret>)
    | Update(id: ServerId, input: Option<Input>, secret: Option<Secret>)
    | SetCredential(id: ServerId, chosen: Secret)
    | DeleteCredential(id: ServerId)
    | Remove(id: ServerId, busy: bool)

  // ---------- operations ----------

  /** `credentials.get` throws for a missing secret and for an empty one. */
  predicate Readable(s: Stores, id: string, f: Faults) {
    !f.read && id in s.secrets && s.secrets[id] != ""
  }

  predicate OldReadable(s: Stores, held: Option<string>, f: Faults) {
    held.None? || Readable(s, held.value, f)
  }

  function Created(s: Stores, id: ServerId, input: Option<Input>, secret: Option<Secret>, f: Faults): Outcome {
    if input.None? then Outcome(s, Failed(InvalidInput))
    else if secret.None? then
      if f.write then Outcome(s, Failed(StoreFailed))
      else Outcome(s.(records := s.records[id := Record(input.value, None)]), Done)
    else if f.store then Outcome(s, Failed(Unavailable))
    else
      var key := CredentialId(id, secret.value.kind);
      var stored := s.secrets[key := secret.value.text];
      if f.write then Outcome(s.(secrets := if f.undo then stored else stored - {key}), Failed(StoreFailed))
      else Outcome(Stores(s.records[id := Record(input.value, Some(key))], stored), Done)
  }

  /** The secrets after a failed write and the compensation for the new secret under `key`. */
  function Compensated(s: Stores, held: Option<string>, key: string, text: string, f: Faults): map<string, string>
    requires OldReadable(s, held, f)
  {
    var stored := s.secrets[key := text];
    if held.None? then (if f.undo then stored else stored - {key})
    else if f.undo || CredentialParts(held.value).None? then stored
    else stored[held.value := s.secrets[held.value]]
  }

  /** What update and setCredential share, once the record is known. */
  function Changed(s: Stores, id: ServerId, input: Input, secret: Option<Secret>, f: Faults): Outcome
    requires id in s.records
  {
    var held := s.records[id].credential;
    if !OldReadable(s, held, f) then Outcome(s, Failed(Unavailable))
    else if secret.None? then
      if f.write then Outcome(s, Failed(StoreFailed))
      else Outcome(s.(records := s.records[id := Record(input, held)]), Done)
    else if f.store then Outcome(s, Failed(Unavailable))
    else
      var key := CredentialId(id, secret.value.kind);
      var stored := s.secrets[key := secret.value.text];
      var written := s.records[id := Record(input, Some(key))];
      if f.write then
        Outcome(s.(secrets := Compensated(s, held, key, secret.value.text, f)), Failed(FailureOf(held)))
      else if held.None? || held.value == key then Outcome(Stores(written, stored), Done)
      else if f.drop then Outcome(Stores(written, stored), Failed(FailureOfDelete(held)))
      else Outcome(Stores(written, stored - {held.value}), Done)
  }

  /** The error a failed write ends in: credentialParts may throw its own inside the catch block. */
  function FailureOf(held: Option<string>): Error {
    if held.Some? && CredentialParts(held.value).None? then InvalidCredentialId else StoreFailed
  }

  function FailureOfDelete(held: Option<string>): Error {
    if held.Some? && CredentialParts(held.value).None? then InvalidCredentialId else Unavailable
  }

  function CredentialDeleted(s: Stores, id: ServerId, f: Faults): Outcome
    requires id in s.records
  {
    var record := s.records[id];
    if record.credential.None? then Outcome(s, Done)
    else
      var key := record.credential.value;
      if CredentialParts(key).None? then Outcome(s, Failed(InvalidCredentialId))
      else if !Readable(s, key, f) || f.drop then Outcome(s, Failed(Unavailable))
      else if !f.write then Outcome(Stores(s.records[id := record.(credential := None)], s.secrets - {key}), Done)
      else Outcome(s.(secrets := if f.undo then s.secrets - {key} else s.secrets), Failed(StoreFailed))
  }

  function Removed(s: Stores, id: ServerId, busy: bool, f: Faults): Outcome
    requires id in s.records
  {
    var held := s.records[id].credential;
    if busy then Outcome(s, Failed(if f.write then StoreFailed else Busy))
    else if held.None? then
      if f.write then Outcome(s, Failed(StoreFailed)) else Outcome(s.(records := s.records - {id}), Done)
    else if CredentialParts(held.value).None? then Outcome(s, Failed(InvalidCredentialId))
    else if !Readable(s, held.value, f) || f.drop then Outcome(s, Failed(Unavailable))
    else if !f.write then Outcome(Stores(s.records - {id}, s.secrets - {held.value}), Done)
    else Outcome(s.(secrets := if f.undo then s.secrets - {held.value} else s.secrets), Failed(StoreFailed))
  }

  function Perform(s: Stores, op: Op, f: Faults): Outcome {
    match op
    case Create(id, input, secret) => Created(s, id, input, secret, f)
    case Update(id, input, secret) =>
      if input.None? then Outcome(s, Failed(InvalidInput))
      else if id !in s.records then Outcome(s, Failed(NotFound))
      else Changed(s, id, input.value, secret, f)
    case SetCredential(id, secret) =>
      if id !in s.records then Outcome(s, Failed(NotFound)) else Changed(s, id, s.records[id].input, Some(secret), f)
    case DeleteCredential(id) =>
      if id !in s.records then Outcome(s, Failed(NotFound)) else CredentialDeleted(s, id, f)
    case Remove(id, busy) =>
      if id !in s.records then Outcome(s, Failed(NotFound)) else Removed(s, id, busy, f)
  }
}
