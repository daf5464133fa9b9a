/** DefaultServerService step by step over its two stores.  A boolean argument says that the call fails. */
module ServerServices {
  import opened Options
  import opened CredentialIds
  import opened ServerModel

  class CredentialStore {
    var secrets: map<string, string>

    constructor ()
      ensures secrets == map[]
    {
      secrets := map[];
    }

    method Set(serverId: string, kind: Kind, text: string, fails: bool) returns (id: Option<string>)
      modifies this
      ensures id == if fails then None else Some(CredentialId(serverId, kind))
      ensures secrets == if fails then old(secrets) else old(secrets)[CredentialId(serverId, kind) := text]
    {
      if fails { return None; }
      id := Some(CredentialId(serverId, kind));
      secrets := secrets[id.value := text];
    }

    /** None where the source throws: the call fails, or there is no text. */
    method Get(id: string, fails: bool) returns (text: Option<string>)
      ensures text == if !fails && id in secrets && secrets[id] != "" then Some(secrets[id]) else None
    {
      if fails || id !in secrets || secrets[id] == "" { return None; }
      text := Some(secrets[id]);
    }

    method Delete(id: string, fails: bool)
      modifies this
      ensures secrets == if fails then old(secrets) else old(secrets) - {id}
    {
      if !fails { secrets := secrets - {id}; }
    }
  }

  class ServerRepository {
    var records: map<ServerId, Record>

    constructor ()
      ensures records == map[]
    {
      records := map[];
    }

    method Create(id: ServerId, input: Input, credential: Option<string>, fails: bool)
      modifies this
      ensures records == if fails then old(records) else old(records)[id := Record(input, credential)]
    {
      if !fails { records := records[id := Record(input, credential)]; }
    }

    method Update(id: ServerId, input: Input, credential: Option<string>, fails: bool) returns (found: bool)
      modifies this
      ensures found <==> id in old(records)
      ensures records == if fails || !found then old(records) else old(records)[id := Record(input, credential)]
    {
      found := id in records;
      if !fails && found { records := records[id := Record(input, credential)]; }
    }

    /** A foreign key keeps a server that an application refers to. */
    method Delete(id: ServerId, busy: bool, fails: bool) returns (found: bool)
      modifies this
      ensures found <==> id in old(records)
      ensures records == if fails || busy then old(records) else old(records) - {id}
    {
      found := id in records;
      if !fails && !busy { records := records - {id}; }
    }
  }

  class ServerService {
    const servers: ServerRepository
    const credentials: CredentialStore

    constructor (servers: ServerRepository, credentials: CredentialStore)
      ensures this.servers == servers && this.credentials == credentials
    {
      this.servers, this.credentials := servers, credentials;
    }

    ghost function View(): Stores
      reads servers, credentials
    {
      Stores(servers.records, credentials.secrets)
    }

    method Create(id: ServerId, input: Option<Input>, secret: Option<Secret>, f: Faults) returns (result: Result)
      modifies servers, credentials
      ensures Outcome(View(), result) == Perform(old(View()), Op.Create(id, input, secret), f)
    {
      if input.None? { return Failed(InvalidInput); }
      var credentialId: Option<string> := None;
      if secret.Some? {
        credentialId := credentials.Set(id, secret.value.kind, secret.value.text, f.store);
        if credentialId.None? { return Failed(Unavailable); }
      }
      servers.Create(id, input.value, credentialId, f.write);
      if !f.write { return Done; }
      if credentialId.Some? { credentials.Delete(credentialId.value, f.undo); }
      result := Failed(StoreFailed);
    }

    /** The catch block of update and setCredential; `error` is what was caught. */
    method RollBack(id: ServerId, held: Option<string>, text: Option<string>, stored: string, f: Faults, error: Error)
      returns (thrown: Error)
      requires held.Some? <==> text.Some?
      modifies credentials
      ensures thrown == if held.Some? && CredentialParts(held.value).None? then InvalidCredentialId else error
      ensures credentials.secrets ==
              if held.None? then (if f.undo then old(credentials.secrets) else old(credentials.secrets) - {stored})
              else if f.undo || CredentialParts(held.value).None? then old(credentials.secrets)
              else old(credentials.secrets)[held.value := text.value]
    {
      thrown := error;
      if text.Some? {
        var parts := CredentialParts(held.value);
        if parts.None? { return InvalidCredentialId; }
        PutBack(held.value, parts.value, text.value, f.undo);
      } else {
        credentials.Delete(stored, f.undo);
      }
    }

    /** Both update and setCredential, from the record they found. */
    method Change(id: ServerId, input: Input, secret: Option<Secret>, f: Faults) returns (result: Result)
      requires id in servers.records
      modifies servers, credentials
      ensures Outcome(View(), result) == Changed(old(View()), id, input, secret, f)
    {
      var held := servers.records[id].credential;
      var text: Option<string> := None;
      if held.Some? {
        text := credentials.Get(held.value, f.read);
        if text.None? { return Failed(Unavailable); }
      }
      var credentialId := held;
      if secret.Some? {
        credentialId := credentials.Set(id, secret.value.kind, secret.value.text, f.store);
        if credentialId.None? { return Failed(Unavailable); }
      }
      var _ := servers.Update(id, input, credentialId, f.write);
      var error := StoreFailed;
      if !f.write {
        if secret.None? || held.None? || held == credentialId { return Done; }
        credentials.Delete(held.value, f.drop);
        if !f.drop { return Done; }
        error := Unavailable;
      }
      if secret.Some? { error := RollBack(id, held, text, credentialId.value, f, error); }
      result := Failed(error);
    }

    method Update(id: ServerId, input: Option<Input>, secret: Option<Secret>, f: Faults) returns (result: Result)
      modifies servers, credentials
      ensures Outcome(View(), result) == Perform(old(View()), Op.Update(id, input, secret), f)
    {
      if input.None? { return Failed(InvalidInput); }
      if id !in servers.records { return Failed(NotFound); }
      result := Change(id, input.value, secret, f);
    }

    method SetCredential(id: ServerId, secret: Secret, f: Faults) returns (result: Result)
      modifies servers, credentials
      ensures Outcome(View(), result) == Perform(old(View()), Op.SetCredential(id, secret), f)
    {
      if id !in servers.records { return Failed(NotFound); }
      result := Change(id, servers.records[id].input, Some(secret), f);
    }

    method DeleteCredential(id: ServerId, f: Faults) returns (result: Result)
      modifies servers, credentials
      ensures Outcome(View(), result) == Perform(old(View()), Op.DeleteCredential(id), f)
    {
      if id !in servers.records { return Failed(NotFound); }
      var existing := servers.records[id];
      if existing.credential.None? { return Done; }
      var parts := CredentialParts(existing.credential.value);
      if parts.None? { return Failed(InvalidCredentialId); }
      var text := credentials.Get(existing.credential.value, f.read);
      if text.None? { return Failed(Unavailable); }
      credentials.Delete(existing.credential.value, f.drop);
      if f.drop { return Failed(Unavailable); }
      var _ := servers.Update(id, existing.input, None, f.write);
      if !f.write { return Done; }
      PutBack(existing.credential.value, parts.value, text.value, f.undo);
      result := Failed(StoreFailed);
    }

    method PutBack(key: string, parts: Parts, text: string, fails: bool)
      requires CredentialParts(key) == Some(parts)
      modifies credentials
      ensures credentials.secrets == if fails then old(credentials.secrets) else old(credentials.secrets)[key := text]
    {
      PartsExact(key, parts.serverId, parts.kind);
      var _ := credentials.Set(parts.serverId, parts.kind, text, fails);
    }

    method Remove(id: ServerId, busy: bool, f: Faults) returns (result: Result)
      modifies servers, credentials
      ensures Outcome(View(), result) == Perform(old(View()), Op.Remove(id, busy), f)
    {
      if id !in servers.records { return Failed(NotFound); }
      if busy {
        var _ := servers.Delete(id, busy, f.write);
        return Failed(if f.write then StoreFailed else Busy);
      }
      var held := servers.records[id].credential;
      if held.Some? {
        result := RemoveWithSecret(id, held.value, f);
      } else {
        var _ := servers.Delete(id, busy, f.write);
        result := if f.write then Failed(StoreFailed) else Done;
      }
    }

    /** remove, for a record with a credential. */
    method RemoveWithSecret(id: ServerId, key: string, f: Faults) returns (result: Result)
      requires id in servers.records && servers.records[id].credential == Some(key)
      modifies servers, credentials
      ensures Outcome(View(), result) == Removed(old(View()), id, false, f)
    {
      var parts := CredentialParts(key);
      if parts.None? { return Failed(InvalidCredentialId); }
      var text := credentials.Get(key, f.read);
      if text.None? { return Failed(Unavailable); }
      credentials.Delete(key, f.drop);
      if f.drop { return Failed(Unavailable); }
      var _ := servers.Delete(id, false, f.write);
      if !f.write { return Done; }
      PutBack(key, parts.value, text.value, f.undo);
      result := Failed(StoreFailed);
    }
  }
}
