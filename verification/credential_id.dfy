/** Credential ids: what the credential store builds, and what the server service reads back out of them. */
module CredentialIds {
  import opened Options

  datatype Kind = Password | PrivateKeyPassphrase

  datatype Parts = Parts(serverId: string, kind: Kind)

  function KindText(kind: Kind): string {
    match kind
    case Password => "password"
    case PrivateKeyPassphrase => "private-key-passphrase"
  }

  function KindOf(text: string): Option<Kind> {
    if text == "password" then Some(Password)
    else if text == "private-key-passphrase" then Some(PrivateKeyPassphrase)
    else None
  }

  function CredentialId(serverId: string, kind: Kind): string {
    serverId + [':'] + KindText(kind)
  }

  /** JavaScript's `id.lastIndexOf(':')`. */
  function LastColon(id: string): (at: int)
    ensures -1 <= at < |id|
    ensures at >= 0 ==> id[at] == ':'
    ensures forall i :: at < i < |id| ==> id[i] != ':'
  {
    if id == "" then -1
    else if id[|id| - 1] == ':' then |id| - 1
    else LastColon(id[..|id| - 1])
  }

  /** None where the source throws. */
  function CredentialParts(id: string): Option<Parts> {
    var separator := LastColon(id);
    var kind := KindOf(id[separator + 1..]);
    if separator <= 0 || kind.None? then None else Some(Parts(id[..separator], kind.value))
  }

  lemma KindTexts(kind: Kind)
    ensures KindOf(KindText(kind)) == Some(kind)
    ensures forall i :: 0 <= i < |KindText(kind)| ==> KindText(kind)[i] != ':'
  {
  }

  lemma OnlyColon(id: string, at: nat)
    requires at < |id| && id[at] == ':'
    requires forall i :: at < i < |id| ==> id[i] != ':'
    ensures LastColon(id) == at
  {
  }

  lemma PartsOfId(serverId: string, kind: Kind)
    requires serverId != ""
    ensures CredentialParts(CredentialId(serverId, kind)) == Some(Parts(serverId, kind))
  {
    var id := CredentialId(serverId, kind);
    KindTexts(kind);
    OnlyColon(id, |serverId|);
    assert id[|serverId| + 1..] == KindText(kind) && id[..|serverId|] == serverId;
  }

  lemma TextOfKind(text: string, kind: Kind)
    requires KindOf(text) == Some(kind)
    ensures text == KindText(kind)
  {
  }

  lemma Rejoined(id: string, at: nat)
    requires at < |id|
    ensures id == id[..at] + [id[at]] + id[at + 1..]
  {
  }

  lemma IdOfParts(id: string, serverId: string, kind: Kind)
    requires CredentialParts(id) == Some(Parts(serverId, kind))
    ensures serverId != "" && id == CredentialId(serverId, kind)
  {
    var at := LastColon(id);
    TextOfKind(id[at + 1..], kind);
    Rejoined(id, at);
  }

  lemma IdText(serverId: string, kind: Kind)
    ensures CredentialId(serverId, kind)
         == serverId + if kind.Password? then ":password" else ":private-key-passphrase"
  {
    assert [':'] + "password" == ":password";
    assert [':'] + "private-key-passphrase" == ":private-key-passphrase";
  }

  /** credentialParts undoes credentialId for every non-empty server id, and accepts nothing else. */
  lemma PartsExact(id: string, serverId: string, kind: Kind)
    ensures CredentialParts(id) == Some(Parts(serverId, kind)) <==> serverId != "" && id == CredentialId(serverId, kind)
    ensures CredentialId(serverId, kind)
         == serverId + if kind.Password? then ":password" else ":private-key-passphrase"
  {
    IdText(serverId, kind);
    if serverId != "" && id == CredentialId(serverId, kind) { PartsOfId(serverId, kind); }
    if CredentialParts(id) == Some(Parts(serverId, kind)) { IdOfParts(id, serverId, kind); }
  }

  /** The id belongs to the server. */
  predicate Own(serverId: string, id: string) {
    id == CredentialId(serverId, Password) || id == CredentialId(serverId, PrivateKeyPassphrase)
  }

  lemma OwnersDiffer(a: string, b: string, id: string)
    requires Own(a, id) && Own(b, id) && a != "" && b != ""
    ensures a == b
  {
    PartsExact(id, a, Password);
    PartsExact(id, a, PrivateKeyPassphrase);
    PartsExact(id, b, Password);
    PartsExact(id, b, PrivateKeyPassphrase);
  }
}
