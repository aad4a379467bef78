/** The secret-store-backed log metadata manager: where a log's identity
    record and encryption key live in the store, how a stored secret is
    decoded, and the create-or-fetch protocol of Create. */
module Manager {
  import opened Model
  import Strings
  import opened Vault

  // ---------------------------------------------------------------------------
  // Secret paths

  /** A path element that path.Join leaves as it is: not empty, no '/', and
      neither "." nor "..".  The model joins such elements with '/' and does
      not model path.Join's cleaning of other elements. */
  predicate CleanSegment(s: string) {
    s != "" && '/' !in s && s != "." && s != ".."
  }

  /** An engine mount made of clean segments, e.g. "secret" or "kv/relay". */
  predicate CleanMount(mount: string) {
    forall seg <- Strings.Split(mount, '/') :: CleanSegment(seg)
  }

  function LogMetadataPath(mount: string, id: string): string {
    Strings.Join([mount, "data", "logs", id], '/')
  }

  /** Where the encryption key of log `id` is stored. */
  function KeyPath(mount: string, id: string): string {
    Strings.Join([LogMetadataPath(mount, id), "encryption_key"], '/')
  }

  function LogContextPath(mount: string, log: Log): string {
    Strings.Join([mount, "data", "contexts", log.context, "name", log.name], '/')
  }

  /** Where the ID of the log with identity `log` is stored. */
  function IdentityPath(mount: string, log: Log): string {
    Strings.Join([LogContextPath(mount, log), "log_id"], '/')
  }

  /** The key path is the mount followed by data/logs/<id>/encryption_key. */
  lemma KeyPathLayout(mount: string, id: string)
    ensures KeyPath(mount, id) == mount + "/data/logs/" + id + "/encryption_key"
  {
    assert Strings.Join([mount], '/') == mount;
    assert [mount] + ["data"] == [mount, "data"];
    assert [mount, "data"] + ["logs"] == [mount, "data", "logs"];
    assert [mount, "data", "logs"] + [id] == [mount, "data", "logs", id];
    Strings.JoinSnoc([mount], "data", '/');
    Strings.JoinSnoc([mount, "data"], "logs", '/');
    Strings.JoinSnoc([mount, "data", "logs"], id, '/');
    assert LogMetadataPath(mount, id) == mount + "/data/logs/" + id;
    assert Strings.Join([LogMetadataPath(mount, id)], '/') == LogMetadataPath(mount, id);
    assert [LogMetadataPath(mount, id)] + ["encryption_key"] == [LogMetadataPath(mount, id), "encryption_key"];
    Strings.JoinSnoc([LogMetadataPath(mount, id)], "encryption_key", '/');
  }

  /** The identity path is the mount followed by
      data/contexts/<context>/name/<name>/log_id. */
  lemma IdentityPathLayout(mount: string, log: Log)
    ensures IdentityPath(mount, log)
      == mount + "/data/contexts/" + log.context + "/name/" + log.name + "/log_id"
  {
    var p := LogContextPath(mount, log);
    LogContextPathLayout(mount, log.context, log.name);
    assert Strings.Join([p], '/') == p;
    assert [p] + ["log_id"] == [p, "log_id"];
    Strings.JoinSnoc([p], "log_id", '/');
  }

  lemma LogContextPathLayout(mount: string, c: string, n: string)
    ensures LogContextPath(mount, Log(c, n)) == mount + "/data/contexts/" + c + "/name/" + n
  {
    var front := [mount, "data", "contexts", c];
    assert Strings.Join([mount], '/') == mount;
    assert [mount] + ["data"] == [mount, "data"];
    assert [mount, "data"] + ["contexts"] == [mount, "data", "contexts"];
    assert [mount, "data", "contexts"] + [c] == front;
    assert front + ["name"] + [n] == [mount, "data", "contexts", c, "name", n];
    Strings.JoinSnoc([mount], "data", '/');
    Strings.JoinSnoc([mount, "data"], "contexts", '/');
    Strings.JoinSnoc([mount, "data", "contexts"], c, '/');
    Strings.JoinSnoc(front, "name", '/');
    Strings.JoinSnoc(front + ["name"], n, '/');
  }

  /** Read back, the key path holds exactly the segments of the mount followed
      by four segments, the third of them the log ID. */
  lemma KeyPathSegments(mount: string, id: string)
    requires CleanSegment(id)
    ensures Strings.Split(KeyPath(mount, id), '/')
      == Strings.Split(mount, '/') + ["data", "logs", id, "encryption_key"]
  {
    Strings.SplitJoin([mount, "data", "logs", id], '/');
    Strings.SplitJoin([LogMetadataPath(mount, id), "encryption_key"], '/');
  }

  /** Read back, the identity path holds exactly the segments of the mount
      followed by six segments carrying the context and the name. */
  lemma IdentityPathSegments(mount: string, log: Log)
    requires CleanSegment(log.context) && CleanSegment(log.name)
    ensures Strings.Split(IdentityPath(mount, log), '/')
      == Strings.Split(mount, '/') + ["data", "contexts", log.context, "name", log.name, "log_id"]
  {
    Strings.SplitJoin([mount, "data", "contexts", log.context, "name", log.name], '/');
    Strings.SplitJoin([LogContextPath(mount, log), "log_id"], '/');
  }

  /** Both paths are clean when their parts are, so that path.Join, which only
      cleans, gives the plain '/'-join the model uses. */
  lemma PathsAreClean(mount: string, id: string, log: Log)
    requires CleanMount(mount) && CleanSegment(id)
    requires CleanSegment(log.context) && CleanSegment(log.name)
    ensures forall seg <- Strings.Split(KeyPath(mount, id), '/') :: CleanSegment(seg)
    ensures forall seg <- Strings.Split(IdentityPath(mount, log), '/') :: CleanSegment(seg)
  {
    KeyPathSegments(mount, id);
    IdentityPathSegments(mount, log);
  }

  /** Distinct logs keep their keys at distinct paths. */
  lemma KeyPathInjective(mount: string, a: string, b: string)
    requires CleanSegment(a) && CleanSegment(b)
    ensures KeyPath(mount, a) == KeyPath(mount, b) <==> a == b
  {
    if KeyPath(mount, a) == KeyPath(mount, b) {
      KeyPathSegments(mount, a);
      KeyPathSegments(mount, b);
      var n := |Strings.Split(mount, '/')|;
      assert Strings.Split(KeyPath(mount, a), '/')[n + 2] == a;
    }
  }

  /** Distinct identities keep their IDs at distinct paths. */
  lemma IdentityPathInjective(mount: string, l1: Log, l2: Log)
    requires CleanSegment(l1.context) && CleanSegment(l1.name)
    requires CleanSegment(l2.context) && CleanSegment(l2.name)
    ensures IdentityPath(mount, l1) == IdentityPath(mount, l2) <==> l1 == l2
  {
    if IdentityPath(mount, l1) == IdentityPath(mount, l2) {
      IdentityPathSegments(mount, l1);
      IdentityPathSegments(mount, l2);
      var n := |Strings.Split(mount, '/')|;
      assert Strings.Split(IdentityPath(mount, l1), '/')[n + 2] == l1.context;
      assert Strings.Split(IdentityPath(mount, l1), '/')[n + 4] == l1.name;
    }
  }

  /** No identity record is ever stored at a key path. */
  lemma IdentityPathIsNotKeyPath(mount: string, log: Log, id: string)
    requires CleanSegment(log.context) && CleanSegment(log.name) && CleanSegment(id)
    ensures IdentityPath(mount, log) != KeyPath(mount, id)
  {
    IdentityPathSegments(mount, log);
    KeyPathSegments(mount, id);
    var n := |Strings.Split(mount, '/')|;
    assert Strings.Split(IdentityPath(mount, log), '/')[n + 1] == "contexts";
    assert Strings.Split(KeyPath(mount, id), '/')[n + 1] == "logs";
  }

  // ---------------------------------------------------------------------------
  // Decoding a stored secret

  /** The value found by following `fields`, one map key after another,
      through nested objects. */
  function Lookup(data: map<string, Vault.Value>, fields: seq<string>): Option<Vault.Value>
    requires |fields| > 0
    decreases |fields|
  {
    if fields[0] !in data then None
    else if |fields| == 1 then Some(data[fields[0]])
    else match data[fields[0]]
      case Obj(inner) => Lookup(inner, fields[1..])
      case _ => None
  }

  /** The string stored at data.value of a secret, or None when the secret is
      missing, has no data, has a "data" that is not an object, or a "value"
      that is missing or not a string. */
  function SecretValue(secret: Option<Vault.Secret>): Option<string>
  {
    if secret.None? then None
    else if secret.value.data.None? then None
    else
      var data := secret.value.data.value;
      if "data" !in data || !data["data"].Obj? then None
      else
        var fields := data["data"].fields;
        if "value" !in fields || !fields["value"].Str? then None
        else Some(fields["value"].s)
  }

  /** SecretValue finds a string exactly when the secret has data holding a
      string at data.value, and then finds that string. */
  lemma SecretValueMeaning(secret: Option<Vault.Secret>)
    ensures SecretValue(secret).Some? <==>
      secret.Some? && secret.value.data.Some? &&
      Lookup(secret.value.data.value, ["data", "value"]).Some? &&
      Lookup(secret.value.data.value, ["data", "value"]).value.Str?
    ensures SecretValue(secret).Some? ==>
      Lookup(secret.value.data.value, ["data", "value"]) == Some(Vault.Str(SecretValue(secret).value))
  {
    if secret.Some? && secret.value.data.Some? {
      var data := secret.value.data.value;
      assert ["data", "value"][1..] == ["value"];
    }
  }

  /** What a write of {"value": v} stores decodes to v. */
  lemma SecretValueOfWrite(v: string, version: nat)
    ensures SecretValue(Some(Vault.Stored(map["value" := Vault.Str(v)], version))) == Some(v)
  {
  }

  /** The payload the manager writes for a value. */
  function ValueRecord(v: string): map<string, Vault.Value> {
    map["value" := Vault.Str(v)]
  }

  // ---------------------------------------------------------------------------
  // The manager

  class VaultLogMetadataManager {
    const client: Vault.Client
    const engineMount: string
    const keyManager: KeyManager
    /** The transfer encoding applied to every stored value (uninterpreted). */
    const encodeForTransfer: string -> Result<string>

    ghost predicate Valid()
      reads this, client
    {
      CleanMount(engineMount) && client.Valid()
    }

    constructor (client: Vault.Client, engineMount: string, keyManager: KeyManager,
                 encodeForTransfer: string -> Result<string>)
      requires CleanMount(engineMount)
      ensures this.client == client && this.engineMount == engineMount
      ensures this.keyManager == keyManager && this.encodeForTransfer == encodeForTransfer
    {
      this.client := client;
      this.engineMount := engineMount;
      this.keyManager := keyManager;
      this.encodeForTransfer := encodeForTransfer;
    }

    /** Looks up the metadata of log `id`: reads the key path and nothing
        else, writes nothing, and finds the stored string verbatim. */
    method Get(id: string) returns (r: Result<Option<LogMetadata>>)
      requires CleanSegment(id)
      modifies client`requests
      ensures client.requests == old(client.requests) + [Vault.ReadRequest(KeyPath(engineMount, id))]
      ensures var path := KeyPath(engineMount, id);
        path in client.readFailures ==> r == Failure(client.readFailures[path])
      ensures var path := KeyPath(engineMount, id);
        path !in client.readFailures ==>
          var found := if path in client.secrets then Some(client.secrets[path]) else None;
          r == Success(match SecretValue(found)
                       case None => None
                       case Some(v) => Some(LogMetadata(v, None, id)))
    {
      var path := KeyPath(engineMount, id);
      var key := client.Read(path);
      if key.Failure? {
        return Failure(key.error);
      }
      var value := SecretValue(key.value);
      if value.None? {
        return Success(None);
      }
      return Success(Some(LogMetadata(value.value, None, id)));
    }

    /** Create-or-fetch of the metadata of identity `log`; `id` is the fresh
        log ID drawn for the case that none exists yet. */
    method Create(log: Log, id: string) returns (r: Result<Option<LogMetadata>>)
      requires Valid()
      requires CleanSegment(log.context) && CleanSegment(log.name) && CleanSegment(id)
      modifies client`requests, client`secrets, client`versions, keyManager`created
      ensures Valid()
      // A failed read of the identity record: returned, nothing written.
      ensures var idPath := IdentityPath(engineMount, log);
        idPath in old(client.readFailures) ==>
          && r == Failure(old(client.readFailures)[idPath])
          && client.requests == old(client.requests) + [Vault.ReadRequest(idPath)]
          && client.secrets == old(client.secrets) && client.versions == old(client.versions)
          && keyManager.created == old(keyManager.created)
      // An existing identity record: its value is returned, nothing written.
      ensures var idPath := IdentityPath(engineMount, log);
        idPath !in old(client.readFailures) && idPath in old(client.secrets) ==>
          && r == Success(match SecretValue(Some(old(client.secrets)[idPath]))
                          case None => None
                          case Some(stored) => Some(LogMetadata("", Some(log), stored)))
          && client.requests == old(client.requests) + [Vault.ReadRequest(idPath)]
          && client.secrets == old(client.secrets) && client.versions == old(client.versions)
          && keyManager.created == old(keyManager.created)
      // No identity record: the fresh branch.
      ensures var idPath := IdentityPath(engineMount, log);
        idPath !in old(client.readFailures) && idPath !in old(client.secrets) ==>
          FreshBranch(log, id, r, old(client.requests) + [Vault.ReadRequest(idPath)],
                      old(client.secrets), old(client.versions), old(keyManager.created))
    {
      var idPath := IdentityPath(engineMount, log);
      var logID := client.Read(idPath);
      if logID.Failure? {
        return Failure(logID.error);
      }
      if logID.value.Some? {
        var stored := SecretValue(logID.value);
        if stored.None? {
          return Success(None);
        }
        return Success(Some(LogMetadata("", Some(log), stored.value)));
      }

      r := CreateFresh(log, id);
    }

    /** Lines 117-168 of Create, the branch taken when no identity record
        exists: the ID record is written first, then a key is created and
        written, every write with a check-and-set parameter of 0. */
    method CreateFresh(log: Log, id: string) returns (r: Result<Option<LogMetadata>>)
      requires Valid()
      requires CleanSegment(log.context) && CleanSegment(log.name) && CleanSegment(id)
      requires IdentityPath(engineMount, log) !in client.secrets
      modifies client`requests, client`secrets, client`versions, keyManager`created
      ensures Valid()
      ensures FreshBranch(log, id, r, old(client.requests), old(client.secrets),
                          old(client.versions), old(keyManager.created))
    {
      var idPath := IdentityPath(engineMount, log);
      var v := encodeForTransfer(id);
      if v.Failure? {
        return Failure(v.error);
      }
      var err := client.Write(idPath, ValueRecord(v.value), Some(0));
      if err.Some? {
        return Failure(err.value);
      }

      var keyPath := KeyPath(engineMount, id);
      IdentityPathIsNotKeyPath(engineMount, log, id);
      var key := keyManager.Create();
      if key.Failure? {
        return Failure(key.error);
      }
      var kv := encodeForTransfer(key.value);
      if kv.Failure? {
        return Failure(kv.error);
      }
      err := client.Write(keyPath, ValueRecord(kv.value), Some(0));
      if err.Some? {
        return Failure(err.value);
      }
      return Success(Some(LogMetadata(key.value, Some(log), id)));
    }

    /** The outcome of Create when no identity record exists, given the
        store's requests up to the read of the identity path, its secrets and
        versions and the key count before the call. */
    ghost predicate FreshBranch(log: Log, id: string, r: Result<Option<LogMetadata>>,
                                requests0: seq<Vault.Request>, secrets0: map<string, Vault.Secret>,
                                versions0: map<string, nat>, created0: nat)
      reads this, client, keyManager
    {
      var idPath := IdentityPath(engineMount, log);
      var keyPath := KeyPath(engineMount, id);
      match encodeForTransfer(id)
      case Failure(e) =>
        // The ID could not be encoded: nothing written.
        r == Failure(e) && client.requests == requests0 &&
        client.secrets == secrets0 && client.versions == versions0 && keyManager.created == created0
      case Success(encodedId) =>
        var writeId := Vault.WriteRequest(idPath, ValueRecord(encodedId), Some(0));
        if idPath in client.writeFailures then
          // The identity write failed: returned, no key created or written.
          r == Failure(client.writeFailures[idPath]) &&
          client.requests == requests0 + [writeId] &&
          client.secrets == secrets0 && client.versions == versions0 && keyManager.created == created0
        else
          var withId := secrets0[idPath := Vault.Stored(ValueRecord(encodedId), 1)];
          var idVersions := versions0[idPath := 1];
          keyManager.created == created0 + 1 &&
          match keyManager.generate(created0)
          case Failure(e) =>
            r == Failure(e) && client.requests == requests0 + [writeId] &&
            client.secrets == withId && client.versions == idVersions
          case Success(key) =>
            match encodeForTransfer(key)
            case Failure(e) =>
              r == Failure(e) && client.requests == requests0 + [writeId] &&
              client.secrets == withId && client.versions == idVersions
            case Success(encodedKey) =>
              var writeKey := Vault.WriteRequest(keyPath, ValueRecord(encodedKey), Some(0));
              client.requests == requests0 + [writeId, writeKey] &&
              if keyPath in client.writeFailures then
                r == Failure(client.writeFailures[keyPath]) &&
                client.secrets == withId && client.versions == idVersions
              else if keyPath in secrets0 then
                r.Failure? && client.secrets == withId && client.versions == idVersions
              else
                r == Success(Some(LogMetadata(key, Some(log), id))) &&
                client.secrets == withId[keyPath := Vault.Stored(ValueRecord(encodedKey), 1)] &&
                client.versions == idVersions[keyPath := 1]
    }
  }

  /** When no identity record exists and nothing fails, Create writes the
      encoded ID and then the encoded new key, and returns the new key with
      the log and its ID. */
  lemma FreshBranchSucceeds(m: VaultLogMetadataManager, log: Log, id: string, r: Result<Option<LogMetadata>>,
                            requests0: seq<Vault.Request>, secrets0: map<string, Vault.Secret>,
                            versions0: map<string, nat>, created0: nat)
    requires m.FreshBranch(log, id, r, requests0, secrets0, versions0, created0)
    requires IdentityPath(m.engineMount, log) !in m.client.writeFailures
    requires KeyPath(m.engineMount, id) !in m.client.writeFailures && KeyPath(m.engineMount, id) !in secrets0
    requires m.encodeForTransfer(id).Success? && m.keyManager.generate(created0).Success?
    requires m.encodeForTransfer(m.keyManager.generate(created0).value).Success?
    ensures r == Success(Some(LogMetadata(m.keyManager.generate(created0).value, Some(log), id)))
    ensures m.client.secrets == secrets0
      [IdentityPath(m.engineMount, log) := Vault.Stored(ValueRecord(m.encodeForTransfer(id).value), 1)]
      [KeyPath(m.engineMount, id) :=
         Vault.Stored(ValueRecord(m.encodeForTransfer(m.keyManager.generate(created0).value).value), 1)]
    ensures m.client.versions == versions0[IdentityPath(m.engineMount, log) := 1][KeyPath(m.engineMount, id) := 1]
  {
  }

  /** A manager over a fresh, empty store without failures, whose key
      manager's first key is `key`. */
  method FreshManager(mount: string, key: string, encode: string -> Result<string>)
    returns (m: VaultLogMetadataManager)
    requires CleanMount(mount)
    ensures fresh(m) && fresh(m.client) && fresh(m.keyManager) && m.Valid()
    ensures m.engineMount == mount && m.encodeForTransfer == encode
    ensures m.client.secrets == map[] && m.client.versions == map[] && m.client.requests == []
    ensures m.client.readFailures == map[] && m.client.writeFailures == map[]
    ensures m.keyManager.created == 0 && m.keyManager.generate(0) == Success(key)
  {
    var store := new Vault.Client(map[], map[], map[], map[]);
    var keys := new KeyManager((n: nat) => Success(key),
                               (k: string, b: Bytes) => Failure(ErrInvalid),
                               (k: string, b: Bytes) => Failure(ErrInvalid));
    m := new VaultLogMetadataManager(store, mount, keys, encode);
  }

  /** A fresh store with no failures: creating a log writes its ID and key
      and returns the new key, and getting it back by ID finds the key as it
      was stored, in its transfer encoding. */
  method CreateThenGet(mount: string, log: Log, id: string, key: string, encode: string -> Result<string>)
    returns (m: VaultLogMetadataManager, first: Result<Option<LogMetadata>>, got: Result<Option<LogMetadata>>)
    requires CleanMount(mount) && CleanSegment(log.context) && CleanSegment(log.name) && CleanSegment(id)
    requires encode(id).Success? && encode(key).Success?
    ensures first == Success(Some(LogMetadata(key, Some(log), id)))
    ensures got == Success(Some(LogMetadata(encode(key).value, None, id)))
    ensures m.Valid() && m.client.readFailures == map[]
    ensures m.engineMount == mount && m.encodeForTransfer == encode
    ensures IdentityPath(mount, log) in m.client.secrets
    ensures m.client.secrets[IdentityPath(mount, log)] == Vault.Stored(ValueRecord(encode(id).value), 1)
  {
    m := FreshManager(mount, key, encode);
    var idPath, keyPath := IdentityPath(mount, log), KeyPath(mount, id);
    IdentityPathIsNotKeyPath(mount, log, id);
    first := m.Create(log, id);
    FreshBranchSucceeds(m, log, id, first, [Vault.ReadRequest(idPath)], map[], map[], 0);
    assert m.client.secrets[keyPath] == Vault.Stored(ValueRecord(encode(key).value), 1);
    SecretValueOfWrite(encode(key).value, 1);
    got := m.Get(id);
  }

  /** Creating a log again writes nothing and returns the ID stored by the
      first Create, with the log and no key. */
  method CreateAgain(m: VaultLogMetadataManager, log: Log, id: string, other: string)
    returns (second: Result<Option<LogMetadata>>)
    requires m.Valid() && CleanSegment(log.context) && CleanSegment(log.name) && CleanSegment(other)
    requires m.client.readFailures == map[] && m.encodeForTransfer(id).Success?
    requires IdentityPath(m.engineMount, log) in m.client.secrets
    requires m.client.secrets[IdentityPath(m.engineMount, log)] == Vault.Stored(ValueRecord(m.encodeForTransfer(id).value), 1)
    modifies m.client`requests, m.client`secrets, m.client`versions, m.keyManager`created
    ensures second == Success(Some(LogMetadata("", Some(log), m.encodeForTransfer(id).value)))
    ensures m.client.secrets == old(m.client.secrets)
  {
    SecretValueOfWrite(m.encodeForTransfer(id).value, 1);
    second := m.Create(log, other);
  }
}
