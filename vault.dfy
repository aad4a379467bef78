/** An in-memory stand-in for the secret store's key/value version 2 engine,
    as the metadata manager reaches it through the store's HTTP client: a map
    of secrets with the check-and-set rule on writes, reads and writes that
    fail at chosen paths (the outcome once retries are exhausted), and a log of
    every request received. */
module Vault {
  import opened Model

  /** The loosely typed JSON values a secret carries. */
  datatype Value =
    | Str(s: string)
    | Num(n: int)
    | Obj(fields: map<string, Value>)
    | Other

  /** A secret as the client returns it; `data` is None for a secret without
      data. */
  datatype Secret = Secret(data: Option<map<string, Value>>)

  datatype Request =
    | ReadRequest(path: string)
    | WriteRequest(path: string, data: map<string, Value>, cas: Option<nat>)

  /** The secret a successful write of `data` leaves at a path: the engine
      nests the written data under "data", beside its metadata. */
  function Stored(data: map<string, Value>, version: nat): Secret {
    Secret(Some(map["data" := Obj(data), "metadata" := Obj(map["version" := Num(version)])]))
  }

  class Client {
    var secrets: map<string, Secret>
    var versions: map<string, nat>
    var readFailures: map<string, Error>
    var writeFailures: map<string, Error>
    var requests: seq<Request>

    ghost predicate Valid()
      reads this
    {
      versions.Keys == secrets.Keys
    }

    constructor (secrets: map<string, Secret>, versions: map<string, nat>,
                 readFailures: map<string, Error>, writeFailures: map<string, Error>)
      requires versions.Keys == secrets.Keys
      ensures Valid()
      ensures this.secrets == secrets && this.versions == versions
      ensures this.readFailures == readFailures && this.writeFailures == writeFailures
      ensures requests == []
    {
      this.secrets := secrets;
      this.versions := versions;
      this.readFailures := readFailures;
      this.writeFailures := writeFailures;
      requests := [];
    }

    /** Reads the secret at `path`: None when nothing is stored there. */
    method Read(path: string) returns (r: Result<Option<Secret>>)
      modifies this`requests
      ensures requests == old(requests) + [ReadRequest(path)]
      ensures path in readFailures ==> r == Failure(readFailures[path])
      ensures path !in readFailures ==>
        r == Success(if path in secrets then Some(secrets[path]) else None)
    {
      requests := requests + [ReadRequest(path)];
      if path in readFailures {
        r := Failure(readFailures[path]);
      } else if path in secrets {
        r := Success(Some(secrets[path]));
      } else {
        r := Success(None);
      }
    }

    /** Whether a check-and-set parameter admits a write at `path`: 0 only
        when nothing is stored there, n > 0 only when version n is current,
        and no parameter always. */
    ghost predicate CasAdmits(path: string, cas: Option<nat>)
      reads this
    {
      match cas
      case None => true
      case Some(0) => path !in secrets
      case Some(n) => path in versions && versions[path] == n
    }

    /** Writes `data` at `path` as a new version.  The write fails, storing
        nothing, when the path is set to fail or the check-and-set parameter
        does not admit it. */
    method Write(path: string, data: map<string, Value>, cas: Option<nat>) returns (err: Option<Error>)
      requires Valid()
      modifies this`secrets, this`versions, this`requests
      ensures Valid()
      ensures requests == old(requests) + [WriteRequest(path, data, cas)]
      ensures err.None? <==> path !in writeFailures && old(CasAdmits(path, cas))
      ensures path in writeFailures ==> err == Some(writeFailures[path])
      ensures err.Some? ==> secrets == old(secrets) && versions == old(versions)
      ensures err.None? ==>
        var version := if path in old(versions) then old(versions)[path] + 1 else 1;
        secrets == old(secrets)[path := Stored(data, version)] &&
        versions == old(versions)[path := version]
    {
      requests := requests + [WriteRequest(path, data, cas)];
      if path in writeFailures {
        return Some(writeFailures[path]);
      }
      var admitted := match cas
        case None => true
        case Some(0) => path !in secrets
        case Some(n) => path in versions && versions[path] == n;
      if !admitted {
        return Some(Remote("check-and-set parameter did not match the current version"));
      }
      var version := if path in versions then versions[path] + 1 else 1;
      secrets := secrets[path := Stored(data, version)];
      versions := versions[path := version];
      err := None;
    }
  }
}
