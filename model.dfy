/** The shared vocabulary of the log service: the Log and LogMetadata records,
    the error sentinels, and the two collaborator interfaces, the key manager
    and the log metadata manager. */
module Model {

  datatype Option<+T> = None | Some(value: T) {
    function GetOr(default: T): T {
      match this
      case Some(v) => v
      case None => default
    }
  }

  /** The errors a call can end with: the two sentinels of the server package
      and an opaque error raised by a collaborator (secret store, cipher,
      table store, stream). */
  datatype Error =
    | ErrNotFound
    | ErrInvalid
    | Remote(message: string)

  datatype Result<+T> = Success(value: T) | Failure(error: Error)

  type Byte = b: int | 0 <= b < 256
  type Bytes = seq<Byte>

  /** An instant, as nanoseconds since the Unix epoch. */
  type Time = int

  /** A log's identity. */
  datatype Log = Log(context: string, name: string)

  /** What the metadata manager knows about a log.  `log` is the optional
      pointer of the source record: it is left unset by a lookup by ID. */
  datatype LogMetadata = LogMetadata(key: string, log: Option<Log>, logID: string)

  /** The key manager.  Key generation is randomised, so the keys it hands out
      are given by `generate` applied to the number of keys created so far;
      encryption and decryption are uninterpreted functions of key and data. */
  class KeyManager {
    const generate: nat -> Result<string>
    const encrypt: (string, Bytes) -> Result<Bytes>
    const decrypt: (string, Bytes) -> Result<Bytes>
    var created: nat

    constructor (generate: nat -> Result<string>,
                 encrypt: (string, Bytes) -> Result<Bytes>,
                 decrypt: (string, Bytes) -> Result<Bytes>)
      ensures this.generate == generate && this.encrypt == encrypt && this.decrypt == decrypt
      ensures created == 0
    {
      this.generate := generate;
      this.encrypt := encrypt;
      this.decrypt := decrypt;
      created := 0;
    }

    /** A fresh key handle, or the error that prevented creating one. */
    method Create() returns (key: Result<string>)
      modifies this`created
      ensures key == generate(old(created))
      ensures created == old(created) + 1
    {
      key := generate(created);
      created := created + 1;
    }

    function Encrypt(key: string, data: Bytes): Result<Bytes> {
      encrypt(key, data)
    }

    function Decrypt(key: string, data: Bytes): Result<Bytes> {
      decrypt(key, data)
    }
  }

  /** ASSUMPTION about the cipher, never proved: whatever encrypting succeeds
      on, decrypting with the same key gives back. */
  ghost predicate DecryptInvertsEncrypt(km: KeyManager) {
    forall key, plain :: km.Encrypt(key, plain).Success? ==>
      km.Decrypt(key, km.Encrypt(key, plain).value) == Success(plain)
  }

  datatype ManagerCall = CreateCall(log: Log) | GetCall(id: string)

  /** The metadata manager as the servers see it.  Its answers depend on the
      call and on how many calls came before it (the store behind it changes
      between calls); a successful answer may carry no metadata (the source's
      nil, nil).  Every call is logged. */
  class LogMetadataManager {
    const create: (nat, Log) -> Result<Option<LogMetadata>>
    const get: (nat, string) -> Result<Option<LogMetadata>>
    var calls: seq<ManagerCall>

    constructor (create: (nat, Log) -> Result<Option<LogMetadata>>,
                 get: (nat, string) -> Result<Option<LogMetadata>>)
      ensures this.create == create && this.get == get && calls == []
    {
      this.create := create;
      this.get := get;
      calls := [];
    }

    /** The answer the next Create of `log` gets. */
    function NextCreate(log: Log): Result<Option<LogMetadata>>
      reads this
    {
      create(|calls|, log)
    }

    /** The answer the next Get of `id` gets. */
    function NextGet(id: string): Result<Option<LogMetadata>>
      reads this
    {
      get(|calls|, id)
    }

    method Create(log: Log) returns (r: Result<Option<LogMetadata>>)
      modifies this`calls
      ensures r == old(NextCreate(log))
      ensures calls == old(calls) + [CreateCall(log)]
    {
      r := create(|calls|, log);
      calls := calls + [CreateCall(log)];
    }

    method Get(id: string) returns (r: Result<Option<LogMetadata>>)
      modifies this`calls
      ensures r == old(NextGet(id))
      ensures calls == old(calls) + [GetCall(id)]
    {
      r := get(|calls|, id);
      calls := calls + [GetCall(id)];
    }
  }
}
