/** The in-memory server: messages kept per log ID in append order, encrypted
    with the log's key on append and decrypted one by one when listed. */
module Memory {
  import opened Model
  import opened Service
  import opened Query

  /** The response listing `m` with its decrypted payload. */
  function ListResponse(m: LogMessage, payload: Bytes): LogMessageListResponse {
    LogMessageListResponse(m.logMessageID, payload, Some(m.timestamp))
  }

  /** What listing `msgs` under `key` sends and returns, when the i-th send
      ends with `send(i)` once its retries are over: one response per message
      in order, each with its decrypted payload, up to the first message whose
      decryption or send fails; that failure is the result, and no failure
      means every message was sent. */
  predicate Listed(km: KeyManager, key: string, msgs: seq<LogMessage>, send: nat -> Option<Error>,
                   err: Option<Error>, sent: seq<LogMessageListResponse>)
  {
    && |sent| <= |msgs|
    && (forall i :: 0 <= i < |sent| ==>
          && km.Decrypt(key, msgs[i].encryptedPayload).Success?
          && send(i).None?
          && sent[i] == ListResponse(msgs[i], km.Decrypt(key, msgs[i].encryptedPayload).value))
    && (err.None? <==> |sent| == |msgs|)
    && (err.Some? ==>
          var d := km.Decrypt(key, msgs[|sent|].encryptedPayload);
          if d.Failure? then err == Some(d.error) else err == send(|sent|))
  }

  /** The listing is determined by the messages, the key and the send
      outcomes. */
  lemma ListedUnique(km: KeyManager, key: string, msgs: seq<LogMessage>, send: nat -> Option<Error>,
                                        err1: Option<Error>, sent1: seq<LogMessageListResponse>,
                                        err2: Option<Error>, sent2: seq<LogMessageListResponse>)
    requires Listed(km, key, msgs, send, err1, sent1)
    requires Listed(km, key, msgs, send, err2, sent2)
    ensures err1 == err2 && sent1 == sent2
  {
  }

  class InMemoryServer {
    const logMetadataManager: LogMetadataManager
    const keyManager: KeyManager
    var messages: map<string, seq<LogMessage>>

    /** A server with no messages (the configuration argument is unused). */
    constructor (keyManager: KeyManager, logMetadataManager: LogMetadataManager)
      ensures this.keyManager == keyManager && this.logMetadataManager == logMetadataManager
      ensures messages == map[]
    {
      this.keyManager := keyManager;
      this.logMetadataManager := logMetadataManager;
      messages := map[];
    }

    /** The messages of a log, in append order; none for a log never
        appended to. */
    function Stored(logId: string): seq<LogMessage>
      reads this
    {
      if logId in messages then messages[logId] else []
    }

    /** Rejects a request without context or name before asking the
        metadata manager; otherwise the manager's log ID, or its error. */
    method Create(req: LogCreateRequest) returns (r: Result<LogCreateResponse>)
      requires ValidCreate(req) ==> logMetadataManager.NextCreate(RequestedLog(req)) != Success(None)
      modifies logMetadataManager`calls
      ensures !ValidCreate(req) ==> r == Failure(ErrInvalid) && logMetadataManager.calls == old(logMetadataManager.calls)
      ensures ValidCreate(req) ==>
        logMetadataManager.calls == old(logMetadataManager.calls) + [CreateCall(RequestedLog(req))]
      ensures ValidCreate(req) ==>
        match old(logMetadataManager.NextCreate(RequestedLog(req)))
        case Failure(e) => r == Failure(e)
        case Success(lm) => r == Success(LogCreateResponse(lm.value.logID))
    {
      if req.context == "" || req.name == "" {
        return Failure(ErrInvalid);
      }
      var lm := logMetadataManager.Create(Log(req.context, req.name));
      if lm.Failure? {
        return Failure(lm.error);
      }
      r := Success(LogCreateResponse(lm.value.value.logID));
    }

    /** A no-op. */
    method Delete(req: LogDeleteRequest) returns (r: Result<Option<LogDeleteResponse>>)
      ensures r == Success(None)
    {
      r := Success(None);
    }

    /** A no-op that sends nothing. */
    method List(req: LogListRequest) returns (err: Option<Error>)
      ensures err == None
    {
      err := None;
    }

    /** Encrypts the payload with the log's key and appends the message, with
        the fresh ID `freshId` and the caller's timestamp or `now`, at the end
        of its log.  A metadata or encryption error is returned and nothing is
        stored. */
    method MessageAppend(req: LogMessageAppendRequest, now: Time, freshId: string)
      returns (r: Result<LogMessageAppendResponse>)
      requires logMetadataManager.NextGet(req.logId) != Success(None)
      modifies this`messages, logMetadataManager`calls
      ensures logMetadataManager.calls == old(logMetadataManager.calls) + [GetCall(req.logId)]
      ensures old(logMetadataManager.NextGet(req.logId)).Failure? ==>
        r == Failure(old(logMetadataManager.NextGet(req.logId)).error) && messages == old(messages)
      ensures old(logMetadataManager.NextGet(req.logId)).Success? ==>
        var ct := keyManager.Encrypt(old(logMetadataManager.NextGet(req.logId)).value.value.key, req.payload);
        && (ct.Failure? ==> r == Failure(ct.error) && messages == old(messages))
        && (ct.Success? ==>
              && r == Success(LogMessageAppendResponse(req.logId, freshId))
              && messages == old(messages)[req.logId :=
                   old(Stored(req.logId)) + [LogMessage(req.logId, freshId, AppendTimestamp(req, now), ct.value)]])
    {
      var lm := logMetadataManager.Get(req.logId);
      if lm.Failure? {
        return Failure(lm.error);
      }
      var ct := keyManager.Encrypt(lm.value.value.key, req.payload);
      if ct.Failure? {
        return Failure(ct.error);
      }
      var ts := if req.timestamp.Some? then req.timestamp.value else now;
      var message := LogMessage(req.logId, freshId, ts, ct.value);
      var existing := if req.logId in messages then messages[req.logId] else [];
      messages := messages[req.logId := existing + [message]];
      r := Success(LogMessageAppendResponse(message.logID, message.logMessageID));
    }

    /** Sends every stored message of the log, in append order, decrypted
        with the log's key; the first decryption error or failed send ends the
        call with that error.  The bounds and follow flag of the request are
        ignored.  Absent metadata is dereferenced only for a stored message,
        so a log without metadata and without messages lists nothing. */
    method MessageList(req: LogMessageListRequest, send: nat -> Option<Error>)
      returns (err: Option<Error>, sent: seq<LogMessageListResponse>)
      requires logMetadataManager.NextGet(req.logId) != Success(None) || Stored(req.logId) == []
      modifies logMetadataManager`calls
      ensures logMetadataManager.calls == old(logMetadataManager.calls) + [GetCall(req.logId)]
      ensures old(logMetadataManager.NextGet(req.logId)).Failure? ==>
        err == Some(old(logMetadataManager.NextGet(req.logId)).error) && sent == []
      ensures old(logMetadataManager.NextGet(req.logId)) == Success(None) ==> err == None && sent == []
      ensures old(logMetadataManager.NextGet(req.logId)).Success? && old(logMetadataManager.NextGet(req.logId)).value.Some? ==>
        Listed(keyManager, old(logMetadataManager.NextGet(req.logId)).value.value.key, Stored(req.logId), send, err, sent)
    {
      var lm := logMetadataManager.Get(req.logId);
      if lm.Failure? {
        return Some(lm.error), [];
      }
      // Absent metadata is only dereferenced inside the loop.
      var key := if lm.value.Some? then lm.value.value.key else "";
      var msgs := Stored(req.logId);
      sent := [];
      var i := 0;
      while i < |msgs|
        invariant 0 <= i <= |msgs| && |sent| == i
        invariant forall j :: 0 <= j < i ==>
          && keyManager.Decrypt(key, msgs[j].encryptedPayload).Success?
          && send(j).None?
          && sent[j] == ListResponse(msgs[j], keyManager.Decrypt(key, msgs[j].encryptedPayload).value)
      {
        var payload := keyManager.Decrypt(key, msgs[i].encryptedPayload);
        if payload.Failure? {
          return Some(payload.error), sent;
        }
        var resp := LogMessageListResponse(msgs[i].logMessageID, payload.value, Some(msgs[i].timestamp));
        var sendErr := send(i);
        if sendErr.Some? {
          return sendErr, sent;
        }
        sent := sent + [resp];
        i := i + 1;
      }
      err := None;
    }
  }

  /** A fresh server given a log whose metadata is always found, appending
      two payloads and listing them back: under the cipher assumption and
      when every send succeeds, the listing is both payloads in append order
      with their IDs and the supplied timestamps. */
  method AppendAppendList(km: KeyManager, key: string, logId: string, p1: Bytes, p2: Bytes,
                          t1: Time, t2: Time, id1: string, id2: string)
    returns (err: Option<Error>, sent: seq<LogMessageListResponse>)
    requires DecryptInvertsEncrypt(km)
    requires km.Encrypt(key, p1).Success? && km.Encrypt(key, p2).Success?
    ensures err == None
    ensures sent == [LogMessageListResponse(id1, p1, Some(t1)), LogMessageListResponse(id2, p2, Some(t2))]
  {
    var lmm := new LogMetadataManager((n: nat, log: Log) => Failure(ErrInvalid),
                                      (n: nat, id: string) => Success(Some(LogMetadata(key, None, id))));
    var s := new InMemoryServer(km, lmm);
    var r1 := s.MessageAppend(LogMessageAppendRequest(logId, p1, Some(t1)), 0, id1);
    var r2 := s.MessageAppend(LogMessageAppendRequest(logId, p2, Some(t2)), 0, id2);
    var msgs := s.Stored(logId);
    err, sent := s.MessageList(LogMessageListRequest(logId, None, None, false), (i: nat) => None);
    ListedUnique(km, key, msgs, (i: nat) => None, err, sent,
      None, [LogMessageListResponse(id1, p1, Some(t1)), LogMessageListResponse(id2, p2, Some(t2))]);
  }
}
