/** The remote interface both servers implement: its requests and responses,
    and the validation Create applies before anything else. */
module Service {
  import opened Model

  datatype LogCreateRequest = LogCreateRequest(context: string, name: string)
  datatype LogCreateResponse = LogCreateResponse(logId: string)

  datatype LogDeleteRequest = LogDeleteRequest(logId: string)
  datatype LogDeleteResponse = LogDeleteResponse

  datatype LogListRequest = LogListRequest

  /** An append; `timestamp` is None when the caller supplies none. */
  datatype LogMessageAppendRequest = LogMessageAppendRequest(logId: string, payload: Bytes, timestamp: Option<Time>)
  datatype LogMessageAppendResponse = LogMessageAppendResponse(logId: string, logMessageId: string)

  datatype LogMessageListRequest =
    LogMessageListRequest(logId: string, startAt: Option<Time>, endAt: Option<Time>, follow: bool)

  /** One listed message; an unset field is the protocol's zero value, and an
      unset timestamp is None. */
  datatype LogMessageListResponse = LogMessageListResponse(logMessageId: string, payload: Bytes, timestamp: Option<Time>)

  /** A Create request names both a context and a name. */
  predicate ValidCreate(req: LogCreateRequest) {
    req.context != "" && req.name != ""
  }

  /** The log a valid Create request asks for. */
  function RequestedLog(req: LogCreateRequest): Log {
    Log(req.context, req.name)
  }

  /** The timestamp an appended message gets: the caller's, or the time of
      receipt. */
  function AppendTimestamp(req: LogMessageAppendRequest, now: Time): (t: Time)
    ensures req.timestamp.Some? ==> t == req.timestamp.value
    ensures req.timestamp.None? ==> t == now
  {
    req.timestamp.GetOr(now)
  }
}
