# relay-pls log service core, in Dafny

This project models the core of relay-pls. The service stores encrypted, append-only logs per tenant. A log is named by a context and a name. The service hands out a log ID and a per-log encryption key, encrypts every appended payload with that key, and lists a log's messages back decrypted. A listing can follow the log, polling for newer rows.

The model covers four pieces:

- **The secret-store-backed log metadata manager** (`manager.dfy`). It covers the two secret paths built from the engine mount and the decoding of a stored `data.value` string. It also covers `Get` and the create-or-fetch `Create`.
  - `Create` reads the identity path. It writes the encoded ID and then the encoded new key, each with check-and-set 0.
  - The secret store is the class `Vault.Client` (`vault.dfy`). It holds a map of secrets with the key/value-version-2 check-and-set rule, reads and writes that fail at chosen paths, and a log of every request.
- **The query builder** (`query.dfy`). It is a class whose parameter map the `With*`, `After` and `Before` methods update in place.
  - `Build` returns the query text as a function of which parameter names are present, and lists every recorded parameter once.
  - The file also holds the row a `LogMessage` saves as.
- **The in-memory server** (`memory.dfy`). It is a class holding a map from log ID to the messages appended, in order.
- **The table-store server** (`server.dfy`). It covers option handling, the single row an append inserts and the column extraction of listed rows. It also covers the listing loop: one pass without follow, and with follow repeated passes that set `after` to the time read just after the previous pass's query.

The shared pieces live in two files:

- `model.dfy` holds the log and metadata types and the recorded errors. It also holds two stand-ins.
  - The key manager has uninterpreted `generate`, `encrypt` and `decrypt`.
  - The metadata manager the servers call: its answers are a function of the call and of how many calls came before it, and it logs every call.
- `service.dfy` holds the request and response messages of the remote interface.

Collaborators the model cannot see become parameters:

- the fresh UUIDs (`id`, `freshId`);
- the clock (`now`, `clock`);
- the outcome of a stream send after its retries (`send`);
- the query reads (`read`) and the table insert (`put`);
- the transfer encoding (`encodeForTransfer`).

## Where the code and its description differ (the model follows the code)

- **A second `Create` of a log does not return the first ID.** It returns the string read from the identity record (pkg/manager/log.go:105-114), and that string is the transfer encoding of the ID (pkg/manager/log.go:119). Likewise `Get` returns the stored key string, which is the encoding of the key. See `Manager.CreateThenGet` and `Manager.CreateAgain`.
- **The in-memory server lists in append order.** It ignores `startAt`, `endAt` and `follow` (pkg/server/memory.go:100).
- **The table-store server skips rows.** A row the iterator reports an error for is skipped rather than failing the listing (pkg/server/server.go:167-169).
- **The table-store server ignores failed sends.** A failed send is logged and ignored, not retried (pkg/server/server.go:190-193).
- **The `after` bound is not the iteration start time.** The time used is taken just after the pass's read (pkg/server/server.go:155). The `ts` declared at line 177 is a different, shadowing variable.
- **`ErrNotFound` is declared but never returned** (pkg/server/errors.go:8). Absent metadata (`nil, nil`) passes the error checks. Most server calls then dereference it:
  - both `Create`s read `lm.LogID` (pkg/server/memory.go:42, pkg/server/server.go:69);
  - both `MessageAppend`s read `lm.Key` (pkg/server/memory.go:60, pkg/server/server.go:87);
  - the table-store listing reads `lm.Key` before its loop (pkg/server/server.go:132).
  - The model makes present metadata a precondition of exactly these calls. A manager error is handled.
  - The in-memory listing reads the key only for a stored message (pkg/server/memory.go:100-101). There, absent metadata is admitted for a log with no messages, and the listing then sends nothing and returns no error.
- **`Build` dereferences the table before it looks at the client** (pkg/server/model.go:87, 110). A builder without a table panics rather than giving the nil query. The model's `Build` requires a table.
- **A losing check-and-set write returns an error, not `nil`.** The write's error is returned (pkg/manager/log.go:133-135, 160-162). The model gives that error.
- **The key manager interface has no `Decrypt`** (pkg/model/log.go:33-36), yet the in-memory server calls one (pkg/server/memory.go:101). The model's key manager has one.

## Model

| member | source | states |
|---|---|---|
| Model.KeyManager.Create | pkg/model/log.go:34 | the key returned is the generator's answer for the number of keys created so far, and the count goes up by one |
| Model.LogMetadataManager.Create | pkg/model/log.go:39 | the answer is the manager's next answer for the log, and the call is logged |
| Model.LogMetadataManager.Get | pkg/model/log.go:40 | the answer is the manager's next answer for the ID, and the call is logged |
| Vault.Client.Read | pkg/manager/log.go:36 | a read is logged; it returns the injected failure, the secret stored there, or None when nothing is stored |
| Vault.Client.Write | pkg/manager/log.go:124-133 | a write is logged. It succeeds exactly when the path is not set to fail and the check-and-set parameter admits it (0: nothing stored there yet). A failure stores nothing. Success stores the data, nested under "data", as the next version |
| Manager.KeyPathLayout | pkg/manager/log.go:29-31 | the key path is `<mount>/data/logs/<id>/encryption_key` |
| Manager.IdentityPathLayout | pkg/manager/log.go:77-79 | the identity path is `<mount>/data/contexts/<context>/name/<name>/log_id` |
| Manager.KeyPathSegments | pkg/manager/log.go:29-31 | split at '/', the key path is the mount's segments, then data, logs, the ID, encryption_key |
| Manager.IdentityPathSegments | pkg/manager/log.go:77-79 | split at '/', the identity path is the mount's segments, then data, contexts, the context, name, the name, log_id |
| Manager.PathsAreClean | pkg/manager/log.go:29-31 | with clean parts, every segment of both paths is clean, so path.Join's cleaning leaves them alone |
| Manager.KeyPathInjective | pkg/manager/log.go:29-31 | two IDs share a key path if and only if they are equal |
| Manager.IdentityPathInjective | pkg/manager/log.go:77-79 | two log identities share an identity path if and only if they are equal |
| Manager.IdentityPathIsNotKeyPath | pkg/manager/log.go:137-149 | no identity path is a key path, so the key write cannot overwrite the ID just written |
| Manager.SecretValueMeaning | pkg/manager/log.go:51-67 | decoding finds a string exactly when the secret exists, has data, and holds a string at data.value; it then finds that string |
| Manager.SecretValueOfWrite | pkg/manager/log.go:124-131 | what a write of {"value": v} stores decodes to v |
| Manager.VaultLogMetadataManager.constructor | pkg/manager/log.go:171-183 | the manager keeps the client, the engine mount, the key manager and the encoding |
| Manager.VaultLogMetadataManager.Get | pkg/manager/log.go:28-74 | Get issues exactly one read, of the key path. A read failure is returned. A missing or ill-shaped secret gives no metadata and no error. Otherwise it gives the stored string verbatim as the key, the requested ID, and no log |
| Manager.VaultLogMetadataManager.Create | pkg/manager/log.go:76-169 | Create first reads the identity path. A read error, or an existing record, writes nothing, leaves the secrets and their versions as they were, and creates no key. An existing record returns the log with the stored string as ID, or no metadata when the record is ill-shaped. Otherwise the fresh branch runs |
| Manager.VaultLogMetadataManager.CreateFresh | pkg/manager/log.go:117-168 | the encoded ID is written with check-and-set 0. If that write fails its error is returned, and no key is created or written. Otherwise one key is created and its encoding written with check-and-set 0 to the key path. Success returns the raw key, the log and the ID. Each error is returned with exactly the writes before it made, and each written record is at version 1 |
| Manager.FreshBranchSucceeds | pkg/manager/log.go:117-168 | when nothing fails, the fresh branch leaves exactly the encoded ID at the identity path and the encoded key at the key path, both at version 1, and returns the new key |
| Manager.FreshManager | pkg/manager/log.go:171-183 | a manager over an empty store without failures, whose first key is the given one |
| Manager.CreateThenGet | pkg/manager/log.go:28-169 | on an empty store, Create returns the new key, log and ID. Get of that ID then returns the encoded key, not the raw one |
| Manager.CreateAgain | pkg/manager/log.go:95-115 | creating an existing log returns the stored (encoded) ID, with the log and no key, and writes nothing |
| Query.QueryLines | pkg/server/model.go:79-108 | read back line by line, the text is the SELECT line, the FROM line of project.dataset.table and the WHERE line on @logID. Then comes one line per present bound, then ORDER BY timestamp, and nothing after |
| Query.SelectLineColumns | pkg/server/model.go:10-16 | the SELECT line lists the decrypted payload, timestamp and log_message_id at the positions of the column constants 0, 1, 2 (the SELECT list the result cells follow) |
| Query.BoundLinesFrom | pkg/server/model.go:92-106 | the bound lines from position i are one line per present bound from i on, in list order |
| Query.BoundLinesInOrder | pkg/server/model.go:92-106 | a bound line appears if and only if its parameter is present, once, in the order startAt >=, endAt <=, after >, before < |
| Query.RepresentsParameters | pkg/server/model.go:113-115 | a built query lists each recorded parameter exactly once, and nothing else |
| Query.EnumeratesValues | pkg/server/model.go:113-115 | a list holding each entry of a name-keyed map once is a permutation of the map's values |
| Query.QueryBuilder.constructor | pkg/server/model.go:123-127 | a new builder has no client, no table and no parameters |
| Query.QueryBuilder.WithClient | pkg/server/model.go:29-31 | sets the client only |
| Query.QueryBuilder.WithTable | pkg/server/model.go:33-35 | sets the table only |
| Query.QueryBuilder.WithLog | pkg/server/model.go:37-42 | records exactly the entry logID, overwriting an earlier one and leaving the rest unchanged |
| Query.QueryBuilder.WithEncryptionKey | pkg/server/model.go:44-49 | records exactly the entry encryptionKey, the rest unchanged |
| Query.QueryBuilder.WithStartAt | pkg/server/model.go:51-56 | records exactly the entry startAt, the time formatted with the layout, the rest unchanged |
| Query.QueryBuilder.WithEndAt | pkg/server/model.go:58-63 | records exactly the entry endAt, formatted, the rest unchanged |
| Query.QueryBuilder.After | pkg/server/model.go:65-70 | records exactly the entry after, formatted, the rest unchanged |
| Query.QueryBuilder.Before | pkg/server/model.go:72-77 | records exactly the entry before, formatted, the rest unchanged |
| Query.QueryBuilder.Build | pkg/server/model.go:79-121 | with no client, no query. With a client, the query on that client has the text for the names present and lists every recorded parameter once, in some order. The builder is not changed |
| Query.BuildTwice | pkg/server/model.go:79-121 | two builds in a row give the same text and the same parameters, possibly in another order |
| Query.Save | pkg/server/model.go:136-143 | the saved row has exactly the columns log_id, log_message_id, timestamp and encrypted_payload, and no insert ID |
| Query.LoadSave | pkg/server/model.go:136-143 | each of the message's four fields is read back from its column |
| Service.AppendTimestamp | pkg/server/memory.go:65-68 | the caller's timestamp when given, the time of receipt otherwise |
| Memory.ListedUnique | pkg/server/memory.go:100-122 | the listing's result and the responses sent are determined by the stored messages, the key and the send outcomes |
| Memory.InMemoryServer.constructor | pkg/server/memory.go:125-133 | a new server keeps its managers and stores no messages |
| Memory.InMemoryServer.Create | pkg/server/memory.go:27-44 | an empty context or name gives ErrInvalid without calling the manager. Otherwise the manager is called once with the log; its error is returned, or its log ID |
| Memory.InMemoryServer.Delete | pkg/server/memory.go:46-48 | no response and no error |
| Memory.InMemoryServer.List | pkg/server/memory.go:50-52 | no error, nothing sent |
| Memory.InMemoryServer.MessageAppend | pkg/server/memory.go:54-90 | a metadata or encryption error is returned with the messages unchanged. Otherwise exactly one message is added, at the end of its log's messages and no other log's. It has the request's log ID, the fresh ID, the supplied or current time and the ciphertext, and the response echoes its IDs |
| Memory.InMemoryServer.MessageList | pkg/server/memory.go:92-123 | a metadata error is returned with nothing sent. Absent metadata, for a log with no messages, sends nothing and returns no error. Otherwise one response per stored message, in append order, with its ID, decrypted payload and timestamp. The first decryption error or failed send stops the listing and is returned, after exactly the earlier messages were sent |
| Memory.AppendAppendList | pkg/server/memory.go:54-123 | assuming decryption inverts encryption, two appends and a listing give both payloads back, in append order, with their IDs and timestamps |
| BigQuery.LastOptionWins | pkg/server/server.go:16-34 | the last option of a kind decides that collaborator |
| BigQuery.UnsetKeepsInitial | pkg/server/server.go:16-34 | a collaborator no option names stays unset |
| BigQuery.BigQueryServer.constructor | pkg/server/server.go:206-216 | the server has the table and the collaborators the options give, applied in order |
| BigQuery.Extract | pkg/server/server.go:171-186 | the payload is column 0 if it holds bytes, else empty. The timestamp is column 1 if it holds a time the protocol can represent, else unset. The message ID is column 2 if it holds a string, else empty |
| BigQuery.ExtractSelectedSave | pkg/server/server.go:171-186 | a saved message, read back as the cells of the SELECT list in its order, lists with its ID, its decrypted payload and its timestamp: the positions Extract reads agree with the SELECT order |
| BigQuery.RowResponses | pkg/server/server.go:156-194 | a pass sends at most one response per row |
| BigQuery.RowResponsesAppend | pkg/server/server.go:156-194 | the responses for two runs of rows are the responses of each, in order |
| BigQuery.RowErrorSkipped | pkg/server/server.go:164-169 | a row error sends nothing and does not stop the pass |
| BigQuery.RowResponsesOfRows | pkg/server/server.go:156-194 | without row errors, the i-th response is the i-th row's |
| BigQuery.PassParametersNext | pkg/server/server.go:196-200 | setting after to the time of pass p gives the parameters of pass p + 1 |
| BigQuery.PassBounds | pkg/server/server.go:127-142 | every pass has the log ID and the key. startAt and endAt are present exactly when the request has them. after is present from the second pass on, holding the time read after the previous pass. before is never present |
| BigQuery.PassQueriesSnoc | pkg/server/server.go:144-145 | the query of the next pass extends the queries of the passes before |
| BigQuery.LastPass | pkg/server/server.go:144-201 | a pass ends the listing with its read's error, after one pass without follow, or as the last pass modelled |
| BigQuery.ListedPassesUnique | pkg/server/server.go:144-201 | the outcome, number of passes and responses sent are determined by the reads, follow and the passes modelled |
| BigQuery.ErrorOnlyFromRead | pkg/server/server.go:150-153 | a listing ends with an error exactly when its last read failed |
| BigQuery.SentByRowsRead | pkg/server/server.go:144-194 | what the passes send is the responses for all rows their successful reads gave, in order, as if read in one pass: failed reads send nothing |
| BigQuery.BigQueryServer.Create | pkg/server/server.go:54-71 | an empty context or name gives ErrInvalid without calling the manager. Otherwise the manager is called once; its error is returned, or its log ID |
| BigQuery.BigQueryServer.Delete | pkg/server/server.go:73-75 | no response and no error |
| BigQuery.BigQueryServer.List | pkg/server/server.go:77-79 | no error, nothing sent |
| BigQuery.BigQueryServer.MessageAppend | pkg/server/server.go:81-117 | a metadata or encryption error is returned before any insert. Otherwise exactly one row is inserted: the request's log ID, the fresh ID, the supplied or current time, the ciphertext. A failed insert gives its error; success echoes the row's IDs |
| BigQuery.BigQueryServer.NewListingBuilder | pkg/server/server.go:127-142 | the builder has this server's client and table, the log ID, the key, and startAt/endAt exactly when the request has them |
| BigQuery.BigQueryServer.SendRows | pkg/server/server.go:156-194 | the responses of a pass are one per row, in order, row errors skipped |
| BigQuery.BigQueryServer.Pass | pkg/server/server.go:145-194 | a pass's query is the query for the builder's parameters. A failed read gives its error and sends nothing; otherwise the rows' responses are sent |
| BigQuery.BigQueryServer.Step | pkg/server/server.go:144-201 | one pass either ends the listing or moves the builder to the next pass's parameters |
| BigQuery.BigQueryServer.RunPasses | pkg/server/server.go:144-201 | the passes from the prepared builder: their queries and what they send, up to the pass that ends the listing |
| BigQuery.BigQueryServer.MessageList | pkg/server/server.go:119-204 | a metadata error is returned with nothing read. Otherwise there is one pass without follow, and with follow passes go on while reads succeed. The p-th query has the request's bounds, plus after = the time read after pass p - 1. A failed read ends the listing with its error. Everything sent is the successful passes' row responses, in order |

## Left out

- I/O and transports are not modelled: the gRPC stream, the secret store's HTTP API, the table store's insert, query execution and row iterator. Each is a parameter or an in-memory stand-in.
- Retries and backoff (`retry.Wait`) are modelled only by their final outcome: an injected read failure, or the result of a send.
- Randomness and the clock (`uuid.New`, `time.Now`) are parameters.
- The AEAD cipher, the keysets and base64 of the key manager are not part of this model (pkg/manager/key.go). Key creation, encryption and decryption are uninterpreted functions. That decryption inverts encryption is the labelled assumption `DecryptInvertsEncrypt`, used only by `Memory.AppendAppendList`.
- `transfer.EncodeForTransfer` is an uninterpreted function.
- Formatting a time with the layout is not interpreted: a formatted parameter is the pair of layout and time.
- `path.Join`'s cleaning is not modelled. Path parts are required to be clean segments (no '/', not empty, not "." or ".."), so the join is a plain '/'-join.
  - Checking and normalising the engine mount (`vaultutil.CheckNormalizeEngineMount`) is not part of this model either. The mount is required to be made of clean segments.
- The table store's evaluation of the query is not modelled: the bounds' filtering, the ordering by timestamp and the decryption inside the query. A pass's rows are whatever `read` gives for it.
- BigQuery.BigQueryServer.MessageList: describes a follow listing only for its first fuel + 1 passes, because the source loop never ends when every read succeeds. A listing still following when the passes run out ends as `StillFollowing`.
- BigQuery.BigQueryServer.RunPasses: bounded by the same fuel, for the same reason.
- An iterator that reports errors forever would make the source's inner loop spin. The model's rows for a pass are a finite list.
- Logging a failed send is not modelled. The failure itself is ignored, as in the source.
- The build error that `Build` declares is never produced by the source. `Build` returns an optional query.
- A nil collaborator the table-store server dereferences is a precondition. The listing needs the client, the table and the metadata manager. The append needs the table, the key manager and the metadata manager; it never touches the client. `Create` needs the metadata manager.
- Concurrency is not modelled: the unlocked message map and the check-and-set race between concurrent Creates.
- Configuration, dependency injection, metrics and process start-up are not part of this model.
