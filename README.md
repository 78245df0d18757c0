# typesnipe: keystroke log backend and development TLS proxy, in Dafny

This project models the two pieces of the typesnipe repository that hold real logic.

- **The keystroke-log backend** (`typesnipe-backend/main.py`). `POST /data` takes a batch of
  keystroke records. Each record is the text field's whole `value` after a change, plus the
  device orientation and a time. The handler replays the batch as a stack. It seeds the output
  with the first record. Then, for each pair of consecutive *input* records, a step whose value
  grew pushes a record holding only the newest character, and any other step pops the newest
  record. The result is dumped to `data/{n}.json`, where `n` is a process-wide counter. The counter
  is then advanced and persisted to `data/counter.txt`, and it is read back from there at start-up.
- **The development TLS front end** (`typesnipe-ui/ssl-proxy.mjs`). At start-up it creates a
  self-signed certificate authority and a `localhost` leaf certificate signed by it. It writes
  them under `.dev_cert/`, unless the leaf certificate and key are already there. It then
  configures two HTTPS/WebSocket proxies (3001 → localhost:3000, 8001 → 127.0.0.1:8000). Both
  present the leaf pair, and both share one error handler that answers 502 "Bad gateway".

Modules, one per file:

| file | module | models |
|---|---|---|
| `wrappers.dfy` | `Wrappers` | `Option`, `Result`, `Outcome` |
| `decimal.dfy` | `Decimal` | Python's `str(n)` and base-10 `int(s)`, used for `counter.txt` |
| `keystrokes.dfy` | `Keystrokes` | the filter loop of `post_data`: a pure specification and the loop, proved equal |
| `datastore.dfy` | `DataStore` | the counter and the `data/` directory, and the `Backend` class holding them |
| `hex.dfy` | `Hex` | `randomBytes(32).toString("hex")` serial numbers |
| `certificates.dfy` | `Certificates` | `createCertificate`, `createCertificateAuthority`, `createTlsCertificate` |
| `devcert.dfy` | `DevCert` | the bootstrap branch of `main`, the `DevServer` class, the two-route table |
| `proxyerror.dfy` | `ProxyError` | the proxies' `error` handler on a `Response` class |

Modelling choices:

- Files are entries of a `map` from path to content.
- A PEM file is modelled by what it encodes (`CertificatePem(cert)` or `PrivateKeyPem(key)`),
  because PEM serialisation is injective.
- A JSON dump is modelled by the records it holds.
- Key pairs are opaque identifiers from a fresh-id generator: the `nextKeyPair` field of `DevServer`.
  A certificate records which pair's public key it embeds (`publicKey`) and which pair's private
  key signed it (`signedWith`). So "the signature verifies against pair k's public key" means
  `signedWith == k`.
- Random bytes and generated key pairs are parameters of the functions that use them.
- The library calls of the error handler (`writeHead`, `end`) take a flag saying whether the
  call raises for a reason outside the model.

Four behaviours of the code that are easy to misread, and which the model keeps:

- `main` swallows *every* `mkdirSync` failure, not only "already exists" (`ssl-proxy.mjs:141-145`).
- When headers were already sent, the handler does not just close the connection. It still calls
  `end("Bad gateway")`, which appends that text to the response in progress (`ssl-proxy.mjs:185-188`).
- Only `cert.pem` and `key.pem` are checked; a missing `ca.cert.pem` alone never triggers
  regeneration (`ssl-proxy.mjs:132-134`). `NeedsCredentials` keeps this narrower check.
- CPython's `int()` and `str()` refuse integers of more than 4300 decimal digits (the default of
  `sys.get_int_max_str_digits()`). So a longer `counter.txt` reads as 0 (`main.py:7-11`). A counter
  of 10^4300 or more makes `post_data` raise before it names the data file (`main.py:53`). Reaching
  10^4300 makes it raise after `counter.txt` was truncated, leaving that file empty (`main.py:57-58`).

## Model

| member | source | states |
|---|---|---|
| `Keystrokes.FilterKeystrokes` | typesnipe-backend/main.py:36-50 | the loop returns exactly the filter specification's result: `EmptyBatch` on an empty batch, `PopFromEmpty(i)` at the first backspace that finds the output empty, otherwise the filtered list |
| `Keystrokes.Step` | typesnipe-backend/main.py:39-50 | the step compares two consecutive input records; a growing step appends exactly one record (the last character of the current value, its orientation and time) and keeps the rest; any other step removes exactly the last record, and raises when there is none |
| `Keystrokes.ErrorIsFinal` | typesnipe-backend/main.py:50 | once a pop raises, no later step runs: the error is the result of the whole filter |
| `Keystrokes.StepsPartition` | typesnipe-backend/main.py:37 | every pair of consecutive inputs is either growing or not; the two counts add up to the number of pairs |
| `Keystrokes.FilterPrefixLength` | typesnipe-backend/main.py:36-50 | on success after any prefix the output has as many records as the depth 1 + #growing − #non-growing steps, and the depth never went negative on the way |
| `Keystrokes.FilterPrefixFailure` | typesnipe-backend/main.py:48-50 | a failing prefix fails with a pop on an empty list, at the first step where the depth reaches −1 |
| `Keystrokes.FilterPrefixDepth` | typesnipe-backend/main.py:36-50 | after any prefix the output's length equals the depth, and the prefix fails iff the depth goes negative somewhere |
| `Keystrokes.FilterLength` | typesnipe-backend/main.py:36-50 | on success the output has 1 + #growing − #non-growing records, so never more than the input |
| `Keystrokes.FilterSucceeds` | typesnipe-backend/main.py:36-50 | the filter succeeds iff the batch is non-empty and no prefix has more backspaces than records to remove |
| `Keystrokes.FilterPrefixShape` | typesnipe-backend/main.py:42-46 | after any prefix every record but the first holds one character, and the first is the seed `keystrokes[0]` or also one character |
| `Keystrokes.FilterShape` | typesnipe-backend/main.py:36-46 | the same for the whole batch |
| `Keystrokes.FirstSurvivesPrefix` | typesnipe-backend/main.py:36-50 | while the depth stays at least 1, the prefix succeeds and `keystrokes[0]` stays, untruncated, at the bottom of the output |
| `Keystrokes.FirstSurvives` | typesnipe-backend/main.py:36 | the same for the whole batch |
| `Decimal.ShowNat` | typesnipe-backend/main.py:58 | `str` of a non-negative counter is a non-empty string of decimal digits |
| `Decimal.ValueOfShowNat` | typesnipe-backend/main.py:58 | the digits `str` writes denote the number written |
| `Decimal.ParseShow` | typesnipe-backend/main.py:9 | `int()` applied to what `str()` wrote gives back the same integer, negative ones included, when it has at most 4300 digits; beyond that `int()` refuses it |
| `Decimal.ShowNatLength` | typesnipe-backend/main.py:58 | `str(m)` has at most d digits exactly when m < 10^d |
| `Decimal.DigitLimitBounds` | typesnipe-backend/main.py:58 | the 4300-digit limit admits exactly the integers strictly between −10^4300 and 10^4300 |
| `Decimal.ParseWithinLimit` | typesnipe-backend/main.py:9 | every integer `int()` accepts is within the digit limit, so `str()` can write it back |
| `Decimal.ShowInjective` | typesnipe-backend/main.py:53 | distinct counter values are spelled differently |
| `DataStore.Backend.constructor` | typesnipe-backend/main.py:7-11 | the counter starts at the integer in `data/counter.txt`, or 0 when the file is missing or `int()` rejects its text (more than 4300 digits included); the counter is within the digit limit and a restart would read it back |
| `DataStore.Backend.PostData` | typesnipe-backend/main.py:32-58 | the handler's new counter and files are those of `Post` on the old ones: a raised filter error, or a counter `str()` refuses at line 53, changes nothing; otherwise it writes `data/{n}.json`, sets the counter to n+1, truncates `counter.txt` and writes `str(n+1)` into it unless `str()` refuses n+1 |
| `DataStore.PostOutcome` | typesnipe-backend/main.py:36-58 | a filter error fails the request and changes nothing; the request succeeds iff the batch is accepted and both n and n+1 are within the digit limit; it changes nothing iff the batch is rejected or n is beyond the limit, and otherwise raises the counter by exactly one |
| `DataStore.PostWrites` | typesnipe-backend/main.py:52-58 | an accepted batch with a counter n within the digit limit writes exactly two files, `data/{n}.json` with the filtered batch and `counter.txt` with `str(n+1)` (empty when n+1 is beyond the limit); all other files keep their content |
| `DataStore.DataPathInjective` | typesnipe-backend/main.py:53 | different counter values name different data files |
| `DataStore.DataPathIsNotCounter` | typesnipe-backend/main.py:53-57 | no data file is the counter file |
| `DataStore.StartIsRecoverable` | typesnipe-backend/main.py:7-11 | the counter read at start-up is within the digit limit and reads back from `counter.txt` as itself |
| `DataStore.PostKeepsCounterRecoverable` | typesnipe-backend/main.py:56-58 | if the persisted counter reads back as the counter in memory (or as 0 once that is beyond the digit limit) before a request, it does so after it too, so a restart resumes the count |
| `DataStore.AdvanceWithinLimit` | typesnipe-backend/main.py:53-56 | while the counter stays within the digit limit, k increments add exactly k |
| `DataStore.PostCounter` | typesnipe-backend/main.py:53-56 | one request raises the counter by one exactly when the batch is accepted and the counter is within the digit limit, and leaves it alone otherwise |
| `DataStore.PostAllCounter` | typesnipe-backend/main.py:53-56 | after any sequence of requests the counter has advanced once per accepted batch, stopping at the first value beyond the digit limit |
| `DataStore.PostAllCounterWithinLimit` | typesnipe-backend/main.py:56 | within the digit limit the counter equals its initial value plus the number of batches the filter accepted |
| `DataStore.PostAllKeepsEarlierFiles` | typesnipe-backend/main.py:53 | later requests neither overwrite nor create a data file numbered below the current counter |
| `DataStore.FirstBatchStored` | typesnipe-backend/main.py:53-54 | an accepted batch written under a counter within the digit limit is still in its data file after all later requests |
| `DataStore.PostAllStoresEveryBatch` | typesnipe-backend/main.py:52-58 | every accepted batch ends up, still intact after all later requests, in `data/{c}.json`, where c is the initial counter plus the number of batches accepted before it, as long as the initial counter and c are within the digit limit |
| `Hex.Encode` | typesnipe-ui/ssl-proxy.mjs:19 | hex encoding yields two lower-case hex digits per byte |
| `Hex.DecodeEncode` | typesnipe-ui/ssl-proxy.mjs:19 | the encoding is invertible |
| `Hex.EncodeInjective` | typesnipe-ui/ssl-proxy.mjs:19 | distinct random bytes give distinct serial numbers |
| `Hex.SerialShape` | typesnipe-ui/ssl-proxy.mjs:19 | a serial drawn from 32 random bytes is exactly 64 characters in `[0-9a-f]` |
| `Certificates.CreateCertificate` | typesnipe-ui/ssl-proxy.mjs:14-34 | returns the private key of the pair whose public key the certificate embeds; signs with the given key if one is passed, else self-signs; serial is 64 lower-case hex digits; subject, issuer, extensions and duration are the requested ones |
| `Certificates.CreateCertificateAuthority` | typesnipe-ui/ssl-proxy.mjs:36-80 | the authority is self-signed, subject == issuer == the fixed five attributes, extensions exactly basicConstraints{cA, critical} and keyUsage{keyCertSign, critical}, valid 365 days |
| `Certificates.CreateTlsCertificate` | typesnipe-ui/ssl-proxy.mjs:82-129 | the leaf has subject commonName "localhost", issuer = the authority's subject, is signed with the authority's key, does not assert cA, lists "localhost" under the dNSName tag 2 and IP "192.168.8.211" under the iPAddress tag 7 of RFC 5280, valid 365 days |
| `Certificates.BootstrapChain` | typesnipe-ui/ssl-proxy.mjs:135-139 | the authority and leaf built in order form a valid chain; the leaf key is not the authority key; with distinct random bytes the serials differ |
| `DevCert.NothingChangesIffPresent` | typesnipe-ui/ssl-proxy.mjs:132-134 | start-up leaves files, directories and the key generator unchanged iff both `cert.pem` and `key.pem` exist; `ca.cert.pem` plays no part |
| `DevCert.CredentialsPresent` | typesnipe-ui/ssl-proxy.mjs:176-177 | after start-up both files the proxies read exist |
| `DevCert.EnsureIdempotent` | typesnipe-ui/ssl-proxy.mjs:132-167 | a second start-up leaves exactly what the first left, whatever randomness it draws |
| `DevCert.RegenerationWritesBundle` | typesnipe-ui/ssl-proxy.mjs:141-148 | regeneration adds or overwrites exactly `ca.cert.pem` (authority), `cert.pem` (leaf) and `key.pem` (the leaf's key, matching its certificate), forming a valid chain; every other file is unchanged; `.dev_cert` exists afterwards |
| `DevCert.AuthorityKeyNotPersisted` | typesnipe-ui/ssl-proxy.mjs:146-148 | after regeneration no file holds the authority's private key |
| `DevCert.EnsureKeepsKeysFresh` | typesnipe-ui/ssl-proxy.mjs:15 | key pairs the generator hands out later are new to every file start-up leaves |
| `DevCert.RoutingTable` | typesnipe-ui/ssl-proxy.mjs:169-217 | only ports 3001 and 8001 are served; 3001 forwards only to localhost:3000 and 8001 only to 127.0.0.1:8000; both listen on 0.0.0.0 with WebSockets on and present the same key and certificate |
| `DevCert.DevServer.GenerateKeyPair` | typesnipe-ui/ssl-proxy.mjs:15 | each call returns a key pair no earlier call returned |
| `DevCert.DevServer.MakeDirectory` | typesnipe-ui/ssl-proxy.mjs:142 | the directory exists afterwards; the call fails iff it existed before |
| `DevCert.DevServer.Start` | typesnipe-ui/ssl-proxy.mjs:131-221 | the new files, directories and generator state are those of `EnsureCredentials`; the two routes present the `key.pem` and `cert.pem` now on disk |
| `ProxyError.StatusOnlyBeforeHeaders` | typesnipe-ui/ssl-proxy.mjs:185-187 | status 502 with `Content-Type: text/plain` is set exactly when headers were not yet sent and `writeHead` did not raise; otherwise status and headers are untouched; headers count as sent afterwards iff they were before or `writeHead` went through |
| `ProxyError.EndAttempted` | typesnipe-ui/ssl-proxy.mjs:184-189 | unless `writeHead` raised first, `end("Bad gateway")` is attempted; when it goes through the response is finished with that body appended, when it raises the body is unchanged |
| `ProxyError.RaiseStopsHandler` | typesnipe-ui/ssl-proxy.mjs:184-189 | when `writeHead` raises, the rest of the `try` block is skipped and the response is left as it was |
| `ProxyError.OnlyBadGatewayAppended` | typesnipe-ui/ssl-proxy.mjs:182-190 | the handler appends nothing but "Bad gateway", and never un-sends or un-finishes a response |
| `ProxyError.Response.WriteHead` | typesnipe-ui/ssl-proxy.mjs:186 | `writeHead` sets status and headers and marks headers as sent; it raises once headers were sent |
| `ProxyError.Response.End` | typesnipe-ui/ssl-proxy.mjs:188 | `end(data)` sends `data` and finishes the response; a finished response ignores it |
| `ProxyError.HandleProxyError` | typesnipe-ui/ssl-proxy.mjs:207-215 | the response afterwards is `AfterProxyError` of the response before; the handler has no way to raise. Both proxies install this one handler, since their two handlers are identical |

## Left out

- RSA key generation, SHA-256 signing and PEM serialisation (`ssl-proxy.mjs:15, 28, 146-148`) are foreign cryptographic calls. Keys are opaque identifiers, a signature is the identifier of the signing pair, and PEM files hold what they encode.
- `createCertificate` fills a node-forge certificate object field by field. That object belongs to the library, so the model builds the certificate record in one step.
- `notBefore`/`notAfter` (`ssl-proxy.mjs:20-22`) rely on JavaScript `Date` calendar arithmetic and the clock. Only the duration in days is kept.
- TLS termination, HTTP and WebSocket forwarding, and `listen` (`ssl-proxy.mjs:169-217`) are network I/O inside http-proxy. Only the route table and the error handler's effect on the response are modelled.
- Why node's `writeHead` or `end` would raise is library behaviour. Each raise is given as a flag, apart from `writeHead` after headers were sent.
- ProxyError.Response.End: only the synchronous state is modelled. On a finished response node's `end(chunk)` also emits an `ERR_STREAM_WRITE_AFTER_END` `error` event later, outside the handler's `try`; events are not modelled.
- The digit limit is CPython's default of 4300. Changing it through `sys.set_int_max_str_digits` or `PYTHONINTMAXSTRDIGITS` is not modelled, since the backend does neither.
- Console logging in both files is left out, as is the commented-out trust-store installation.
- `writeFileSync` and `readFileSync` failures other than a missing file are not modelled, and neither are directories other than `.dev_cert`.
- `os.makedirs("data/", exist_ok=True)` (`main.py:52`) is not modelled: directories are not tracked in the backend's file map.
- JSON serialisation and `model_dump` (`main.py:54`) are left out: a data file holds the filtered records themselves.
- FastAPI routing, pydantic validation and the CORS middleware (`main.py:13-33`) are framework plumbing. A batch arrives as a sequence of well-formed records.
- The orientation floats (`main.py:22-25`) are only copied, so reals stand in for them.
- `IndexError` inside `post_data` ends the request with a server error. The model returns `Fail` instead and, like the source, writes nothing.
- Concurrent requests to the backend are not modelled: requests run one after another on the shared counter.
- Decimal.Parse: only ASCII whitespace and ASCII digits are modelled. Python's `int()` also strips Unicode whitespace and accepts non-ASCII decimal digits. A `counter.txt` that is not valid UTF-8 makes the read raise, so the counter is 0; the model has no undecodable text.
- `DeviceOrientationReader.tsx`, `DevicePermissionContext.tsx`, `RequestDeviceMotionButton.tsx`, `next.config.ts` and `utils.ts` are browser UI, build configuration and a wrapper around a generated client, and they are not part of this model.
