# Malware scanner: scan orchestration, scan trigger and log formatting in Dafny

This project models three parts of a document malware scanner that runs on
Google Cloud, and proves properties of the models.

- **The scanning service** (`ScanService`, `scan_service.dfy`). Its `POST /scan`
  route takes one `filename`. It downloads that object from the unscanned bucket
  to `/unscanned_files/<filename>` and has the virus scanner check that path. A
  reply that contains `"OK"` counts as clean; any other reply counts as infected.
  The route then moves the object to the clean or the quarantined bucket and
  replies `clean`, `infected` (with the scanner's reply) or `error` (HTTP 500,
  with the error's text). Last, on every path, it tries to delete the staged file.
  - The buckets and the staging directory are the fields of a `ScanServer` object.
    Its method `HandleScan` carries out the steps one by one, using the methods
    `DownloadFile`, `ScanFile`, `MoveProcessedFile` and `DeleteLocalCopy`.
  - The storage client, the scanner daemon and the file system are oracles. An
    `Env` value says which of their calls fail and what the scanner replies.
  - The pure function `Handle` describes one whole request: the new store, the
    reply, the calls issued in order, and the states passed through (`Received`,
    `Downloading`, `Scanning`, `Routing`, then `Done`, or `Errored` on failure).
    `HandleScan` is proved to agree with `Handle`, and the lemmas about `Handle`
    state what the route promises.
- **The scan trigger** (`ScanTrigger`, `scan_trigger.dfy`). This storage-event
  function gets upload notifications. For a `google.storage.object.finalize`
  event it POSTs `{location, filename, bucketname}` as JSON to the scanning
  service. Other events send nothing. A failed request is logged and not raised.
- **The structured log stream** (`StdoutJsonLog`, `stdout_json_log.dfy`). This is
  the worker's Bunyan stream. It rewrites each record in place: `msg` or
  `err.stack` becomes `message`, `time` becomes `timestamp`, and `resource` and
  `severity` are set. It then writes the record as one line.
  - JavaScript values and their truthiness are modelled by the `Value` datatype.
  - The severity lookup and `JSON.stringify` are uninterpreted functions.

`Strings` models `String.prototype.indexOf` and proves it against a reference
definition of "contains". `Wrappers` holds `Option` and `Result`.

The route declares `filename` with `let` inside its `try` block, but its `catch` and
`finally` blocks read it too, where it is out of scope. `Handle` and `HandleScan`
model the evident intent: one filename for the whole request. `HandleAsWritten`
models the code as written; see "## Findings".

## Model

| member | source | states |
|---|---|---|
| `Strings.IndexOf` | appengine-malwarescanningservice-node/server.js:67 | `indexOf` returns the first index where the pattern occurs, and returns a value above -1 exactly when the string contains the pattern |
| `ScanService.StagingPath` | appengine-malwarescanningservice-node/server.js:55 | the staging path is `/unscanned_files/` followed by the filename |
| `ScanService.StagingPathInjective` | appengine-malwarescanningservice-node/server.js:55 | two filenames get the same staging path string only if they are the same filename (distinct strings may still name one file, for example `a/../b` and `b`) |
| `ScanService.Classify` | appengine-malwarescanningservice-node/server.js:67 | the verdict is Clean exactly when the scanner's reply contains "OK" somewhere; an Infected verdict carries the reply unchanged |
| `ScanService.DestinationBucketName` | appengine-malwarescanningservice-node/server.js:114 | the move destination is `gs://` followed by the clean bucket's name when the verdict is clean, and by the quarantined bucket's name otherwise |
| `ScanService.DestinationsDistinct` | appengine-malwarescanningservice-node/server.js:114 | when the clean and quarantined buckets differ, clean and infected objects go to different destinations |
| `ScanService.TryBlock` | appengine-malwarescanningservice-node/server.js:51-88 | the `try` block completes exactly when download, scan and move succeed, with the `clean` reply when the scanner's reply contains "OK" and the `infected` reply otherwise. On success the unscanned bucket loses exactly the object and the verdict's bucket gains exactly it. On failure no bucket changes. The file is staged exactly when the download succeeds, and the first call is that download |
| `ScanService.Handle` | appengine-malwarescanningservice-node/server.js:49-99 | the reply is `clean` exactly when download, scan and move succeed and the reply contains "OK"; it is `infected` (with the scanner's reply unchanged) exactly when they succeed and the reply lacks "OK"; it is HTTP 500 `error` exactly when a step fails. On clean, the unscanned bucket has lost exactly the object and the clean bucket has gained exactly it, and the quarantined bucket is unchanged. On infected, the same holds with the quarantined bucket, and the clean bucket is unchanged. On error, no bucket has changed. The first call is the download to the staging path, the last is the unlink of that path. After a successful unlink the staged file is gone. After a failed unlink the staged file is still there if the download succeeded, and the staging directory is unchanged otherwise |
| `ScanService.Error.ToString` | appengine-malwarescanningservice-node/server.js:92 | `e.toString()` is the message when the name is empty, the name when the message is empty, and otherwise the name and the message separated by exactly `": "`; it is empty exactly when both are |
| `ScanService.HandleCalls` | appengine-malwarescanningservice-node/server.js:58-97 | the calls of one request, in order: the download, then the scan exactly when the download succeeded, then the move to the verdict's destination exactly when the scan succeeded, and always the unlink last |
| `ScanService.ErrorReplyText` | appengine-malwarescanningservice-node/server.js:89-94 | an error reply carries the `toString()` of the first failure: the download's, the missing object's, the scanner's, or the move's |
| `ScanService.OneStagingPath` | appengine-malwarescanningservice-node/server.js:55-97 | the download, the scan and the unlink all use the same staging path; the download and the move both work on the filename in the unscanned bucket |
| `ScanService.RoutingDecision` | appengine-malwarescanningservice-node/server.js:67-78 | at most one move is issued. A move is issued exactly when the download and the scan succeeded, so no move follows a failed download or scan. The move goes from the unscanned bucket to `gs://CLEAN` or `gs://QUARANTINED`, depending on whether the reply contains "OK" |
| `ScanService.ObjectsPreserved` | appengine-malwarescanningservice-node/server.js:112-117 | a request only moves objects between buckets: the set of all stored object names is unchanged |
| `ScanService.AtMostOneDestination` | appengine-malwarescanningservice-node/server.js:112-117 | a request adds its object to at most one of the clean and quarantined buckets, and adds nothing else |
| `ScanService.RunFollowsStateMachine` | appengine-malwarescanningservice-node/server.js:51-98 | every request runs from Received through the allowed transitions to Done or Errored; it ends in Errored exactly when the reply is an error. It passes through Routing(ToClean) exactly when the scan is clean, and through Routing(ToQuarantine) exactly when the scan finds something |
| `ScanService.PhasesOfEachPath` | appengine-malwarescanningservice-node/server.js:51-98 | a failed download goes Received, Downloading, Errored. A failed scan goes Received, Downloading, Scanning, Errored. A scanned file goes Received, Downloading, Scanning, then the verdict's Routing state, then Done, or Errored when the move fails |
| `ScanService.ServePreservesObjects` | appengine-malwarescanningservice-node/server.js:49-99 | over any sequence of requests, no stored object name is lost or created |
| `ScanService.ServeLeavesNoStagedFiles` | appengine-malwarescanningservice-node/server.js:95-110 | if the staging directory starts empty and every unlink succeeds, it is empty after any sequence of requests |
| `ScanService.HandleAsWritten` | appengine-malwarescanningservice-node/server.js:49-99 | as written, a request issues the same calls as the intended route except the final unlink. The buckets end as in the intended route and no object name is lost. A reply, when one is sent, is the intended one |
| `ScanService.AsWrittenNeverCleansUp` | appengine-malwarescanningservice-node/server.js:89-98 | as written, no unlink is ever issued and a downloaded file stays staged. A request gets no reply exactly when the intended route would reply with an error |
| `ScanService.CleanUploadLeavesStagedCopy` | appengine-malwarescanningservice-node/server.js:49-99 | for a clean `invoice.pdf`, the code as written leaves `/unscanned_files/invoice.pdf` behind, while the intended route replies `clean` and deletes it |
| `ScanService.ScanServer.constructor` | appengine-malwarescanningservice-node/server.js:26-36 | a server starts with the given bucket contents, an empty staging directory and no calls issued |
| `ScanService.ScanServer.DownloadFile` | appengine-malwarescanningservice-node/server.js:58-62 | the download is recorded. It fails with the injected fault, or with "no such object" when the object is missing. Otherwise the destination file is staged |
| `ScanService.ScanServer.ScanFile` | appengine-malwarescanningservice-node/server.js:66 | the scan of the path is recorded, and the result is the scanner's reply or its failure |
| `ScanService.ScanServer.MoveProcessedFile` | appengine-malwarescanningservice-node/server.js:112-117 | the move from the unscanned bucket to the verdict's destination is recorded. On success the object leaves the unscanned bucket for exactly that bucket. On failure nothing changes |
| `ScanService.ScanServer.DeleteLocalCopy` | appengine-malwarescanningservice-node/server.js:102-110 | the unlink is recorded; the staged file is removed unless the unlink fails, and a failure is not reported to the caller |
| `ScanService.ScanServer.TryScan` | appengine-malwarescanningservice-node/server.js:51-88 | the `try` block, step by step, leaves the buckets, the staging directory, the call log and the state as `TryBlock` says, and yields its reply or the error it throws |
| `ScanService.ScanServer.HandleScan` | appengine-malwarescanningservice-node/server.js:49-99 | the route, step by step, leaves the buckets, the staging directory, the call log and the final state as `Handle` says, and returns `Handle`'s reply |
| `ScanTrigger.BuildOptions` | function-scantrigger-node/index.js:35-44 | the request is a JSON POST to SCAN_SERVICE_URL whose body has `filename` = the object's name, `bucketname` = its bucket, and `location` = `gs://` + bucket + `/` + name |
| `ScanTrigger.LocationIdentifiesObject` | function-scantrigger-node/index.js:39 | bucket names contain no '/', so the `location` determines both the bucket and the object name |
| `ScanTrigger.BuildOptionsInjective` | function-scantrigger-node/index.js:38-42 | for buckets whose names contain no '/', two objects get the same `location` exactly when they are the same object |
| `ScanTrigger.ScanTrigger.constructor` | function-scantrigger-node/index.js:37 | a new trigger targets the configured SCAN_SERVICE_URL and has sent and logged nothing |
| `ScanTrigger.Dispatch` | function-scantrigger-node/index.js:46-52 | an event sends at most one request. It sends exactly one when its type is `google.storage.object.finalize`, and that request is the one built for the event's object |
| `ScanTrigger.Report` | function-scantrigger-node/index.js:46-55 | a finalize event is logged as a success or, when the request fails, as a caught error naming the file; any other event is logged as "not an upload" |
| `ScanTrigger.ScanTrigger.RequestMalwareScan` | function-scantrigger-node/index.js:27-56 | the handler adds `Dispatch`'s requests (one or none) to those sent, adds `Report`'s line to the log, and never raises |
| `StdoutJsonLog.Or` | images/clamav-worker/bunyanStdoutJsonLog.js:30-31 | the logical or of `a` and `b` is one of its operands; it is `a` when `a` is truthy and `b` when `a` is falsy, and it is truthy exactly when one operand is |
| `StdoutJsonLog.LogNameOption` | images/clamav-worker/bunyanStdoutJsonLog.js:28-31 | `logName` is the option's `logName` when the options and that option are truthy, and `'bunyan_log'` otherwise; it is always truthy |
| `StdoutJsonLog.ResourceOption` | images/clamav-worker/bunyanStdoutJsonLog.js:30-32 | `resource` is the option's `resource`, or undefined when the options are missing or falsy |
| `StdoutJsonLog.FormatFields` | images/clamav-worker/bunyanStdoutJsonLog.js:59-79 | a truthy `message` leaves `message` and `msg` alone. Otherwise a truthy `err.stack` becomes `message` and `msg` is kept. Otherwise a truthy `msg` is moved to `message`. A truthy `time` is moved to `timestamp`; a falsy one leaves both keys alone. `resource` is the instance's resource, `severity` is the lookup of `level`, and every other property is unchanged |
| `StdoutJsonLog.FormatIdempotent` | images/clamav-worker/bunyanStdoutJsonLog.js:51-81 | formatting a record that has already been formatted changes nothing |
| `StdoutJsonLog.WriteArguments` | images/clamav-worker/bunyanStdoutJsonLog.js:93-98 | a string second argument is the encoding and the third is the callback; otherwise there is no encoding (`null`) and the second argument is the callback |
| `StdoutJsonLog.BunyanStdoutJsonLog.constructor` | images/clamav-worker/bunyanStdoutJsonLog.js:28-33 | a new stream has the `logName` and `resource` the options give, and has written nothing |
| `StdoutJsonLog.BunyanStdoutJsonLog.Stream` | images/clamav-worker/bunyanStdoutJsonLog.js:42-44 | `stream(level)` declares a `raw` stream at that level that writes to this instance |
| `StdoutJsonLog.BunyanStdoutJsonLog.Line` | images/clamav-worker/bunyanStdoutJsonLog.js:80 | a formatted entry is the serialised record followed by one `"\n"` |
| `StdoutJsonLog.BunyanStdoutJsonLog.FormatEntry` | images/clamav-worker/bunyanStdoutJsonLog.js:51-81 | a string record is rejected with the "only works as a raw bunyan stream type" error; a raw record is rewritten in place as `FormatFields` says, and its line is returned |
| `StdoutJsonLog.BunyanStdoutJsonLog.Write` | images/clamav-worker/bunyanStdoutJsonLog.js:89-101 | a raw record is formatted, and one write of its line, with the encoding and callback `WriteArguments` picks, goes to stdout; a string record raises and nothing is written |

## Findings

| source | as written | input that shows it | evidently intended | confidence | as-written member | corrected member |
|---|---|---|---|---|---|---|
| appengine-malwarescanningservice-node/server.js:52 | `filename` is declared with `let` inside `try`; the reads in `catch` (line 90) and `finally` (line 97) are out of scope and throw a ReferenceError | `filename` "invoice.pdf", scanner reply "stream: OK": the reply `clean` is sent, then `finally` throws before `deleteLocalCopy`, so `/unscanned_files/invoice.pdf` stays. Any failing request: `catch` throws before the 500 reply is sent | `filename` is fixed for the whole request; the error reply is sent and the staged copy is deleted on every path | high (not executed) | `ScanService.CleanUploadLeavesStagedCopy` | `ScanService.Handle` |

## Left out

- The Express app, `bodyParser`, `app.listen` and the port are HTTP plumbing. Console logging is left out too, except the trigger's final log line.
- The clamd socket protocol is not modelled. The scanner is an oracle: it returns a reply string or fails.
- Storage client internals are not modelled: the downloaded bytes, how atomic a move is, and what `storage.bucket("gs://" + name)` resolves to. The model takes that name to identify the clean or quarantined bucket. A blocked step fails and changes nothing. The text of the "no such object" error is a stand-in.
- Objects are identified by name. A move onto a bucket that already holds an object with the same name replaces that object. The model's sets of names do not show the replaced object, so `ObjectsPreserved` and `ServePreservesObjects` are about object names, not stored objects.
- The three bucket variables (UNSCANNED_BUCKET, CLEAN_BUCKET, QUARANTINED_BUCKET) are taken to name three distinct buckets. If two of them name the same bucket, the model's three sets no longer match what storage holds.
- A download that fails is taken to leave nothing in the staging directory. Partial files are not modelled.
- The source has no request validation, so none is modelled. This also covers a missing `filename`: the route would use the text "undefined", and the storage call decides what happens. The model takes `filename` as a string, and a rejected download is an injected fault.
- `fs.unlink` runs without being awaited. The model puts it at the end of the request. Concurrent requests, and their races on one staging path, are concurrency and are not modelled.
- `request-promise` transport details are not modelled. A request either succeeds or fails, with no further detail.
- The trigger's log lines of the event id, type, bucket and name are logging only, and are not modelled.
- The contents of `BUNYAN_TO_STACKDRIVER`, `Number()`, and the output format and key order of `JSON.stringify` are foreign functions. `process.stdout.write` and the `Writable` machinery are foreign too. The severity lookup and serialisation are uninterpreted functions, and writes are recorded as calls.
- Some JavaScript values are simplified. Numbers are reals, so there is no `-0` and no `Infinity`. Property reads on primitives give `undefined`. A record passed to `formatEntry_` is either a string or an object. Other primitives, and strict-mode errors from assigning to them, are not modelled.
- The route does not check that `filename` is present, and it decides clean or infected by `result.indexOf('OK') > -1` inside the route (server.js:67). The model does the same.
- `Strings.IndexOf`: indexes are counted in Unicode scalar values, not in the UTF-16 code units JavaScript uses. For a string with characters outside the Basic Multilingual Plane the index differs (`"😀OK".indexOf("OK")` is 2 in JavaScript and 1 in the model). The route only tests whether the index is above -1, which both agree on.
- `StdoutJsonLog.BunyanStdoutJsonLog.Write`: `JSON.stringify` is taken to be total. In JavaScript it throws on a cyclic record (or one holding a `BigInt`); `write` then raises after the record was rewritten and writes nothing. That failure is not modelled.
