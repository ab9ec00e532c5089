# HDFS message pipe: retry wrapper, filesystem adapter and polling consumer

This project models the HDFS transport of storagetapper's message pipe
(`pipe/hdfs.go`). It has three parts:

- the retry wrapper `withRetry` and its classifier `retriable`. An HDFS
  operation whose error text names `org.apache.hadoop.ipc.StandbyException` or
  `org.apache.hadoop.ipc.RetriableException` is called again after 100 ms. This
  repeats for at most `retryTimeout*10` retries, which is 100 with the default
  `retryTimeout` of 10 seconds. A nil result or any other error ends the loop
  at once;
- the `hdfsClient` adapter. `OpenRead` opens a file and then seeks it.
  `OpenWrite` appends, and creates the file only if the append failed.
  `MkdirAll`, `Rename`, `Remove` and `Close` are each one client call run
  through the retry wrapper;
- the consumer loops `waitAndOpenNextFile` and `FetchNext`. The consumer asks
  discovery (`nextFile`) for the next file of its topic:
  - a discovery error is stored in the consumer's `err` field and reported as
    "message available";
  - a non-empty name without the `.open` suffix is opened at offset 0;
  - anything else (an empty name, or a name of a file still being written)
    makes the consumer sleep 200 ms and poll again.

The HDFS client is not part of this model. It is an oracle, `Client.Hdfs`, with
one function per client call. The calls made through the retry wrapper give
one outcome per attempt (`Retry.Operation`, from attempt number to nil or
error). The collaborators `nextFile` and `fetchNextLow` live in files that are
not part of this model. They are scripts held by the consumer object: the
answers they will give, in order. The call to `openFile(name, 0)` is modelled
by its effect on the cursor: the file becomes the current `name` and is added
to the list of files opened, with its offset.

The source's `for {}` loops poll without bound. In the model, each iteration
uses up one scripted answer, and a loop returns `None` when its script runs out
while the real loop would keep going. Go's `bool` results are `Some(true)` and
`Some(false)`.

Modules: `Errors` holds Go errors and the nil-or-value results.
`Strings` holds `strings.HasPrefix`, `HasSuffix` and `Contains`. `Retry`,
`Client` and `Consumer` hold the three parts above.

The source's own comment shows an intent that the code does not carry out.
The comment on `FetchNext`'s `return false` (pipe/hdfs.go:163) reads "context
canceled, no message". It expects `waitAndOpenNextFile` to return false once
the consumer is canceled. That function (pipe/hdfs.go:137-154) has no
`return false`. Its loop exits only on a discovery error or after opening a
file. An empty name is treated like an in-progress file: the loop sleeps and
polls again. The model follows the code as written.
`Consumer.FetchNeverFalse` proves that the `return false` at line 163 cannot
be reached.

## Model

| member | source | states |
|---|---|---|
| `Strings.ContainsIff` | pipe/hdfs.go:65-66 | the `strings.Contains` scan succeeds exactly when the substring occurs at some position of the text |
| `Strings.Contains` | pipe/hdfs.go:65-66 | the `strings.Contains` scan: a prefix match is found, and nothing longer than the text is found (its full meaning is `Strings.ContainsIff`) |
| `Strings.HasSuffix` | pipe/hdfs.go:145 | `strings.HasSuffix`: true exactly when the text is some string followed by the suffix |
| `Retry.Retriable` | pipe/hdfs.go:64-67 | an error is retriable exactly when its text contains the StandbyException or the RetriableException class name, in either direction |
| `Retry.EmbeddedMarkerIsRetriable` | pipe/hdfs.go:64-67 | a message with either marker anywhere inside it, whatever text surrounds it, is retriable |
| `Retry.ShortMessageIsPermanent` | pipe/hdfs.go:64-67 | a message too short to hold either marker (such as a missing-file error) is not retriable |
| `Retry.WithRetry` | pipe/hdfs.go:69-76 | makes between 1 and `retryTimeout*10 + 1` calls. Every call before the last failed retriably. It returns the last call's result. It stopped on a nil or non-retriable result, or with the budget spent. Total sleep is 100 ms times (calls − 1) |
| `Retry.RetryRunUnique` | pipe/hdfs.go:69-76 | the run is determined by the operation: two runs that meet the wrapper's contract make the same number of calls and return the same result |
| `Retry.FirstSuccessEndsRetry` | pipe/hdfs.go:70-75 | if the first nil result comes at call k+1 (within the budget, after only retriable errors), exactly k+1 calls are made and nil is returned |
| `Retry.PermanentErrorNotRetried` | pipe/hdfs.go:70-71 | a non-retriable error from the first call is returned after exactly one call and no sleep |
| `Retry.TransientResultSpentBudget` | pipe/hdfs.go:71-75 | if the returned error is retriable, exactly `retryTimeout*10 + 1` calls were made and the time slept is the whole budget of `retryTimeout` seconds |
| `Retry.AlwaysTransientUsesDefaultBudget` | pipe/hdfs.go:62-76 | with the default timeout, an operation that always fails retriably is called 101 times, sleeps 10 000 ms, and its 101st error is returned |
| `Retry.DefaultRetryBounds` | pipe/hdfs.go:62-76 | with the default timeout, at most 101 calls and at most 10 000 ms of sleep |
| `Client.OpenRead` | pipe/hdfs.go:40-52 | the first call is always Open. Seek is called if and only if Open succeeded. An Open error or a Seek error is returned unchanged, with no handle. On success the returned handle is the opened file, positioned at `offset` |
| `Client.OpenWrite` | pipe/hdfs.go:54-60 | the first call is always Append. Create is called if and only if Append failed. The result is Append's result if Append succeeded, otherwise Create's result. The returned seeker is always nil |
| `Client.MkdirAll` | pipe/hdfs.go:78-80 | the outcome meets the retry wrapper's contract for the client's mkdir under the default timeout |
| `Client.Rename` | pipe/hdfs.go:82-84 | the outcome meets the retry wrapper's contract for the client's rename under the default timeout |
| `Client.Remove` | pipe/hdfs.go:86-88 | the outcome meets the retry wrapper's contract for the client's remove under the default timeout |
| `Client.Close` | pipe/hdfs.go:90-92 | the outcome meets the retry wrapper's contract for closing the handle under the default timeout |
| `Consumer.Openable` | pipe/hdfs.go:145 | a name the loop opens is non-empty, and no name of the form `<base>.open` is ever opened |
| `Consumer.Poll` | pipe/hdfs.go:137-153 | the polling loop ends on the first answer that is a discovery error or a non-empty name without `.open`. Every earlier answer was an empty or in-progress name. If no such answer exists, it does not end within the answers |
| `Consumer.Wait` | pipe/hdfs.go:137-154 | `waitAndOpenNextFile` never returns false. It returns true unless every answer was empty or in progress. When the poll ends on a discovery error, it stores that error and opens nothing. When the poll ends on a finalized name, it opens that one file at offset 0 and leaves `err` alone. Opened files stay finalized |
| `Consumer.InProgressWaits` | pipe/hdfs.go:145 | a name ending in `.open` is never opened: the loop waits on it |
| `Consumer.WaitSkip` | pipe/hdfs.go:150-152 | an empty or in-progress answer costs one 200 ms backoff and otherwise leaves the result of the wait unchanged |
| `Consumer.WaitsUntilFinalized` | pipe/hdfs.go:138-153 | given any number of empty or in-progress answers followed by a finalized name, the loop opens that name, on the answer after the waiting ones |
| `Consumer.Fetch` | pipe/hdfs.go:157-169 | `FetchNext` consumes `fetchNextLow`'s answers in order, from the front |
| `Consumer.FetchNeverFalse` | pipe/hdfs.go:157-169 | `FetchNext` never returns false: the `return false` at line 163 cannot be reached |
| `Consumer.FetchTrueMeansMessageOrError` | pipe/hdfs.go:157-169 | when `FetchNext` returns true, either the last `fetchNextLow` answer it consumed was true or the consumer's `err` is set |
| `Consumer.FetchTrueOnMessage` | pipe/hdfs.go:159-160 | a true `fetchNextLow` answer makes `FetchNext` return true at once, with nothing else consumed or changed |
| `Consumer.FetchTrueOnErrorAfterWait` | pipe/hdfs.go:162-166 | after a false `fetchNextLow` answer, a wait that returns true with `err` set makes `FetchNext` return true in that state, also when `err` was left over from an earlier call |
| `Consumer.FetchStopsOnlyAtScriptEnd` | pipe/hdfs.go:157-169 | the model stops without an answer only once a script has run out: the loop itself never gives up |
| `Consumer.FetchOpensOnlyFinalized` | pipe/hdfs.go:145-146 | across a whole `FetchNext`, every file opened is finalized and opened at offset 0. Files already opened stay recorded in order |
| `Consumer.DiscoveryErrorSurfaces` | pipe/hdfs.go:139-143 | after an empty fetch, a discovery error makes `FetchNext` return true with that error stored in `err` |
| `Consumer.HdfsConsumer.WaitAndOpenNextFile` | pipe/hdfs.go:137-154 | the loop over the consumer's fields ends in the result and the state that `Consumer.Wait` gives for the old state, and keeps the invariant that every opened file is finalized and opened at offset 0 |
| `Consumer.HdfsConsumer.FetchNext` | pipe/hdfs.go:157-169 | the loop over the consumer's fields ends in the result and the state that `Consumer.Fetch` gives for the old state, and keeps the same invariant |

## Left out

- `initHdfsPipe`, the plugin registration in `init`, `Type`, `NewProducer` and `NewConsumer` (pipe/hdfs.go:104-135). These build the client and wire producers and consumers together. The consumer's constructor takes its scripts in place of `initConsumer`.
- The HDFS client library. Its calls are oracles, not a filesystem, so file contents, existence and lengths are not modelled.
- `nextFile`, `openFile`, `fetchNextLow` and `initConsumer` of the generic file pipe are not part of this model. `nextFile` and `fetchNextLow` are scripts, and their dependence on the topic and the current name is not modelled. Of `openFile`, only its effect on the cursor is modelled, not its reader setup or how it handles a failed open.
- `openFile` is assumed to set the consumer's current name (`p.name = nextFn`) and to record the file as opened at the given offset. Its body is not part of this model. Since discovery is a script, nothing in the model depends on `name`.
- Consumer.HdfsConsumer.WaitAndOpenNextFile: the real loop can poll forever. The model stops with `None` when the script of discovery answers runs out.
- Consumer.HdfsConsumer.FetchNext: likewise stops with `None` when either script runs out.
- Client.MkdirAll, Client.Rename, Client.Remove, Client.Close: use the initial value 10 of the package variable `retryTimeout`. `Retry.WithRetry` takes it as a parameter. Go's 64-bit overflow of `retryTimeout*10` is not modelled.
- Real time, `time.Sleep`, logging (`log.E`, `log.Infof`) and contexts. Sleeping is a millisecond counter.
- Reading and writing byte streams, record framing, encryption and compression.
