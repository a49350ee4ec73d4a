# docledger contract, modelled in Dafny

The docledger chaincode is a Hyperledger Fabric smart contract that keeps
student-document records (`StudentDoc{DocStatus, Owner}`) in the peer's
key-value ledger. `Invoke` dispatches on a function name to seven handlers:

- `queryStudentDoc` reads one key;
- `initLedger` writes nine seed records;
- `createStudentDoc` writes one record;
- `changeStudentDocOwner` and `changeStudentDocStatus` read, modify and write back one record;
- `queryAllStudentDocs` and `getHistoryForStudentDoc` turn a range scan or a key's history into a JSON array, built by hand.

The model has two layers.

- **Module `Contract`** is the pure meaning. Each handler is a function
  from the ledger state, the arguments and the host's scans to an `Outcome`.
  An `Outcome` holds the response and the ordered list of `PutState` calls
  the handler makes. The ledger afterwards is `Types.Apply(state, puts)`, so
  "writes nothing" means `puts == []`.
- **Module `Chaincode`** is the code as the peer runs it. A `Stub` class
  holds the ledger map and the log of `PutState` calls. The handler methods
  mirror the Go code: the seeding `while` loop, and the scanning loops that
  append to a buffer and use a "member already written" flag to place commas.
  Each method is proved to produce exactly the `Contract` outcome.

Module `Properties` proves, over `Contract.Invoke`, what the contract
promises: dispatch, argument counts, the effects of the writing handlers and
the shape of the two JSON arrays. Modules `Types`, `Text`, `Scan` and
`Entries` hold the values, the string helpers (join, `strconv.Itoa`,
`strconv.FormatBool`), the reading of an iterator up to its first error, and
the JSON array members together with parsers that read them back.

The host is a parameter, not code in this model:

- the ledger is the `Stub`'s map;
- a scan is given as `Result<seq<Result<T>>>`: the error from opening the
  iterator, or the sequence of results its `Next()` calls return, any of
  which may be an error;
- the function name and arguments are parameters of `Invoke`.

The seed keys are `StudentDoc0` to `StudentDoc8`, and `queryAllStudentDocs`
scans `StudentDoc0` to `StudentDoc999`.

## Model

| member | source | states |
|---|---|---|
| `Contract.RouteName` | docledger/chaincode_docledger/docledger.go:69-83 | A name reaches handler `f` exactly when it equals `f`'s Go name. A name reaches no handler exactly when it differs from all seven names. |
| `Properties.UnknownFunction` | docledger/chaincode_docledger/docledger.go:85 | An unrecognised name gets the error `name + ": Invalid Smart Contract function name."` and nothing is written. |
| `Properties.KnownFunction` | docledger/chaincode_docledger/docledger.go:69-83 | Each handler's name runs that handler, whatever the arguments. |
| `Properties.WrongArgumentCount` | docledger/chaincode_docledger/docledger.go:90-221 | A count outside the handler's arity gets `"Incorrect number of arguments. Expecting " + n` and nothing is written. The arities are query exactly 1, create 3, changeOwner 2, changeStatus 3, history at least 1. |
| `Properties.RightArgumentCount` | docledger/chaincode_docledger/docledger.go:88-215 | With an accepted count, every handler that does not scan answers success. |
| `Properties.ScanFailuresComeFromHost` | docledger/chaincode_docledger/docledger.go:142-242 | With an accepted count, a scanning handler's error message is the open error or the error of some step of its scan. |
| `Properties.CreateThenQuery` | docledger/chaincode_docledger/docledger.go:88-135 | `createStudentDoc([k, s, o])` makes one put and leaves `state[k := {s, o}]`, overwriting any old value. A following `queryStudentDoc([k])` returns that value as stored and writes nothing. |
| `Properties.QueryAbsent` | docledger/chaincode_docledger/docledger.go:94-95 | Querying an absent key succeeds with no bytes. |
| `Properties.SeedKeySpelling` | docledger/chaincode_docledger/docledger.go:115 | Seed key `i` for `i < 9` is `"StudentDoc"` followed by the single digit `i`. |
| `Properties.SeedKeysDistinct` | docledger/chaincode_docledger/docledger.go:115 | Different counters give different seed keys. |
| `Properties.InitLedgerPuts` | docledger/chaincode_docledger/docledger.go:98-121 | `initLedger` succeeds after exactly 9 puts; the i-th writes the i-th hard-coded record under `"StudentDoc"+i`. |
| `Properties.InitLedgerEffect` | docledger/chaincode_docledger/docledger.go:111-118 | After `initLedger` each seed key holds its record and every other key is unchanged. |
| `Properties.ChangeOwnerEffect` | docledger/chaincode_docledger/docledger.go:180-196 | `changeStudentDocOwner([k, o])` writes only `k`, with owner `o` and the stored status. The status is `""` when `k` is absent or undecodable. |
| `Properties.ChangeStatusEffect` | docledger/chaincode_docledger/docledger.go:198-215 | `changeStudentDocStatus([k, o, s])` writes only `k`, with owner `o` and status `s`, whatever was stored there. |
| `Properties.ChangeStatusIsCreateSwapped` | docledger/chaincode_docledger/docledger.go:123-215 | `changeStudentDocStatus(k, a, b)` has the same outcome as `createStudentDoc(k, b, a)`, on any ledger. |
| `Properties.QueryAllMembers` | docledger/chaincode_docledger/docledger.go:137-178 | An error-free range scan gives `"["` + the members joined by `","` + `"]"`, in scan order, and writes nothing; an empty scan gives `"[]"`. Each member whose key has no quote parses back to its key and value. |
| `Properties.QueryAllStepError` | docledger/chaincode_docledger/docledger.go:153-157 | When a range-scan step fails after successful ones, the response is that step's error; the partial buffer is dropped. |
| `Properties.HistoryMembers` | docledger/chaincode_docledger/docledger.go:217-280 | An error-free history gives its members in history order and writes nothing. Each member with a quote-free txId and timestamp parses back to its modification; the value reads `null` for a deletion and the raw value otherwise. |
| `Properties.HistoryStepError` | docledger/chaincode_docledger/docledger.go:238-242 | When a history step fails after successful ones, the response is that step's error. |
| `Properties.HistoryIgnoresExtraArguments` | docledger/chaincode_docledger/docledger.go:219-223 | The history handler uses only `args[0]`; arguments after it change nothing. |
| `Properties.ArrayResponseOf` | docledger/chaincode_docledger/docledger.go:149-173 | A scan whose steps all succeed gives the JSON array of all of its members. |
| `Properties.ArrayResponseError` | docledger/chaincode_docledger/docledger.go:153-157 | The first failing step's error is the response. |
| `Types.Marshal` | docledger/chaincode_docledger/docledger.go:114 | `json.Marshal` of a record: decoding its bytes gives the same record back. |
| `Types.Unmarshal` | docledger/chaincode_docledger/docledger.go:187-189 | `json.Unmarshal` into a zero `StudentDoc{}` with its error dropped: absent or undecodable bytes leave the zero record; any other result is the record those bytes encode. |
| `Types.Get` | docledger/chaincode_docledger/docledger.go:94 | `GetState`: bytes come back exactly when the key is present, and they are the stored bytes. |
| `Types.Apply` | docledger/chaincode_docledger/docledger.go:115 | The ledger after a sequence of `PutState` calls: its keys are the old keys plus every key written. |
| `Text.Itoa` | docledger/chaincode_docledger/docledger.go:115 | `strconv.Itoa` of a counter: at least one character, all decimal digits, and no leading zero. |
| `Text.FormatBool` | docledger/chaincode_docledger/docledger.go:269 | `strconv.FormatBool`: `"true"` exactly for `true`, otherwise `"false"`. |
| `Scan.Collect` | docledger/chaincode_docledger/docledger.go:153-157 | Reading an iterator to the end. A success delivers one value per step. |
| `Entries.RecordEntry` | docledger/chaincode_docledger/docledger.go:162-170 | One range-scan member: it starts with `{"Key":"`, ends with `}`, and is the key and value plus the fixed markers long. |
| `Entries.HistoryEntry` | docledger/chaincode_docledger/docledger.go:247-272 | One history member: it starts with `{"TxId":"`. |
| `Contract.InvalidName` | docledger/chaincode_docledger/docledger.go:85 | The unknown-name message starts with the name the client passed, and continues after it. |
| `Contract.SeedKey` | docledger/chaincode_docledger/docledger.go:115 | `"StudentDoc"+strconv.Itoa(i)`: the key starts with `StudentDoc`, and the rest reads back as `i`. |
| `Contract.SeedPut` | docledger/chaincode_docledger/docledger.go:99-115 | The i-th seeding put: under `SeedKey(i)`, with bytes that decode to the i-th of the nine hard-coded records. |
| `Text.Join` | docledger/chaincode_docledger/docledger.go:158-161 | Members joined by the separator: no members give `""`; otherwise the text starts with the first member. |
| `Text.JsonArray` | docledger/chaincode_docledger/docledger.go:150-173 | `"["`, the members joined by `","`, `"]"`; no members give `"[]"`. |
| `Entries.ValueText` | docledger/chaincode_docledger/docledger.go:253-260 | The Value member's text: `null` for a deletion, the raw value otherwise. |
| `Chaincode.Stub.GetState` | docledger/chaincode_docledger/docledger.go:94 | The ledger read: bytes come back exactly when the key is present, and they are the stored bytes. |
| `Contract.Route` | docledger/chaincode_docledger/docledger.go:69-83 | The if/else chain on the function name: a handler is found only for its own name. |
| `Contract.Handle` | docledger/chaincode_docledger/docledger.go:69-83 | Runs the handler found. Only `initLedger`, `createStudentDoc`, `changeStudentDocOwner` and `changeStudentDocStatus` can write. |
| `Contract.Invoke` | docledger/chaincode_docledger/docledger.go:64-86 | The meaning of `Invoke`. An unknown name gets an error and writes nothing; only the four writing names ever write. |
| `Contract.Init` | docledger/chaincode_docledger/docledger.go:56-58 | `Init` succeeds and writes nothing. |
| `Contract.QueryStudentDoc` | docledger/chaincode_docledger/docledger.go:88-96 | Writes nothing. Succeeds exactly on one argument, and then returns the stored bytes of a present key as they are. |
| `Contract.InitLedger` | docledger/chaincode_docledger/docledger.go:98-121 | Succeeds with no payload after exactly nine puts. |
| `Contract.CreateStudentDoc` | docledger/chaincode_docledger/docledger.go:123-135 | Succeeds exactly on three arguments. It then makes one put, under `args[0]`, of bytes that decode to `{args[1], args[2]}`; on an error it writes nothing. |
| `Contract.ArrayResponse` | docledger/chaincode_docledger/docledger.go:142-177 | A scan that cannot be opened gives the host's error. A success carries text that starts with `[`. |
| `Contract.QueryAllStudentDocs` | docledger/chaincode_docledger/docledger.go:137-178 | Writes nothing. When the range scan cannot be opened, the host's error is the response. |
| `Contract.ChangeStudentDocOwner` | docledger/chaincode_docledger/docledger.go:180-196 | Succeeds exactly on two arguments. It then makes one put, under `args[0]`, of bytes that decode to the stored status (or `""`) with owner `args[1]`; on an error it writes nothing. |
| `Contract.ChangeStudentDocStatus` | docledger/chaincode_docledger/docledger.go:198-215 | Succeeds exactly on three arguments. It then makes one put, under `args[0]`, of bytes that decode to status `args[2]` and owner `args[1]`; on an error it writes nothing. |
| `Contract.GetHistoryForStudentDoc` | docledger/chaincode_docledger/docledger.go:217-280 | Writes nothing. With no argument it answers `"Incorrect number of arguments. Expecting 1"`; when the history cannot be opened, the host's error is the response. |
| `Properties.QueryAllOpenError` | docledger/chaincode_docledger/docledger.go:142-145 | When `GetStateByRange` fails, `queryAllStudentDocs` answers with that error and writes nothing. |
| `Properties.HistoryOpenError` | docledger/chaincode_docledger/docledger.go:227-230 | When `GetHistoryForKey` fails, `getHistoryForStudentDoc` answers with that error and writes nothing. |
| `Types.ApplyUntouched` | docledger/chaincode_docledger/docledger.go:132 | A key that no `PutState` names keeps its presence and its value. |
| `Types.ApplyLastWrite` | docledger/chaincode_docledger/docledger.go:132 | The last `PutState` to a key decides its value. |
| `Text.JoinSnoc` | docledger/chaincode_docledger/docledger.go:158-161 | Adding one member adds a comma exactly when a member was already written. This ties the join to the flag-driven writer. |
| `Text.AtoiItoa` | docledger/chaincode_docledger/docledger.go:115 | Reading back `strconv.Itoa(n)` gives `n`, for every `n >= 0`. |
| `Text.ItoaInjective` | docledger/chaincode_docledger/docledger.go:115 | `strconv.Itoa` maps different counters to different strings. |
| `Scan.CollectOk` | docledger/chaincode_docledger/docledger.go:153-157 | Reading an iterator to the end succeeds exactly when no step failed, and then it yields every step's value in order. |
| `Scan.CollectDelivering` | docledger/chaincode_docledger/docledger.go:153-157 | Reading steps that all succeed gives back their values. |
| `Scan.CollectErrorPersists` | docledger/chaincode_docledger/docledger.go:154-157 | Once a step has failed, later steps do not change the result. |
| `Scan.FirstError` | docledger/chaincode_docledger/docledger.go:154-157 | A scan that fails after some successful steps reports the failing step's message. |
| `Entries.ParseRecordEntryOf` | docledger/chaincode_docledger/docledger.go:162-170 | For a quote-free key, `{"Key":"k", "Record":v}` parses back to `(k, v)`. |
| `Entries.ParseHistoryEntryOf` | docledger/chaincode_docledger/docledger.go:247-272 | For a quote-free txId and timestamp, a history member parses back to txId, value text, timestamp and flag. The value text is `null` exactly for a deletion and the raw value otherwise; `IsDelete` reads back as the quoted `"true"` or `"false"`. |
| `Chaincode.Stub.PutState` | docledger/chaincode_docledger/docledger.go:132 | Stores the value under the key and appends the call to the write log. |
| `Chaincode.Init` | docledger/chaincode_docledger/docledger.go:56-58 | Returns the response of `Contract.Init`: success with no payload. It has no `modifies` clause, so it writes nothing. |
| `Chaincode.Invoke` | docledger/chaincode_docledger/docledger.go:64-86 | The if/else dispatch: the response, ledger and write log are exactly those of `Contract.Invoke`. |
| `Chaincode.QueryStudentDoc` | docledger/chaincode_docledger/docledger.go:88-96 | Answers as `Contract.QueryStudentDoc`: the stored value as it is, or no bytes. It reads only. |
| `Chaincode.InitLedger` | docledger/chaincode_docledger/docledger.go:98-121 | The `while` loop over the nine seed records makes exactly the puts of `Contract.InitLedger`, in order. |
| `Chaincode.CreateStudentDoc` | docledger/chaincode_docledger/docledger.go:123-135 | Has the outcome of `Contract.CreateStudentDoc`. |
| `Chaincode.QueryAllStudentDocs` | docledger/chaincode_docledger/docledger.go:137-178 | The buffer loop with its "already written" flag returns exactly `Contract.QueryAllStudentDocs`: the JSON array, or the first error. It writes nothing. |
| `Chaincode.ChangeStudentDocOwner` | docledger/chaincode_docledger/docledger.go:180-196 | The read-modify-write; the decode error is ignored. Its outcome is that of `Contract.ChangeStudentDocOwner`. |
| `Chaincode.ChangeStudentDocStatus` | docledger/chaincode_docledger/docledger.go:198-215 | The read-modify-write: owner, then status. Its outcome is that of `Contract.ChangeStudentDocStatus`. |
| `Chaincode.GetHistoryForStudentDoc` | docledger/chaincode_docledger/docledger.go:217-280 | The history buffer loop returns exactly `Contract.GetHistoryForStudentDoc`. It writes nothing. |
| `Chaincode.WriteRecordMember` | docledger/chaincode_docledger/docledger.go:162-170 | The `WriteString` calls of one range member append exactly `Entries.RecordEntry`. |
| `Chaincode.WriteHistoryMember` | docledger/chaincode_docledger/docledger.go:247-272 | The `WriteString` calls of one history member append exactly `Entries.HistoryEntry`. |
| `Chaincode.WriteTxIdAndValue` | docledger/chaincode_docledger/docledger.go:247-260 | Appends the TxId part, then `null` for a deletion or the raw value otherwise. |
| `Chaincode.WriteTimestampAndIsDelete` | docledger/chaincode_docledger/docledger.go:262-272 | Appends the quoted timestamp, the quoted `true`/`false` and the closing brace. |
| `Chaincode.ArrayStep` | docledger/chaincode_docledger/docledger.go:158-171 | One loop turn (comma if a member was already written, then the member) extends the buffer to the next prefix of the array. |

## Left out

- Host platform: the ledger's persistence, endorsement and commit are not modelled. The keys a range scan returns, their order and the inclusive/exclusive bounds of `GetStateByRange("StudentDoc0", "StudentDoc999")` belong to the host. The scan results are an input, so "seed, then query all" is not a theorem of this model.
- `GetState` errors: the model's `Get` has no failure case, so a failing `GetState` on a present key cannot be expressed. In the code such a failure leaves the bytes nil. Two outcomes of that are not modelled: `queryStudentDoc` then answers success with no bytes, and `changeStudentDocOwner` then writes the record with an empty status over the stored one.
- `PutState` errors: the code ignores them. The model's `PutState` always succeeds.
- `Unmarshal`: JSON encoding is abstracted. Stored bytes are either a `StudentDoc` or undecodable, and undecodable bytes always give the zero record. Partial decoding of well-formed JSON of another shape (for example an object with only `owner`) is not modelled.
- `Entries.ParseRecordEntryOf`: requires a key with no double quote, because the code writes keys without escaping. The same holds for the txId and timestamp in `Entries.ParseHistoryEntryOf`. Values need no such condition, but nothing proves the whole array is well-formed JSON.
- Bytes: the values that `bytes.Buffer.WriteString` copies into the arrays byte for byte are modelled as strings of characters. Byte sequences that are not valid UTF-8 are not represented.
- Timestamps: the `time.Unix(...).String()` formatting depends on locale and time zone. The formatted string is an opaque field of each history result.
- `Text.Itoa`: models `strconv.Itoa` only for non-negative integers, the only ones the seeding loop passes.
- Logging: the `fmt.Println`/`Printf` traces are not modelled.
- Start-up: `main` and `shim.Start` are not modelled.
- Iterator `Close` (the deferred calls) releases a host resource and is not observable here.
- Responses: the numeric status codes of `shim.Success` and `shim.Error` appear only as the two constructors of `Response`.
