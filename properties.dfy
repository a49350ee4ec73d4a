/**
 * What the docledger contract guarantees, stated over whole invocations:
 * dispatch, argument counts, the effect of each writing handler on the
 * ledger, and the shape of the two JSON arrays.
 */
module Properties {
  import opened Types
  import opened Text
  import opened Scan
  import opened Entries
  import opened Contract

  // ----- dispatch -----

  /** A name that is none of the seven is refused with that name in the message, and nothing is written. */
  lemma UnknownFunction(state: map<string, Stored>, name: string, args: seq<string>, host: Host)
    requires forall f: Fn :: name != Name(f)
    ensures Invoke(state, name, args, host)
         == Outcome(Error(name + ": Invalid Smart Contract function name."), [])
  {
  }

  /** A handler's name reaches that handler, whatever the arguments. */
  lemma KnownFunction(f: Fn, state: map<string, Stored>, args: seq<string>, host: Host)
    ensures Invoke(state, Name(f), args, host) == Handle(f, state, args, host)
  {
  }

  // ----- argument counts -----

  /** How many arguments a handler accepts. */
  datatype Arity = Any | Exactly(n: nat) | AtLeast(n: nat)

  function ArityOf(f: Fn): Arity
  {
    match f
    case QueryOne => Exactly(1)
    case Seed => Any
    case Create => Exactly(3)
    case QueryAll => Any
    case ChangeOwner => Exactly(2)
    case ChangeStatus => Exactly(3)
    case History => AtLeast(1)
  }

  predicate Admits(a: Arity, count: nat)
  {
    match a
    case Any => true
    case Exactly(n) => count == n
    case AtLeast(n) => count >= n
  }

  /** A wrong argument count is refused with the handler's expected count, and nothing is written. */
  lemma WrongArgumentCount(f: Fn, state: map<string, Stored>, args: seq<string>, host: Host)
    requires !Admits(ArityOf(f), |args|)
    ensures ArityOf(f).Exactly? || ArityOf(f).AtLeast?
    ensures Invoke(state, Name(f), args, host)
         == Outcome(Error("Incorrect number of arguments. Expecting " + Itoa(ArityOf(f).n)), [])
  {
    KnownFunction(f, state, args, host);
    var prefix := "Incorrect number of arguments. Expecting ";
    assert Itoa(1) == "1" && prefix + "1" == Expecting1;
    assert Itoa(2) == "2" && prefix + "2" == Expecting2;
    assert Itoa(3) == "3" && prefix + "3" == Expecting3;
  }

  /** With an accepted count, every handler that does not scan succeeds. */
  lemma RightArgumentCount(f: Fn, state: map<string, Stored>, args: seq<string>, host: Host)
    requires Admits(ArityOf(f), |args|)
    requires f != QueryAll && f != History
    ensures Invoke(state, Name(f), args, host).response.Success?
  {
  }

  /** A scanning handler with an accepted count fails only with a message the host's scan produced. */
  lemma ScanFailuresComeFromHost(f: Fn, state: map<string, Stored>, args: seq<string>, host: Host)
    requires Admits(ArityOf(f), |args|)
    requires f == QueryAll || f == History
    requires Invoke(state, Name(f), args, host).response.Error?
    ensures var scanned := if f == QueryAll then ScanErrors(host.rangeScan(RangeStart, RangeEnd))
                           else ScanErrors(host.historyScan(args[0]));
            Invoke(state, Name(f), args, host).response.message in scanned
  {
    KnownFunction(f, state, args, host);
    if f == QueryAll {
      ArrayResponseErrors(host.rangeScan(RangeStart, RangeEnd), RecordEntry);
    } else {
      ArrayResponseErrors(host.historyScan(args[0]), HistoryEntry);
    }
  }

  /** Every error message a scan can produce: the open error, or the error of any step. */
  function ScanErrors<T>(scan: Result<seq<Result<T>>>): set<string>
  {
    match scan
    case Err(m) => {m}
    case Ok(steps) => set i | 0 <= i < |steps| && steps[i].Err? :: steps[i].message
  }

  lemma ArrayResponseErrors<T>(scan: Result<seq<Result<T>>>, member: T -> string)
    requires ArrayResponse(scan, member).Error?
    ensures ArrayResponse(scan, member).message in ScanErrors(scan)
  {
    if scan.Ok? {
      CollectErrorIsStepError(scan.value);
    }
  }

  /** The error Collect reports is the error of some step. */
  lemma {:induction false} CollectErrorIsStepError<T>(steps: seq<Result<T>>)
    requires Collect(steps).Err?
    ensures exists i :: 0 <= i < |steps| && steps[i] == Err(Collect(steps).message)
    decreases |steps|
  {
    var init := steps[..|steps| - 1];
    if Collect(init).Err? {
      CollectErrorIsStepError(init);
      var i :| 0 <= i < |init| && init[i] == Err(Collect(init).message);
      assert steps[i] == init[i];
    } else {
      assert steps[|steps| - 1] == Err(Collect(steps).message);
    }
  }

  // ----- create and query -----

  /**
   * createStudentDoc(key, status, owner) stores that record under key over
   * any previous value, touching no other key; a later queryStudentDoc(key)
   * returns it as stored and writes nothing.
   */
  lemma CreateThenQuery(state: map<string, Stored>, key: string, status: string, owner: string, host: Host)
    ensures var created := Invoke(state, "createStudentDoc", [key, status, owner], host);
            var after := Apply(state, created.puts);
            && created.response == Success(Nil)
            && created.puts == [Put(key, Doc(StudentDoc(status, owner)))]
            && after == state[key := Doc(StudentDoc(status, owner))]
            && Invoke(after, "queryStudentDoc", [key], host)
               == Outcome(Success(Raw(Doc(StudentDoc(status, owner)))), [])
  {
  }

  /** queryStudentDoc on a key never created returns no bytes. */
  lemma QueryAbsent(state: map<string, Stored>, key: string, host: Host)
    requires key !in state
    ensures Invoke(state, "queryStudentDoc", [key], host) == Outcome(Success(Nil), [])
  {
  }

  // ----- seeding -----

  /** The seed keys are "StudentDoc0" .. "StudentDoc8". */
  lemma SeedKeySpelling(i: nat)
    requires i < 9
    ensures SeedKey(i) == "StudentDoc" + [DigitChar(i)]
  {
  }

  lemma SeedKeysDistinct(i: nat, j: nat)
    requires i != j
    ensures SeedKey(i) != SeedKey(j)
  {
  }

  /**
   * initLedger succeeds after exactly nine PutState calls, the i-th writing
   * the i-th seed record under "StudentDoc" + i.
   */
  lemma InitLedgerPuts(state: map<string, Stored>, args: seq<string>, host: Host)
    ensures var o := Invoke(state, "initLedger", args, host);
            && o.response == Success(Nil)
            && |o.puts| == 9
            && (forall i :: 0 <= i < 9 ==> o.puts[i] == Put(SeedKey(i), Doc(SeedDocs[i])))
  {
  }

  /**
   * After initLedger each seed key holds its record and every other key is
   * as before.
   */
  lemma InitLedgerEffect(state: map<string, Stored>, args: seq<string>, host: Host)
    ensures var after := Apply(state, Invoke(state, "initLedger", args, host).puts);
            && (forall i :: 0 <= i < 9 ==> SeedKey(i) in after && after[SeedKey(i)] == Doc(SeedDocs[i]))
            && (forall k :: (forall i :: 0 <= i < 9 ==> k != SeedKey(i)) ==>
                  (k in after <==> k in state) && (k in state ==> after[k] == state[k]))
  {
    var puts := Invoke(state, "initLedger", args, host).puts;
    assert puts == InitLedger().puts;
    forall i | 0 <= i < 9
      ensures SeedKey(i) in Apply(state, puts) && Apply(state, puts)[SeedKey(i)] == Doc(SeedDocs[i])
    {
      forall k | i < k < |puts| ensures puts[k].key != puts[i].key {
        SeedKeysDistinct(i, k);
      }
      ApplyLastWrite(state, puts, i);
    }
    forall k | forall i :: 0 <= i < 9 ==> k != SeedKey(i)
      ensures (k in Apply(state, puts) <==> k in state) && (k in state ==> Apply(state, puts)[k] == state[k])
    {
      ApplyUntouched(state, puts, k);
    }
  }

  // ----- read-modify-write -----

  /**
   * changeStudentDocOwner(key, owner) writes only key: the new owner with the
   * stored status, or with an empty status when key is absent or its bytes
   * do not decode.
   */
  lemma ChangeOwnerEffect(state: map<string, Stored>, key: string, owner: string, host: Host)
    ensures var status := if key in state && state[key].Doc? then state[key].doc.docStatus else "";
            var o := Invoke(state, "changeStudentDocOwner", [key, owner], host);
            && o == Outcome(Success(Nil), [Put(key, Doc(StudentDoc(status, owner)))])
            && Apply(state, o.puts) == state[key := Doc(StudentDoc(status, owner))]
  {
  }

  /**
   * changeStudentDocStatus(key, owner, status) writes only key, with both
   * fields from the arguments: whatever was stored there does not matter.
   */
  lemma ChangeStatusEffect(state: map<string, Stored>, key: string, owner: string, status: string, host: Host)
    ensures var o := Invoke(state, "changeStudentDocStatus", [key, owner, status], host);
            && o == Outcome(Success(Nil), [Put(key, Doc(StudentDoc(status, owner)))])
            && Apply(state, o.puts) == state[key := Doc(StudentDoc(status, owner))]
  {
  }

  /** changeStudentDocStatus takes owner before status, createStudentDoc status before owner. */
  lemma ChangeStatusIsCreateSwapped(s1: map<string, Stored>, s2: map<string, Stored>, args: seq<string>, host: Host)
    requires |args| == 3
    ensures Invoke(s1, "changeStudentDocStatus", args, host)
         == Invoke(s2, "createStudentDoc", [args[0], args[2], args[1]], host)
  {
  }

  // ----- the JSON arrays -----

  /** A scan whose steps all succeed gives "[" + the members joined by "," + "]". */
  lemma ArrayResponseOf<T>(xs: seq<T>, member: T -> string)
    ensures ArrayResponse(Ok(Delivering(xs)), member) == Success(Text(JsonArray(Render(xs, member))))
  {
    CollectDelivering(xs);
  }

  /** A step that fails after successful ones ends the scan with its error; nothing built is returned. */
  lemma ArrayResponseError<T>(steps: seq<Result<T>>, i: nat, member: T -> string)
    requires i < |steps| && steps[i].Err?
    requires forall j :: 0 <= j < i ==> steps[j].Ok?
    ensures ArrayResponse(Ok(steps), member) == Error(steps[i].message)
  {
    FirstError(steps, i);
  }

  /**
   * queryAllStudentDocs over a range scan that yields the results kvs answers
   * with the JSON array of their members, in scan order; a member whose key
   * holds no quote reads back as its result. An empty scan gives "[]".
   */
  lemma QueryAllMembers(state: map<string, Stored>, args: seq<string>, host: Host, kvs: seq<KV>)
    requires host.rangeScan("StudentDoc0", "StudentDoc999") == Ok(Delivering(kvs))
    ensures Invoke(state, "queryAllStudentDocs", args, host)
         == Outcome(Success(Text(JsonArray(Render(kvs, RecordEntry)))), [])
    ensures kvs == [] ==> Invoke(state, "queryAllStudentDocs", args, host) == Outcome(Success(Text("[]")), [])
    ensures forall i :: 0 <= i < |kvs| && '"' !in kvs[i].key ==>
              ParseRecordEntry(Render(kvs, RecordEntry)[i]) == Some(kvs[i])
  {
    ArrayResponseOf(kvs, RecordEntry);
    if kvs == [] {
      assert Render(kvs, RecordEntry) == [];
      assert JsonArray([]) == "[" + "" + "]" == "[]";
    }
    forall i | 0 <= i < |kvs| && '"' !in kvs[i].key
      ensures ParseRecordEntry(Render(kvs, RecordEntry)[i]) == Some(kvs[i])
    {
      ParseRecordEntryOf(kvs[i]);
    }
  }

  /** queryAllStudentDocs reports the first failing step of the range scan, and nothing else. */
  lemma QueryAllStepError(state: map<string, Stored>, args: seq<string>, host: Host, steps: seq<Result<KV>>, i: nat)
    requires host.rangeScan("StudentDoc0", "StudentDoc999") == Ok(steps)
    requires i < |steps| && steps[i].Err?
    requires forall j :: 0 <= j < i ==> steps[j].Ok?
    ensures Invoke(state, "queryAllStudentDocs", args, host) == Outcome(Error(steps[i].message), [])
  {
    ArrayResponseError(steps, i, RecordEntry);
  }

  /** When the range scan cannot be opened, queryAllStudentDocs answers with the host's error and writes nothing. */
  lemma QueryAllOpenError(state: map<string, Stored>, args: seq<string>, host: Host, m: string)
    requires host.rangeScan("StudentDoc0", "StudentDoc999") == Err(m)
    ensures Invoke(state, "queryAllStudentDocs", args, host) == Outcome(Error(m), [])
  {
  }

  /**
   * getHistoryForStudentDoc over a history that yields the modifications ms
   * answers with their members in history order; a member whose transaction
   * id and timestamp hold no quote reads back as its modification, with the
   * value null exactly for a deletion and the raw value otherwise.
   */
  lemma HistoryMembers(state: map<string, Stored>, args: seq<string>, host: Host, ms: seq<KeyModification>)
    requires |args| >= 1 && host.historyScan(args[0]) == Ok(Delivering(ms))
    ensures Invoke(state, "getHistoryForStudentDoc", args, host)
         == Outcome(Success(Text(JsonArray(Render(ms, HistoryEntry)))), [])
    ensures forall i :: 0 <= i < |ms| && '"' !in ms[i].txId && '"' !in ms[i].timestamp ==>
              ParseHistoryEntry(Render(ms, HistoryEntry)[i])
              == Some(ms[i].(value := if ms[i].isDelete then "null" else ms[i].value))
  {
    ArrayResponseOf(ms, HistoryEntry);
    forall i | 0 <= i < |ms| && '"' !in ms[i].txId && '"' !in ms[i].timestamp
      ensures ParseHistoryEntry(Render(ms, HistoryEntry)[i])
              == Some(ms[i].(value := if ms[i].isDelete then "null" else ms[i].value))
    {
      assert Render(ms, HistoryEntry)[i] == HistoryEntry(ms[i]);
      ParseHistoryEntryOf(ms[i]);
    }
  }

  /** getHistoryForStudentDoc reports the first failing step of the history scan, and nothing else. */
  lemma HistoryStepError(state: map<string, Stored>, args: seq<string>, host: Host,
                         steps: seq<Result<KeyModification>>, i: nat)
    requires |args| >= 1 && host.historyScan(args[0]) == Ok(steps)
    requires i < |steps| && steps[i].Err?
    requires forall j :: 0 <= j < i ==> steps[j].Ok?
    ensures Invoke(state, "getHistoryForStudentDoc", args, host) == Outcome(Error(steps[i].message), [])
  {
    ArrayResponseError(steps, i, HistoryEntry);
  }

  /** When the history cannot be opened, getHistoryForStudentDoc answers with the host's error and writes nothing. */
  lemma HistoryOpenError(state: map<string, Stored>, args: seq<string>, host: Host, m: string)
    requires |args| >= 1 && host.historyScan(args[0]) == Err(m)
    ensures Invoke(state, "getHistoryForStudentDoc", args, host) == Outcome(Error(m), [])
  {
  }

  /** getHistoryForStudentDoc looks only at its first argument; further ones are ignored. */
  lemma HistoryIgnoresExtraArguments(state: map<string, Stored>, key: string, extra: seq<string>, host: Host)
    ensures Invoke(state, "getHistoryForStudentDoc", [key] + extra, host)
         == Invoke(state, "getHistoryForStudentDoc", [key], host)
  {
  }
}
