/**
 * The contract as the peer runs it: handlers that read and write the ledger
 * through a stub, one PutState at a time, and build their JSON arrays in a
 * buffer while stepping through a scan. Each handler is proved to do what
 * the pure description in module Contract says.
 */
module Chaincode {
  import opened Types
  import opened Text
  import opened Scan
  import opened Entries
  import Contract

  /**
   * The stub a handler is given: the ledger state it reads and writes, and
   * the PutState calls made so far in this invocation, in order.
   */
  class Stub {
    var state: map<string, Stored>
    var puts: seq<Put>

    constructor (initial: map<string, Stored>)
      ensures state == initial && puts == []
    {
      state := initial;
      puts := [];
    }

    /** GetState(key): the bytes stored under key, if any. */
    function GetState(key: string): (r: Option<Stored>)
      reads this
      ensures r.Some? <==> key in state
      ensures r.Some? ==> r.value == state[key]
    {
      Get(state, key)
    }

    /** PutState(key, value): store value under key, and record the call. */
    method PutState(key: string, value: Stored)
      modifies this
      ensures state == old(state)[key := value]
      ensures puts == old(puts) + [Put(key, value)]
    {
      state := state[key := value];
      puts := puts + [Put(key, value)];
    }
  }

  /**
   * The handler answered r and left the stub as the outcome o says, starting
   * from the given state and write log.
   */
  ghost predicate Performed(stub: Stub, state0: map<string, Stored>, puts0: seq<Put>,
                            o: Contract.Outcome, r: Response)
    reads stub
  {
    r == o.response && stub.state == Apply(state0, o.puts) && stub.puts == puts0 + o.puts
  }

  /** Init: success with no payload; it has no access to the ledger. */
  method Init(stub: Stub) returns (r: Response)
    ensures r == Contract.Init().response
  {
    return Success(Nil);
  }

  /** Invoke: route the function name to its handler. */
  method Invoke(stub: Stub, name: string, args: seq<string>, host: Host) returns (r: Response)
    modifies stub
    ensures Performed(stub, old(stub.state), old(stub.puts), Contract.Invoke(old(stub.state), name, args, host), r)
  {
    if name == "queryStudentDoc" {
      r := QueryStudentDoc(stub, args);
    } else if name == "initLedger" {
      r := InitLedger(stub);
    } else if name == "createStudentDoc" {
      r := CreateStudentDoc(stub, args);
    } else if name == "queryAllStudentDocs" {
      r := QueryAllStudentDocs(host);
    } else if name == "changeStudentDocOwner" {
      r := ChangeStudentDocOwner(stub, args);
    } else if name == "changeStudentDocStatus" {
      r := ChangeStudentDocStatus(stub, args);
    } else if name == "getHistoryForStudentDoc" {
      r := GetHistoryForStudentDoc(args, host);
    } else {
      r := Error(name + ": Invalid Smart Contract function name.");
    }
  }

  /** queryStudentDoc: the bytes under args[0], returned as they are; reads only. */
  method QueryStudentDoc(stub: Stub, args: seq<string>) returns (r: Response)
    ensures r == Contract.QueryStudentDoc(stub.state, args).response
  {
    if |args| != 1 {
      return Error("Incorrect number of arguments. Expecting 1");
    }
    var studentDocAsBytes := stub.GetState(args[0]);
    if studentDocAsBytes.None? {
      return Success(Nil);
    }
    return Success(Raw(studentDocAsBytes.value));
  }

  /** initLedger: write the nine seed records under "StudentDoc0" .. "StudentDoc8", in order. */
  method InitLedger(stub: Stub) returns (r: Response)
    modifies stub
    ensures Performed(stub, old(stub.state), old(stub.puts), Contract.InitLedger(), r)
  {
    var studentDocs := Contract.SeedDocs;
    ghost var seedPuts := Contract.InitLedger().puts;
    var i := 0;
    while i < |studentDocs|
      invariant 0 <= i <= |studentDocs|
      invariant stub.state == Apply(old(stub.state), seedPuts[..i])
      invariant stub.puts == old(stub.puts) + seedPuts[..i]
    {
      var studentDocAsBytes := Marshal(studentDocs[i]);
      stub.PutState("StudentDoc" + Itoa(i), studentDocAsBytes);
      assert seedPuts[..i + 1] == seedPuts[..i] + [seedPuts[i]];
      i := i + 1;
    }
    assert seedPuts[..i] == seedPuts;
    return Success(Nil);
  }

  /** createStudentDoc: args is key, status, owner. */
  method CreateStudentDoc(stub: Stub, args: seq<string>) returns (r: Response)
    modifies stub
    ensures Performed(stub, old(stub.state), old(stub.puts), Contract.CreateStudentDoc(args), r)
  {
    if |args| != 3 {
      return Error("Incorrect number of arguments. Expecting 3");
    }
    var studentDoc := StudentDoc(args[1], args[2]);
    var studentDocAsBytes := Marshal(studentDoc);
    stub.PutState(args[0], studentDocAsBytes);
    return Success(Nil);
  }

  /** queryAllStudentDocs: the range scan from "StudentDoc0" to "StudentDoc999" as a JSON array. */
  method QueryAllStudentDocs(host: Host) returns (r: Response)
    ensures r == Contract.QueryAllStudentDocs(host).response
  {
    var startKey := "StudentDoc0";
    var endKey := "StudentDoc999";
    var resultsIterator := host.rangeScan(startKey, endKey);
    if resultsIterator.Err? {
      return Error(resultsIterator.message);
    }
    var results := resultsIterator.value;

    var buffer := "[";
    var memberAlreadyWritten := false;
    ghost var written: seq<KV> := [];
    var i := 0;
    while i < |results|
      invariant i <= |results|
      invariant Collect(results[..i]) == Ok(written)
      invariant memberAlreadyWritten == (written != [])
      invariant buffer == "[" + Join(Render(written, RecordEntry), ",")
    {
      assert results[..i + 1][..i] == results[..i];
      var queryResponse := results[i];
      if queryResponse.Err? {
        CollectErrorPersists(results, i + 1);
        return Error(queryResponse.message);
      }
      var kv := queryResponse.value;
      ghost var before := buffer;
      if memberAlreadyWritten {
        buffer := buffer + ",";
      }
      buffer := WriteRecordMember(buffer, kv);
      memberAlreadyWritten := true;

      ArrayStep(written, kv, RecordEntry, before);
      written := written + [kv];
      i := i + 1;
    }
    assert results[..i] == results;
    buffer := buffer + "]";
    return Success(Text(buffer));
  }

  /** changeStudentDocOwner: args is key, owner; the stored status is kept, a decode failure ignored. */
  method ChangeStudentDocOwner(stub: Stub, args: seq<string>) returns (r: Response)
    modifies stub
    ensures Performed(stub, old(stub.state), old(stub.puts), Contract.ChangeStudentDocOwner(old(stub.state), args), r)
  {
    if |args| != 2 {
      return Error("Incorrect number of arguments. Expecting 2");
    }
    var studentDocAsBytes := stub.GetState(args[0]);
    var studentDoc := Unmarshal(studentDocAsBytes);
    studentDoc := studentDoc.(owner := args[1]);
    stub.PutState(args[0], Marshal(studentDoc));
    return Success(Nil);
  }

  /** changeStudentDocStatus: args is key, owner, status; a decode failure is ignored. */
  method ChangeStudentDocStatus(stub: Stub, args: seq<string>) returns (r: Response)
    modifies stub
    ensures Performed(stub, old(stub.state), old(stub.puts), Contract.ChangeStudentDocStatus(old(stub.state), args), r)
  {
    if |args| != 3 {
      return Error("Incorrect number of arguments. Expecting 3");
    }
    var studentDocAsBytes := stub.GetState(args[0]);
    var studentDoc := Unmarshal(studentDocAsBytes);
    studentDoc := studentDoc.(owner := args[1]);
    studentDoc := studentDoc.(docStatus := args[2]);
    stub.PutState(args[0], Marshal(studentDoc));
    return Success(Nil);
  }

  /** getHistoryForStudentDoc: the history of args[0] as a JSON array. */
  method GetHistoryForStudentDoc(args: seq<string>, host: Host) returns (r: Response)
    ensures r == Contract.GetHistoryForStudentDoc(args, host).response
  {
    if |args| < 1 {
      return Error("Incorrect number of arguments. Expecting 1");
    }
    var docId := args[0];
    var resultsIterator := host.historyScan(docId);
    if resultsIterator.Err? {
      return Error(resultsIterator.message);
    }
    var results := resultsIterator.value;

    var buffer := "[";
    var memberAlreadyWritten := false;
    ghost var written: seq<KeyModification> := [];
    var i := 0;
    while i < |results|
      invariant i <= |results|
      invariant Collect(results[..i]) == Ok(written)
      invariant memberAlreadyWritten == (written != [])
      invariant buffer == "[" + Join(Render(written, HistoryEntry), ",")
    {
      assert results[..i + 1][..i] == results[..i];
      var step := results[i];
      if step.Err? {
        CollectErrorPersists(results, i + 1);
        return Error(step.message);
      }
      var response := step.value;
      ghost var before := buffer;
      if memberAlreadyWritten {
        buffer := buffer + ",";
      }
      buffer := WriteHistoryMember(buffer, response);
      memberAlreadyWritten := true;

      ArrayStep(written, response, HistoryEntry, before);
      written := written + [response];
      i := i + 1;
    }
    assert results[..i] == results;
    buffer := buffer + "]";
    return Success(Text(buffer));
  }

  /** The WriteString calls of one queryAllStudentDocs member. */
  method WriteRecordMember(buffer: string, kv: KV) returns (b: string)
    ensures b == buffer + RecordEntry(kv)
  {
    b := buffer + "{\"Key\":";
    b := b + "\"";
    b := b + kv.key;
    b := b + "\"";
    b := b + ", \"Record\":";
    // the record is already JSON, so it is written as it is
    b := b + kv.value;
    b := b + "}";
  }

  /** The WriteString calls of one getHistoryForStudentDoc member. */
  method WriteHistoryMember(buffer: string, response: KeyModification) returns (b: string)
    ensures b == buffer + HistoryEntry(response)
  {
    b := WriteTxIdAndValue(buffer, response);
    b := WriteTimestampAndIsDelete(b, response);
    HistoryEntryPieces(response);
  }

  /** The TxId and Value parts of a history member. */
  method WriteTxIdAndValue(buffer: string, response: KeyModification) returns (b: string)
    ensures b == buffer + (TxIdOpen + response.txId + "\"") + (ValueOpen[1..] + ValueText(response))
  {
    b := buffer + "{\"TxId\":";
    b := b + "\"";
    b := b + response.txId;
    b := b + "\"";
    assert b == buffer + (TxIdOpen + response.txId + "\"");
    ghost var head := b;
    b := b + ", \"Value\":";
    // a deletion has value null, otherwise the value is already JSON
    if response.isDelete {
      b := b + "null";
    } else {
      b := b + response.value;
    }
    assert b == head + (ValueOpen[1..] + ValueText(response));
  }

  /** The Timestamp and IsDelete parts of a history member, and its closing brace. */
  method WriteTimestampAndIsDelete(buffer: string, response: KeyModification) returns (b: string)
    ensures b == buffer + (TimestampOpen + response.timestamp + "\"")
                 + (IsDeleteOpen[1..] + FormatBool(response.isDelete) + HistoryClose)
  {
    b := buffer + ", \"Timestamp\":";
    b := b + "\"";
    b := b + response.timestamp;
    b := b + "\"";
    assert b == buffer + (TimestampOpen + response.timestamp + "\"");
    ghost var stamped := b;
    b := b + ", \"IsDelete\":";
    b := b + "\"";
    b := b + FormatBool(response.isDelete);
    b := b + "\"";
    b := b + "}";
    assert b == stamped + (IsDeleteOpen[1..] + FormatBool(response.isDelete) + HistoryClose);
  }

  /** Writing a separator (after the first member) and one more member extends the array. */
  lemma ArrayStep<T>(written: seq<T>, x: T, member: T -> string, before: string)
    requires before == "[" + Join(Render(written, member), ",")
    ensures before + (if written == [] then "" else ",") + member(x)
         == "[" + Join(Render(written + [x], member), ",")
  {
    JoinSnoc(Render(written, member), member(x), ",");
    assert Render(written + [x], member) == Render(written, member) + [member(x)];
  }
}
