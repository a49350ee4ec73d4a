/**
 * The docledger contract as a pure state transition. Each handler takes the
 * ledger state it reads, the invocation's arguments and the host's scans,
 * and gives an Outcome: the response, and the PutState calls it makes in
 * order. The ledger afterwards is Apply(state, puts); a handler that makes
 * no call leaves every key as it was.
 */
module Contract {
  import opened Types
  import opened Text
  import opened Scan
  import opened Entries

  datatype Outcome = Outcome(response: Response, puts: seq<Put>)

  /** The seven handler names Invoke recognises. */
  datatype Fn =
    | QueryOne | Seed | Create | QueryAll | ChangeOwner | ChangeStatus | History

  /** The function name a client passes to reach each handler. */
  function Name(f: Fn): string
  {
    match f
    case QueryOne => "queryStudentDoc"
    case Seed => "initLedger"
    case Create => "createStudentDoc"
    case QueryAll => "queryAllStudentDocs"
    case ChangeOwner => "changeStudentDocOwner"
    case ChangeStatus => "changeStudentDocStatus"
    case History => "getHistoryForStudentDoc"
  }

  /** Invoke's if/else chain: exact comparison against each name in turn. */
  function Route(name: string): (r: Option<Fn>)
    ensures r.Some? ==> Name(r.value) == name
  {
    if name == "queryStudentDoc" then Some(QueryOne)
    else if name == "initLedger" then Some(Seed)
    else if name == "createStudentDoc" then Some(Create)
    else if name == "queryAllStudentDocs" then Some(QueryAll)
    else if name == "changeStudentDocOwner" then Some(ChangeOwner)
    else if name == "changeStudentDocStatus" then Some(ChangeStatus)
    else if name == "getHistoryForStudentDoc" then Some(History)
    else None
  }

  /** Route and Name are inverse: a name reaches a handler exactly when it is that handler's name. */
  lemma RouteName(name: string, f: Fn)
    ensures Route(name) == Some(f) <==> name == Name(f)
    ensures Route(name).None? <==> forall g: Fn :: name != Name(g)
  {
  }

  const Expecting1 := "Incorrect number of arguments. Expecting 1"
  const Expecting2 := "Incorrect number of arguments. Expecting 2"
  const Expecting3 := "Incorrect number of arguments. Expecting 3"

  /** The error for a name that matches no handler. */
  function InvalidName(name: string): (m: string)
    ensures name <= m && |m| > |name|
  {
    name + ": Invalid Smart Contract function name."
  }

  // ----- the handlers -----

  /** queryStudentDoc: the bytes under args[0], as they are. */
  function QueryStudentDoc(state: map<string, Stored>, args: seq<string>): (o: Outcome)
    ensures o.puts == []
    ensures o.response.Success? <==> |args| == 1
    ensures |args| == 1 && args[0] in state ==> o.response == Success(Raw(state[args[0]]))
  {
    if |args| != 1 then Outcome(Error(Expecting1), [])
    else
      match Get(state, args[0])
      case None => Outcome(Success(Nil), [])
      case Some(v) => Outcome(Success(Raw(v)), [])
  }

  const SeedPrefix := "StudentDoc"

  /** The nine records initLedger writes, in order. */
  const SeedDocs: seq<StudentDoc> := [
    StudentDoc("scanned", "Tomoko"),
    StudentDoc("transmitted responses", "Jack"),
    StudentDoc("received responses", "John"),
    StudentDoc("machine scored", "Mark"),
    StudentDoc("human scored", "Tim"),
    StudentDoc("scores exported", "Jane"),
    StudentDoc("transmitted scores", "Peter"),
    StudentDoc("received scores", "Sid"),
    StudentDoc("scores reported", "Mesut")
  ]

  /** "StudentDoc" + strconv.Itoa(i). */
  function SeedKey(i: nat): (k: string)
    ensures SeedPrefix <= k && Atoi(k[|SeedPrefix|..]) == i
  {
    AtoiItoa(i);
    assert (SeedPrefix + Itoa(i))[|SeedPrefix|..] == Itoa(i);
    SeedPrefix + Itoa(i)
  }

  /** The i-th PutState call of initLedger. */
  function SeedPut(i: nat): (p: Put)
    requires i < |SeedDocs|
    ensures p.key == SeedKey(i) && Unmarshal(Some(p.value)) == SeedDocs[i]
  {
    Put(SeedKey(i), Marshal(SeedDocs[i]))
  }

  /** initLedger: one put per seed record, in order. */
  function InitLedger(): (o: Outcome)
    ensures o.response == Success(Nil) && |o.puts| == 9
  {
    Outcome(Success(Nil), seq(|SeedDocs|, i requires 0 <= i < |SeedDocs| => SeedPut(i)))
  }

  /** createStudentDoc: args is key, status, owner; writes the new record over any old one. */
  function CreateStudentDoc(args: seq<string>): (o: Outcome)
    ensures o.response.Success? <==> |args| == 3
    ensures o.response.Error? ==> o.puts == []
    ensures o.response.Success? ==>
      |o.puts| == 1 && o.puts[0].key == args[0] && Unmarshal(Some(o.puts[0].value)) == StudentDoc(args[1], args[2])
  {
    if |args| != 3 then Outcome(Error(Expecting3), [])
    else Outcome(Success(Nil), [Put(args[0], Marshal(StudentDoc(args[1], args[2])))])
  }

  const RangeStart := "StudentDoc0"
  const RangeEnd := "StudentDoc999"

  /** The scan of queryAllStudentDocs or getHistoryForStudentDoc turned into a JSON array of members. */
  function ArrayResponse<T>(scan: Result<seq<Result<T>>>, member: T -> string): (r: Response)
    ensures scan.Err? ==> r == Error(scan.message)
    ensures r.Success? ==> r.payload.Text? && "[" <= r.payload.text
  {
    match scan
    case Err(m) => Error(m)
    case Ok(steps) =>
      match Collect(steps)
      case Err(m) => Error(m)
      case Ok(xs) => Success(Text(JsonArray(Render(xs, member))))
  }

  /** queryAllStudentDocs: every result of the range scan as {"Key":..., "Record":...}; writes nothing. */
  function QueryAllStudentDocs(host: Host): (o: Outcome)
    ensures o.puts == []
    ensures host.rangeScan(RangeStart, RangeEnd).Err? ==> o.response == Error(host.rangeScan(RangeStart, RangeEnd).message)
  {
    Outcome(ArrayResponse(host.rangeScan(RangeStart, RangeEnd), RecordEntry), [])
  }

  /**
   * changeStudentDocOwner: args is key, owner. Reads the record, ignoring a
   * decode failure, replaces its owner and writes it back.
   */
  function ChangeStudentDocOwner(state: map<string, Stored>, args: seq<string>): (o: Outcome)
    ensures o.response.Success? <==> |args| == 2
    ensures o.response.Error? ==> o.puts == []
    ensures o.response.Success? ==>
      |o.puts| == 1 && o.puts[0].key == args[0]
      && Unmarshal(Some(o.puts[0].value)) == StudentDoc(Unmarshal(Get(state, args[0])).docStatus, args[1])
  {
    if |args| != 2 then Outcome(Error(Expecting2), [])
    else
      var doc := Unmarshal(Get(state, args[0]));
      Outcome(Success(Nil), [Put(args[0], Marshal(doc.(owner := args[1])))])
  }

  /**
   * changeStudentDocStatus: args is key, owner, status. Reads the record,
   * ignoring a decode failure, replaces owner then status and writes it back.
   */
  function ChangeStudentDocStatus(state: map<string, Stored>, args: seq<string>): (o: Outcome)
    ensures o.response.Success? <==> |args| == 3
    ensures o.response.Error? ==> o.puts == []
    ensures o.response.Success? ==>
      |o.puts| == 1 && o.puts[0].key == args[0] && Unmarshal(Some(o.puts[0].value)) == StudentDoc(args[2], args[1])
  {
    if |args| != 3 then Outcome(Error(Expecting3), [])
    else
      var doc := Unmarshal(Get(state, args[0]));
      var doc' := doc.(owner := args[1]).(docStatus := args[2]);
      Outcome(Success(Nil), [Put(args[0], Marshal(doc'))])
  }

  /** getHistoryForStudentDoc: every modification of args[0] as a history member; writes nothing. */
  function GetHistoryForStudentDoc(args: seq<string>, host: Host): (o: Outcome)
    ensures o.puts == []
    ensures |args| < 1 ==> o.response == Error(Expecting1)
    ensures |args| >= 1 && host.historyScan(args[0]).Err? ==> o.response == Error(host.historyScan(args[0]).message)
  {
    if |args| < 1 then Outcome(Error(Expecting1), [])
    else Outcome(ArrayResponse(host.historyScan(args[0]), HistoryEntry), [])
  }

  /** The handler a recognised name reaches. */
  function Handle(f: Fn, state: map<string, Stored>, args: seq<string>, host: Host): (o: Outcome)
    ensures o.puts != [] ==> f in {Seed, Create, ChangeOwner, ChangeStatus}
  {
    match f
    case QueryOne => QueryStudentDoc(state, args)
    case Seed => InitLedger()
    case Create => CreateStudentDoc(args)
    case QueryAll => QueryAllStudentDocs(host)
    case ChangeOwner => ChangeStudentDocOwner(state, args)
    case ChangeStatus => ChangeStudentDocStatus(state, args)
    case History => GetHistoryForStudentDoc(args, host)
  }

  /** Invoke: dispatch on the function name. */
  function Invoke(state: map<string, Stored>, name: string, args: seq<string>, host: Host): (o: Outcome)
    ensures Route(name).None? ==> o.response.Error? && o.puts == []
    ensures o.puts != [] ==>
      name in {"initLedger", "createStudentDoc", "changeStudentDocOwner", "changeStudentDocStatus"}
  {
    match Route(name)
    case None => Outcome(Error(InvalidName(name)), [])
    case Some(f) => Handle(f, state, args, host)
  }

  /** Init: success, and nothing written. */
  function Init(): (o: Outcome)
    ensures o.response.Success? && o.puts == []
  {
    Outcome(Success(Nil), [])
  }
}
