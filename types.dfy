/**
 * Values exchanged between the docledger contract and its host peer: the
 * StudentDoc record, what the ledger holds under a key, the response of an
 * invocation, and the results the host's range and history scans deliver.
 */
module Types {

  datatype Option<T> = None | Some(value: T)

  /** A host call that either delivers a value or fails with an error message. */
  datatype Result<T> = Ok(value: T) | Err(message: string)

  /** The StudentDoc record; its JSON field names are docStatus and owner. */
  datatype StudentDoc = StudentDoc(docStatus: string, owner: string)

  /** What a freshly declared StudentDoc{} holds: both fields empty. */
  const ZeroDoc := StudentDoc("", "")

  /**
   * The bytes held under a ledger key. Either they are the JSON encoding of a
   * StudentDoc, or they are bytes that do not decode to one (written by some
   * other party); the JSON text itself is not modelled.
   */
  datatype Stored = Doc(doc: StudentDoc) | Garbage(raw: string)

  /** json.Marshal of a StudentDoc: the bytes decode back to the same record. */
  function Marshal(d: StudentDoc): (s: Stored)
    ensures Unmarshal(Some(s)) == d
  {
    Doc(d)
  }

  /**
   * json.Unmarshal of the bytes read for a key into a zero StudentDoc, with the
   * decode error ignored: absent or undecodable bytes leave the zero value.
   */
  function Unmarshal(bytes: Option<Stored>): (d: StudentDoc)
    ensures bytes.None? || bytes.value.Garbage? ==> d == ZeroDoc
    ensures d == ZeroDoc || bytes == Some(Doc(d))
  {
    match bytes
    case Some(Doc(d)) => d
    case _ => ZeroDoc
  }

  /** The payload of a successful response. */
  datatype Payload =
    | Nil                    // shim.Success(nil), also the bytes of an absent key
    | Raw(stored: Stored)    // the bytes of a ledger entry, returned as they are
    | Text(text: string)     // a hand-assembled JSON array

  /** shim.Success(payload) or shim.Error(message). */
  datatype Response = Success(payload: Payload) | Error(message: string)

  /** One PutState(key, value) call. */
  datatype Put = Put(key: string, value: Stored)

  /** One result of a range scan: a key and the raw text of its value. */
  datatype KV = KV(key: string, value: string)

  /**
   * One result of a history scan. The timestamp is the already formatted
   * time string; value is the raw text of the value written.
   */
  datatype KeyModification = KeyModification(txId: string, value: string, timestamp: string, isDelete: bool)

  /**
   * The scans the host offers. A scan first either fails to open or yields an
   * iterator, given here as the sequence of what its successive Next() calls return.
   */
  datatype Host = Host(
    rangeScan: (string, string) -> Result<seq<Result<KV>>>,
    historyScan: string -> Result<seq<Result<KeyModification>>>)

  /** GetState(key) on a ledger state: the bytes stored there, or none. */
  function Get(state: map<string, Stored>, key: string): (r: Option<Stored>)
    ensures r.Some? <==> key in state
    ensures r.Some? ==> r.value == state[key]
  {
    if key in state then Some(state[key]) else None
  }

  /** The ledger state after the given PutState calls, made in order. */
  function Apply(state: map<string, Stored>, puts: seq<Put>): (r: map<string, Stored>)
    ensures r.Keys == state.Keys + set j | 0 <= j < |puts| :: puts[j].key
    decreases |puts|
  {
    if puts == [] then state
    else
      var last := puts[|puts| - 1];
      Apply(state, puts[..|puts| - 1])[last.key := last.value]
  }

  /** A key that no put names keeps its presence and its value. */
  lemma {:induction false} ApplyUntouched(state: map<string, Stored>, puts: seq<Put>, key: string)
    requires forall j :: 0 <= j < |puts| ==> puts[j].key != key
    ensures key in Apply(state, puts) <==> key in state
    ensures key in state ==> Apply(state, puts)[key] == state[key]
    decreases |puts|
  {
    if puts != [] {
      ApplyUntouched(state, puts[..|puts| - 1], key);
    }
  }

  /** The last put that names a key decides its value. */
  lemma {:induction false} ApplyLastWrite(state: map<string, Stored>, puts: seq<Put>, j: nat)
    requires j < |puts|
    requires forall k :: j < k < |puts| ==> puts[k].key != puts[j].key
    ensures puts[j].key in Apply(state, puts)
    ensures Apply(state, puts)[puts[j].key] == puts[j].value
    decreases |puts|
  {
    if j < |puts| - 1 {
      ApplyLastWrite(state, puts[..|puts| - 1], j);
    }
  }
}
