/**
 * The array members that queryAllStudentDocs and getHistoryForStudentDoc
 * write, and parsers that read them back. Keys, transaction ids and
 * timestamps are written between quotes without escaping, so a member can be
 * read back exactly when those texts hold no double quote.
 */
module Entries {
  import opened Types
  import opened Text

  const KeyOpen := "{\"Key\":\""
  const RecordOpen := "\", \"Record\":"
  const RecordClose := "}"

  /** {"Key":"<key>", "Record":<value>}, both copied verbatim. */
  function RecordEntry(kv: KV): (e: string)
    ensures KeyOpen <= e && e[|e| - 1] == '}'
    ensures |e| == |KeyOpen| + |kv.key| + |RecordOpen| + |kv.value| + |RecordClose|
  {
    KeyOpen + kv.key + RecordOpen + kv.value + RecordClose
  }

  const TxIdOpen := "{\"TxId\":\""
  const ValueOpen := "\", \"Value\":"
  const TimestampOpen := ", \"Timestamp\":\""
  const IsDeleteOpen := "\", \"IsDelete\":\""
  const HistoryClose := "\"}"

  /** What the Value member holds: null for a deletion, the raw value otherwise. */
  function ValueText(m: KeyModification): (v: string)
    ensures m.isDelete ==> v == "null"
    ensures !m.isDelete ==> v == m.value
  {
    if m.isDelete then "null" else m.value
  }

  /** {"TxId":"<id>", "Value":<value or null>, "Timestamp":"<time>", "IsDelete":"<true|false>"}. */
  function HistoryEntry(m: KeyModification): (e: string)
    ensures TxIdOpen <= e
  {
    TxIdOpen + m.txId + ValueOpen + ValueText(m) + TimestampOpen + m.timestamp
      + IsDeleteOpen + FormatBool(m.isDelete) + HistoryClose
  }

  /** Reads a range-scan member back into its key and value. */
  function ParseRecordEntry(e: string): Option<KV>
  {
    match DropPrefix(e, KeyOpen)
    case None => None
    case Some(a) =>
      var (key, b) := SplitAtQuote(a);
      match DropPrefix(b, RecordOpen)
      case None => None
      case Some(c) =>
        match DropSuffix(c, RecordClose)
        case None => None
        case Some(value) => Some(KV(key, value))
  }

  /** d split into the text before a trailing "true" or "false" and that boolean. */
  function SplitBoolSuffix(d: string): Option<(string, bool)>
  {
    match DropSuffix(d, "true")
    case Some(front) => Some((front, true))
    case None =>
      match DropSuffix(d, "false")
      case Some(front) => Some((front, false))
      case None => None
  }

  /**
   * Reads a history member back. The result's value is the text of the Value
   * member, which is "null" for a deletion.
   */
  function ParseHistoryEntry(e: string): Option<KeyModification>
  {
    match DropPrefix(e, TxIdOpen)
    case None => None
    case Some(a) =>
      var (txId, b) := SplitAtQuote(a);
      match DropPrefix(b, ValueOpen)
      case None => None
      case Some(c) =>
        match ParseHistoryTail(c)
        case None => None
        case Some((value, timestamp, isDelete)) => Some(KeyModification(txId, value, timestamp, isDelete))
  }

  /** Reads what follows the Value marker: the value text, the timestamp and the deletion flag. */
  function ParseHistoryTail(c: string): Option<(string, string, bool)>
  {
    match DropSuffix(c, HistoryClose)
    case None => None
    case Some(d) =>
      match SplitBoolSuffix(d)
      case None => None
      case Some((f, isDelete)) =>
        match DropSuffix(f, IsDeleteOpen)
        case None => None
        case Some(g) =>
          var (h, timestamp) := SplitAtLastQuote(g);
          match DropSuffix(h, TimestampOpen)
          case None => None
          case Some(value) => Some((value, timestamp, isDelete))
  }

  /** A range-scan member whose key holds no quote reads back as the scan result. */
  lemma ParseRecordEntryOf(kv: KV)
    requires '"' !in kv.key
    ensures ParseRecordEntry(RecordEntry(kv)) == Some(kv)
  {
    var tail := RecordOpen + kv.value + RecordClose;
    assert RecordEntry(kv) == KeyOpen + (kv.key + tail);
    DropPrefixOf(KeyOpen, kv.key + tail);
    assert kv.key + tail == kv.key + "\"" + (tail[1..]);
    SplitAtQuoteOf(kv.key, tail[1..]);
    assert "\"" + tail[1..] == tail;
    assert tail == RecordOpen + (kv.value + RecordClose);
    DropPrefixOf(RecordOpen, kv.value + RecordClose);
    DropSuffixOf(kv.value, RecordClose);
  }

  /** Text followed by a formatted boolean splits back into the text and the boolean. */
  lemma SplitBoolSuffixOf(front: string, b: bool)
    ensures SplitBoolSuffix(front + FormatBool(b)) == Some((front, b))
  {
    DropSuffixOf(front, FormatBool(b));
    if !b {
      var d := front + "false";
      assert d[|d| - 4..] == "alse";
    }
  }

  /** What follows a history member's Value marker reads back as the value text, a quote-free timestamp and the flag. */
  lemma ParseHistoryTailOf(v: string, timestamp: string, b: bool)
    requires '"' !in timestamp
    ensures ParseHistoryTail(v + TimestampOpen + timestamp + IsDeleteOpen + FormatBool(b) + HistoryClose)
         == Some((v, timestamp, b))
  {
    var g := v + TimestampOpen + timestamp;
    var f := g + IsDeleteOpen;
    var d := f + FormatBool(b);
    DropSuffixOf(d, HistoryClose);
    SplitBoolSuffixOf(f, b);
    DropSuffixOf(g, IsDeleteOpen);
    var h := v + TimestampOpen[..|TimestampOpen| - 1];
    assert g == h + "\"" + timestamp;
    SplitAtLastQuoteOf(h, timestamp);
    assert h + "\"" == v + TimestampOpen;
    DropSuffixOf(v, TimestampOpen);
  }

  /**
   * A history member whose transaction id and timestamp hold no quote reads
   * back as the scan result, except that its value reads as null exactly
   * when the result is a deletion.
   */
  lemma ParseHistoryEntryOf(m: KeyModification)
    requires '"' !in m.txId && '"' !in m.timestamp
    ensures ParseHistoryEntry(HistoryEntry(m)) == Some(m.(value := ValueText(m)))
  {
    var c := ValueText(m) + TimestampOpen + m.timestamp + IsDeleteOpen + FormatBool(m.isDelete) + HistoryClose;
    var tail := ValueOpen + c;
    assert HistoryEntry(m) == TxIdOpen + (m.txId + tail);
    DropPrefixOf(TxIdOpen, m.txId + tail);
    assert m.txId + tail == m.txId + "\"" + tail[1..];
    SplitAtQuoteOf(m.txId, tail[1..]);
    assert "\"" + tail[1..] == tail;
    DropPrefixOf(ValueOpen, c);
    ParseHistoryTailOf(ValueText(m), m.timestamp, m.isDelete);
  }

  /** The member cut where each quoted text ends. */
  lemma HistoryEntryPieces(m: KeyModification)
    ensures HistoryEntry(m)
         == (TxIdOpen + m.txId + "\"") + (ValueOpen[1..] + ValueText(m))
            + (TimestampOpen + m.timestamp + "\"") + (IsDeleteOpen[1..] + FormatBool(m.isDelete) + HistoryClose)
  {
  }
}
