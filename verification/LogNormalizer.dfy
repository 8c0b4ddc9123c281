/** From the payload of one log to one row of the raw table. */
module LogNormalizer {
  import opened Wrappers
  import opened Arithmetic
  import opened Chain
  import opened Text
  import opened Uint256

  const SECONDS_PER_DAY := 86400

  /** A UTC interval [start, end). */
  datatype Window = Window(start: int, end: int)

  /** The natural key of a log. */
  datatype LogKey = LogKey(chainId: int, transactionHash: string, logIndex: nat)

  /** The columns of a raw row that must not differ between two sightings of one log. */
  datatype LogFact = LogFact(
    chainId: int,
    blockNumber: nat,
    blockHash: string,
    transactionHash: string,
    transactionIndex: Option<nat>,
    logIndex: nat,
    contractAddress: string,
    topic0: Option<string>,
    topic1: Option<string>,
    topic2: Option<string>,
    topic3: Option<string>,
    dataRaw: string,
    decimalText: Option<string>,
    decodeStatus: string,
    removed: Option<bool>,
    blockTimestamp: int,
    blockDate: int,
    intervalStart: int,
    intervalEnd: int)
  {
    function Key(): LogKey {
      LogKey(chainId, transactionHash, logIndex)
    }
  }

  /** A row of the raw table: the immutable columns, and when this sighting was ingested. */
  datatype LogRow = LogRow(fact: LogFact, ingestedAt: int)

  // --- Fields of the payload; None is one of the errors that make a log invalid ---

  function RequiredHex(f: Field): Option<string> {
    if f.Text? && IsHexText(f.text) then Some(Lower(f.text)) else None
  }

  function HexQuantity(f: Field): Option<nat> {
    if f.Text? && IsHexText(f.text) && |f.text| > 2 then Some(HexValue(f.text[2..])) else None
  }

  function OptionalHexQuantity(f: Field): Option<Option<nat>> {
    if f.Missing? || f.Null? then Some(None)
    else
      var q := HexQuantity(f);
      if q.None? then None else Some(Some(q.value))
  }

  function TopicOrNone(topics: seq<Field>, index: nat): Option<Option<string>> {
    if index >= |topics| || topics[index].Null? then Some(None)
    else
      var t := RequiredHex(topics[index]);
      if t.None? then None else Some(Some(t.value))
  }

  function TopicValues(topics: Topics): Option<seq<Field>> {
    match topics
    case NoTopics => Some([])
    case NotAList => None
    case TopicList(values) => Some(values)
  }

  /** A missing data field reads as empty data. */
  function DataField(f: Field): Field {
    if f.Missing? then Text("0x") else f
  }

  /** The immutable columns of a log whose block has the given time. */
  function NormalizeFact(l: RawLog, timestamp: int, chainId: int, w: Window): Option<LogFact> {
    var number, topics := HexQuantity(l.blockNumber), TopicValues(l.topics);
    var data, blockHash := RequiredHex(DataField(l.data)), RequiredHex(l.blockHash);
    var txHash, txIndex := RequiredHex(l.transactionHash), OptionalHexQuantity(l.transactionIndex);
    var logIndex, address := HexQuantity(l.logIndex), RequiredHex(l.address);
    if number.None? || topics.None? || data.None? || blockHash.None? || txHash.None? || txIndex.None?
       || logIndex.None? || address.None? then None
    else
      var t0, t1 := TopicOrNone(topics.value, 0), TopicOrNone(topics.value, 1);
      var t2, t3 := TopicOrNone(topics.value, 2), TopicOrNone(topics.value, 3);
      var decoded := DecodeUint256(data.value);
      if t0.None? || t1.None? || t2.None? || t3.None? || decoded.None? then None
      else
        Some(LogFact(chainId, number.value, blockHash.value, txHash.value, txIndex.value, logIndex.value,
                     address.value, t0.value, t1.value, t2.value, t3.value, data.value,
                     decoded.value.decimalText, decoded.value.status, l.removed,
                     timestamp, timestamp / SECONDS_PER_DAY, w.start, w.end))
  }

  /** One log, whose block's time must have been loaded. */
  function NormalizeLog(l: RawLog, timestamps: map<nat, int>, chainId: int, w: Window,
                        ingestedAt: int): Option<LogRow> {
    var number := HexQuantity(l.blockNumber);
    if number.None? || number.value !in timestamps then None
    else
      var fact := NormalizeFact(l, timestamps[number.value], chainId, w);
      if fact.None? then None else Some(LogRow(fact.value, ingestedAt))
  }

  /** The rows of the logs that normalize, in order. */
  function NormalizedRows(logs: seq<RawLog>, timestamps: map<nat, int>, chainId: int, w: Window,
                          ingestedAt: int): seq<LogRow> {
    if logs == [] then []
    else
      var front := NormalizedRows(logs[..|logs| - 1], timestamps, chainId, w, ingestedAt);
      var row := NormalizeLog(logs[|logs| - 1], timestamps, chainId, w, ingestedAt);
      if row.None? then front else front + [row.value]
  }

  method NormalizeLogs(logs: seq<RawLog>, timestamps: map<nat, int>, chainId: int, w: Window, ingestedAt: int)
    returns (rows: seq<LogRow>, invalidCount: nat)
    ensures rows == NormalizedRows(logs, timestamps, chainId, w, ingestedAt)
    ensures invalidCount == |logs| - |rows|
    ensures invalidCount == 0 <==> forall l | l in logs :: NormalizeLog(l, timestamps, chainId, w, ingestedAt).Some?
  {
    hide NormalizeLog;
    rows, invalidCount := [], 0;
    for i := 0 to |logs|
      invariant rows == NormalizedRows(logs[..i], timestamps, chainId, w, ingestedAt)
      invariant invalidCount == i - |rows|
      invariant invalidCount == 0 <==>
        forall j | 0 <= j < i :: NormalizeLog(logs[j], timestamps, chainId, w, ingestedAt).Some?
    {
      assert logs[..i + 1][..i] == logs[..i];
      var row := NormalizeLog(logs[i], timestamps, chainId, w, ingestedAt);
      if row.Some? {
        rows := rows + [row.value];
      } else {
        invalidCount := invalidCount + 1;
      }
    }
    assert logs[..|logs|] == logs;
  }

  // --- What a normalized row is worth ---

  /** The text and status of a row are the ones its own data column decodes to. */
  lemma RowMatchesItsData(l: RawLog, timestamp: int, chainId: int, w: Window)
    requires NormalizeFact(l, timestamp, chainId, w).Some?
    ensures var f := NormalizeFact(l, timestamp, chainId, w).value;
      && IsHexText(f.dataRaw) && IsLower(f.dataRaw)
      && DecodeUint256(f.dataRaw) == Some(Decoded(f.decimalText, f.decodeStatus))
      && f.blockTimestamp == timestamp && f.intervalStart == w.start && f.intervalEnd == w.end
      && HexQuantity(l.blockNumber) == Some(f.blockNumber)
  {
    var data := DataField(l.data).text;
    LowerKeepsHex(data);
    LowerIsLower(data);
  }

  // --- Every column of a row, from the payload ---

  predicate IsHexField(f: Field) {
    f.Text? && IsHexText(f.text)
  }

  predicate IsQuantity(f: Field) {
    IsHexField(f) && f.text != "0x"
  }

  function TopicFields(l: RawLog): seq<Field> {
    if l.topics.TopicList? then l.topics.values else []
  }

  /** The payload has all that a row needs. */
  predicate WellFormed(l: RawLog) {
    && IsQuantity(l.blockNumber) && IsQuantity(l.logIndex)
    && (l.transactionIndex.Missing? || l.transactionIndex.Null? || IsQuantity(l.transactionIndex))
    && IsHexField(l.blockHash) && IsHexField(l.transactionHash) && IsHexField(l.address)
    && (l.data.Missing? || IsHexField(l.data))
    && !l.topics.NotAList?
    && forall i | 0 <= i < 4 && i < |TopicFields(l)| :: TopicFields(l)[i].Null? || IsHexField(TopicFields(l)[i])
  }

  /** The topic column for an index: the topic in lower case, null when it is null or not there. */
  function TopicColumn(l: RawLog, i: nat): Option<string> {
    if i < |TopicFields(l)| && TopicFields(l)[i].Text? then Some(Lower(TopicFields(l)[i].text)) else None
  }

  lemma FieldReads(f: Field)
    ensures RequiredHex(f).Some? <==> IsHexField(f)
    ensures IsHexField(f) ==> RequiredHex(f) == Some(Lower(f.text))
    ensures HexQuantity(f).Some? <==> IsQuantity(f)
    ensures IsQuantity(f) ==> HexQuantity(f) == Some(HexValue(f.text[2..]))
    ensures OptionalHexQuantity(f).Some? <==> f.Missing? || f.Null? || IsQuantity(f)
    ensures OptionalHexQuantity(f).Some? ==>
      OptionalHexQuantity(f).value == if f.Text? then Some(HexValue(f.text[2..])) else None
  {
  }

  lemma TopicReads(l: RawLog, i: nat)
    ensures var topic := TopicOrNone(TopicFields(l), i);
      && (topic.Some? <==> i < |TopicFields(l)| ==> TopicFields(l)[i].Null? || IsHexField(TopicFields(l)[i]))
      && (topic.Some? ==> topic.value == TopicColumn(l, i))
  {
    hide IsHexText, Lower;
  }

  lemma FieldsRead(l: RawLog)
    ensures HexQuantity(l.blockNumber).Some? <==> IsQuantity(l.blockNumber)
    ensures HexQuantity(l.logIndex).Some? <==> IsQuantity(l.logIndex)
    ensures OptionalHexQuantity(l.transactionIndex).Some? <==>
      l.transactionIndex.Missing? || l.transactionIndex.Null? || IsQuantity(l.transactionIndex)
    ensures RequiredHex(l.blockHash).Some? <==> IsHexField(l.blockHash)
    ensures RequiredHex(l.transactionHash).Some? <==> IsHexField(l.transactionHash)
    ensures RequiredHex(l.address).Some? <==> IsHexField(l.address)
    ensures RequiredHex(DataField(l.data)).Some? <==> l.data.Missing? || IsHexField(l.data)
    ensures RequiredHex(DataField(l.data)).Some? ==> DecodeUint256(RequiredHex(DataField(l.data)).value).Some?
    ensures TopicValues(l.topics) == if l.topics.NotAList? then None else Some(TopicFields(l))
  {
    hide DecodeUint256, IsHexText, Lower;
    FieldReads(l.blockNumber);
    FieldReads(l.logIndex);
    FieldReads(l.transactionIndex);
    FieldReads(l.blockHash);
    FieldReads(l.transactionHash);
    FieldReads(l.address);
    FieldReads(DataField(l.data));
    EmptyIsHex();
    if RequiredHex(DataField(l.data)).Some? {
      HexDecodes(DataField(l.data).text);
    }
  }

  lemma EmptyIsHex()
    ensures IsHexText("0x") && Lower("0x") == "0x"
  {
  }

  lemma HexDecodes(data: string)
    requires IsHexText(data)
    ensures DecodeUint256(Lower(data)).Some? && DecodeUint256(Lower(data)) == DecodeUint256(data)
    ensures IsUint256Word(data) ==> DecodeUint256(data).value.decimalText.Some?
  {
    DecodeIgnoresCase(data);
    LowerKeepsHex(data);
  }

  /** A log becomes a row exactly when its payload is well-formed. */
  lemma NormalizesWellFormed(l: RawLog, timestamp: int, chainId: int, w: Window)
    ensures NormalizeFact(l, timestamp, chainId, w).Some? <==> WellFormed(l)
  {
    hide IsHexField, IsQuantity, RequiredHex, HexQuantity, OptionalHexQuantity, TopicOrNone, DecodeUint256, TopicColumn,
         Lower, TopicFields, TopicValues, DataField;
    FieldsRead(l);
    TopicReads(l, 0);
    TopicReads(l, 1);
    TopicReads(l, 2);
    TopicReads(l, 3);
  }

  /** And every column of the row is the payload's own: texts in lower case, quantities by value. */
  lemma RowKeepsThePayload(l: RawLog, timestamp: int, chainId: int, w: Window)
    requires WellFormed(l)
    ensures NormalizeFact(l, timestamp, chainId, w).Some?
    ensures var f := NormalizeFact(l, timestamp, chainId, w).value;
      && f.chainId == chainId && f.blockNumber == HexValue(l.blockNumber.text[2..])
      && f.blockHash == Lower(l.blockHash.text) && f.transactionHash == Lower(l.transactionHash.text)
      && f.transactionIndex
         == (if l.transactionIndex.Text? then Some(HexValue(l.transactionIndex.text[2..])) else None)
      && f.logIndex == HexValue(l.logIndex.text[2..]) && f.contractAddress == Lower(l.address.text)
      && f.topic0 == TopicColumn(l, 0) && f.topic1 == TopicColumn(l, 1)
      && f.topic2 == TopicColumn(l, 2) && f.topic3 == TopicColumn(l, 3)
      && f.dataRaw == (if l.data.Text? then Lower(l.data.text) else "0x")
      && f.removed == l.removed && f.blockTimestamp == timestamp
      && f.blockDate * 86400 <= timestamp < (f.blockDate + 1) * 86400
      && f.intervalStart == w.start && f.intervalEnd == w.end
  {
    hide DecodeUint256, HexValue, IsHexText, Lower, TopicFields, TopicColumn, TopicOrNone;
    NormalizesWellFormed(l, timestamp, chainId, w);
    FieldsRead(l);
    FieldReads(l.blockNumber);
    FieldReads(l.logIndex);
    FieldReads(l.transactionIndex);
    FieldReads(l.blockHash);
    FieldReads(l.transactionHash);
    FieldReads(l.address);
    FieldReads(DataField(l.data));
    EmptyIsHex();
    TopicReads(l, 0);
    TopicReads(l, 1);
    TopicReads(l, 2);
    TopicReads(l, 3);
  }

  /**
   The amount columns come from the payload's data: for 32 bytes the exact decimal text of their value, and whether it
   has at most 38 digits; for any other data, or none, no text.
   */
  lemma RowTellsTheAmount(l: RawLog, timestamp: int, chainId: int, w: Window)
    requires NormalizeFact(l, timestamp, chainId, w).Some?
    ensures var f := NormalizeFact(l, timestamp, chainId, w).value;
      if l.data.Text? && |l.data.text| == 66 then
        && IsHexText(l.data.text)
        && f.decimalText == Some(ToDecimal(HexValue(l.data.text[2..])))
        && f.decodeStatus == (if HexValue(l.data.text[2..]) < Pow(10, 38) then STATUS_DECIMAL38_AVAILABLE
                              else STATUS_OUTSIDE_DECIMAL38_RANGE)
      else f.decimalText == None && f.decodeStatus == STATUS_NOT_UINT256_WORD
  {
    hide HexValue, ToDecimal, Pow, Lower;
    NormalizesWellFormed(l, timestamp, chainId, w);
    RowKeepsThePayload(l, timestamp, chainId, w);
    RowMatchesItsData(l, timestamp, chainId, w);
    Decimal38Limit();
    EmptyIsHex();
    if l.data.Text? {
      DecodeIgnoresCase(l.data.text);
      WordDecodes(l.data.text);
    } else {
      OtherDataHasNoText("0x");
    }
  }

  lemma WordDecodes(data: string)
    requires IsHexText(data)
    ensures DecodeUint256(data) ==
      if |data| != 66 then Some(Decoded(None, STATUS_NOT_UINT256_WORD))
      else Some(Decoded(Some(ToDecimal(HexValue(data[2..]))),
                        if HexValue(data[2..]) < DECIMAL38_MAX + 1 then STATUS_DECIMAL38_AVAILABLE
                        else STATUS_OUTSIDE_DECIMAL38_RANGE))
  {
    LowerKeepsHex(data);
    LowerIsLower(data);
  }
}
