/**
 * Decoding of `smartctl -j` documents into the records the script works with:
 * the self-test status snapshot of `-c`, the most recent self-test log entry,
 * the pending-sector attribute (id 197) and the LBA of the latest read failure.
 */
module StatusReader {
  import opened Wrappers
  import opened Json
  import opened Text

  /** The dict `get_selftest_status` returns. */
  datatype Snapshot = Snapshot(
    inProgress: bool,
    remainingPercent: Option<int>,
    statusString: string,
    rawValue: Option<int>)

  /** The result when no usable status is found. */
  const NoStatus: Snapshot := Snapshot(false, None, "", None)

  /** The sentinel status value smartctl reports for a running self-test. */
  const InProgressValue: int := 249

  /** `data.get("ata_smart_self_test", {}).get("status", {})`, when it is a dict. */
  function StatusObject(data: Json): (r: Option<Json>)
    ensures r.Some? ==> r.value.JObject?
  {
    match Get(data, "ata_smart_self_test", EmptyObject)
    case None => None
    case Some(test) =>
      match Get(test, "status", EmptyObject)
      case None => None
      case Some(st) => if st.JObject? then Some(st) else None
  }

  /** `st.get(key, None)` for the status dict. */
  function Member(st: Json, key: string): Json
    requires st.JObject?
  {
    if key in st.fields then st.fields[key] else JNull
  }

  /**
   * `get_selftest_status` given smartctl's parsed output (None when it did
   * not parse). Any exception inside the try leaves the default result.
   */
  function SelftestStatus(data: Option<Json>): (r: Snapshot)
    ensures r.inProgress <==>
              Contains(Lower(r.statusString), "in progress") || r.rawValue == Some(InProgressValue)
    ensures data.None? || !Truthy(data.value) ==> r == NoStatus
    ensures r.rawValue.Some? ==>
              data.Some? && StatusObject(data.value).Some? &&
              AsInt(Member(StatusObject(data.value).value, "value")) == r.rawValue
    ensures r.remainingPercent.Some? ==>
              data.Some? && StatusObject(data.value).Some? &&
              AsInt(Member(StatusObject(data.value).value, "remaining_percent")) == r.remainingPercent
    ensures data.Some? && Truthy(data.value) && StatusObject(data.value).None? ==> r == NoStatus
    // a truthy `string` that is not a str makes `.lower()` raise
    ensures (data.Some? && Truthy(data.value) && StatusObject(data.value).Some? &&
             Truthy(Member(StatusObject(data.value).value, "string")) &&
             !Member(StatusObject(data.value).value, "string").JString?) ==> r == NoStatus
    ensures (data.Some? && Truthy(data.value) && StatusObject(data.value).Some? &&
             (Member(StatusObject(data.value).value, "string").JString? ||
              !Truthy(Member(StatusObject(data.value).value, "string")))) ==>
              var st := StatusObject(data.value).value;
              var text := if Member(st, "string").JString? then Member(st, "string").s else "";
              r.statusString == text &&
              r.rawValue == AsInt(Member(st, "value")) &&
              r.remainingPercent == AsInt(Member(st, "remaining_percent")) &&
              (r.inProgress <==>
                 Contains(Lower(text), "in progress") || AsInt(Member(st, "value")) == Some(InProgressValue))
  {
    if data.None? || !Truthy(data.value) then NoStatus
    else match StatusObject(data.value)
      case None => NoStatus
      case Some(st) =>
        var str := Member(st, "string");
        // `st.get("string", "") or ""`, then `.lower()` raises unless it is a str
        var s := if Truthy(str) then str else JString("");
        if !s.JString? then NoStatus
        else
          var rem := AsInt(Member(st, "remaining_percent"));
          var val := AsInt(Member(st, "value"));
          Snapshot(Contains(Lower(s.s), "in progress") || val == Some(InProgressValue), rem, s.s, val)
  }

  /** A snapshot whose `inProgress` agrees with its status string and raw value, as line 102 computes it. */
  predicate Consistent(sn: Snapshot) {
    sn.inProgress <==> Contains(Lower(sn.statusString), "in progress") || sn.rawValue == Some(InProgressValue)
  }

  /** The `-c` document that reports `sn`: a status dict with its string, value and remaining percent. */
  function StatusDocument(sn: Snapshot): Json {
    var status := JObject(map[
      "string" := JString(sn.statusString),
      "value" := if sn.rawValue.Some? then JInt(sn.rawValue.value) else JNull,
      "remaining_percent" := if sn.remainingPercent.Some? then JInt(sn.remainingPercent.value) else JNull]);
    JObject(map["ata_smart_self_test" := JObject(map["status" := status])])
  }

  /** Every snapshot `get_selftest_status` can return is consistent, and its document reads back as it. */
  lemma SelftestStatusRoundTrip(sn: Snapshot)
    requires Consistent(sn)
    ensures SelftestStatus(Some(StatusDocument(sn))) == sn
  {
    var st := StatusObject(StatusDocument(sn)).value;
    assert Member(st, "string") == JString(sn.statusString);
  }

  /** One self-test log entry as `get_last_selftest_entry` returns it. */
  datatype Entry = Entry(status: Json, lba: int)

  const NoEntry: Entry := Entry(JString(""), 0)

  const SelftestTable: seq<string> := ["ata_smart_self_test_log", "standard", "table"]

  const AttributeTable: seq<string> := ["ata_smart_attributes", "table"]

  /** `data["ata_smart_self_test_log"]["standard"]["table"][0]` */
  function MostRecentLog(data: Json): Option<Json> {
    match Path(data, SelftestTable)
    case None => None
    case Some(table) => Index0(table)
  }

  /** A log entry `log.get("status", {}).get("string")` can be read from. */
  predicate Readable(log: Json) {
    log.JObject? && ("status" in log.fields ==> log.fields["status"].JObject?)
  }

  /** `entry.get("status", {}).get("string", "")` of a readable entry. */
  function LogStatus(log: Json): Json
    requires Readable(log)
  {
    if "status" in log.fields && "string" in log.fields["status"].fields
    then log.fields["status"].fields["string"] else JString("")
  }

  /** `entry.get("lba", 0)` when it is an int (True counts as 1). */
  function LogLba(log: Json): Option<int>
    requires log.JObject?
  {
    if "lba" in log.fields then AsInt(log.fields["lba"]) else Some(0)
  }

  /**
   * `get_last_selftest_entry`: the status string and LBA of the most recent
   * self-test log entry. The status is returned as found (it need not be a
   * string); an entry whose lba is not an int gives ("", 0).
   */
  function LastSelftestEntry(data: Option<Json>): (r: Entry)
    ensures data.None? || !Truthy(data.value) ==> r == NoEntry
    ensures r != NoEntry ==>
              data.Some? && MostRecentLog(data.value).Some? &&
              Get(MostRecentLog(data.value).value, "lba", JInt(0)).Some? &&
              AsInt(Get(MostRecentLog(data.value).value, "lba", JInt(0)).value) == Some(r.lba)
    ensures r != NoEntry ==>
              data.Some? && MostRecentLog(data.value).Some? && Readable(MostRecentLog(data.value).value) &&
              r.status == LogStatus(MostRecentLog(data.value).value)
    ensures data.Some? && Truthy(data.value) && MostRecentLog(data.value).None? ==> r == NoEntry
    ensures data.Some? && Truthy(data.value) && MostRecentLog(data.value).Some? ==>
              var e := MostRecentLog(data.value).value;
              (Readable(e) && LogLba(e).Some? ==> r == Entry(LogStatus(e), LogLba(e).value)) &&
              (!Readable(e) || LogLba(e).None? ==> r == NoEntry)
  {
    if data.None? || !Truthy(data.value) then NoEntry
    else match MostRecentLog(data.value)
      case None => NoEntry
      case Some(e) =>
        match Get(e, "status", EmptyObject)
        case None => NoEntry
        case Some(st) =>
          match Get(st, "string", JString(""))
          case None => NoEntry
          case Some(s) =>
            match Get(e, "lba", JInt(0))
            case None => NoEntry
            case Some(lba) =>
              match AsInt(lba)
              case None => NoEntry
              case Some(n) => Entry(s, n)
  }

  /** The `-l selftest` document whose most recent log entry has status `e.status` and LBA `e.lba`. */
  function LogDocument(e: Entry): Json {
    var entry := JObject(map["status" := JObject(map["string" := e.status]), "lba" := JInt(e.lba)]);
    JObject(map["ata_smart_self_test_log" := JObject(map["standard" := JObject(map["table" := JArray([entry])])])])
  }

  /** Any status and int LBA placed in the most recent log entry are read back unchanged. */
  lemma LastSelftestEntryRoundTrip(e: Entry)
    ensures LastSelftestEntry(Some(LogDocument(e))) == e
  {
    var entry := JObject(map["status" := JObject(map["string" := e.status]), "lba" := JInt(e.lba)]);
    assert MostRecentLog(LogDocument(e)) == Some(entry);
  }

  /** An attribute-table row whose "id" compares equal to 197. */
  predicate IsPendingAttribute(a: Json) {
    a.JObject? && "id" in a.fields && EqualsInt(a.fields["id"], 197)
  }

  /**
   * The loop at lines 207-210: the first row with id 197. A row that is not
   * a dict makes `attribute.get` raise, which ends the loop with nothing found.
   */
  function PendingAttribute(attrs: seq<Json>): (r: Option<Json>)
    ensures r.Some? ==> IsPendingAttribute(r.value) && r.value in attrs
    decreases |attrs|
  {
    if attrs == [] then None
    else if !attrs[0].JObject? then None
    else if IsPendingAttribute(attrs[0]) then Some(attrs[0])
    else PendingAttribute(attrs[1..])
  }

  lemma {:induction false} PendingAttributeFirst(attrs: seq<Json>, i: nat)
    requires i < |attrs| && IsPendingAttribute(attrs[i])
    requires forall j :: 0 <= j < i ==> attrs[j].JObject? && !IsPendingAttribute(attrs[j])
    ensures PendingAttribute(attrs) == Some(attrs[i])
    decreases i
  {
    if i > 0 {
      PendingAttributeFirst(attrs[1..], i - 1);
    }
  }

  lemma {:induction false} PendingAttributeAbsent(attrs: seq<Json>)
    requires forall j :: 0 <= j < |attrs| ==> !IsPendingAttribute(attrs[j])
    ensures PendingAttribute(attrs) == None
    decreases |attrs|
  {
    if attrs != [] && attrs[0].JObject? {
      PendingAttributeAbsent(attrs[1..]);
    }
  }

  /** The attribute row with id 197, if the table exists and the scan finds one. */
  function PendingRow(data: Json): Option<Json> {
    match Path(data, AttributeTable)
    case None => None
    case Some(table) =>
      match ListItems(table)
      case None => None
      case Some(attrs) => PendingAttribute(attrs)
  }

  /**
   * The new `pendcount` of lines 214-218: `raw.value` of the row with id 197
   * (kept as found, default -1), or -1 without such a row. None when `raw`
   * is present but not a dict: `.get("value", -1)` then raises outside any try.
   */
  function PendingValue(data: Json): (r: Option<Json>)
    ensures PendingRow(data).None? ==> r == Some(JInt(-1))
    ensures PendingRow(data).Some? ==>
              var row := PendingRow(data).value.fields;
              (r.None? <==> "raw" in row && !row["raw"].JObject?)
    ensures PendingRow(data).Some? && r.Some? ==>
              var row := PendingRow(data).value.fields;
              ("raw" !in row && r.value == JInt(-1)) ||
              ("raw" in row && row["raw"].JObject? &&
               r.value == (if "value" in row["raw"].fields then row["raw"].fields["value"] else JInt(-1)))
  {
    match PendingRow(data)
    case None => Some(JInt(-1))
    case Some(row) =>
      match Get(row, "raw", EmptyObject)
      case None => None
      case Some(raw) => Get(raw, "value", JInt(-1))
  }

  const ReadFailure: string := "Completed: read failure"

  /** A readable entry whose status string is exactly "Completed: read failure". */
  predicate IsReadFailure(log: Json)
    requires Readable(log)
  {
    "status" in log.fields && "string" in log.fields["status"].fields &&
    log.fields["status"].fields["string"] == JString(ReadFailure)
  }

  /** The LBA line 226 accepts: a positive int (True counts as 1). */
  function PositiveLba(log: Json): (r: Option<int>)
    requires log.JObject?
    ensures r.Some? ==> r.value > 0
    ensures "lba" in log.fields && log.fields["lba"].JInt? && log.fields["lba"].n > 0 ==>
              r == Some(log.fields["lba"].n)
    ensures "lba" in log.fields && log.fields["lba"] == JBool(true) ==> r == Some(1)
    ensures r.Some? ==> "lba" in log.fields && (log.fields["lba"].JInt? || log.fields["lba"] == JBool(true))
  {
    if "lba" in log.fields && AsInt(log.fields["lba"]).Some? && AsInt(log.fields["lba"]).value > 0
    then AsInt(log.fields["lba"]) else None
  }

  /**
   * The loop at lines 224-231: the LBA of the first (most recent) entry whose
   * status is exactly "Completed: read failure", if that LBA is positive.
   * An entry the lookups raise on ends the scan with nothing found.
   */
  function FailureScan(logs: seq<Json>): (r: Option<int>)
    ensures r.Some? ==> r.value > 0
    decreases |logs|
  {
    if logs == [] then None
    else if !Readable(logs[0]) then None
    else if IsReadFailure(logs[0]) then PositiveLba(logs[0])
    else FailureScan(logs[1..])
  }

  lemma {:induction false} FailureScanFirst(logs: seq<Json>, i: nat)
    requires i < |logs| && Readable(logs[i]) && IsReadFailure(logs[i])
    requires forall j :: 0 <= j < i ==> Readable(logs[j]) && !IsReadFailure(logs[j])
    ensures FailureScan(logs) == PositiveLba(logs[i])
    decreases i
  {
    if i > 0 {
      FailureScanFirst(logs[1..], i - 1);
    }
  }

  lemma {:induction false} FailureScanFound(logs: seq<Json>)
    requires FailureScan(logs).Some?
    ensures exists i :: 0 <= i < |logs| && Readable(logs[i]) && IsReadFailure(logs[i]) &&
                        PositiveLba(logs[i]) == FailureScan(logs) &&
                        forall j :: 0 <= j < i ==> Readable(logs[j]) && !IsReadFailure(logs[j])
    decreases |logs|
  {
    if !IsReadFailure(logs[0]) {
      FailureScanFound(logs[1..]);
      var i :| 0 <= i < |logs[1..]| && Readable(logs[1..][i]) && IsReadFailure(logs[1..][i]) &&
               PositiveLba(logs[1..][i]) == FailureScan(logs[1..]) &&
               forall j :: 0 <= j < i ==> Readable(logs[1..][j]) && !IsReadFailure(logs[1..][j]);
      assert forall j :: 0 <= j < i + 1 ==> Readable(logs[j]) && !IsReadFailure(logs[j]) by {
        forall j | 0 <= j < i + 1 ensures Readable(logs[j]) && !IsReadFailure(logs[j]) {
          if j > 0 { assert logs[j] == logs[1..][j - 1]; }
        }
      }
    } else {
      assert PositiveLba(logs[0]) == FailureScan(logs);
    }
  }

  /** The failing LBA of lines 221-233 found in a self-test table, if any. */
  function FailingLba(data: Json): (r: Option<int>)
    ensures r.Some? ==> r.value > 0
  {
    match Path(data, SelftestTable)
    case None => None
    case Some(table) =>
      match ListItems(table)
      case None => None
      case Some(logs) => FailureScan(logs)
  }
}
