/**
 * `export_backup_json` and the decisions of `import_backup_json`: which
 * settings and which rows a backup document restores, or why it is refused.
 */
module Backup {
  import opened Wrappers
  import opened JsonValues
  import opened Tables

  /** Why `import_backup_json` raises (and the restore is rolled back). */
  datatype ImportError =
    | NotAnObject     // the document is not a dict
    | BadSettings     // `settings` is not a dict
    | BadValue        // `int()` / `float()` of a setting raises
    | BadSites        // `sites` cannot be iterated as a list of entries
    | BadEntry        // an entry is not a dict
    | Unsupported     // the database driver cannot store an entry's value

  /** The settings and the site rows a backup restores, in backup order. */
  datatype Plan = Plan(settings: Settings, rows: seq<Row>)

  function BalanceJson(b: Option<real>): Json
  {
    match b
    case None => JNull
    case Some(v) => JNum(v)
  }

  /** One entry of the exported `sites` list: the site's five columns, without its id. */
  function SiteJson(s: Site): (r: Json)
    ensures r.JObject? && |r.fields| == 5
    ensures Get(r.fields, "name") == Some(JStr(s.name))
    ensures Get(r.fields, "api_url") == Some(JStr(s.apiUrl))
    ensures Get(r.fields, "last_balance") == Some(if s.lastBalance.Some? then JNum(s.lastBalance.value) else JNull)
    ensures Get(r.fields, "chat_id") == Some(JStr(s.chatId))
    ensures Get(r.fields, "bot_token") == Some(JStr(s.botToken))
  {
    var fields := [
      Field("name", JStr(s.name)),
      Field("api_url", JStr(s.apiUrl)),
      Field("last_balance", BalanceJson(s.lastBalance)),
      Field("chat_id", JStr(s.chatId)),
      Field("bot_token", JStr(s.botToken))];
    GetAt(fields, "last_balance", 2);
    GetAt(fields, "chat_id", 3);
    GetAt(fields, "bot_token", 4);
    JObject(fields)
  }

  /** The `sites` list of the export: one dict per site, in table order. */
  function ExportedSites(sites: seq<Site>): (r: seq<Json>)
    ensures |r| == |sites|
    ensures forall i :: 0 <= i < |sites| ==> r[i] == SiteJson(sites[i])
  {
    if sites == [] then []
    else
      var rest := ExportedSites(sites[1..]);
      assert forall i :: 1 <= i < |sites| ==> sites[1..][i - 1] == sites[i];
      [SiteJson(sites[0])] + rest
  }

  /** `export_backup_json`: the settings, every site without its id, and a version tag. */
  function ExportBackup(settings: Settings, sites: seq<Site>): (r: Json)
    ensures r.JObject? && |r.fields| == 3
    ensures Get(r.fields, "sites") == Some(JArray(ExportedSites(sites)))
    ensures Get(r.fields, "version") == Some(JNum(1.0))
    ensures Get(r.fields, "settings").Some? && Get(r.fields, "settings").value.JObject?
    ensures var st := Get(r.fields, "settings").value.fields;
      |st| == 2 &&
      Get(st, "poll_interval") == Some(JNum(settings.pollInterval as real)) &&
      Get(st, "threshold") == Some(JNum(settings.threshold))
  {
    var fields := [
      Field("settings", JObject([
        Field("poll_interval", JNum(settings.pollInterval as real)),
        Field("threshold", JNum(settings.threshold))])),
      Field("sites", JArray(ExportedSites(sites))),
      Field("version", JNum(1.0))];
    GetAt(fields, "version", 2);
    JObject(fields)
  }

  /** Python's `int(x)` of a float: truncation toward zero. */
  function Truncate(x: real): (r: int)
    ensures x >= 0.0 ==> r as real <= x < r as real + 1.0
    ensures x < 0.0 ==> r as real - 1.0 < x <= r as real
  {
    if x >= 0.0 then x.Floor else -((-x).Floor)
  }

  /** `int(x)` on a parsed JSON value, `None` when it raises. */
  function PyInt(v: Json, toInt: IntParser): (r: Option<int>)
    ensures v.JNum? ==> r == Some(Truncate(v.n))
    ensures v.JBool? ==> r == Some(if v.b then 1 else 0)
    ensures v.JStr? ==> r == toInt(v.s)
    ensures r.Some? ==> v.JNum? || v.JBool? || v.JStr?
  {
    match v
    case JNum(n) => Some(Truncate(n))
    case JBool(b) => Some(if b then 1 else 0)
    case JStr(s) => toInt(s)
    case _ => None
  }

  /** `for s in sites`: a list yields its items; an empty dict or string yields none. */
  function SiteEntries(v: Json): (r: Result<seq<Json>, ImportError>)
    ensures v.JArray? ==> r == Success(v.items)
    ensures r.Success? && !v.JArray? ==> r.value == []
    ensures r.Success? <==> v.JArray? || v == JObject([]) || v == JStr("")
    ensures r.Failure? && (v.JObject? || v.JStr?) ==> r.error == BadEntry
  {
    match v
    case JArray(items) => Success(items)
    case JObject(fields) => if fields == [] then Success([]) else Failure(BadEntry)
    case JStr(s) => if s == "" then Success([]) else Failure(BadEntry)
    case _ => Failure(BadSites)
  }

  /** The value a text column receives. */
  function StoredText(v: Json): Result<string, ImportError>
  {
    match v
    case JStr(s) => Success(s)
    case _ => Failure(Unsupported)
  }

  /**
   * The value the `last_balance` column receives (`REAL`, or `NULL`); a string
   * is refused (see `StoredCellAsWritten` for what the source stores instead).
   */
  function StoredBalance(v: Option<Json>): (r: Result<Option<real>, ImportError>)
    ensures v.None? || v == Some(JNull) ==> r == Success(None)
    ensures v.Some? && v.value.JNum? ==> r == Success(Some(v.value.n))
    ensures v.Some? && v.value.JBool? ==> r == Success(Some(if v.value.b then 1.0 else 0.0))
    ensures r.Failure? <==> v.Some? && (v.value.JStr? || v.value.JArray? || v.value.JObject?)
    ensures r.Failure? ==> r.error == Unsupported
  {
    match v
    case None => Success(None)
    case Some(JNull) => Success(None)
    case Some(JNum(n)) => Success(Some(n))
    case Some(JBool(b)) => Success(Some(if b then 1.0 else 0.0))
    case Some(_) => Failure(Unsupported)
  }

  /**
   * What the `REAL` column `last_balance` holds once SQLite has applied its type
   * affinity: `NULL`, a number, or text that does not read as a number.
   */
  datatype Cell = NullCell | RealCell(x: real) | TextCell(t: string)

  /** The cell a balance of the model's rows occupies. */
  function CellOf(b: Option<real>): Cell
  {
    match b
    case None => NullCell
    case Some(x) => RealCell(x)
  }

  /**
   * As written, `import_backup_json` binds `last_balance` unchecked: text that
   * SQLite reads as a number (`numeric`) is stored as that number, any other
   * text is stored as text, and a list or dict cannot be bound.
   */
  function StoredCellAsWritten(v: Option<Json>, numeric: FloatParser): (r: Result<Cell, ImportError>)
    ensures v.None? || v == Some(JNull) ==> r == Success(NullCell)
    ensures v.Some? && v.value.JNum? ==> r == Success(RealCell(v.value.n))
    ensures v.Some? && v.value.JBool? ==> r == Success(RealCell(if v.value.b then 1.0 else 0.0))
    ensures v.Some? && v.value.JStr? && numeric(v.value.s).Some? ==> r == Success(RealCell(numeric(v.value.s).value))
    ensures r.Failure? <==> v.Some? && (v.value.JArray? || v.value.JObject?)
    ensures r.Failure? ==> r.error == Unsupported
    ensures r.Success? && r.value.TextCell? ==> v == Some(JStr(r.value.t)) && numeric(r.value.t).None?
    ensures v.Some? && v.value.JStr? && numeric(v.value.s).None? ==> r == Success(TextCell(v.value.s))
  {
    match v
    case None => Success(NullCell)
    case Some(JNull) => Success(NullCell)
    case Some(JNum(n)) => Success(RealCell(n))
    case Some(JBool(b)) => Success(RealCell(if b then 1.0 else 0.0))
    case Some(JStr(s)) =>
      if numeric(s).Some? then Success(RealCell(numeric(s).value)) else Success(TextCell(s))
    case Some(_) => Failure(Unsupported)
  }

  /**
   * `StoredBalance` is the as-written binding with text refused: wherever it
   * accepts a value it stores the same cell, and it never stores text.
   */
  lemma StoredBalanceRefusesText(v: Option<Json>, numeric: FloatParser)
    ensures StoredBalance(v).Success? ==>
      StoredCellAsWritten(v, numeric) == Success(CellOf(StoredBalance(v).value))
    ensures StoredCellAsWritten(v, numeric).Success? && StoredCellAsWritten(v, numeric).value.TextCell? ==>
      StoredBalance(v) == Failure(Unsupported)
    ensures StoredBalance(v).Success? ==> !CellOf(StoredBalance(v).value).TextCell?
  {
  }

  /** `s.get(key)` is truthy. */
  predicate TruthyField(fields: seq<Field>, key: string)
  {
    Get(fields, key).Some? && Truthy(Get(fields, key).value)
  }

  /** `s.get(key)` is a non-empty string. */
  predicate TextField(fields: seq<Field>, key: string)
  {
    Get(fields, key).Some? && Get(fields, key).value.JStr? && Get(fields, key).value.s != ""
  }

  /**
   * One entry of `sites`: skipped (`None`) unless `name`, `api_url`, `chat_id`
   * and `bot_token` are all truthy, otherwise the row it inserts.
   */
  function EntryRow(entry: Json): (r: Result<Option<Row>, ImportError>)
    ensures r.Success? ==> entry.JObject?
    ensures r.Success? && r.value.Some? ==> RowComplete(r.value.value)
    ensures r.Success? && r.value.Some? ==>
      Get(entry.fields, "name") == Some(JStr(r.value.value.name)) &&
      Get(entry.fields, "api_url") == Some(JStr(r.value.value.apiUrl)) &&
      Get(entry.fields, "chat_id") == Some(JStr(r.value.value.chatId)) &&
      Get(entry.fields, "bot_token") == Some(JStr(r.value.value.botToken)) &&
      StoredBalance(Get(entry.fields, "last_balance")) == Success(r.value.value.lastBalance)
    ensures entry.JObject? && r.Success? ==>
      (r.value.Some? <==>
        TruthyField(entry.fields, "name") && TruthyField(entry.fields, "api_url") &&
        TruthyField(entry.fields, "chat_id") && TruthyField(entry.fields, "bot_token"))
    ensures !entry.JObject? ==> r == Failure(BadEntry)
    ensures (entry.JObject? &&
             !(TruthyField(entry.fields, "name") && TruthyField(entry.fields, "api_url") &&
               TruthyField(entry.fields, "chat_id") && TruthyField(entry.fields, "bot_token"))) ==>
      r == Success(None)
    ensures entry.JObject? && r.Failure? ==> r.error == Unsupported
    ensures (entry.JObject? &&
             TextField(entry.fields, "name") && TextField(entry.fields, "api_url") &&
             TextField(entry.fields, "chat_id") && TextField(entry.fields, "bot_token") &&
             StoredBalance(Get(entry.fields, "last_balance")).Success?) ==>
      r.Success? && r.value.Some?
  {
    match entry
    case JObject(fields) =>
      if !(TruthyField(fields, "name") && TruthyField(fields, "api_url") &&
           TruthyField(fields, "chat_id") && TruthyField(fields, "bot_token")) then
        Success(None)
      else
        var name :- StoredText(Get(fields, "name").value);
        var apiUrl :- StoredText(Get(fields, "api_url").value);
        var chatId :- StoredText(Get(fields, "chat_id").value);
        var botToken :- StoredText(Get(fields, "bot_token").value);
        var lastBalance :- StoredBalance(Get(fields, "last_balance"));
        Success(Some(Row(name, apiUrl, lastBalance, chatId, botToken)))
    case _ => Failure(BadEntry)
  }

  /** One step of the loop: the entry's row, if any, ahead of the rows after it. */
  function Prepend(here: Result<Option<Row>, ImportError>, rest: Result<seq<Row>, ImportError>): Result<seq<Row>, ImportError>
  {
    if here.Failure? then Failure(here.error)
    else if rest.Failure? then Failure(rest.error)
    else Success((if here.value.Some? then [here.value.value] else []) + rest.value)
  }

  /** The rows that the `for s in sites` loop inserts, or the first error it raises. */
  function EntryRows(entries: seq<Json>): (r: Result<seq<Row>, ImportError>)
    ensures r.Success? ==> |r.value| <= |entries|
    ensures r.Success? ==> forall k :: 0 <= k < |r.value| ==> RowComplete(r.value[k])
  {
    if entries == [] then Success([])
    else Prepend(EntryRow(entries[0]), EntryRows(entries[1..]))
  }

  /**
   * The settings `import_backup_json` writes: `settings` (a dict, by default
   * empty) with `int(poll_interval)` and `float(threshold)`, defaulting to 30
   * and 100000.  The interval is not clamped.
   */
  function BackupSettings(fields: seq<Field>, toFloat: FloatParser, toInt: IntParser): (r: Result<Settings, ImportError>)
    ensures Get(fields, "settings").None? ==> r == Success(DefaultSettings)
    ensures Get(fields, "settings").Some? && !Get(fields, "settings").value.JObject? ==> r == Failure(BadSettings)
    ensures Get(fields, "settings").Some? && Get(fields, "settings").value.JObject? ==>
      var st := Get(fields, "settings").value.fields;
      var n := if Get(st, "poll_interval").Some? then PyInt(Get(st, "poll_interval").value, toInt) else Some(DefaultPollInterval);
      var t := if Get(st, "threshold").Some? then TryParseFloat(Get(st, "threshold").value, toFloat) else Some(DefaultThreshold);
      r == (if n.Some? && t.Some? then Success(Settings(n.value, t.value)) else Failure(BadValue))
  {
    var settings := GetOr(fields, "settings", JObject([]));
    if !settings.JObject? then Failure(BadSettings)
    else
      var pollInterval := PyInt(GetOr(settings.fields, "poll_interval", JNum(DefaultPollInterval as real)), toInt);
      var threshold := TryParseFloat(GetOr(settings.fields, "threshold", JNum(DefaultThreshold)), toFloat);
      if pollInterval.None? || threshold.None? then Failure(BadValue)
      else Success(Settings(pollInterval.value, threshold.value))
  }

  /**
   * `import_backup_json(data)`: the settings and rows the restore writes, or the
   * error it raises.  Only a dict is accepted, and every row it keeps has its
   * four text fields filled in.
   */
  function ParseBackup(data: Json, toFloat: FloatParser, toInt: IntParser): (r: Result<Plan, ImportError>)
    ensures !data.JObject? ==> r == Failure(NotAnObject)
    ensures r.Success? ==> forall k :: 0 <= k < |r.value.rows| ==> RowComplete(r.value.rows[k])
  {
    match data
    case JObject(fields) =>
      var settings :- BackupSettings(fields, toFloat, toInt);
      var entries :- SiteEntries(GetOr(fields, "sites", JArray([])));
      var rows :- EntryRows(entries);
      Success(Plan(settings, rows))
    case _ => Failure(NotAnObject)
  }

  /** The inserted rows keep backup order: the loop's rows over a concatenation concatenate. */
  lemma {:induction false} EntryRowsAppend(a: seq<Json>, b: seq<Json>)
    requires EntryRows(a).Success? && EntryRows(b).Success?
    ensures EntryRows(a + b) == Success(EntryRows(a).value + EntryRows(b).value)
  {
    if a == [] {
      assert a + b == b;
      assert EntryRows(a).value == [];
      assert EntryRows(a).value + EntryRows(b).value == EntryRows(b).value;
    } else {
      assert (a + b)[0] == a[0];
      assert (a + b)[1..] == a[1..] + b;
      var here := EntryRow(a[0]);
      assert EntryRows(a) == Prepend(here, EntryRows(a[1..]));
      assert EntryRows(a + b) == Prepend(here, EntryRows(a[1..] + b));
      EntryRowsAppend(a[1..], b);
      PrependAppend(here, EntryRows(a[1..]).value, EntryRows(b).value);
    }
  }

  /** Putting one entry's row in front commutes with appending later rows. */
  lemma PrependAppend(here: Result<Option<Row>, ImportError>, x: seq<Row>, y: seq<Row>)
    requires here.Success?
    ensures Prepend(here, Success(x + y)) == Success(Prepend(here, Success(x)).value + y)
  {
    var head := if here.value.Some? then [here.value.value] else [];
    assert head + (x + y) == (head + x) + y;
  }

  /** The loop's rows after one more entry. */
  lemma EntryRowsStep(entries: seq<Json>, i: int)
    requires 0 <= i < |entries|
    requires EntryRows(entries[..i]).Success? && EntryRow(entries[i]).Success?
    ensures EntryRows(entries[..i + 1]) ==
      Success(EntryRows(entries[..i]).value + (if EntryRow(entries[i]).value.Some? then [EntryRow(entries[i]).value.value] else []))
  {
    assert entries[..i + 1] == entries[..i] + [entries[i]];
    assert [entries[i]][1..] == [];
    var h := if EntryRow(entries[i]).value.Some? then [EntryRow(entries[i]).value.value] else [];
    assert EntryRows([entries[i]]) == Prepend(EntryRow(entries[i]), Success([]));
    assert h + [] == h;
    EntryRowsAppend(entries[..i], [entries[i]]);
  }

  /** An entry that raises aborts the whole loop with its error. */
  lemma {:induction false} EntryRowsFailure(entries: seq<Json>, i: int)
    requires 0 <= i < |entries|
    requires EntryRows(entries[..i]).Success? && EntryRow(entries[i]).Failure?
    ensures EntryRows(entries) == Failure(EntryRow(entries[i]).error)
  {
    if i > 0 {
      assert entries[1..][..i - 1] == entries[..i][1..];
      assert entries[1..][i - 1] == entries[i];
      assert EntryRow(entries[0]).Success?;
      EntryRowsFailure(entries[1..], i - 1);
    }
  }

  /**
   * An entry past the skip test whose `last_balance` is a string is refused,
   * and so is a backup holding only that entry.
   */
  lemma TextBalanceRefused(fields: seq<Field>, toFloat: FloatParser, toInt: IntParser)
    requires TextField(fields, "name") && TextField(fields, "api_url") &&
             TextField(fields, "chat_id") && TextField(fields, "bot_token")
    requires Get(fields, "last_balance").Some? && Get(fields, "last_balance").value.JStr?
    ensures EntryRow(JObject(fields)) == Failure(Unsupported)
    ensures ParseBackup(JObject([Field("sites", JArray([JObject(fields)]))]), toFloat, toInt) == Failure(Unsupported)
  {
    var top := [Field("sites", JArray([JObject(fields)]))];
    GetMissing(top, "settings");
    assert EntryRows([JObject(fields)]) == Prepend(EntryRow(JObject(fields)), EntryRows([JObject(fields)][1..]));
  }

  /** The loop completes exactly when no entry raises. */
  lemma {:induction false} EntryRowsSuccess(entries: seq<Json>)
    ensures EntryRows(entries).Success? <==> forall k :: 0 <= k < |entries| ==> EntryRow(entries[k]).Success?
  {
    if entries != [] {
      assert forall k :: 1 <= k < |entries| ==> entries[1..][k - 1] == entries[k];
      EntryRowsSuccess(entries[1..]);
    }
  }

  /**
   * An entry with an empty or missing name is skipped, not refused: the
   * restore goes on and keeps the other entries.
   */
  lemma SkippedEntryImports(kept: Json, skipped: Json, row: Row, toFloat: FloatParser, toInt: IntParser)
    requires EntryRow(kept) == Success(Some(row))
    requires skipped.JObject? && !TruthyField(skipped.fields, "name")
    ensures ParseBackup(JObject([Field("sites", JArray([kept, skipped]))]), toFloat, toInt)
      == Success(Plan(DefaultSettings, [row]))
  {
    var top := [Field("sites", JArray([kept, skipped]))];
    GetMissing(top, "settings");
    assert [kept, skipped][1..] == [skipped];
    assert [skipped][1..] == [];
    assert EntryRows([skipped]) == Prepend(EntryRow(skipped), EntryRows([])) == Success([]);
    assert EntryRows([kept, skipped]) == Prepend(EntryRow(kept), EntryRows([skipped]));
    assert [row] + [] == [row];
  }

  /** Missing settings fall back to 30 seconds and a threshold of 100000. */
  lemma DefaultsWhenAbsent(fields: seq<Field>, toFloat: FloatParser, toInt: IntParser)
    requires Get(fields, "settings").None? || Get(fields, "settings") == Some(JObject([]))
    requires ParseBackup(JObject(fields), toFloat, toInt).Success?
    ensures ParseBackup(JObject(fields), toFloat, toInt).value.settings == DefaultSettings
  {
    assert BackupSettings(fields, toFloat, toInt) == Success(DefaultSettings);
  }

  /** A restored setting is kept exactly as the backup gives it: no clamping on import. */
  lemma ImportKeepsPollInterval(n: int, t: real, toFloat: FloatParser, toInt: IntParser)
    ensures ParseBackup(JObject([Field("settings", JObject([Field("poll_interval", JNum(n as real)), Field("threshold", JNum(t))]))]), toFloat, toInt)
      == Success(Plan(Settings(n, t), []))
  {
    var st := [Field("poll_interval", JNum(n as real)), Field("threshold", JNum(t))];
    GetAt(st, "threshold", 1);
    assert Truncate(n as real) == n;
    GetMissing([Field("settings", JObject(st))], "sites");
  }

  /** An exported site entry restores as the site's row. */
  lemma SiteJsonRestores(s: Site)
    requires RowComplete(RowOf(s))
    ensures EntryRow(SiteJson(s)) == Success(Some(RowOf(s)))
  {
    var fs := SiteJson(s).fields;
    GetAt(fs, "name", 0);
    GetAt(fs, "api_url", 1);
    GetAt(fs, "last_balance", 2);
    GetAt(fs, "chat_id", 3);
    GetAt(fs, "bot_token", 4);
  }

  lemma {:induction false} ExportedEntriesRestore(sites: seq<Site>)
    requires forall i :: 0 <= i < |sites| ==> RowComplete(RowOf(sites[i]))
    ensures EntryRows(ExportedSites(sites)) == Success(Rows(sites))
    decreases |sites|
  {
    var entries := ExportedSites(sites);
    if sites != [] {
      assert entries[0] == SiteJson(sites[0]) && entries[1..] == ExportedSites(sites[1..]);
      ExportedEntriesRestore(sites[1..]);
      SiteJsonRestores(sites[0]);
      assert EntryRows(entries) == Prepend(Success(Some(RowOf(sites[0]))), Success(Rows(sites[1..])));
      RowsCons(sites);
    }
  }

  /**
   * Export followed by import restores the same settings and the same ordered
   * rows, provided every site has its four text fields filled in (which
   * `edit_site` and the import itself ensure).
   */
  lemma {:induction false} ExportImportRoundTrip(settings: Settings, sites: seq<Site>, toFloat: FloatParser, toInt: IntParser)
    requires forall i :: 0 <= i < |sites| ==> RowComplete(RowOf(sites[i]))
    ensures ParseBackup(ExportBackup(settings, sites), toFloat, toInt) == Success(Plan(settings, Rows(sites)))
  {
    var doc := ExportBackup(settings, sites);
    ExportedSettingsRestore(settings, sites, toFloat, toInt);
    var entries := ExportedSites(sites);
    GetAt(doc.fields, "sites", 1);
    assert SiteEntries(GetOr(doc.fields, "sites", JArray([]))) == Success(entries);
    ExportedEntriesRestore(sites);
  }

  /** The exported settings object restores as the same settings. */
  lemma ExportedSettingsRestore(settings: Settings, sites: seq<Site>, toFloat: FloatParser, toInt: IntParser)
    ensures BackupSettings(ExportBackup(settings, sites).fields, toFloat, toInt) == Success(settings)
  {
    var doc := ExportBackup(settings, sites);
    var st := GetOr(doc.fields, "settings", JObject([]));
    assert st == JObject([
      Field("poll_interval", JNum(settings.pollInterval as real)),
      Field("threshold", JNum(settings.threshold))]);
    assert Truncate(settings.pollInterval as real) == settings.pollInterval;
    GetAt(st.fields, "threshold", 1);
  }
}
