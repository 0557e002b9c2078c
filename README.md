# Balance watcher — a verified model of its engine

The balance watcher (`app.py`) tracks third-party JSON endpoints that report an
account balance. On every cycle it re-reads its settings and its site table.
For each site it fetches the endpoint, looks for a balance in the JSON, and
compares it with the stored `last_balance`. It then posts Telegram messages for
a payment, a deposit or a low-balance crossing, and stores the new reading. An
admin can change the poll interval and the alert threshold, add or edit sites,
and export or restore a JSON backup.

This project models that engine in Dafny and proves what it promises.

- `wrappers.dfy` (`Wrappers`): `Option` for Python's `None`, and `Result` for a
  value or the exception raised.
- `json.dfy` (`JsonValues`): a parsed JSON value. A dict is an ordered list of
  entries, as a Python dict keeps insertion order. Also `try_parse_float`,
  Python truthiness and `dict.get`. Python's `float(str)` and `int(str)` are
  parameters (`FloatParser`, `IntParser`).
- `keywords.dfy` (`Keywords`): the `BALANCE_KEYWORDS` list, `str.lower()`,
  substring search, and the key test of `find_balance_in_obj`.
- `extraction.dfy` (`Extraction`): `find_balance_in_obj` as three mutually
  recursive functions, with its priority order, completeness and soundness.
  The key test is a parameter (`KeyTest`): every lemma holds for any test, and
  the watcher applies the functions with `Keywords.IsBalanceKey`, the test
  `app.py` hard-codes.
- `classification.dfy` (`Classification`): the 1e-6 change classification and
  the edge-triggered low-balance alert, over single steps and over runs of
  polls.
- `tables.dfy` (`Tables`): the settings row, the `sites` table, the
  AUTOINCREMENT invariant, and the `max(n, 5)` clamp.
- `backup.dfy` (`Backup`): `export_backup_json`, and the decisions of
  `import_backup_json` as a function from a document to a plan (settings plus
  rows) or an error.
- `forms.dfy` (`FormInput`): Python's `str.strip()`, as `edit_site` applies it.
- `watcher.dfy` (`Watcher`): a `Store` class holding the settings, the site
  table, the AUTOINCREMENT counter and the outbox of Telegram requests. It has
  an imperative `PollCycle` (one iteration of `watcher_loop`), `UpdateConfig`,
  `EditSite` and `ImportBackup`. Each is proved against specification functions
  (`CycleSites`, `CycleSends`, `ParseBackup`), and the properties the program
  promises are proved as lemmas about those functions.

I/O is replaced by values:

- The HTTP fetch of each site is an input map from site id to the parsed
  response body. An absent entry or `None` is a failed request.
- Telegram sends are appended to `outbox`.
- The SQLite tables are the fields of `Store`.

Choices of `app.py` that the model keeps as written:

- The change tolerance is `1e-6`.
- A threshold is always configured.
- A first reading below the threshold does alert.
- Extraction is only the keyword scan: there are no field-path hints and no
  fixed candidate paths.
- Each site carries its own chat id and bot token, and sends go to that one bot
  only.
- A backup holds `settings` and `sites` (plus `version`), and import always
  wipes the table and reloads it.
- Import does not clamp the poll interval.

## Model

| member | source | states |
|---|---|---|
| JsonValues.Truthy | app.py:645 | Python truthiness: the falsy values are exactly `None`, `False`, zero, and the empty string, list and dict |
| JsonValues.TryParseFloat | app.py:212-216 | a number converts to itself, `True`/`False` to 1.0/0.0, a string to what `float()` makes of it; null, lists and dicts yield `None` |
| JsonValues.GetAt | app.py:619-623 | `dict.get` returns the value of the entry holding the key |
| JsonValues.GetMissing | app.py:619-623 | `dict.get` of a key held by no entry is `None` |
| Keywords.LowerChar | app.py:229 | `str.lower()` on a character: ASCII capitals move down by 32, `Ư` becomes `ư`, every other character is kept |
| Keywords.Lower | app.py:229 | lowering keeps the length and lowers each character |
| Keywords.Contains | app.py:230 | `kw in key_lower` holds exactly when `kw` occurs somewhere in the key as a contiguous block |
| Keywords.AnyKeywordIn | app.py:230 | `any(...)` holds exactly when some keyword of the list occurs in the key |
| Keywords.IsBalanceKey | app.py:229-230 | a key names a balance iff some entry of `BALANCE_KEYWORDS` occurs in its lower-cased form |
| Keywords.IsBalanceKeyIgnoresCase | app.py:229-230 | a key and its lower-cased form are judged alike |
| Keywords.BalanceSubstringIsBalanceKey | app.py:39-59 | a key containing "balance" in any mixture of case names a balance |
| Extraction.DirectBalance | app.py:228-233 | any result of the first loop over a dict is the parse of one of its qualifying entries |
| Extraction.DirectBalanceFacts | app.py:228-233 | the first loop over a dict finds nothing iff no entry qualifies (balance key with a parseable value); otherwise it yields the parse of the first qualifying entry |
| Extraction.FindBalance | app.py:219-249 | any result is stored in the document under a balance-naming key; a value that is neither dict nor list yields `None` |
| Extraction.FindInValues | app.py:236-239 | any result of the descent into a dict's values is stored somewhere under that dict |
| Extraction.FindInItems | app.py:242-246 | any result of the scan of a list is stored somewhere in its items |
| Extraction.FindBalanceComplete | app.py:219-249 | a document holding a parseable value under a balance-naming key always yields a result |
| Extraction.FindInValuesComplete | app.py:236-239 | if any value of a dict holds a balance, the descent finds one |
| Extraction.FindInItemsComplete | app.py:242-246 | if any list item holds a balance, the scan finds one |
| Extraction.FindBalanceNoneIff | app.py:219-249 | `None` exactly when no balance-naming key anywhere holds a parseable value; otherwise the result is one such stored value |
| Extraction.LevelKeyWins | app.py:226-233 | at a dict the first qualifying entry of that level wins, whatever nested values hold |
| Extraction.ValuesScannedInOrder | app.py:235-239 | with no qualifying entry at a level, the result is that of the first value in which something is found |
| Extraction.FirstValueWins | app.py:236-239 | the descent returns the result of the first value that yields one |
| Extraction.ItemsScannedInOrder | app.py:242-246 | on a list, the result is that of the first item that yields one |
| Classification.Classify | app.py:298-321 | no change without a previous balance; a payment or deposit carries an amount above 1e-6 that, taken from or added to the previous balance, gives the new one; no change iff the readings are within 1e-6 |
| Classification.ClassifyByDiff | app.py:299-313 | payment of `abs(diff)` iff `diff < -1e-6`, deposit of `diff` iff `diff > 1e-6` |
| Classification.LowBalanceAlert | app.py:324 | an alert only below the threshold; never when the previous balance was already below; with no previous balance, or one at or above the threshold, exactly when the new balance is below |
| Classification.AlertTrace | app.py:323-324 | one alert decision per reading of a run of polls |
| Classification.AlertTraceAt | app.py:323-324 | inside a run, a reading alerts iff it is below the threshold and the previous reading was at or above it |
| Classification.AlertOnceWhileBelow | app.py:323-324 | while readings stay below the threshold only the first of them can alert |
| Classification.AlertRearmsOnlyAfterRecovery | app.py:323-324 | between two alerts some reading is at or above the threshold |
| Classification.AlertTraceExample | app.py:323-324 | readings 150, 90, 80, 120, 90 against 100 alert at the second and the fifth only |
| Classification.PaymentAndAlertTogether | app.py:302-324 | the reading 500000 to 95000 under threshold 100000 is a payment of 405000 and an alert |
| Tables.Rows | app.py:121-127 | the table's rows without ids, in table order |
| Tables.ClampInterval | app.py:509-510 | the stored interval is never below 5 and equals the input whenever that is at least 5 |
| Tables.InsertKeepsValid | app.py:81-82 | appending a complete row under the next AUTOINCREMENT id keeps ids unique and below the counter |
| Backup.SiteJson | app.py:601-607 | an exported site is a dict of exactly its five columns without the id: the four texts as strings, and the balance as a number or null |
| Backup.ExportedSites | app.py:600-609 | one exported dict per site, in table order |
| Backup.ExportBackup | app.py:592-612 | the backup is a dict of exactly three keys: `settings`, a dict of exactly the poll interval and the threshold as numbers; `sites`, one dict per site in table order; and `version`, the number 1 |
| Backup.Truncate | app.py:622 | `int()` of a float truncates toward zero |
| Backup.PyInt | app.py:622 | `int()`: a number truncates toward zero, `True`/`False` give 1/0, a string goes to `int()` of text; null, lists and dicts raise |
| Backup.SiteEntries | app.py:620 | `for s in sites`: a list yields its items, an empty dict or string yields nothing; a non-empty dict or string raises at its first entry, and a number, boolean or null is not iterable |
| Backup.EntryRow | app.py:639-654 | an entry that is not a dict raises `BadEntry`; a dict with one of the four text fields falsy is skipped, never refused; a dict past the skip test can only raise `Unsupported`, and one whose four fields are non-empty strings and whose balance is storable is kept; a kept row carries exactly the entry's name, URL, chat id, bot token and stored balance |
| Backup.StoredBalance | app.py:643-654 | an absent or null `last_balance` stores NULL, a number stores itself, a boolean 1 or 0; a string, list or dict is refused with `Unsupported` |
| Backup.StoredCellAsWritten | app.py:643-654 | what the source stores in the REAL column: NULL for an absent or null value, a number as itself, a boolean as 1 or 0, numeric text as its number, any other text as text; a list or dict cannot be bound and raises `Unsupported` |
| Backup.TextBalanceRefused | app.py:643-654 | in the model, an entry past the skip test whose `last_balance` is a string is refused with `Unsupported`, and so is a backup holding it |
| Backup.StoredBalanceRefusesText | app.py:643-654 | wherever `StoredBalance` accepts a value it stores the cell the source stores; whenever the source would store text, it refuses |
| Backup.EntryRows | app.py:638-654 | the inserted rows are complete and no more numerous than the entries |
| Backup.EntryRowsSuccess | app.py:638-654 | the loop completes iff no entry raises |
| Backup.SkippedEntryImports | app.py:638-654 | a backup of a kept entry followed by a dict with a falsy or missing name imports, restoring the kept entry's row only, under the default settings |
| Backup.BackupSettings | app.py:619-623 | without a `settings` key the defaults 30 and 100000 apply; a `settings` value that is not a dict raises; otherwise each field is `int()`/`float()` of its value or its default when absent, and either conversion failing raises |
| Backup.ParseBackup | app.py:615-654 | a non-dict raises; every row a successful import keeps is complete |
| Backup.EntryRowsAppend | app.py:638-654 | the rows of concatenated entry lists concatenate, so backup order is kept |
| Backup.EntryRowsStep | app.py:638-654 | the rows after one more entry |
| Backup.EntryRowsFailure | app.py:638-654 | an entry that raises aborts the whole loop with its error |
| Backup.DefaultsWhenAbsent | app.py:619-623 | a missing or empty settings dict restores 30 and 100000 |
| Backup.ImportKeepsPollInterval | app.py:622-632 | the imported poll interval is stored as given, without a clamp |
| Backup.SiteJsonRestores | app.py:600-608 | an exported complete site entry restores as that site's row |
| Backup.ExportedEntriesRestore | app.py:600-609 | the exported site list restores as the table's rows, in order |
| Backup.ExportedSettingsRestore | app.py:596-599 | exported settings restore as the same settings |
| Backup.ExportImportRoundTrip | app.py:592-656 | export followed by import yields the same settings and the same ordered rows |
| FormInput.Strip | app.py:526-529 | `strip()` is empty iff the field is all whitespace; otherwise it is the slice left after removing only leading and trailing whitespace, starting and ending with non-whitespace |
| Watcher.Send | app.py:181-183 | a message is posted iff both chat id and bot token are non-empty |
| Watcher.SendAll | app.py:181-197 | with both credentials set every message is posted in order to that chat through that bot; otherwise nothing is posted |
| Watcher.Notices | app.py:298-332 | at most two messages, each about that site, and a low-balance alert only in last place |
| Watcher.NoticesFacts | app.py:298-332 | at most two notices, exactly one change notice when the balance moved by more than 1e-6 plus one alert when the edge rule fires, and nothing else; a payment iff the balance fell by more than 1e-6, a deposit iff it rose by more, never both; none for a change without a previous balance; the alert iff the edge rule fires |
| Watcher.Reading | app.py:252-275 | a reading exists only for a fetched response and is stored in it under a balance key |
| Watcher.Readings | app.py:290-293 | one reading per site, in table order |
| Watcher.CycleSitesFacts | app.py:290-334 | a site with no reading keeps its row; a site with a reading ends with that reading as its last balance; nothing else of any row changes |
| Watcher.SiteSends | app.py:293-332 | a failed fetch or a missing credential posts nothing; otherwise at most two requests, each about the site and sent with its own non-empty credentials |
| Watcher.SiteSendsFacts | app.py:297-332 | with a reading and both credentials, the site posts exactly its notices, in order, each to its own chat through its own bot |
| Watcher.SiteAfter | app.py:334 | a successful reading becomes `last_balance`; a failed fetch leaves the row; no other column changes |
| Watcher.SendsUpToFacts | app.py:290-332 | a cycle posts at most two requests per site, each about a site that had a reading and sent to that site's own chat and bot |
| Watcher.AlertsFollowTrace | app.py:286-334 | polling a site with successive readings, each poll sees the previous reading as its last balance and posts the low-balance alert exactly when `AlertTrace` decides so |
| Watcher.PaymentAndAlertCycle | app.py:290-334 | from 500000 to 95000 under 100000 the cycle posts a payment of 405000 and then the alert, and stores 95000 |
| Watcher.DiffAsWritten | app.py:298-299 | `balance - last_balance` on the stored cell: no diff for NULL, the difference for a number, a `TypeError` exactly for text |
| Watcher.TextBalanceStopsWatcher | app.py:638-654 | as written, an entry whose four texts are non-empty strings and whose `last_balance` is non-numeric text passes the skip test, is stored as text, and makes the next diff raise for every balance; the model refuses the entry and the whole restore |
| Watcher.KeptBalanceIsSubtractable | app.py:297-299 | every row the model's import keeps holds the cell the source would store, and the diff of it is defined |
| Watcher.SitesAfterAt | app.py:290-334 | part-way through a cycle, the rows already processed carry their step and the rest are untouched |
| Watcher.SitesAfterValid | app.py:334 | storing readings keeps the table valid |
| Watcher.SetBalance | app.py:171-175 | `UPDATE sites SET last_balance=? WHERE id=?`: rows with another id are unchanged; a row with that id gets the balance and keeps everything else |
| Watcher.SetFields | app.py:141-152 | `UPDATE sites SET name=?, api_url=?, chat_id=?, bot_token=? WHERE id=?`: rows with another id are unchanged; a row with that id gets the four texts and keeps its id and balance |
| Watcher.SetBalanceAt | app.py:171-175 | with unique ids, `UPDATE ... WHERE id=?` changes only that row's balance |
| Watcher.SetBalanceKeepsValid | app.py:171-175 | storing a balance keeps the table valid |
| Watcher.SetFieldsKeepsValid | app.py:141-152 | rewriting a row's four text fields with non-empty values keeps the table valid |
| Watcher.Store.constructor | app.py:65-97 | the default settings row (30, 100000), an empty site table, an empty outbox |
| Watcher.Store.SendTelegram | app.py:181-197 | the outbox grows by the request `Send` describes |
| Watcher.Store.UpdateLastBalance | app.py:171-175 | the row with that id gets the balance |
| Watcher.Store.NotifySite | app.py:297-332 | the outbox grows by the site's notices, change notice first |
| Watcher.Store.NextSite | app.py:291-334 | one turn of the loop extends the cycle so far by row `i`: the first `i + 1` rows carry their step, and the outbox holds their requests in order |
| Watcher.Store.ProcessSite | app.py:290-334 | one site's step changes only its own row and appends only its own requests |
| Watcher.Store.ProcessAll | app.py:290-334 | the `for site in sites` loop leaves the table and the outbox as the whole snapshot's steps describe |
| Watcher.Store.PollCycle | app.py:286-336 | after one cycle the table is `CycleSites` and the outbox has grown by `CycleSends`, both over the snapshot read at its start; the table stays valid; the sleep is `max(poll_interval, 5)` |
| Watcher.Store.UpdateConfig | app.py:501-517 | saves iff both values parse, storing the clamped interval, otherwise changes nothing |
| Watcher.Store.EditSite | app.py:520-537 | saves iff the four stripped fields are non-empty; id 0 appends a row under the next id; another id rewrites that row's fields and keeps its balance |
| Watcher.Store.UpsertSite | app.py:141-161 | id 0 inserts the row under the next AUTOINCREMENT id with no balance; another id rewrites that row's four texts; the table stays valid |
| Watcher.Store.InsertRow | app.py:648-654 | the row is appended under the next AUTOINCREMENT id |
| Watcher.Store.InsertEntries | app.py:638-654 | inserts exactly the rows `EntryRows` gives, in order and under fresh ids, or reports its error |
| Watcher.Store.ImportBackup | app.py:615-656 | on error nothing changes; otherwise the settings are the backup's, the table holds exactly the rows `ParseBackup` keeps, in backup order and under fresh ids, and no previous site remains |

## Left out

- Flask routes, HTML templates, sessions and the login check are user interface and authentication plumbing.
- `delete_site` is a single `DELETE` issued from the user interface and is not modelled.
- SQLite is replaced by the fields of `Watcher.Store`. Column affinities and type conversions are not modelled, except what the REAL column `last_balance` does with an imported value (`Backup.StoredCellAsWritten`).
- `get_settings` returns 30 and 100000 when the settings row is missing. That case is not modelled: the row always exists here, because the constructor (`init_db`) creates it.
- `requests.get` in `get_balance_from_api` is replaced by the `responses` map. Time-outs, HTTP status codes and `resp.json()` all collapse into "absent or `None`".
- `requests.post` in `send_telegram_message` is replaced by appending to `outbox`. Delivery failures are swallowed by the source, so a posted request is recorded whether or not it was delivered.
- Threads, the `watcher_running` flag, `db_lock` and the actual `time.sleep` are concurrency and lifecycle. Only one cycle is modelled; it returns the number of seconds to sleep.
- `json.loads` and `json.dumps` (text to and from JSON) are not modelled; the model works on parsed values.
- A Python dict never holds a key twice. The model's documents may; `Get` then returns the first entry. Such documents have no counterpart in the source.
- Message wording (`fmt_money`, `format_ts`, the templates) is presentation and wall-clock time. A message records its kind, its site's name, the amount and the balances.
- Python's `float()` and `int()` on strings are parameters. Their grammar is not modelled. Floating-point rounding, NaN and infinities are not modelled: balances are exact reals.
- Keywords.LowerChar: lowers only ASCII capitals and `Ư`. For matching against the keyword list this loses nothing. Every other character that Python lowers becomes text that no keyword occurrence can use. The Kelvin sign lowers to `k`, which no keyword contains. `İ` lowers to `i` followed by a combining dot; no keyword ends in `i` or contains that dot.
- Backup.StoredText: an entry whose truthy `name`, `api_url`, `chat_id` or `bot_token` is not a string is refused with `Unsupported`. SQLite would store the text form of a truthy number or boolean, which the model does not compute.
- Backup.StoredBalance: a `last_balance` that is a string is refused with `Unsupported`, so the whole restore is rolled back. The source binds the string unchecked (app.py:643-654). SQLite stores numeric text as its number, and the model refuses that text too. SQLite keeps any other text, such as `""` or `"n/a"`, as TEXT in the REAL column. At that site's next successful reading, `balance - last_balance` (app.py:299) raises `TypeError` outside any `try`, and the `watcher_loop` thread ends. The balance is never overwritten, because the update comes after the diff, and `edit_site` does not touch it. `watcher_running` stays true, so `/start` (app.py:757) starts no new thread until `/stop` clears the flag, and every restarted thread stops at the same site. The model's guarantee that a cycle processes every site therefore rests on this refusal. See "## Findings".
- Watcher.Store.UpdateConfig: the form defaults (`"30"`, `"100000"` for a missing field) and `int()`/`float()` of the form text are the caller's; the method receives their results.

## Findings

| source | as written | input that shows it | evidently intended | confidence | as-written member | corrected member |
|---|---|---|---|---|---|---|
| app.py:643-654 | `import_backup_json` inserts `last_balance` unchecked. Text that SQLite cannot read as a number stays TEXT, and `balance - last_balance` at app.py:299 then raises `TypeError`, which ends the watcher thread | a backup entry with non-empty `name`, `api_url`, `chat_id` and `bot_token` and `"last_balance": "n/a"` | a restored `last_balance` is a number or NULL, as the REAL column and the export hold it | high; not executed | Watcher.TextBalanceStopsWatcher | Watcher.KeptBalanceIsSubtractable |
