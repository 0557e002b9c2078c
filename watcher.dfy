/**
 * The balance-watcher engine: one iteration of `watcher_loop` over the site
 * table, the Telegram outbox it appends to, and the administrative writes that
 * feed it (`update_config`, `edit_site`, `import_backup_json`).
 */
module Watcher {
  import opened Wrappers
  import opened JsonValues
  import opened Tables
  import opened Extraction
  import opened Classification
  import opened Backup
  import opened FormInput
  import opened Keywords

  /** What a notification says; its wording is presentation and not modelled. */
  datatype Message =
    | PaymentNotice(site: string, amount: real, balance: real)
    | DepositNotice(site: string, amount: real, balance: real)
    | LowBalanceNotice(site: string, balance: real, threshold: real)

  /** A `sendMessage` request posted to a bot for a chat. */
  datatype Outgoing = Outgoing(chatId: string, botToken: string, message: Message)

  /** `send_telegram_message`: nothing is posted unless chat id and bot token are both non-empty. */
  function Send(m: Message, chatId: string, botToken: string): (r: seq<Outgoing>)
    ensures r != [] <==> chatId != "" && botToken != ""
    ensures r != [] ==> r == [Outgoing(chatId, botToken, m)]
  {
    if chatId == "" || botToken == "" then [] else [Outgoing(chatId, botToken, m)]
  }

  /**
   * The requests for messages `ms` sent in turn: with both credentials set
   * every message is posted, in order, to that chat through that bot; with
   * either missing nothing is posted.
   */
  function SendAll(ms: seq<Message>, chatId: string, botToken: string): (r: seq<Outgoing>)
    ensures chatId == "" || botToken == "" ==> r == []
    ensures chatId != "" && botToken != "" ==>
      |r| == |ms| && forall k :: 0 <= k < |ms| ==> r[k] == Outgoing(chatId, botToken, ms[k])
  {
    if ms == [] then []
    else
      var rest := SendAll(ms[1..], chatId, botToken);
      assert forall k :: 1 <= k < |ms| ==> ms[1..][k - 1] == ms[k];
      Send(ms[0], chatId, botToken) + rest
  }

  lemma SendAllAppend(a: seq<Message>, b: seq<Message>, chatId: string, botToken: string)
    ensures SendAll(a + b, chatId, botToken) == SendAll(a, chatId, botToken) + SendAll(b, chatId, botToken)
  {
    if chatId != "" && botToken != "" {
      var l, r := SendAll(a + b, chatId, botToken), SendAll(a, chatId, botToken) + SendAll(b, chatId, botToken);
      forall k | 0 <= k < |l| ensures l[k] == r[k] {
        if k >= |a| {
          assert (a + b)[k] == b[k - |a|];
        }
      }
    }
  }

  /**
   * The notices one successful reading of site `s` triggers, in sending order:
   * the change notice, then the low-balance alert.
   */
  function Notices(s: Site, balance: real, threshold: real): (r: seq<Message>)
    ensures |r| <= 2
    ensures forall k :: 0 <= k < |r| ==> r[k].site == s.name
    ensures forall k :: 0 <= k < |r| - 1 ==> !r[k].LowBalanceNotice?
  {
    var change :=
      match Classify(s.lastBalance, balance)
      case None => []
      case Some(Payment(a)) => [PaymentNotice(s.name, a, balance)]
      case Some(Deposit(a)) => [DepositNotice(s.name, a, balance)];
    var alert :=
      if LowBalanceAlert(s.lastBalance, balance, threshold) then [LowBalanceNotice(s.name, balance, threshold)] else [];
    change + alert
  }

  /**
   * What one successful reading sends: at most two notices, all about the site;
   * one change notice exactly when the balance moved by more than the tolerance,
   * plus one alert exactly when the edge rule fires, and nothing else;
   * no change notice without a previous balance; a payment notice exactly when
   * the balance fell by more than the tolerance and a deposit notice exactly
   * when it rose by more, each with the amount it moved; never both; and the
   * low-balance alert exactly when the edge-triggered rule fires.
   */
  lemma NoticesFacts(s: Site, balance: real, threshold: real)
    ensures var r := Notices(s, balance, threshold);
      |r| <= 2 &&
      |r| == (if s.lastBalance.Some? && Abs(balance - s.lastBalance.value) > Tolerance then 1 else 0) +
             (if LowBalanceAlert(s.lastBalance, balance, threshold) then 1 else 0) &&
      (forall k :: 0 <= k < |r| ==> r[k].site == s.name) &&
      (s.lastBalance.None? ==> forall k :: 0 <= k < |r| ==> r[k].LowBalanceNotice?) &&
      (s.lastBalance.Some? ==>
        (balance - s.lastBalance.value < -Tolerance <==> PaymentNotice(s.name, s.lastBalance.value - balance, balance) in r)) &&
      (s.lastBalance.Some? ==>
        (balance - s.lastBalance.value > Tolerance <==> DepositNotice(s.name, balance - s.lastBalance.value, balance) in r)) &&
      (LowBalanceAlert(s.lastBalance, balance, threshold) <==> LowBalanceNotice(s.name, balance, threshold) in r) &&
      (!(exists k :: 0 <= k < |r| && r[k].PaymentNotice?) || !(exists k :: 0 <= k < |r| && r[k].DepositNotice?))
  {
  }

  /**
   * `get_balance_from_api` for site `id`: `responses` holds the parsed body each
   * site's URL returned in this cycle; an absent entry or `None` is a failed
   * request (transport error, HTTP error status, body that is not JSON).
   */
  function Reading(responses: map<int, Option<Json>>, parse: FloatParser, id: int): (r: Option<real>)
    ensures r.Some? ==> id in responses && responses[id].Some? && Occurs(responses[id].value, r.value, IsBalanceKey, parse)
  {
    if id in responses && responses[id].Some? then FindBalance(responses[id].value, IsBalanceKey, parse) else None
  }

  /** The reading of every site of `sites`, in table order. */
  function Readings(sites: seq<Site>, responses: map<int, Option<Json>>, parse: FloatParser): (r: seq<Option<real>>)
    ensures |r| == |sites|
    ensures forall i :: 0 <= i < |sites| ==> r[i] == Reading(responses, parse, sites[i].id)
  {
    if sites == [] then []
    else
      var rest := Readings(sites[1..], responses, parse);
      assert forall i :: 1 <= i < |sites| ==> sites[1..][i - 1] == sites[i];
      [Reading(responses, parse, sites[0].id)] + rest
  }

  /**
   * The requests one site's step posts, given its reading: nothing after a
   * failed fetch or without both credentials, otherwise at most two, each about
   * the site and sent to its own chat through its own bot.
   */
  function SiteSends(s: Site, reading: Option<real>, threshold: real): (r: seq<Outgoing>)
    ensures reading.None? || s.chatId == "" || s.botToken == "" ==> r == []
    ensures |r| <= 2
    ensures forall k :: 0 <= k < |r| ==> r[k].chatId != "" && r[k].botToken != "" && SentFor(r[k], s)
  {
    match reading
    case None => []
    case Some(b) => SendAll(Notices(s, b, threshold), s.chatId, s.botToken)
  }

  /**
   * The site's row after its step: a successful reading replaces `last_balance`,
   * a failed fetch leaves the row alone, and no other column changes.
   */
  function SiteAfter(s: Site, reading: Option<real>): (r: Site)
    ensures r.id == s.id && r.name == s.name && r.apiUrl == s.apiUrl
    ensures r.chatId == s.chatId && r.botToken == s.botToken
    ensures reading.Some? ==> r.lastBalance == reading
    ensures reading.None? ==> r == s
  {
    match reading
    case None => s
    case Some(b) => s.(lastBalance := Some(b))
  }

  /** The site table once the first `n` rows have had their step. */
  function SitesAfter(sites: seq<Site>, readings: seq<Option<real>>, n: int): (r: seq<Site>)
    requires |readings| == |sites| && 0 <= n <= |sites|
    ensures |r| == |sites|
    decreases n
  {
    if n == 0 then sites else SitesAfter(sites, readings, n - 1)[n - 1 := SiteAfter(sites[n - 1], readings[n - 1])]
  }

  /** Row by row: the first `n` rows have had their step, the others are untouched. */
  lemma {:induction false} SitesAfterAt(sites: seq<Site>, readings: seq<Option<real>>, n: int)
    requires |readings| == |sites| && 0 <= n <= |sites|
    ensures forall k :: 0 <= k < |sites| ==>
      SitesAfter(sites, readings, n)[k] == if k < n then SiteAfter(sites[k], readings[k]) else sites[k]
    decreases n
  {
    if n > 0 {
      SitesAfterAt(sites, readings, n - 1);
    }
  }

  /** The site table after one cycle: every row after its own step. */
  function CycleSites(sites: seq<Site>, readings: seq<Option<real>>): seq<Site>
    requires |readings| == |sites|
  {
    SitesAfter(sites, readings, |sites|)
  }

  /**
   * A site whose fetch or extraction failed keeps its row; a site with a reading
   * ends the cycle with that reading as its last balance, whatever the change
   * was; no id, name, URL, chat id or bot token changes.
   */
  lemma CycleSitesFacts(sites: seq<Site>, responses: map<int, Option<Json>>, parse: FloatParser)
    ensures |CycleSites(sites, Readings(sites, responses, parse))| == |sites|
    ensures forall i :: 0 <= i < |sites| ==>
      CycleSites(sites, Readings(sites, responses, parse))[i].(lastBalance := None) == sites[i].(lastBalance := None)
    ensures forall i :: 0 <= i < |sites| && Reading(responses, parse, sites[i].id).None? ==>
      CycleSites(sites, Readings(sites, responses, parse))[i] == sites[i]
    ensures forall i :: 0 <= i < |sites| && Reading(responses, parse, sites[i].id).Some? ==>
      CycleSites(sites, Readings(sites, responses, parse))[i].lastBalance == Reading(responses, parse, sites[i].id)
  {
    SitesAfterAt(sites, Readings(sites, responses, parse), |sites|);
  }

  /** The table in the middle of the cycle, before and after processing row `i`. */
  lemma SitesAfterStep(sites: seq<Site>, readings: seq<Option<real>>, i: int)
    requires |readings| == |sites| && 0 <= i < |sites|
    ensures SitesAfter(sites, readings, i)[i] == sites[i]
    ensures SitesAfter(sites, readings, i)[i := SiteAfter(sites[i], readings[i])] == SitesAfter(sites, readings, i + 1)
  {
    SitesAfterAt(sites, readings, i);
  }

  /** Before the first step the table is as it was. */
  lemma SitesAfterNone(sites: seq<Site>, readings: seq<Option<real>>)
    requires |readings| == |sites|
    ensures SitesAfter(sites, readings, 0) == sites
  {
  }

  /** Part-way through the cycle the table is still valid: only balances have changed. */
  lemma SitesAfterValid(sites: seq<Site>, readings: seq<Option<real>>, n: int, nextId: int)
    requires |readings| == |sites| && 0 <= n <= |sites| && ValidTable(sites, nextId)
    ensures ValidTable(SitesAfter(sites, readings, n), nextId)
  {
    var r := SitesAfter(sites, readings, n);
    SitesAfterAt(sites, readings, n);
    forall k | 0 <= k < |sites|
      ensures r[k].id == sites[k].id && RowOf(r[k]).(lastBalance := None) == RowOf(sites[k]).(lastBalance := None)
    {
    }
    assert Ids(r) == Ids(sites);
  }

  /** The requests the first `n` sites of the cycle post, in table order. */
  function SendsUpTo(sites: seq<Site>, readings: seq<Option<real>>, n: int, threshold: real): seq<Outgoing>
    requires |readings| == |sites| && 0 <= n <= |sites|
    decreases n
  {
    if n == 0 then [] else SendsUpTo(sites, readings, n - 1, threshold) + SiteSends(sites[n - 1], readings[n - 1], threshold)
  }

  /** The requests one cycle posts: each site's, in table order. */
  function CycleSends(sites: seq<Site>, readings: seq<Option<real>>, threshold: real): seq<Outgoing>
    requires |readings| == |sites|
  {
    SendsUpTo(sites, readings, |sites|, threshold)
  }

  /**
   * What the first `n` steps of a cycle post: at most two requests per site,
   * and each one is about a site that had a reading and goes to that site's own
   * chat through its own bot, with both credentials non-empty.
   */
  lemma {:induction false} SendsUpToFacts(sites: seq<Site>, readings: seq<Option<real>>, n: int, threshold: real)
    requires |readings| == |sites| && 0 <= n <= |sites|
    ensures |SendsUpTo(sites, readings, n, threshold)| <= 2 * n
    ensures forall k :: 0 <= k < |SendsUpTo(sites, readings, n, threshold)| ==>
      SentByFirst(SendsUpTo(sites, readings, n, threshold)[k], sites, readings, n)
    decreases n
  {
    if n > 0 {
      SendsUpToFacts(sites, readings, n - 1, threshold);
      var prev, here := SendsUpTo(sites, readings, n - 1, threshold), SiteSends(sites[n - 1], readings[n - 1], threshold);
      assert SendsUpTo(sites, readings, n, threshold) == prev + here;
      SentByFirstAppend(prev, here, sites, readings, n);
    }
  }

  /** Request `o` is posted with both credentials set, for one of the first `n` sites that has a reading. */
  ghost predicate SentByFirst(o: Outgoing, sites: seq<Site>, readings: seq<Option<real>>, n: int)
    requires |readings| == |sites| && 0 <= n <= |sites|
  {
    o.chatId != "" && o.botToken != "" && exists i :: 0 <= i < n && readings[i].Some? && SentFor(o, sites[i])
  }

  /** The inductive step of `SendsUpToFacts`, on the two halves of the concatenation. */
  lemma SentByFirstAppend(prev: seq<Outgoing>, here: seq<Outgoing>, sites: seq<Site>, readings: seq<Option<real>>, n: int)
    requires |readings| == |sites| && 0 < n <= |sites|
    requires forall k :: 0 <= k < |prev| ==> SentByFirst(prev[k], sites, readings, n - 1)
    requires readings[n - 1].None? ==> here == []
    requires forall k :: 0 <= k < |here| ==> here[k].chatId != "" && here[k].botToken != "" && SentFor(here[k], sites[n - 1])
    requires |prev| <= 2 * (n - 1) && |here| <= 2
    ensures |prev + here| <= 2 * n
    ensures forall k :: 0 <= k < |prev + here| ==> SentByFirst((prev + here)[k], sites, readings, n)
  {
    var r := prev + here;
    forall k | 0 <= k < |r|
      ensures SentByFirst(r[k], sites, readings, n)
    {
      if k < |prev| {
        assert r[k] == prev[k];
        var i :| 0 <= i < n - 1 && readings[i].Some? && SentFor(prev[k], sites[i]);
        assert 0 <= i < n && readings[i].Some? && SentFor(r[k], sites[i]);
      } else {
        assert r[k] == here[k - |prev|];
        assert readings[n - 1].Some? && SentFor(r[k], sites[n - 1]);
      }
    }
  }

  /**
   * With a reading and both credentials, one site's step posts exactly the
   * site's notices, in order, each to its own chat through its own bot.
   */
  lemma SiteSendsFacts(s: Site, reading: Option<real>, threshold: real)
    requires reading.Some? && s.chatId != "" && s.botToken != ""
    ensures var ms := Notices(s, reading.value, threshold);
      |SiteSends(s, reading, threshold)| == |ms| &&
      forall k :: 0 <= k < |ms| ==> SiteSends(s, reading, threshold)[k] == Outgoing(s.chatId, s.botToken, ms[k])
  {
  }

  /** Request `o` is about site `s` and posted with its credentials. */
  predicate SentFor(o: Outgoing, s: Site)
  {
    o.chatId == s.chatId && o.botToken == s.botToken && o.message.site == s.name
  }

  /**
   * A site polled cycle after cycle with readings `bs`: at poll `k` its row holds
   * the previous reading (the stored one at the first poll), and that poll sends
   * the low-balance alert exactly when `AlertTrace` decides so at `k`.
   */
  lemma AlertsFollowTrace(s: Site, bs: seq<real>, threshold: real, k: int)
    requires 0 <= k < |bs|
    ensures var row := if k == 0 then s else SiteAfter(s, Some(bs[k - 1]));
      LowBalanceNotice(s.name, bs[k], threshold) in Notices(row, bs[k], threshold) <==>
        AlertTrace(s.lastBalance, bs, threshold)[k]
    ensures var row := if k == 0 then s else SiteAfter(s, Some(bs[k - 1]));
      s.chatId != "" && s.botToken != "" ==>
        (Outgoing(s.chatId, s.botToken, LowBalanceNotice(s.name, bs[k], threshold)) in SiteSends(row, Some(bs[k]), threshold) <==>
         AlertTrace(s.lastBalance, bs, threshold)[k])
  {
    var row := if k == 0 then s else SiteAfter(s, Some(bs[k - 1]));
    var alert := LowBalanceNotice(s.name, bs[k], threshold);
    NoticesFacts(row, bs[k], threshold);
    if k > 0 {
      AlertTraceAt(s.lastBalance, bs, threshold, k);
    }
    if s.chatId != "" && s.botToken != "" {
      var ms := Notices(row, bs[k], threshold);
      var sent := SiteSends(row, Some(bs[k]), threshold);
      if alert in ms {
        var j :| 0 <= j < |ms| && ms[j] == alert;
        assert sent[j] == Outgoing(s.chatId, s.botToken, alert);
      }
      if Outgoing(s.chatId, s.botToken, alert) in sent {
        var j :| 0 <= j < |sent| && sent[j] == Outgoing(s.chatId, s.botToken, alert);
        assert ms[j] == alert;
      }
    }
  }

  /**
   * A site last seen at 500000 whose endpoint now reports `{"balance": 95000}`,
   * under threshold 100000: the cycle posts a payment notice of 405000 and then
   * the low-balance alert, and stores 95000.
   */
  lemma PaymentAndAlertCycle(parse: FloatParser)
    ensures var site := Site(1, "shop", "https://shop.example/api", Some(500000.0), "42", "bot");
      var readings := Readings([site], map[1 := Some(JObject([Field("balance", JNum(95000.0))]))], parse);
      CycleSites([site], readings) == [site.(lastBalance := Some(95000.0))] &&
      CycleSends([site], readings, 100000.0) ==
        [Outgoing("42", "bot", PaymentNotice("shop", 405000.0, 95000.0)),
         Outgoing("42", "bot", LowBalanceNotice("shop", 95000.0, 100000.0))]
  {
    var doc := [Field("balance", JNum(95000.0))];
    BalanceSubstringIsBalanceKey("balance", 0);
    assert Qualifies(doc[0], IsBalanceKey, parse);
    assert FindBalance(JObject(doc), IsBalanceKey, parse) == Some(95000.0);
  }

  /** The exception `balance - last_balance` raises when the stored value is a `str`. */
  datatype LoopError = TypeError

  /**
   * As written, the step's `diff = balance - last_balance` on the stored cell:
   * no diff for `NULL`, the difference for a number, and a `TypeError` for
   * text.  Nothing in `watcher_loop` catches it.
   */
  function DiffAsWritten(last: Cell, balance: real): (r: Result<Option<real>, LoopError>)
    ensures r.Failure? <==> last.TextCell?
    ensures r == Success(None) <==> last.NullCell?
    ensures last.RealCell? ==> r == Success(Some(balance - last.x))
  {
    match last
    case NullCell => Success(None)
    case RealCell(x) => Success(Some(balance - x))
    case TextCell(_) => Failure(TypeError)
  }

  /**
   * As written, a backup entry whose four text fields are non-empty strings and
   * whose `last_balance` is text that SQLite cannot read as a number (`""`,
   * `"n/a"`) passes the skip test and is stored as text, and at the site's next
   * successful reading the diff raises `TypeError` whatever the balance: the
   * watcher thread ends.  The model's `EntryRow` refuses the entry, so
   * `import_backup_json` raises before committing and the table is left as it was.
   */
  lemma TextBalanceStopsWatcher(fields: seq<Field>, s: string, numeric: FloatParser, toInt: IntParser, balance: real)
    requires TextField(fields, "name") && TextField(fields, "api_url") &&
             TextField(fields, "chat_id") && TextField(fields, "bot_token")
    requires Get(fields, "last_balance") == Some(JStr(s)) && numeric(s).None?
    ensures TruthyField(fields, "name") && TruthyField(fields, "api_url") &&
            TruthyField(fields, "chat_id") && TruthyField(fields, "bot_token")
    ensures StoredCellAsWritten(Get(fields, "last_balance"), numeric) == Success(TextCell(s))
    ensures DiffAsWritten(TextCell(s), balance) == Failure(TypeError)
    ensures EntryRow(JObject(fields)) == Failure(Unsupported)
    ensures ParseBackup(JObject([Field("sites", JArray([JObject(fields)]))]), numeric, toInt) == Failure(Unsupported)
  {
    TextBalanceRefused(fields, numeric, toInt);
  }

  /**
   * Every row the model's import keeps has a balance the step can subtract:
   * the source would store the same cell for that entry, and the diff of it is
   * the one `Classify` works with.
   */
  lemma KeptBalanceIsSubtractable(entry: Json, numeric: FloatParser, balance: real)
    requires EntryRow(entry).Success? && EntryRow(entry).value.Some?
    ensures
      var row := EntryRow(entry).value.value;
      StoredCellAsWritten(Get(entry.fields, "last_balance"), numeric) == Success(CellOf(row.lastBalance)) &&
      DiffAsWritten(CellOf(row.lastBalance), balance) ==
        Success(if row.lastBalance.Some? then Some(balance - row.lastBalance.value) else None)
  {
    StoredBalanceRefusesText(Get(entry.fields, "last_balance"), numeric);
  }

  /** The outbox after one more site of the cycle. */
  lemma SendsUpToStep(start: seq<Outgoing>, prev: seq<Outgoing>, next: seq<Outgoing>,
                      sites: seq<Site>, readings: seq<Option<real>>, i: int, threshold: real)
    requires |readings| == |sites| && 0 <= i < |sites|
    requires prev == start + SendsUpTo(sites, readings, i, threshold)
    requires next == prev + SiteSends(sites[i], readings[i], threshold)
    ensures next == start + SendsUpTo(sites, readings, i + 1, threshold)
  {
    var done, here := SendsUpTo(sites, readings, i, threshold), SiteSends(sites[i], readings[i], threshold);
    assert (start + done) + here == start + (done + here);
  }

  /** `UPDATE sites SET last_balance=? WHERE id=?`. */
  function SetBalance(sites: seq<Site>, id: int, balance: real): (r: seq<Site>)
    ensures |r| == |sites|
    ensures forall i :: 0 <= i < |sites| && sites[i].id != id ==> r[i] == sites[i]
    ensures forall i :: 0 <= i < |sites| && sites[i].id == id ==>
      r[i].lastBalance == Some(balance) && r[i].(lastBalance := None) == sites[i].(lastBalance := None)
  {
    seq(|sites|, i requires 0 <= i < |sites| =>
      if sites[i].id == id then sites[i].(lastBalance := Some(balance)) else sites[i])
  }

  /** `UPDATE sites SET name=?, api_url=?, chat_id=?, bot_token=? WHERE id=?`. */
  function SetFields(sites: seq<Site>, id: int, name: string, apiUrl: string, chatId: string, botToken: string): (r: seq<Site>)
    ensures |r| == |sites|
    ensures forall i :: 0 <= i < |sites| && sites[i].id != id ==> r[i] == sites[i]
    ensures forall i :: 0 <= i < |sites| && sites[i].id == id ==>
      r[i] == Site(id, name, apiUrl, sites[i].lastBalance, chatId, botToken)
  {
    seq(|sites|, i requires 0 <= i < |sites| =>
      if sites[i].id == id then sites[i].(name := name, apiUrl := apiUrl, chatId := chatId, botToken := botToken)
      else sites[i])
  }

  /** With unique ids, updating the row of `sites[i]` by id touches that row only. */
  lemma SetBalanceAt(sites: seq<Site>, i: int, balance: real)
    requires 0 <= i < |sites|
    requires Distinct(Ids(sites))
    ensures SetBalance(sites, sites[i].id, balance) == sites[i := sites[i].(lastBalance := Some(balance))]
  {
    forall k | 0 <= k < |sites| && k != i ensures sites[k].id != sites[i].id {
      assert Ids(sites)[k] == sites[k].id && Ids(sites)[i] == sites[i].id;
    }
  }

  /** Storing a reading keeps the table valid. */
  lemma SetBalanceKeepsValid(sites: seq<Site>, nextId: int, i: int, balance: real)
    requires ValidTable(sites, nextId) && 0 <= i < |sites|
    ensures ValidTable(sites[i := sites[i].(lastBalance := Some(balance))], nextId)
  {
    var r := sites[i := sites[i].(lastBalance := Some(balance))];
    assert forall k :: 0 <= k < |sites| ==> r[k].id == sites[k].id && RowOf(r[k]).name == RowOf(sites[k]).name;
    assert Ids(r) == Ids(sites);
  }

  /** Rewriting the text fields of a row with non-empty values keeps the table valid. */
  lemma SetFieldsKeepsValid(sites: seq<Site>, nextId: int, id: int, name: string, apiUrl: string, chatId: string, botToken: string)
    requires ValidTable(sites, nextId)
    requires RowComplete(Row(name, apiUrl, None, chatId, botToken))
    ensures ValidTable(SetFields(sites, id, name, apiUrl, chatId, botToken), nextId)
  {
    var r := SetFields(sites, id, name, apiUrl, chatId, botToken);
    assert forall i :: 0 <= i < |sites| ==> r[i].id == sites[i].id;
    assert Ids(r) == Ids(sites);
  }

  /** The settings database, the site table and the Telegram outbox. */
  class Store {
    var settings: Settings
    var sites: seq<Site>
    /** The next AUTOINCREMENT id of `sites`. */
    var nextId: int
    /** Every `sendMessage` request posted so far. */
    var outbox: seq<Outgoing>

    predicate Valid()
      reads this
    {
      ValidTable(sites, nextId)
    }

    /** `init_db`: the default settings row and an empty site table. */
    constructor ()
      ensures Valid()
      ensures settings == DefaultSettings && sites == [] && nextId == 1 && outbox == []
    {
      settings := DefaultSettings;
      sites := [];
      nextId := 1;
      outbox := [];
    }

    /** `send_telegram_message`; a failed delivery is swallowed, so the request is all that is recorded. */
    method SendTelegram(m: Message, chatId: string, botToken: string)
      modifies this`outbox
      ensures outbox == old(outbox) + Send(m, chatId, botToken)
    {
      if chatId == "" || botToken == "" {
        return;
      }
      outbox := outbox + [Outgoing(chatId, botToken, m)];
    }

    /** `update_last_balance`. */
    method UpdateLastBalance(id: int, balance: real)
      modifies this`sites
      ensures sites == SetBalance(old(sites), id, balance)
    {
      sites := SetBalance(sites, id, balance);
    }

    /**
     * The notices for one successful reading `balance` of `site`: the payment or
     * deposit notice when the balance moved by more than the tolerance, then the
     * low-balance alert when it has just dropped below the threshold.
     */
    method NotifySite(site: Site, balance: real, threshold: real)
      modifies this`outbox
      ensures outbox == old(outbox) + SendAll(Notices(site, balance, threshold), site.chatId, site.botToken)
    {
      ghost var change: seq<Message> := [];
      if site.lastBalance.Some? {
        var diff := balance - site.lastBalance.value;
        if diff < -Tolerance {
          SendTelegram(PaymentNotice(site.name, Abs(diff), balance), site.chatId, site.botToken);
          change := [PaymentNotice(site.name, Abs(diff), balance)];
        } else if diff > Tolerance {
          SendTelegram(DepositNotice(site.name, diff, balance), site.chatId, site.botToken);
          change := [DepositNotice(site.name, diff, balance)];
        }
      }
      assert outbox == old(outbox) + SendAll(change, site.chatId, site.botToken);
      ghost var alert: seq<Message> := [];
      if balance < threshold && (site.lastBalance.None? || site.lastBalance.value >= threshold) {
        SendTelegram(LowBalanceNotice(site.name, balance, threshold), site.chatId, site.botToken);
        alert := [LowBalanceNotice(site.name, balance, threshold)];
      }
      SendAllAppend(change, alert, site.chatId, site.botToken);
      assert Notices(site, balance, threshold) == change + alert;
    }

    /**
     * The body of the `for site in sites` loop for the site at row `i`: fetch,
     * notify, and store the reading; a failed fetch or extraction skips the site.
     */
    method ProcessSite(site: Site, i: int, responses: map<int, Option<Json>>, parse: FloatParser, threshold: real)
      requires 0 <= i < |sites| && sites[i] == site
      requires Valid()
      modifies this`sites, this`outbox
      ensures Valid()
      ensures sites == old(sites)[i := SiteAfter(site, Reading(responses, parse, site.id))]
      ensures outbox == old(outbox) + SiteSends(site, Reading(responses, parse, site.id), threshold)
    {
      var balance := Reading(responses, parse, site.id);
      if balance.Some? {
        NotifySite(site, balance.value, threshold);
        SetBalanceAt(sites, i, balance.value);
        SetBalanceKeepsValid(sites, nextId, i, balance.value);
        UpdateLastBalance(site.id, balance.value);
      }
    }

    /** Where the cycle over `snapshot` stands once its first `i` sites are done. */
    ghost predicate CycleSoFar(snapshot: seq<Site>, readings: seq<Option<real>>, i: int, start: seq<Outgoing>, threshold: real)
      requires |readings| == |snapshot| && 0 <= i <= |snapshot|
      reads this
    {
      sites == SitesAfter(snapshot, readings, i) && outbox == start + SendsUpTo(snapshot, readings, i, threshold)
    }

    /** One turn of the cycle's loop: process row `i`, the next site of `snapshot`. */
    method NextSite(snapshot: seq<Site>, ghost readings: seq<Option<real>>, i: int, ghost start: seq<Outgoing>,
                    responses: map<int, Option<Json>>, parse: FloatParser, threshold: real)
      requires readings == Readings(snapshot, responses, parse) && 0 <= i < |snapshot|
      requires ValidTable(snapshot, nextId) && CycleSoFar(snapshot, readings, i, start, threshold)
      modifies this`sites, this`outbox
      ensures CycleSoFar(snapshot, readings, i + 1, start, threshold)
    {
      ghost var prev := outbox;
      SitesAfterValid(snapshot, readings, i, nextId);
      SitesAfterStep(snapshot, readings, i);
      ProcessSite(snapshot[i], i, responses, parse, threshold);
      SendsUpToStep(start, prev, outbox, snapshot, readings, i, threshold);
    }

    /**
     * One iteration of `watcher_loop`: read the settings and the site table,
     * process every site in turn, and return how long to sleep.
     */
    method PollCycle(responses: map<int, Option<Json>>, parse: FloatParser) returns (sleepSeconds: int)
      requires Valid()
      modifies this`sites, this`outbox
      ensures Valid()
      ensures sites == CycleSites(old(sites), Readings(old(sites), responses, parse))
      ensures outbox == old(outbox) + CycleSends(old(sites), Readings(old(sites), responses, parse), settings.threshold)
      ensures sleepSeconds == ClampInterval(settings.pollInterval) && sleepSeconds >= MinPollInterval
    {
      var pollInterval, threshold := settings.pollInterval, settings.threshold;
      var snapshot := sites;
      ghost var readings := Readings(snapshot, responses, parse);
      ghost var start := outbox;
      SitesAfterNone(snapshot, readings);
      assert start + [] == start;
      ProcessAll(snapshot, readings, start, responses, parse, threshold);
      SitesAfterValid(snapshot, readings, |snapshot|, nextId);
      sleepSeconds := ClampInterval(pollInterval);
    }

    /** The `for site in sites` loop of the cycle, over the snapshot taken at its start. */
    method ProcessAll(snapshot: seq<Site>, ghost readings: seq<Option<real>>, ghost start: seq<Outgoing>,
                      responses: map<int, Option<Json>>, parse: FloatParser, threshold: real)
      requires readings == Readings(snapshot, responses, parse)
      requires ValidTable(snapshot, nextId) && CycleSoFar(snapshot, readings, 0, start, threshold)
      modifies this`sites, this`outbox
      ensures CycleSoFar(snapshot, readings, |snapshot|, start, threshold)
    {
      var i := 0;
      while i < |snapshot|
        invariant 0 <= i <= |snapshot|
        invariant CycleSoFar(snapshot, readings, i, start, threshold)
      {
        NextSite(snapshot, readings, i, start, responses, parse, threshold);
        i := i + 1;
      }
    }

    /**
     * `update_config`: `None` stands for a form value that `int()` / `float()`
     * rejects, in which case nothing is saved.  A stored interval is never
     * below the floor.
     */
    method UpdateConfig(pollInterval: Option<int>, threshold: Option<real>) returns (saved: bool)
      modifies this`settings
      ensures saved <==> pollInterval.Some? && threshold.Some?
      ensures saved ==> settings == Settings(ClampInterval(pollInterval.value), threshold.value)
      ensures saved ==> settings.pollInterval >= MinPollInterval
      ensures !saved ==> settings == old(settings)
    {
      if pollInterval.None? || threshold.None? {
        return false;
      }
      var interval := pollInterval.value;
      if interval < MinPollInterval {
        interval := MinPollInterval;
      }
      settings := Settings(interval, threshold.value);
      saved := true;
    }

    /**
     * `edit_site` on a submitted form: every field is stripped; if one of them
     * is then empty nothing is saved.  Site id 0 inserts a new site with no
     * balance yet; any other id rewrites the four fields of the row with that
     * id (if there is one) and keeps its balance.
     */
    method EditSite(siteId: nat, name: string, apiUrl: string, chatId: string, botToken: string) returns (saved: bool)
      requires Valid()
      modifies this`sites, this`nextId
      ensures Valid()
      ensures saved <==> RowComplete(Row(Strip(name), Strip(apiUrl), None, Strip(chatId), Strip(botToken)))
      ensures !saved ==> sites == old(sites) && nextId == old(nextId)
      ensures saved && siteId == 0 ==>
        sites == old(sites) + [Site(old(nextId), Strip(name), Strip(apiUrl), None, Strip(chatId), Strip(botToken))] &&
        nextId == old(nextId) + 1
      ensures saved && siteId != 0 ==>
        sites == SetFields(old(sites), siteId, Strip(name), Strip(apiUrl), Strip(chatId), Strip(botToken)) &&
        nextId == old(nextId)
    {
      var n, u, c, t := Strip(name), Strip(apiUrl), Strip(chatId), Strip(botToken);
      if n == "" || u == "" || c == "" || t == "" {
        return false;
      }
      UpsertSite(siteId, n, u, c, t);
      saved := true;
    }

    /**
     * `upsert_site` with non-empty fields: id 0 (Python's `None`) inserts a row
     * under the next AUTOINCREMENT id with no balance; any other id rewrites the
     * four fields of the row with that id, if there is one.
     */
    method UpsertSite(siteId: nat, name: string, apiUrl: string, chatId: string, botToken: string)
      requires Valid() && RowComplete(Row(name, apiUrl, None, chatId, botToken))
      modifies this`sites, this`nextId
      ensures Valid()
      ensures siteId == 0 ==>
        sites == old(sites) + [Site(old(nextId), name, apiUrl, None, chatId, botToken)] && nextId == old(nextId) + 1
      ensures siteId != 0 ==>
        sites == SetFields(old(sites), siteId, name, apiUrl, chatId, botToken) && nextId == old(nextId)
    {
      if siteId == 0 {
        InsertKeepsValid(sites, nextId, Site(nextId, name, apiUrl, None, chatId, botToken));
        sites := sites + [Site(nextId, name, apiUrl, None, chatId, botToken)];
        nextId := nextId + 1;
      } else {
        SetFieldsKeepsValid(sites, nextId, siteId, name, apiUrl, chatId, botToken);
        sites := SetFields(sites, siteId, name, apiUrl, chatId, botToken);
      }
    }

    /**
     * `INSERT INTO sites (name, api_url, last_balance, chat_id, bot_token)`: the
     * row is appended under the next AUTOINCREMENT id.  `before` and `firstId`
     * are the table and the id counter when the import started.
     */
    method InsertRow(r: Row, ghost before: seq<Site>, ghost firstId: int)
      requires ValidTable(sites, nextId) && RowComplete(r)
      requires |before| <= |sites| && sites[..|before|] == before && nextId >= firstId
      requires forall k :: |before| <= k < |sites| ==> sites[k].id >= firstId
      modifies this`sites, this`nextId
      ensures sites == old(sites) + [Site(old(nextId), r.name, r.apiUrl, r.lastBalance, r.chatId, r.botToken)]
      ensures nextId == old(nextId) + 1
      ensures ValidTable(sites, nextId) && Rows(sites) == Rows(old(sites)) + [r]
      ensures |before| <= |sites| && sites[..|before|] == before && nextId >= firstId
      ensures forall k :: |before| <= k < |sites| ==> sites[k].id >= firstId
    {
      var s := Site(nextId, r.name, r.apiUrl, r.lastBalance, r.chatId, r.botToken);
      InsertKeepsValid(sites, nextId, s);
      assert (sites + [s])[..|before|] == sites[..|before|];
      sites := sites + [s];
      nextId := nextId + 1;
    }

    /**
     * The `for s in sites` loop of `import_backup_json`: insert the row of every
     * backup entry that has its four text fields, under fresh ids, or stop at
     * the first entry that raises, with the rows inserted so far left in place.
     */
    method InsertEntries(items: seq<Json>) returns (error: Option<ImportError>)
      requires Valid()
      modifies this`sites, this`nextId
      ensures Valid() && nextId >= old(nextId)
      ensures EntryRows(items).Failure? ==> error == Some(EntryRows(items).error)
      ensures EntryRows(items).Success? ==>
        error == None &&
        Rows(sites) == Rows(old(sites)) + EntryRows(items).value &&
        sites[..|old(sites)|] == old(sites) &&
        forall k :: |old(sites)| <= k < |sites| ==> sites[k].id >= old(nextId)
    {
      ghost var before := sites;
      var firstId := nextId;
      var i := 0;
      assert items[..0] == [];
      assert Rows(before) + [] == Rows(before);
      while i < |items|
        invariant 0 <= i <= |items|
        invariant EntryRows(items[..i]).Success? && Rows(sites) == Rows(before) + EntryRows(items[..i]).value
        invariant ValidTable(sites, nextId) && nextId >= firstId
        invariant |before| <= |sites| && sites[..|before|] == before
        invariant forall k :: |before| <= k < |sites| ==> sites[k].id >= firstId
      {
        var row := EntryRow(items[i]);
        if row.Failure? {
          EntryRowsFailure(items, i);
          return Some(row.error);
        }
        EntryRowsStep(items, i);
        ghost var done := EntryRows(items[..i]).value;
        if row.value.Some? {
          InsertRow(row.value.value, before, firstId);
          assert (Rows(before) + done) + [row.value.value] == Rows(before) + (done + [row.value.value]);
        } else {
          assert done + [] == done;
        }
        i := i + 1;
      }
      assert items[..i] == items;
      error := None;
    }

    /**
     * `import_backup_json`, with the database transaction it runs in: on any
     * error every change is rolled back.  Otherwise the settings are those of
     * the backup and the site table holds exactly the rows the backup keeps, in
     * backup order, under fresh ids; every previous site is gone.
     */
    method ImportBackup(data: Json, toFloat: FloatParser, toInt: IntParser) returns (error: Option<ImportError>)
      requires Valid()
      modifies this`settings, this`sites, this`nextId
      ensures Valid()
      ensures ParseBackup(data, toFloat, toInt).Failure? ==>
        error == Some(ParseBackup(data, toFloat, toInt).error) &&
        settings == old(settings) && sites == old(sites) && nextId == old(nextId)
      ensures ParseBackup(data, toFloat, toInt).Success? ==>
        error == None &&
        settings == ParseBackup(data, toFloat, toInt).value.settings &&
        Rows(sites) == ParseBackup(data, toFloat, toInt).value.rows &&
        forall i :: 0 <= i < |sites| ==> sites[i].id >= old(nextId)
    {
      if !data.JObject? {
        return Some(NotAnObject);
      }
      var backupSettings := BackupSettings(data.fields, toFloat, toInt);
      if backupSettings.Failure? {
        return Some(backupSettings.error);
      }
      var entries := SiteEntries(GetOr(data.fields, "sites", JArray([])));
      var savedSettings, savedSites, savedNextId := settings, sites, nextId;
      settings := backupSettings.value;
      sites := [];
      if entries.Failure? {
        settings, sites, nextId := savedSettings, savedSites, savedNextId;
        return Some(entries.error);
      }
      error := InsertEntries(entries.value);
      if error.Some? {
        settings, sites, nextId := savedSettings, savedSites, savedNextId;
        return;
      }
      assert ParseBackup(data, toFloat, toInt) == Success(Plan(settings, EntryRows(entries.value).value));
    }
  }
}
