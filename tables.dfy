/**
 * The two tables of the balance watcher's database: the single settings row and
 * the `sites` table, as in-memory values.
 */
module Tables {
  import opened Wrappers

  /** The settings row: `poll_interval` (seconds) and the low-balance `threshold`. */
  datatype Settings = Settings(pollInterval: int, threshold: real)

  /** The row `init_db` inserts, and the values `import_backup_json` falls back to. */
  const DefaultPollInterval: int := 30
  const DefaultThreshold: real := 100000.0
  const DefaultSettings: Settings := Settings(DefaultPollInterval, DefaultThreshold)

  /** The shortest poll interval the watcher honours. */
  const MinPollInterval: int := 5

  /** One row of `sites`; `lastBalance` is `NULL` until the first successful poll. */
  datatype Site = Site(
    id: int,
    name: string,
    apiUrl: string,
    lastBalance: Option<real>,
    chatId: string,
    botToken: string)

  /** What a backup keeps of a site: everything but its id. */
  datatype Row = Row(
    name: string,
    apiUrl: string,
    lastBalance: Option<real>,
    chatId: string,
    botToken: string)

  function RowOf(s: Site): Row
  {
    Row(s.name, s.apiUrl, s.lastBalance, s.chatId, s.botToken)
  }

  function Rows(sites: seq<Site>): (r: seq<Row>)
    ensures |r| == |sites|
    ensures forall i :: 0 <= i < |sites| ==> r[i] == RowOf(sites[i])
  {
    seq(|sites|, i requires 0 <= i < |sites| => RowOf(sites[i]))
  }

  /** The rows of a non-empty table: its first row, then the rows of the rest. */
  lemma RowsCons(sites: seq<Site>)
    requires sites != []
    ensures Rows(sites) == [RowOf(sites[0])] + Rows(sites[1..])
  {
    var r := [RowOf(sites[0])] + Rows(sites[1..]);
    forall i | 0 <= i < |sites| ensures Rows(sites)[i] == r[i] {
      if i > 0 {
        assert r[i] == Rows(sites[1..])[i - 1];
        assert sites[1..][i - 1] == sites[i];
      }
    }
  }

  /** The four text fields that `edit_site` and `import_backup_json` insist on. */
  predicate RowComplete(r: Row)
  {
    r.name != "" && r.apiUrl != "" && r.chatId != "" && r.botToken != ""
  }

  /** The ids of `sites`, in table order. */
  function Ids(sites: seq<Site>): (r: seq<int>)
    ensures |r| == |sites|
  {
    seq(|sites|, i requires 0 <= i < |sites| => sites[i].id)
  }

  /** No value occurs twice. */
  predicate Distinct(ids: seq<int>)
  {
    forall i, j :: 0 <= i < j < |ids| ==> ids[i] != ids[j]
  }

  /**
   * What the database guarantees of `sites`: ids are unique and below the next
   * AUTOINCREMENT value, and every row has its four text fields filled in.
   */
  predicate ValidTable(sites: seq<Site>, nextId: int)
  {
    1 <= nextId &&
    Distinct(Ids(sites)) &&
    (forall i :: 0 <= i < |Ids(sites)| ==> 1 <= Ids(sites)[i] < nextId) &&
    (forall i :: 0 <= i < |sites| ==> RowComplete(RowOf(sites[i])))
  }

  /**
   * `max(n, 5)`: the interval `update_config` stores and the loop sleeps; never
   * below the floor, and `n` itself whenever `n` already meets it.
   */
  function ClampInterval(n: int): (r: int)
    ensures r >= MinPollInterval
    ensures n >= MinPollInterval ==> r == n
    ensures n < MinPollInterval ==> r == MinPollInterval
  {
    if n < MinPollInterval then MinPollInterval else n
  }

  /** Appending a complete row under the next id keeps the table valid. */
  lemma InsertKeepsValid(sites: seq<Site>, nextId: int, s: Site)
    requires ValidTable(sites, nextId)
    requires s.id == nextId && RowComplete(RowOf(s))
    ensures ValidTable(sites + [s], nextId + 1)
    ensures Rows(sites + [s]) == Rows(sites) + [RowOf(s)]
  {
    var grown := sites + [s];
    assert forall i :: 0 <= i < |sites| ==> grown[i] == sites[i];
    assert Ids(grown) == Ids(sites) + [nextId];
    forall i, j | 0 <= i < j < |grown| ensures Ids(grown)[i] != Ids(grown)[j] {
      if j < |sites| {
        assert Ids(grown)[i] == Ids(sites)[i] && Ids(grown)[j] == Ids(sites)[j];
      } else {
        assert Ids(grown)[i] == sites[i].id < nextId;
      }
    }
  }
}
