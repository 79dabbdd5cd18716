/** The two tables of `limits.db`, `limit_usage` and `premium_users`, as
    sequences of rows in insertion order, and the statements the application
    runs against `limit_usage`.

    Dates are day numbers. The application stores them as ISO `YYYY-MM-DD`
    text, whose string order is the order of the days. A `SELECT` without
    `ORDER BY` followed by `fetchone()` is taken to yield the first matching
    row in insertion order. */
module Store {
  import opened Wrappers

  /** A row of `limit_usage`: a client address, a day, and how many
      conversions that address was admitted for on that day. The address is
      NULL (`None`) when the request carried none. */
  datatype UsageRow = UsageRow(ip: Option<string>, date: int, count: int)

  /** A row of `premium_users`: a payment identifier and the last day on
      which it entitles its holder. */
  datatype PremiumRow = PremiumRow(paymentId: string, expiry: int)

  /** A non-NULL address and a day: what `WHERE ip=? AND date=?` can
      select on. */
  type Key = (string, int)

  /** `ip=? AND date=?` with SQL's NULL semantics: `NULL = x` is never
      true, so a NULL address, bound or stored, selects nothing. */
  predicate Selects(row: UsageRow, ip: Option<string>, date: int) {
    ip.Some? && row.ip == ip && row.date == date
  }

  /** Position of the row that `SELECT count FROM limit_usage WHERE ip=? AND
      date=?` followed by `fetchone()` reads: the first row selected. */
  function FirstMatch(rows: seq<UsageRow>, ip: Option<string>, date: int): (r: Option<nat>)
    ensures r.None? ==> forall i :: 0 <= i < |rows| ==> !Selects(rows[i], ip, date)
    ensures r.Some? ==> r.value < |rows| && Selects(rows[r.value], ip, date)
    ensures r.Some? ==> forall i :: 0 <= i < r.value ==> !Selects(rows[i], ip, date)
  {
    if rows == [] then None
    else if Selects(rows[0], ip, date) then Some(0)
    else match FirstMatch(rows[1..], ip, date)
      case None => None
      case Some(i) => Some(i + 1)
  }

  function Bump(row: UsageRow, ip: Option<string>, date: int): UsageRow {
    if Selects(row, ip, date) then row.(count := row.count + 1) else row
  }

  /** `UPDATE limit_usage SET count=count+1 WHERE ip=? AND date=?`: every
      selected row is incremented, in place; no row is added, removed or
      reordered, and no address or day changes. */
  function IncrementMatching(rows: seq<UsageRow>, ip: Option<string>, date: int): (r: seq<UsageRow>)
    ensures |r| == |rows|
    ensures forall i :: 0 <= i < |rows| ==> r[i].ip == rows[i].ip && r[i].date == rows[i].date
    ensures forall i :: 0 <= i < |rows| ==>
      r[i].count == if Selects(rows[i], ip, date) then rows[i].count + 1 else rows[i].count
  {
    if rows == [] then [] else [Bump(rows[0], ip, date)] + IncrementMatching(rows[1..], ip, date)
  }

  /** The count a point query reads for each key of the table: where several
      rows share a key, the first one is the one read. Rows with a NULL
      address are never read. */
  function Tally(rows: seq<UsageRow>): map<Key, int> {
    if rows == [] then map[]
    else match rows[0].ip
      case None => Tally(rows[1..])
      case Some(ip) => Tally(rows[1..])[(ip, rows[0].date) := rows[0].count]
  }

  /** Admissions already counted for an address on a day; a key without a
      row, and a NULL address, have none. */
  function Used(rows: seq<UsageRow>, ip: Option<string>, date: int): int {
    if ip.Some? && (ip.value, date) in Tally(rows) then Tally(rows)[(ip.value, date)] else 0
  }

  /** The invariant the application relies on but the schema does not
      enforce: at most one row per (ip, date), for rows a query can select. */
  predicate AtMostOneRowPerKey(rows: seq<UsageRow>) {
    forall i, j :: 0 <= i < j < |rows| ==> !Selects(rows[j], rows[i].ip, rows[i].date)
  }

  /** The select finds a row exactly when the key is tallied, and then
      reads the tallied count. */
  lemma {:induction false} FirstMatchReadsTally(rows: seq<UsageRow>, ip: string, date: int)
    ensures FirstMatch(rows, Some(ip), date).None? <==> (ip, date) !in Tally(rows)
    ensures FirstMatch(rows, Some(ip), date).Some? ==>
      (ip, date) in Tally(rows) && Tally(rows)[(ip, date)] == rows[FirstMatch(rows, Some(ip), date).value].count
  {
    if rows != [] && !Selects(rows[0], Some(ip), date) {
      FirstMatchReadsTally(rows[1..], ip, date);
    }
  }

  /** The update adds one to the count read for the key and to no other. */
  lemma {:induction false} IncrementMatchingTally(rows: seq<UsageRow>, ip: string, date: int)
    ensures Tally(IncrementMatching(rows, Some(ip), date)) ==
      if (ip, date) in Tally(rows) then Tally(rows)[(ip, date) := Tally(rows)[(ip, date)] + 1] else Tally(rows)
  {
    if rows != [] {
      var r := IncrementMatching(rows, Some(ip), date);
      assert r[1..] == IncrementMatching(rows[1..], Some(ip), date);
      IncrementMatchingTally(rows[1..], ip, date);
    }
  }

  /** Appending a row for a key that has none tallies exactly that row;
      appending a row with a NULL address tallies nothing. */
  lemma {:induction false} AppendTally(rows: seq<UsageRow>, row: UsageRow)
    requires row.ip.Some? ==> (row.ip.value, row.date) !in Tally(rows)
    ensures Tally(rows + [row]) ==
      if row.ip.Some? then Tally(rows)[(row.ip.value, row.date) := row.count] else Tally(rows)
  {
    if rows != [] {
      assert (rows + [row])[1..] == rows[1..] + [row];
      AppendTally(rows[1..], row);
    }
  }

  /** While the invariant holds the tally loses nothing: every row with an
      address has its count read for its key. */
  lemma {:induction false} UniqueRowsAreTallied(rows: seq<UsageRow>, i: nat)
    requires AtMostOneRowPerKey(rows)
    requires i < |rows| && rows[i].ip.Some?
    ensures (rows[i].ip.value, rows[i].date) in Tally(rows)
    ensures Tally(rows)[(rows[i].ip.value, rows[i].date)] == rows[i].count
  {
    if i > 0 {
      assert !Selects(rows[i], rows[0].ip, rows[0].date);
      assert rows[1..][i - 1] == rows[i];
      UniqueRowsAreTallied(rows[1..], i - 1);
    }
  }
}
