/** The `email_scanner_state` table as a sequence of rows: the keyed upsert
    that writes it (db/update_scanner.py) and the latest-timestamp lookup
    that reads it (db/fetch_last_timestamp.py). Timestamps are strings
    ordered as Python orders str. */
module ScannerState {
  import opened Common

  const StatusSuccess := "success"
  const StatusError := "error"

  datatype ScannerKey = ScannerKey(scannerId: string, entityId: string, emailAccount: string)

  /** One row; a NULL timestamp (written by some other party) is None. */
  datatype ScannerRow = ScannerRow(
    key: ScannerKey,
    lastProcessedTimestamp: Option<string>,
    lastProcessedEmailId: string,
    scanCount: int,
    status: string)

  predicate HasKey(rows: seq<ScannerRow>, key: ScannerKey) {
    exists i :: 0 <= i < |rows| && rows[i].key == key
  }

  /** At most one row per key. */
  predicate UniqueKeys(rows: seq<ScannerRow>) {
    forall i, j :: 0 <= i < j < |rows| ==> rows[i].key != rows[j].key
  }

  /** The UPDATE applied to one matching row. */
  function Overwrite(row: ScannerRow, timestamp: string, emailId: string, scanCount: int, status: string): ScannerRow {
    row.(lastProcessedTimestamp := Some(timestamp), lastProcessedEmailId := emailId,
         scanCount := row.scanCount + scanCount, status := status)
  }

  /** update_scanner_state_in_db, committed: UPDATE every row with the key
      when one exists, INSERT a fresh row otherwise. */
  function Upsert(rows: seq<ScannerRow>, key: ScannerKey, timestamp: string, emailId: string, scanCount: int, status: string): (r: seq<ScannerRow>)
  {
    if HasKey(rows, key) then
      seq(|rows|, i requires 0 <= i < |rows| => if rows[i].key == key then Overwrite(rows[i], timestamp, emailId, scanCount, status) else rows[i])
    else
      rows + [ScannerRow(key, Some(timestamp), emailId, scanCount, status)]
  }

  /** An existing row keeps its place, adds `scanCount` to its count and
      takes the new timestamp, id and status. */
  lemma UpsertExisting(rows: seq<ScannerRow>, key: ScannerKey, timestamp: string, emailId: string, scanCount: int, status: string, i: nat)
    requires i < |rows| && rows[i].key == key
    ensures var r := Upsert(rows, key, timestamp, emailId, scanCount, status);
      |r| == |rows| && r[i].key == key &&
      r[i].scanCount == rows[i].scanCount + scanCount &&
      r[i].lastProcessedTimestamp == Some(timestamp) && r[i].lastProcessedEmailId == emailId && r[i].status == status
  {
  }

  /** Without a row for the key, exactly one row is appended, counting `scanCount`. */
  lemma UpsertNew(rows: seq<ScannerRow>, key: ScannerKey, timestamp: string, emailId: string, scanCount: int, status: string)
    requires !HasKey(rows, key)
    ensures Upsert(rows, key, timestamp, emailId, scanCount, status) == rows + [ScannerRow(key, Some(timestamp), emailId, scanCount, status)]
  {
  }

  /** Rows under other keys are untouched, rows are never removed, and the
      table keeps at most one row per key. */
  lemma UpsertFrame(rows: seq<ScannerRow>, key: ScannerKey, timestamp: string, emailId: string, scanCount: int, status: string)
    ensures var r := Upsert(rows, key, timestamp, emailId, scanCount, status);
      |rows| <= |r| <= |rows| + 1 &&
      (forall i :: 0 <= i < |rows| && rows[i].key != key ==> r[i] == rows[i]) &&
      (forall i :: 0 <= i < |r| ==> (i < |rows| && r[i].key == rows[i].key) || r[i].key == key) &&
      HasKey(r, key) &&
      (UniqueKeys(rows) ==> UniqueKeys(r))
  {
    var r := Upsert(rows, key, timestamp, emailId, scanCount, status);
    if !HasKey(rows, key) {
      assert r[|rows|].key == key;
    } else {
      var i :| 0 <= i < |rows| && rows[i].key == key;
      assert r[i].key == key;
    }
  }

  /** The largest non-NULL timestamp among the rows of one account
      (`ORDER BY last_processed_timestamp DESC LIMIT 1`). */
  function MaxTimestamp(rows: seq<ScannerRow>, account: string): (r: Option<string>)
    ensures r.Some? ==> exists i :: 0 <= i < |rows| && rows[i].key.emailAccount == account && rows[i].lastProcessedTimestamp == r
    ensures r.Some? ==> forall i :: 0 <= i < |rows| && rows[i].key.emailAccount == account && rows[i].lastProcessedTimestamp.Some? ==>
      !LexLess(r.value, rows[i].lastProcessedTimestamp.value)
    ensures r.None? ==> forall i :: 0 <= i < |rows| && rows[i].key.emailAccount == account ==> rows[i].lastProcessedTimestamp.None?
  {
    if |rows| == 0 then None
    else
      var last := rows[|rows| - 1];
      var init := rows[..|rows| - 1];
      var rest := MaxTimestamp(init, account);
      assert forall i :: 0 <= i < |init| ==> init[i] == rows[i];
      if last.key.emailAccount != account || last.lastProcessedTimestamp.None? then rest
      else if rest.None? then
        LexLessIrreflexive(last.lastProcessedTimestamp.value);
        last.lastProcessedTimestamp
      else if LexLess(rest.value, last.lastProcessedTimestamp.value) then
        MaxAbove(init, account, rest.value, last.lastProcessedTimestamp.value);
        LexLessIrreflexive(last.lastProcessedTimestamp.value);
        last.lastProcessedTimestamp
      else
        LexLessTotalOrEqual(rest.value, last.lastProcessedTimestamp.value);
        rest
  }

  lemma LexLessTotalOrEqual(a: string, b: string)
    requires !LexLess(a, b)
    ensures !LexLess(a, b) && (a == b || LexLess(b, a))
  {
    if a != b {
      LexLessTotal(a, b);
    }
  }

  /** A bound above the maximum of a prefix bounds every row of it. */
  lemma MaxAbove(rows: seq<ScannerRow>, account: string, m: string, t: string)
    requires LexLess(m, t)
    requires forall i :: 0 <= i < |rows| && rows[i].key.emailAccount == account && rows[i].lastProcessedTimestamp.Some? ==>
      !LexLess(m, rows[i].lastProcessedTimestamp.value)
    ensures forall i :: 0 <= i < |rows| && rows[i].key.emailAccount == account && rows[i].lastProcessedTimestamp.Some? ==>
      !LexLess(t, rows[i].lastProcessedTimestamp.value)
  {
    forall i | 0 <= i < |rows| && rows[i].key.emailAccount == account && rows[i].lastProcessedTimestamp.Some?
      ensures !LexLess(t, rows[i].lastProcessedTimestamp.value)
    {
      var v := rows[i].lastProcessedTimestamp.value;
      LexLessTotalOrEqual(m, v);
      if LexLess(t, v) {
        if v == m {
          LexLessAsymmetric(m, t);
        } else {
          LexLessTransitive(v, m, t);
          LexLessAsymmetric(v, t);
        }
      }
    }
  }

  predicate HasNullTimestamp(rows: seq<ScannerRow>, account: string) {
    exists i :: 0 <= i < |rows| && rows[i].key.emailAccount == account && rows[i].lastProcessedTimestamp.None?
  }

  /** get_last_processed_timestamp_from_db: the first row of the account in
      descending timestamp order. PostgreSQL sorts NULLs first under DESC, so
      one NULL row hides every timestamp; a falsy value, no row, no connection
      or a failing query all give None. Nothing is written. */
  function LastProcessedTimestamp(rows: seq<ScannerRow>, account: string, call: DbCall): (r: Option<string>)
    ensures r.Some? ==> r.value != "" && call == Completed && !HasNullTimestamp(rows, account)
    ensures r.Some? ==> exists i :: 0 <= i < |rows| && rows[i].key.emailAccount == account && rows[i].lastProcessedTimestamp == r
    ensures r.Some? ==> forall i :: 0 <= i < |rows| && rows[i].key.emailAccount == account ==>
      !LexLess(r.value, rows[i].lastProcessedTimestamp.value)
    ensures r.None? && call == Completed && !HasNullTimestamp(rows, account) ==>
      forall i :: 0 <= i < |rows| && rows[i].key.emailAccount == account ==> rows[i].lastProcessedTimestamp == Some("")
  {
    if call != Completed || HasNullTimestamp(rows, account) then None
    else
      match MaxTimestamp(rows, account)
      case None => None
      case Some(t) =>
        if t == "" then
          EmptyMaxMeansAllEmpty(rows, account);
          None
        else Some(t)
  }

  lemma EmptyMaxMeansAllEmpty(rows: seq<ScannerRow>, account: string)
    requires MaxTimestamp(rows, account) == Some("")
    ensures forall i :: 0 <= i < |rows| && rows[i].key.emailAccount == account && rows[i].lastProcessedTimestamp.Some? ==>
      rows[i].lastProcessedTimestamp == Some("")
  {
    forall i | 0 <= i < |rows| && rows[i].key.emailAccount == account && rows[i].lastProcessedTimestamp.Some?
      ensures rows[i].lastProcessedTimestamp == Some("")
    {
    }
  }

  /** The read side across runs: each run writes under a fresh key, and the
      lookup then answers at least what it answered before and at least
      the timestamp just written, so the watermark never moves back. */
  lemma WatermarkNeverRegresses(rows: seq<ScannerRow>, key: ScannerKey, timestamp: string, emailId: string, scanCount: int, status: string)
    requires !HasKey(rows, key) && timestamp != ""
    requires !HasNullTimestamp(rows, key.emailAccount)
    ensures var after := LastProcessedTimestamp(Upsert(rows, key, timestamp, emailId, scanCount, status), key.emailAccount, Completed);
      after.Some? && !LexLess(after.value, timestamp) &&
      (forall before :: LastProcessedTimestamp(rows, key.emailAccount, Completed) == Some(before) ==> !LexLess(after.value, before))
  {
    var acc := key.emailAccount;
    var r := Upsert(rows, key, timestamp, emailId, scanCount, status);
    assert r == rows + [ScannerRow(key, Some(timestamp), emailId, scanCount, status)];
    assert r[|rows|].lastProcessedTimestamp == Some(timestamp);
    assert !HasNullTimestamp(r, acc) by {
      forall i | 0 <= i < |r| && r[i].key.emailAccount == acc ensures r[i].lastProcessedTimestamp.Some? {
        if i < |rows| {
          assert r[i] == rows[i];
        }
      }
    }
    var m := MaxTimestamp(r, acc);
    assert m.Some?;
    assert !LexLess(m.value, timestamp);
    assert m.value != "";
    forall before | LastProcessedTimestamp(rows, acc, Completed) == Some(before)
      ensures !LexLess(m.value, before)
    {
      var i :| 0 <= i < |rows| && rows[i].key.emailAccount == acc && rows[i].lastProcessedTimestamp == Some(before);
      assert r[i] == rows[i];
    }
  }
}
