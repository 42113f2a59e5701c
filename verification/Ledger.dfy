/** The gateway's durable queue: one table row for each observed source file.
    Rows are never deleted, so a row is identified by its position. */
module Ledger {
  import opened Base

  datatype Status = Queued | Uploading | Uploaded | Failed | Duplicate | Rejected

  /** Hash of (resolved path, size, mtime), or of the path alone when the file
      could no longer be examined. */
  datatype SourceId = Observed(path: string, size: nat, mtime: int) | Vanished(path: string)

  /** Spool files are named after the digest of what they hold. */
  datatype SpoolName = SpoolName(digest: Digest, extension: string)

  /** What the idempotency key hashes: tenant, pack, pack version, content, context. */
  datatype Material = Material(
    tenant: string, packKey: string, packVersion: string,
    content: Digest, context: map<string, string>)

  /** An `edge_` key is the digest of its material; any other client may use plain keys. */
  datatype Key = Edge(material: Material) | Plain(text: string)

  datatype Row = Row(
    tenant: string,
    source: SourceId,
    spool: Option<SpoolName>,
    content: Option<Digest>,
    context: map<string, string>,
    key: Option<Key>,
    status: Status,
    attempts: nat,
    nextAttempt: Option<int>,
    errorCode: Option<string>,
    inspection: Option<nat>,
    dedupOf: Option<nat>,
    retryable: bool,
    created: int)

  datatype NewItem = NewItem(
    tenant: string, source: SourceId, spool: SpoolName, content: Digest,
    context: map<string, string>, key: Key)

  predicate Terminal(s: Status) {
    s == Uploaded || s == Duplicate || s == Rejected
  }

  // ---- queries -------------------------------------------------------------

  /** `SELECT ... WHERE source_fingerprint = ?` */
  function FindSource(rows: seq<Row>, source: SourceId): (r: Option<nat>)
    ensures r.Some? ==> r.value < |rows| && rows[r.value].source == source
    ensures r.None? ==> forall j | 0 <= j < |rows| :: rows[j].source != source
  {
    if rows == [] then None else
    var last := |rows| - 1;
    var r := FindSource(rows[..last], source);
    if r.Some? then r else if rows[last].source == source then Some(last) else None
  }

  predicate IsPrimaryFor(row: Row, tenant: string, key: Key) {
    row.tenant == tenant && row.key == Some(key) && row.status != Duplicate
  }

  /** The first row of a (tenant, key) that is not itself a duplicate. */
  function FindPrimary(rows: seq<Row>, tenant: string, key: Key): (r: Option<nat>)
    ensures r.Some? ==> r.value < |rows| && IsPrimaryFor(rows[r.value], tenant, key)
    ensures r.None? ==> forall j | 0 <= j < |rows| :: !IsPrimaryFor(rows[j], tenant, key)
  {
    if rows == [] then None else
    var last := |rows| - 1;
    var r := FindPrimary(rows[..last], tenant, key);
    if r.Some? then r else if IsPrimaryFor(rows[last], tenant, key) then Some(last) else None
  }

  predicate IsDue(row: Row, now: int) {
    && row.retryable
    && (row.status == Queued || row.status == Failed)
    && (row.nextAttempt.Some? ==> row.nextAttempt.value <= now)
  }

  /** Claimable from this moment on, and not before. */
  ghost predicate DueFrom(row: Row, start: int) {
    forall t :: IsDue(row, t) <==> t >= start
  }

  ghost predicate NeverDue(row: Row) {
    forall t :: !IsDue(row, t)
  }

  /** `ORDER BY created_at, id LIMIT 1` over the due rows. */
  function FindDue(rows: seq<Row>, now: int): (r: Option<nat>)
    ensures r.None? ==> forall j | 0 <= j < |rows| :: !IsDue(rows[j], now)
    ensures r.Some? ==>
      && r.value < |rows| && IsDue(rows[r.value], now)
      && forall j | 0 <= j < |rows| && IsDue(rows[j], now) ::
           rows[r.value].created < rows[j].created || (rows[r.value].created == rows[j].created && r.value <= j)
  {
    if rows == [] then None else
    var last := |rows| - 1;
    var r := FindDue(rows[..last], now);
    if !IsDue(rows[last], now) then r
    else if r.Some? && rows[r.value].created <= rows[last].created then r
    else Some(last)
  }

  function Count(rows: seq<Row>, s: Status): nat {
    if rows == [] then 0
    else Count(rows[..|rows| - 1], s) + if rows[|rows| - 1].status == s then 1 else 0
  }

  // ---- statements ----------------------------------------------------------

  function QueuedRow(item: NewItem, now: int): Row {
    Row(item.tenant, item.source, Some(item.spool), Some(item.content), item.context, Some(item.key),
        Queued, 0, Some(now), None, None, None, true, now)
  }

  function DuplicateRow(item: NewItem, primary: nat, now: int): Row {
    Row(item.tenant, item.source, None, Some(item.content), item.context, Some(item.key),
        Duplicate, 0, None, None, None, Some(primary), false, now)
  }

  function RejectedRow(tenant: string, source: SourceId, code: string, now: int): Row {
    Row(tenant, source, None, None, map[], None,
        Rejected, 0, None, Some(code), None, None, false, now)
  }

  function Enqueue(rows: seq<Row>, item: NewItem, now: int): seq<Row> {
    if FindSource(rows, item.source).Some? then rows
    else match FindPrimary(rows, item.tenant, item.key)
      case Some(p) => rows + [DuplicateRow(item, p, now)]
      case None => rows + [QueuedRow(item, now)]
  }

  function RecordRejection(rows: seq<Row>, tenant: string, source: SourceId, code: string, now: int): seq<Row> {
    if FindSource(rows, source).Some? then rows else rows + [RejectedRow(tenant, source, code, now)]
  }

  function Recovered(row: Row, now: int): Row {
    if row.status == Uploading
    then row.(status := Failed, retryable := true, nextAttempt := Some(now), errorCode := Some("PROCESS_RESTARTED"))
    else row
  }

  function RecoverInflight(rows: seq<Row>, now: int): seq<Row> {
    seq(|rows|, i requires 0 <= i < |rows| => Recovered(rows[i], now))
  }

  function Claimed(row: Row): Row {
    row.(status := Uploading, attempts := row.attempts + 1)
  }

  function MarkUploaded(rows: seq<Row>, id: nat, inspection: nat): seq<Row>
    requires id < |rows|
  {
    rows[id := rows[id].(status := Uploaded, retryable := false, nextAttempt := None,
                         inspection := Some(inspection), errorCode := None)]
  }

  function MarkFailed(rows: seq<Row>, id: nat, code: string, retryable: bool, now: int, delay: int): seq<Row>
    requires id < |rows|
  {
    var next := if retryable then Some(now + if delay > 0 then delay else 0) else None;
    rows[id := rows[id].(status := Failed, retryable := retryable, nextAttempt := next, errorCode := Some(code))]
  }

  function Retry(rows: seq<Row>, id: nat, now: int): seq<Row>
    requires id < |rows|
  {
    if rows[id].status != Failed then rows
    else rows[id := rows[id].(retryable := true, nextAttempt := Some(now))]
  }

  // ---- when rows are claimable ------------------------------------------------

  /** Everything a row says about its file. */
  predicate About(row: Row, item: NewItem) {
    && row.tenant == item.tenant && row.source == item.source && row.content == Some(item.content)
    && row.context == item.context && row.key == Some(item.key)
  }

  /** An unknown source adds one row about it: claimable at once, unless the tenant and key are
      taken; then it is never claimed and names a row that is no duplicate.  A known source adds
      nothing. */
  lemma EnqueueDecides(rows: seq<Row>, item: NewItem, now: int)
    ensures var t := Enqueue(rows, item, now);
      if exists i :: 0 <= i < |rows| && rows[i].source == item.source then t == rows
      else
        && |t| == |rows| + 1 && t[..|rows|] == rows && About(t[|rows|], item) && t[|rows|].attempts == 0
        && (if exists i :: 0 <= i < |rows| && IsPrimaryFor(rows[i], item.tenant, item.key) then
              && NeverDue(t[|rows|]) && t[|rows|].dedupOf.Some?
              && t[|rows|].dedupOf.value < |rows| && IsPrimaryFor(rows[t[|rows|].dedupOf.value], item.tenant, item.key)
            else DueFrom(t[|rows|], now) && t[|rows|].spool == Some(item.spool))
  {
  }

  /** A rejection of an unknown source adds one row that is never claimed and carries the code. */
  lemma RejectionDecides(rows: seq<Row>, tenant: string, source: SourceId, code: string, now: int)
    ensures var t := RecordRejection(rows, tenant, source, code, now);
      if exists i :: 0 <= i < |rows| && rows[i].source == source then t == rows
      else
        && |t| == |rows| + 1 && t[..|rows|] == rows && t[|rows|].tenant == tenant && t[|rows|].source == source
        && t[|rows|].status == Rejected && t[|rows|].errorCode == Some(code) && NeverDue(t[|rows|])
  {
  }

  /** Recovery makes exactly the rows in flight claimable at once, their attempts still counted. */
  lemma RecoveryDecides(rows: seq<Row>, now: int, i: nat)
    requires i < |rows|
    ensures |RecoverInflight(rows, now)| == |rows|
    ensures var r := RecoverInflight(rows, now)[i];
      if rows[i].status == Uploading then DueFrom(r, now) && r.attempts == rows[i].attempts else r == rows[i]
  {
  }

  /** A claimed row cannot be claimed again; its attempts count the claim. */
  lemma ClaimDecides(row: Row)
    ensures NeverDue(Claimed(row)) && Claimed(row).attempts == row.attempts + 1
  {
  }

  /** Who was given up on is never claimed again, who may be retried not before the delay is over. */
  ghost predicate FailedUntil(row: Row, retryable: bool, start: int) {
    row.status == Failed && if retryable then DueFrom(row, start) else NeverDue(row)
  }

  lemma FailureDecides(rows: seq<Row>, id: nat, code: string, retryable: bool, now: int, delay: int)
    requires id < |rows|
    ensures var t := MarkFailed(rows, id, code, retryable, now, delay);
      && t == rows[id := t[id]] && t[id].attempts == rows[id].attempts && t[id].errorCode == Some(code)
      && FailedUntil(t[id], retryable, if delay > 0 then now + delay else now)
  {
  }

  // ---- the ledger invariant ------------------------------------------------

  predicate RowOk(row: Row) {
    && (row.status == Rejected ==> row.key.None? && row.spool.None? && !row.retryable)
    && (row.status != Rejected ==> row.key.Some? && row.content.Some?)
    && (row.status == Duplicate <==> row.dedupOf.Some?)
    && (row.status == Duplicate ==> !row.retryable && row.spool.None?)
    && (row.status == Uploaded ==> !row.retryable)
    && (row.status == Uploaded <==> row.inspection.Some?)
    && (row.status == Queued ==> row.retryable)
    && (!(row.status == Duplicate || row.status == Rejected) ==>
          row.spool.Some? && row.spool.value.digest == row.content.value)
    && row.errorCode != Some("SPOOL_MISSING")
  }

  /** A duplicate names an earlier row of the same (tenant, key) that is no duplicate. */
  predicate DedupOk(rows: seq<Row>, i: nat)
    requires i < |rows|
  {
    rows[i].dedupOf.Some? ==>
      var p := rows[i].dedupOf.value;
      && p < i
      && rows[p].status != Duplicate
      && rows[p].tenant == rows[i].tenant
      && rows[p].key == rows[i].key
  }

  predicate SamePrimaryKey(a: Row, b: Row) {
    a.status != Duplicate && b.status != Duplicate && a.key.Some? && a.tenant == b.tenant && a.key == b.key
  }

  predicate LedgerOk(rows: seq<Row>) {
    && (forall i | 0 <= i < |rows| :: RowOk(rows[i]))
    && (forall i | 0 <= i < |rows| :: DedupOk(rows, i))
    && (forall i, j | 0 <= i < j < |rows| :: rows[i].source != rows[j].source)
    && (forall i, j | 0 <= i < j < |rows| :: !SamePrimaryKey(rows[i], rows[j]))
  }

  /** What every statement leaves alone: rows are only appended, what a row is about
      never changes, and a terminal row does not change at all. */
  predicate RowKept(a: Row, b: Row) {
    && a.tenant == b.tenant && a.source == b.source && a.spool == b.spool && a.content == b.content
    && a.context == b.context && a.key == b.key && a.dedupOf == b.dedupOf && a.created == b.created
    && a.attempts <= b.attempts
    && (Terminal(a.status) ==> a == b)
  }

  predicate Kept(rows: seq<Row>, rows': seq<Row>) {
    && |rows| <= |rows'|
    && forall i | 0 <= i < |rows| :: RowKept(rows[i], rows'[i])
  }

  lemma KeptTransitive(a: seq<Row>, b: seq<Row>, c: seq<Row>)
    requires Kept(a, b) && Kept(b, c)
    ensures Kept(a, c)
  {
    forall i | 0 <= i < |a| ensures RowKept(a[i], c[i]) {
      assert RowKept(a[i], b[i]) && RowKept(b[i], c[i]);
    }
  }

  lemma AppendKeepsLedger(rows: seq<Row>, row: Row)
    requires LedgerOk(rows) && RowOk(row)
    requires forall j | 0 <= j < |rows| :: rows[j].source != row.source
    requires forall j | 0 <= j < |rows| :: !SamePrimaryKey(rows[j], row)
    requires DedupOk(rows + [row], |rows|)
    ensures LedgerOk(rows + [row]) && Kept(rows, rows + [row])
  {
    var rows' := rows + [row];
    forall i | 0 <= i < |rows'| ensures DedupOk(rows', i) {
      if i < |rows| { assert DedupOk(rows, i); }
    }
  }

  /** Any update of one row that keeps its identity, its duplicate flag and its own
      well-formedness keeps the whole ledger. */
  lemma UpdateKeepsLedger(rows: seq<Row>, id: nat, row: Row)
    requires LedgerOk(rows) && id < |rows|
    requires RowOk(row) && RowKept(rows[id], row)
    requires (rows[id].status == Duplicate) == (row.status == Duplicate)
    ensures LedgerOk(rows[id := row]) && Kept(rows, rows[id := row])
  {
    var rows' := rows[id := row];
    forall i | 0 <= i < |rows'| ensures DedupOk(rows', i) {
      assert DedupOk(rows, i);
    }
    forall i, j | 0 <= i < j < |rows'| ensures !SamePrimaryKey(rows'[i], rows'[j]) {
      assert !SamePrimaryKey(rows[i], rows[j]);
    }
  }

  lemma EnqueueKeepsLedger(rows: seq<Row>, item: NewItem, now: int)
    requires LedgerOk(rows) && item.spool.digest == item.content
    ensures LedgerOk(Enqueue(rows, item, now)) && Kept(rows, Enqueue(rows, item, now))
    ensures FindSource(Enqueue(rows, item, now), item.source).Some?
  {
    if FindSource(rows, item.source).None? {
      match FindPrimary(rows, item.tenant, item.key)
      case Some(p) =>
        AppendKeepsLedger(rows, DuplicateRow(item, p, now));
        assert (rows + [DuplicateRow(item, p, now)])[|rows|].source == item.source;
      case None =>
        forall j | 0 <= j < |rows| ensures !SamePrimaryKey(rows[j], QueuedRow(item, now)) {
          assert !IsPrimaryFor(rows[j], item.tenant, item.key);
        }
        AppendKeepsLedger(rows, QueuedRow(item, now));
        assert (rows + [QueuedRow(item, now)])[|rows|].source == item.source;
    }
  }

  lemma RejectionKeepsLedger(rows: seq<Row>, tenant: string, source: SourceId, code: string, now: int)
    requires LedgerOk(rows) && code != "SPOOL_MISSING"
    ensures LedgerOk(RecordRejection(rows, tenant, source, code, now))
    ensures Kept(rows, RecordRejection(rows, tenant, source, code, now))
    ensures FindSource(RecordRejection(rows, tenant, source, code, now), source).Some?
  {
    if FindSource(rows, source).None? {
      AppendKeepsLedger(rows, RejectedRow(tenant, source, code, now));
      assert (rows + [RejectedRow(tenant, source, code, now)])[|rows|].source == source;
    }
  }

  lemma RecoverKeepsLedger(rows: seq<Row>, now: int)
    requires LedgerOk(rows)
    ensures LedgerOk(RecoverInflight(rows, now)) && Kept(rows, RecoverInflight(rows, now))
    ensures forall i | 0 <= i < |rows| :: RecoverInflight(rows, now)[i].status != Uploading
  {
    var rows' := RecoverInflight(rows, now);
    forall i | 0 <= i < |rows'| ensures DedupOk(rows', i) && RowOk(rows'[i]) {
      assert DedupOk(rows, i) && RowOk(rows[i]);
    }
    forall i, j | 0 <= i < j < |rows'| ensures !SamePrimaryKey(rows'[i], rows'[j]) {
      assert !SamePrimaryKey(rows[i], rows[j]);
    }
  }

  /** Claimed rows are never terminal, and the claimed row was the least due one. */
  lemma ClaimKeepsLedger(rows: seq<Row>, now: int)
    requires LedgerOk(rows)
    requires FindDue(rows, now).Some?
    ensures var i := FindDue(rows, now).value;
      && LedgerOk(rows[i := Claimed(rows[i])]) && Kept(rows, rows[i := Claimed(rows[i])])
      && !Terminal(rows[i].status) && rows[i].spool.Some? && rows[i].key.Some?
  {
    var i := FindDue(rows, now).value;
    assert RowOk(rows[i]);
    UpdateKeepsLedger(rows, i, Claimed(rows[i]));
  }

  lemma MarksKeepLedger(rows: seq<Row>, id: nat, inspection: nat, code: string, retryable: bool, now: int, delay: int)
    requires LedgerOk(rows) && id < |rows| && rows[id].status == Uploading && code != "SPOOL_MISSING"
    ensures LedgerOk(MarkUploaded(rows, id, inspection)) && Kept(rows, MarkUploaded(rows, id, inspection))
    ensures LedgerOk(MarkFailed(rows, id, code, retryable, now, delay))
    ensures Kept(rows, MarkFailed(rows, id, code, retryable, now, delay))
  {
    assert RowOk(rows[id]);
    UpdateKeepsLedger(rows, id, MarkUploaded(rows, id, inspection)[id]);
    UpdateKeepsLedger(rows, id, MarkFailed(rows, id, code, retryable, now, delay)[id]);
  }

  lemma RetryKeepsLedger(rows: seq<Row>, id: nat, now: int)
    requires LedgerOk(rows) && id < |rows|
    ensures LedgerOk(Retry(rows, id, now)) && Kept(rows, Retry(rows, id, now))
    ensures var t := Retry(rows, id, now);
      if rows[id].status == Failed then t == rows[id := t[id]] && DueFrom(t[id], now) else t == rows
  {
    assert RowOk(rows[id]);
    if rows[id].status == Failed {
      UpdateKeepsLedger(rows, id, Retry(rows, id, now)[id]);
    }
  }

  /** The reported depth and the terminal counts partition the ledger. */
  lemma {:induction false} DepthPartitionsLedger(rows: seq<Row>)
    ensures Count(rows, Queued) + Count(rows, Uploading) + Count(rows, Failed)
            + Count(rows, Uploaded) + Count(rows, Duplicate) + Count(rows, Rejected) == |rows|
  {
    if rows != [] { DepthPartitionsLedger(rows[..|rows| - 1]); }
  }

  /** The depth is zero exactly when every row is terminal. */
  lemma {:induction false} DepthZeroIffDrained(rows: seq<Row>)
    ensures Count(rows, Queued) + Count(rows, Uploading) + Count(rows, Failed) == 0
            <==> forall i | 0 <= i < |rows| :: Terminal(rows[i].status)
  {
    if rows != [] {
      var last := |rows| - 1;
      DepthZeroIffDrained(rows[..last]);
      assert forall i | 0 <= i < last :: rows[..last][i] == rows[i];
      if Count(rows, Queued) + Count(rows, Uploading) + Count(rows, Failed) == 0 {
        forall i | 0 <= i < |rows| ensures Terminal(rows[i].status) {
          if i < last { assert Terminal(rows[..last][i].status); }
        }
      }
    }
  }

  // ---- the store -----------------------------------------------------------

  /** The table as the gateway process updates it: each method is one transaction. */
  class QueueStore {
    var rows: seq<Row>

    constructor ()
      ensures rows == []
    {
      rows := [];
    }

    method EnqueueItem(item: NewItem, now: int) returns (id: nat)
      modifies this
      ensures rows == Enqueue(old(rows), item, now)
      ensures id < |rows| && rows[id].source == item.source
      ensures old(FindSource(rows, item.source)).Some? ==> id < |old(rows)| && rows == old(rows)
      ensures old(FindSource(rows, item.source)).None? ==> id == |old(rows)| && About(rows[id], item)
      ensures old(FindSource(rows, item.source)).None? ==> DueFrom(rows[id], now) || (NeverDue(rows[id]) && rows[id].dedupOf.Some?)
    {
      var existing := FindSource(rows, item.source);
      if existing.Some? {
        return existing.value;
      }
      var primary := FindPrimary(rows, item.tenant, item.key);
      id := |rows|;
      if primary.Some? {
        rows := rows + [DuplicateRow(item, primary.value, now)];
      } else {
        rows := rows + [QueuedRow(item, now)];
      }
    }

    method RecordRejectionOf(tenant: string, source: SourceId, code: string, now: int) returns (id: nat)
      modifies this
      ensures rows == RecordRejection(old(rows), tenant, source, code, now)
      ensures id < |rows| && rows[id].source == source
      ensures old(FindSource(rows, source)).None? ==> rows[id].errorCode == Some(code) && NeverDue(rows[id])
    {
      var existing := FindSource(rows, source);
      if existing.Some? {
        return existing.value;
      }
      id := |rows|;
      rows := rows + [RejectedRow(tenant, source, code, now)];
    }

    /** One UPDATE over the whole table; the result is the number of rows it touched. */
    method RecoverUploads(now: int) returns (touched: nat)
      modifies this
      ensures rows == RecoverInflight(old(rows), now)
      ensures forall i | 0 <= i < |rows| && old(rows)[i].status == Uploading :: DueFrom(rows[i], now)
      ensures touched == Count(old(rows), Uploading)
    {
      hide DueFrom, IsDue;
      touched := 0;
      var i := 0;
      var table := rows;
      ghost var before := rows;
      while i < |table|
        invariant 0 <= i <= |table| == |before|
        invariant rows == before
        invariant forall j | 0 <= j < i :: table[j] == Recovered(before[j], now)
        invariant forall j | i <= j < |table| :: table[j] == before[j]
        invariant touched == Count(before[..i], Uploading)
      {
        assert before[..i + 1][..i] == before[..i];
        if table[i].status == Uploading {
          touched := touched + 1;
        }
        table := table[i := Recovered(table[i], now)];
        i := i + 1;
      }
      assert before[..i] == before;
      rows := table;
      assert rows == RecoverInflight(before, now);
      forall k | 0 <= k < |rows| && before[k].status == Uploading ensures DueFrom(rows[k], now) {
        RecoveryDecides(before, now, k);
      }
    }

    method ClaimDue(now: int) returns (id: Option<nat>)
      modifies this
      ensures id == FindDue(old(rows), now)
      ensures id.None? ==> rows == old(rows)
      ensures id.Some? ==> rows == old(rows)[id.value := Claimed(old(rows)[id.value])]
      ensures id.Some? ==> NeverDue(rows[id.value]) && rows[id.value].attempts == old(rows)[id.value].attempts + 1
    {
      id := FindDue(rows, now);
      if id.Some? {
        rows := rows[id.value := Claimed(rows[id.value])];
      }
    }

    method SetUploaded(id: nat, inspection: nat)
      requires id < |rows|
      modifies this
      ensures rows == MarkUploaded(old(rows), id, inspection)
      ensures rows[id].status == Uploaded && rows[id].inspection == Some(inspection) && NeverDue(rows[id])
    {
      var row := rows[id];
      row := row.(status := Uploaded, retryable := false, nextAttempt := None);
      row := row.(inspection := Some(inspection), errorCode := None);
      rows := rows[id := row];
    }

    method SetFailed(id: nat, code: string, retryable: bool, now: int, delay: int)
      requires id < |rows|
      modifies this
      ensures rows == MarkFailed(old(rows), id, code, retryable, now, delay)
      ensures FailedUntil(rows[id], retryable, if delay > 0 then now + delay else now)
    {
      var next: Option<int> := None;
      if retryable {
        next := Some(now + if delay > 0 then delay else 0);
      }
      rows := rows[id := rows[id].(status := Failed, retryable := retryable, nextAttempt := next, errorCode := Some(code))];
    }

    /** Manual retry: unknown ids are an error, rows that did not fail are left alone. */
    method RetryItem(id: nat, now: int) returns (r: Result<Row, string>)
      modifies this
      ensures r.Err? <==> id >= |old(rows)|
      ensures r.Err? ==> rows == old(rows)
      ensures r.Ok? ==> rows == Retry(old(rows), id, now) && r.value == rows[id]
      ensures r.Ok? ==> if old(rows)[id].status == Failed then DueFrom(rows[id], now) else rows == old(rows)
    {
      if id >= |rows| {
        return Err("queue item not found");
      }
      if rows[id].status == Failed {
        rows := rows[id := rows[id].(retryable := true, nextAttempt := Some(now))];
      }
      return Ok(rows[id]);
    }

    /** `depth` of the summary: everything that still waits for an upload. */
    method Depth() returns (depth: nat)
      ensures depth == Count(rows, Queued) + Count(rows, Uploading) + Count(rows, Failed)
      ensures depth + Count(rows, Uploaded) + Count(rows, Duplicate) + Count(rows, Rejected) == |rows|
    {
      depth := 0;
      var i := 0;
      while i < |rows|
        invariant 0 <= i <= |rows|
        invariant depth == Count(rows[..i], Queued) + Count(rows[..i], Uploading) + Count(rows[..i], Failed)
      {
        assert rows[..i + 1][..i] == rows[..i];
        if !Terminal(rows[i].status) {
          depth := depth + 1;
        }
        i := i + 1;
      }
      assert rows[..i] == rows;
      DepthPartitionsLedger(rows);
    }
  }
}
