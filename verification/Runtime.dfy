/** One gateway process: how `upload_once` and `scan_once` drive the queue store. */
module Runtime {
  import opened Base
  import opened Ledger
  import Gateway

  /** What the HTTP call came to: no response, or a status with or without an inspection id. */
  datatype Response = NoResponse | Http(status: nat, inspection: Option<nat>)

  datatype Outcome = Delivered(inspection: nat) | UploadError(code: string, retryable: bool)

  /** The uploader's verdict on a response. */
  function Classify(r: Response): (o: Outcome)
    ensures o.Delivered? <==> r.Http? && r.status in {200, 201, 202} && r.inspection.Some?
    ensures o.Delivered? ==> r.inspection == Some(o.inspection)
    ensures o.UploadError? && !o.retryable <==> r.Http? && r.status !in {200, 201, 202, 429} && r.status < 500
    ensures o == UploadError("UPLOAD_TRANSPORT_ERROR", true) <==> r.NoResponse?
    ensures o == UploadError("UPLOAD_RETRYABLE", true) <==> r.Http? && (r.status == 429 || r.status >= 500)
    ensures o.UploadError? && !o.retryable ==> o.code == "UPLOAD_REJECTED"
  {
    if r.NoResponse? then UploadError("UPLOAD_TRANSPORT_ERROR", true)
    else if r.status !in {200, 201, 202} then
      if r.status == 429 || r.status >= 500 then UploadError("UPLOAD_RETRYABLE", true)
      else UploadError("UPLOAD_REJECTED", false)
    else if r.inspection.None? then UploadError("UPLOAD_RESPONSE_INVALID", true)
    else Delivered(r.inspection.value)
  }

  /** Worth another attempt: nothing came back, the backend is overloaded or failing, or it
      accepted without naming the inspection. */
  predicate Transient(r: Response) {
    r.NoResponse? || r.status == 429 || r.status >= 500 || (r.status in {200, 201, 202} && r.inspection.None?)
  }

  /** The response that carries a reply of the protocol model. */
  function ResponseOf(reply: Gateway.Reply): Response {
    match reply
    case Created(k) => Http(202, Some(k))
    case Replayed(k) => Http(200, Some(k))
    case Conflict => Http(409, None)
    case ClientError => Http(422, None)
    case ServerError => Http(503, None)
    case Malformed => Http(202, None)
  }

  function Power(n: nat): (p: nat)
    ensures p >= 1
  {
    if n == 0 then 1 else 2 * Power(n - 1)
  }

  /** Exponential backoff in seconds, capped. */
  function Delay(attempts: nat): nat {
    var d := Power(if attempts < 10 then attempts else 10);
    if d < 3600 then d else 3600
  }

  lemma {:induction false} PowerGrows(m: nat, n: nat)
    requires m <= n
    ensures Power(m) <= Power(n)
  {
    if m < n { PowerGrows(m, n - 1); }
  }

  /** The delay is one second for a row that was never claimed, doubles with each attempt up to
      2^10 = 1024 seconds, and stays there: the exponent cap is reached before the hour cap. */
  lemma DelayBounds(m: nat, n: nat)
    requires m <= n
    ensures Delay(0) == 1
    ensures Delay(m + 1) == if m < 10 then 2 * Delay(m) else Delay(m)
    ensures 1 <= Delay(m) <= Delay(n) <= 1024 && Delay(10) == 1024
  {
    PowerGrows(if m < 10 then m else 10, if n < 10 then n else 10);
    PowerGrows(if n < 10 then n else 10, 10);
    PowerGrows(if m < 9 then m + 1 else 10, 10);
    assert Power(10) == 1024 by { assert Power(5) == 32; }
  }

  /** The queue after one outcome for the claimed row. */
  function Conclude(rows: seq<Row>, id: nat, o: Outcome, now: int): seq<Row>
    requires id < |rows|
  {
    match o
    case Delivered(k) => MarkUploaded(rows, id, k)
    case UploadError(code, retryable) => MarkFailed(rows, id, code, retryable, now, Delay(rows[id].attempts))
  }

  /** The process settles a reply exactly as the protocol model does. */
  lemma ConcludeIsSettle(rows: seq<Row>, id: nat, reply: Gateway.Reply, now: int)
    requires id < |rows|
    ensures Conclude(rows, id, Classify(ResponseOf(reply)), now)
         == Gateway.Settle(rows, id, reply, now, Delay(rows[id].attempts))
  {
  }

  // ---- scanning ------------------------------------------------------------------

  datatype Verdict = Accept(extension: string, context: map<string, string>) | Reject(code: string)

  /** What reading one stable file came to; `movable` is whether the final move succeeds. */
  datatype Finding = Unreadable | StillWriting | Readable(source: SourceId, data: string, verdict: Verdict, movable: bool)

  /** The watch root and the two directories files are moved to, by path below the root. */
  datatype Files = Files(root: map<string, string>, archive: map<string, string>, quarantine: map<string, string>)

  datatype Subdir = Archive | Quarantine

  datatype Ingested = Ingested(rows: seq<Row>, spool: map<SpoolName, string>, files: Files)

  /** Move a file, replacing what the target holds; a failed move is only logged. */
  function Moved(f: Files, path: string, subdir: Subdir, movable: bool): Files {
    if !movable || path !in f.root then f
    else if subdir == Archive then Files(f.root - {path}, f.archive[path := f.root[path]], f.quarantine)
    else Files(f.root - {path}, f.archive, f.quarantine[path := f.root[path]])
  }

  /** The spool holds other bytes under this name: the local ingest error. */
  predicate Collides(spool: map<SpoolName, string>, name: SpoolName, data: string) {
    name in spool && spool[name] != data
  }

  function ItemFor(p: Gateway.Pack, f: Finding): NewItem
    requires f.Readable? && f.verdict.Accept?
  {
    Gateway.ItemOf(p, Gateway.Spooled(f.source.path, f.data, f.source, SpoolName(Sha256(f.data), f.verdict.extension), f.verdict.context))
  }

  function Ingest(s: Ingested, p: Gateway.Pack, f: Finding, now: int): Ingested {
    if !f.Readable? || FindSource(s.rows, f.source).Some? then s
    else match f.verdict
      case Reject(code) =>
        Ingested(RecordRejection(s.rows, p.tenant, f.source, code, now), s.spool, Moved(s.files, f.source.path, Quarantine, f.movable))
      case Accept(extension, context) =>
        if Collides(s.spool, ItemFor(p, f).spool, f.data) then s
        else Ingested(Enqueue(s.rows, ItemFor(p, f), now), s.spool[ItemFor(p, f).spool := f.data],
                      Moved(s.files, f.source.path, Archive, f.movable))
  }

  function IngestAll(s: Ingested, p: Gateway.Pack, fs: seq<Finding>, now: int): Ingested {
    if fs == [] then s else Ingest(IngestAll(s, p, fs[..|fs| - 1], now), p, fs[|fs| - 1], now)
  }

  ghost predicate NoSpoolCode(fs: seq<Finding>) {
    forall k | 0 <= k < |fs| && fs[k].Readable? && fs[k].verdict.Reject? :: fs[k].verdict.code != "SPOOL_MISSING"
  }

  lemma IngestKeeps(s: Ingested, p: Gateway.Pack, f: Finding, now: int)
    requires LedgerOk(s.rows) && Gateway.SpoolOk(s.spool) && NoSpoolCode([f])
    ensures var t := Ingest(s, p, f, now);
      && LedgerOk(t.rows) && Kept(s.rows, t.rows) && Gateway.SpoolOk(t.spool)
      && (f.Readable? ==> FindSource(t.rows, f.source).Some?)
  {
    assert [f][0] == f;
    Gateway.KeptReflexive(s.rows);
    if f.Readable? && FindSource(s.rows, f.source).None? {
      match f.verdict
      case Reject(code) => RejectionKeepsLedger(s.rows, p.tenant, f.source, code, now);
      case Accept(extension, context) =>
        IngestKeepsSpool(s, p, f, now);
        EnqueueKeepsLedger(s.rows, ItemFor(p, f), now);
    }
  }

  lemma IngestKeepsSpool(s: Ingested, p: Gateway.Pack, f: Finding, now: int)
    requires Gateway.SpoolOk(s.spool)
    ensures Gateway.SpoolOk(Ingest(s, p, f, now).spool)
    ensures f.Readable? && f.verdict.Accept? ==> !Collides(s.spool, ItemFor(p, f).spool, f.data)
  {
    if f.Readable? && f.verdict.Accept? && ItemFor(p, f).spool in s.spool {
      assert Sha256(s.spool[ItemFor(p, f).spool]) == Sha256(f.data);
    }
  }

  /** A whole scan keeps the ledger, loses no row, and leaves a ledger row for every stable
      file that could be read: the spool never collides. */
  lemma {:induction false} ScanRecordsEveryReadableFile(s: Ingested, p: Gateway.Pack, fs: seq<Finding>, now: int)
    requires LedgerOk(s.rows) && Gateway.SpoolOk(s.spool) && NoSpoolCode(fs)
    ensures var t := IngestAll(s, p, fs, now);
      && LedgerOk(t.rows) && Kept(s.rows, t.rows) && Gateway.SpoolOk(t.spool)
      && (forall k | 0 <= k < |fs| && fs[k].Readable? :: FindSource(t.rows, fs[k].source).Some?)
  {
    hide Ingest, LedgerOk, Kept, Gateway.SpoolOk;
    if fs == [] {
      Gateway.KeptReflexive(s.rows);
    } else {
      var init, last := fs[..|fs| - 1], fs[|fs| - 1];
      ScanRecordsEveryReadableFile(s, p, init, now);
      var m := IngestAll(s, p, init, now);
      IngestKeeps(m, p, last, now);
      var t := Ingest(m, p, last, now);
      KeptTransitive(s.rows, m.rows, t.rows);
      forall k | 0 <= k < |fs| && fs[k].Readable? ensures FindSource(t.rows, fs[k].source).Some? {
        if k < |init| {
          assert init[k] == fs[k];
          Gateway.KeptKeepsFound(m.rows, t.rows, fs[k].source);
        }
      }
    }
  }

  /** A file of the watch root is still there, or unchanged in one of the two directories. */
  predicate Preserved(path: string, f: Files, g: Files)
    requires path in f.root
  {
    InDirectory(path, f.root[path], g.root) || InDirectory(path, f.root[path], g.archive) || InDirectory(path, f.root[path], g.quarantine)
  }

  predicate InDirectory(path: string, data: string, directory: map<string, string>) {
    path in directory && directory[path] == data
  }

  /** Nothing is lost between the directories, files only leave the root, and those that are
      elsewhere already stay what they are. */
  ghost predicate FilesKept(f: Files, g: Files) {
    && (forall path | path in g.root :: path in f.root && g.root[path] == f.root[path])
    && (forall path | path in f.root :: Preserved(path, f, g))
    && (forall path, data | path !in f.root && InDirectory(path, data, f.archive) :: InDirectory(path, data, g.archive))
    && (forall path, data | path !in f.root && InDirectory(path, data, f.quarantine) :: InDirectory(path, data, g.quarantine))
  }

  lemma FilesKeptReflexive(f: Files)
    ensures FilesKept(f, f)
  {
  }

  lemma FilesKeptTransitive(f: Files, g: Files, h: Files)
    requires FilesKept(f, g) && FilesKept(g, h)
    ensures FilesKept(f, h)
  {
    forall path | path in f.root ensures Preserved(path, f, h) {
      assert Preserved(path, f, g);
      if path in g.root { assert Preserved(path, g, h); }
    }
  }

  /** The file at the path left the root for this directory and no other, or could not be moved. */
  predicate WentTo(path: string, movable: bool, f: Files, g: Files, subdir: Subdir) {
    if !movable || path !in f.root then g == f
    else
      var data := f.root[path];
      && g.root == f.root - {path}
      && g.archive == (if subdir == Archive then f.archive[path := data] else f.archive)
      && g.quarantine == (if subdir == Quarantine then f.quarantine[path := data] else f.quarantine)
  }

  lemma WentToKeepsFiles(path: string, movable: bool, f: Files, g: Files, subdir: Subdir)
    requires WentTo(path, movable, f, g, subdir)
    ensures FilesKept(f, g) && forall other | other in f.root && other !in g.root :: other == path
  {
  }

  /** The row is about the path, and the directory the file is in says what became of it. */
  predicate Filed(path: string, data: string, f: Files, row: Row) {
    row.source.path == path && InDirectory(path, data, if row.status == Rejected then f.quarantine else f.archive)
  }

  predicate FiledSomewhere(path: string, data: string, f: Files, rows: seq<Row>) {
    exists i :: 0 <= i < |rows| && Filed(path, data, f, rows[i])
  }

  /** What left the root between two states is in the archive under a row that was accepted, or in
      the quarantine under one that was rejected. */
  ghost predicate LeftRecorded(f: Files, g: Files, rows: seq<Row>) {
    forall path | path in f.root && path !in g.root :: FiledSomewhere(path, f.root[path], g, rows)
  }

  ghost predicate RejectedAs(row: Row, code: string) {
    row.status == Rejected && row.errorCode == Some(code) && NeverDue(row)
  }

  /** The row is about these bytes and this context; its key is taken in `rows`, or it is
      claimable at once and the spool holds the bytes. */
  ghost predicate AcceptedAs(rows: seq<Row>, row: Row, spool: map<SpoolName, string>, p: Gateway.Pack, data: string,
                             context: map<string, string>, now: int) {
    var key := Edge(Material(p.tenant, p.packKey, p.version, Sha256(data), context));
    && row.status != Rejected && row.content == Some(Sha256(data)) && row.context == context && row.key == Some(key)
    && (if exists i :: 0 <= i < |rows| && IsPrimaryFor(rows[i], p.tenant, key) then NeverDue(row) && row.dedupOf.Some?
        else DueFrom(row, now) && row.spool.Some? && row.spool.value in spool && spool[row.spool.value] == data)
  }

  /** What one file comes to.  Unreadable or known, nothing.  Rejected: one row that is never
      claimed, and the quarantine.  Accepted: one row about exactly its source, bytes and context
      under the key of those and the pack, claimable at once with its bytes in the spool unless it
      is a duplicate, and the archive. */
  lemma IngestDecides(s: Ingested, p: Gateway.Pack, f: Finding, now: int)
    requires Gateway.SpoolOk(s.spool)
    ensures var t := Ingest(s, p, f, now);
      if !f.Readable? || exists i :: 0 <= i < |s.rows| && s.rows[i].source == f.source then t == s
      else
        && |t.rows| == |s.rows| + 1 && s.rows <= t.rows
        && t.rows[|s.rows|].source == f.source && t.rows[|s.rows|].tenant == p.tenant
        && (f.verdict.Reject? ==>
              t.spool == s.spool && RejectedAs(t.rows[|s.rows|], f.verdict.code)
              && WentTo(f.source.path, f.movable, s.files, t.files, Quarantine))
        && (f.verdict.Accept? ==>
              AcceptedAs(s.rows, t.rows[|s.rows|], t.spool, p, f.data, f.verdict.context, now)
              && WentTo(f.source.path, f.movable, s.files, t.files, Archive))
  {
    hide Ingest, AcceptedAs, RejectedAs, WentTo;
    if !f.Readable? || FindSource(s.rows, f.source).Some? { IngestSkips(s, p, f, now); }
    else if f.verdict.Reject? { IngestRejects(s, p, f, now); }
    else { IngestAccepts(s, p, f, now); }
  }

  lemma IngestSkips(s: Ingested, p: Gateway.Pack, f: Finding, now: int)
    requires !f.Readable? || FindSource(s.rows, f.source).Some?
    ensures Ingest(s, p, f, now) == s
  {
  }

  lemma IngestRejects(s: Ingested, p: Gateway.Pack, f: Finding, now: int)
    requires f.Readable? && f.verdict.Reject? && FindSource(s.rows, f.source).None?
    ensures var t := Ingest(s, p, f, now);
      && |t.rows| == |s.rows| + 1 && s.rows <= t.rows
      && t.rows[|s.rows|].source == f.source && t.rows[|s.rows|].tenant == p.tenant && t.spool == s.spool
      && RejectedAs(t.rows[|s.rows|], f.verdict.code) && WentTo(f.source.path, f.movable, s.files, t.files, Quarantine)
  {
  }

  lemma IngestAccepts(s: Ingested, p: Gateway.Pack, f: Finding, now: int)
    requires Gateway.SpoolOk(s.spool) && f.Readable? && f.verdict.Accept? && FindSource(s.rows, f.source).None?
    ensures var t := Ingest(s, p, f, now);
      && |t.rows| == |s.rows| + 1 && s.rows <= t.rows
      && t.rows[|s.rows|].source == f.source && t.rows[|s.rows|].tenant == p.tenant
      && AcceptedAs(s.rows, t.rows[|s.rows|], t.spool, p, f.data, f.verdict.context, now)
      && WentTo(f.source.path, f.movable, s.files, t.files, Archive)
  {
    IngestKeepsSpool(s, p, f, now);
    var item := ItemFor(p, f);
    EnqueueDecides(s.rows, item, now);
    hide Enqueue, FindPrimary, WentTo, Moved, IsDue, DueFrom, NeverDue;
    AcceptedMoves(s.files, f);
  }

  lemma AcceptedMoves(files: Files, f: Finding)
    requires f.Readable?
    ensures WentTo(f.source.path, f.movable, files, Moved(files, f.source.path, Archive, f.movable), Archive)
  {
  }

  lemma NoScanNoSteps(g: Gateway.System, n: nat, extension: string, context: map<string, string>, now: int)
    requires n !in g.scans
    ensures Gateway.SpoolStep(g, n, extension, context) == g && Gateway.EnqueueStep(g, n, now) == g && Gateway.MoveStep(g, n) == g
  {
    hide Enqueue, FindSource, Gateway.FilesAlone, Gateway.ScanAdvances;
  }

  /** From the fingerprint of an unknown source to the archive. */
  lemma PassOfNewSource(g: Gateway.System, n: nat, extension: string, context: map<string, string>, now: int)
    requires g.up && n in g.scans && g.scans[n].Fingerprinted? && g.scans[n].path in g.root
    ensures var sc, spooled := g.scans[n], Gateway.SpoolStep(g, n, extension, context);
      var name, passed := SpoolName(Sha256(sc.data), extension), Gateway.MoveStep(Gateway.EnqueueStep(spooled, n, now), n);
      if Collides(g.spool, name, sc.data) then passed.rows == g.rows && passed.spool == g.spool && passed.root == g.root
      else
        && passed.rows == Enqueue(g.rows, Gateway.ItemOf(g.pack, Gateway.Spooled(sc.path, sc.data, sc.source, name, context)), now)
        && passed.spool == g.spool[name := sc.data] && passed.root == g.root - {sc.path}
  {
    hide Enqueue, FindSource, Gateway.FilesAlone, Gateway.ScanAdvances, Gateway.EnqueueStep, Gateway.MoveStep, Gateway.ItemOf;
    var spooled := Gateway.SpoolStep(g, n, extension, context);
    if n in spooled.scans { PassOfSpooled(spooled, n, now); } else { NoScanNoSteps(spooled, n, extension, context, now); }
  }

  lemma PassOfSpooled(g: Gateway.System, n: nat, now: int)
    requires g.up && n in g.scans && g.scans[n].Spooled? && g.scans[n].path in g.root
    ensures var passed := Gateway.MoveStep(Gateway.EnqueueStep(g, n, now), n);
      && passed.rows == Enqueue(g.rows, Gateway.ItemOf(g.pack, g.scans[n]), now)
      && passed.spool == g.spool && passed.root == g.root - {g.scans[n].path}
  {
    hide Enqueue, FindSource, Gateway.FilesAlone, Gateway.ScanAdvances, Gateway.ItemOf;
  }

  /** The process ingests an accepted file as the step system does when nothing intervenes. */
  lemma IngestIsAPass(g: Gateway.System, n: nat, path: string, extension: string, context: map<string, string>, now: int, files: Files)
    requires g.up && n !in g.scans && path in g.root
    ensures var f := Readable(Gateway.SourceOf(path, g.root), g.root[path].data, Accept(extension, context), true);
      var looked := Gateway.FingerprintStep(Gateway.ReadStep(g, n, path), n);
      var passed := Gateway.MoveStep(Gateway.EnqueueStep(Gateway.SpoolStep(looked, n, extension, context), n, now), n);
      var s := Ingest(Ingested(g.rows, g.spool, files), g.pack, f, now);
      && passed.rows == s.rows && passed.spool == s.spool
      && (path in passed.root <==> s == Ingested(g.rows, g.spool, files))
  {
    hide Moved, Enqueue, FindSource, Gateway.FilesAlone, Gateway.ScanAdvances, Gateway.SpoolStep, Gateway.EnqueueStep, Gateway.MoveStep;
    var looked := Gateway.FingerprintStep(Gateway.ReadStep(g, n, path), n);
    if n in looked.scans {
      PassOfNewSource(looked, n, extension, context, now);
      EnqueueDecides(g.rows, ItemFor(g.pack, Readable(Gateway.SourceOf(path, g.root), g.root[path].data, Accept(extension, context), true)), now);
    } else {
      NoScanNoSteps(looked, n, extension, context, now);
    }
  }

  lemma IngestMovesAfterRecording(s: Ingested, p: Gateway.Pack, f: Finding, now: int)
    requires Gateway.SpoolOk(s.spool)
    ensures var t := Ingest(s, p, f, now);
      FilesKept(s.files, t.files) && LeftRecorded(s.files, t.files, t.rows) && s.rows <= t.rows
  {
    hide Ingest, Enqueue, RecordRejection;
    IngestDecides(s, p, f, now);
    FilesKeptReflexive(s.files);
    var t := Ingest(s, p, f, now);
    if t != s {
      WentToKeepsFiles(f.source.path, f.movable, s.files, t.files, if f.verdict.Reject? then Quarantine else Archive);
      if f.source.path in s.files.root && f.movable {
        assert Filed(f.source.path, s.files.root[f.source.path], t.files, t.rows[|s.rows|]);
      }
    }
  }

  lemma FiledStays(path: string, data: string, f: Files, g: Files, rows: seq<Row>, rows': seq<Row>)
    requires FiledSomewhere(path, data, f, rows) && FilesKept(f, g) && path !in f.root && rows <= rows'
    ensures FiledSomewhere(path, data, g, rows')
  {
    var i :| 0 <= i < |rows| && Filed(path, data, f, rows[i]);
    assert Filed(path, data, g, rows'[i]);
  }

  /** Over a whole scan every file that was in the watch root is still there, or has left it
      unchanged: for the archive under a row that was accepted, for the quarantine under a row that
      was rejected. */
  lemma {:induction false} ScanLosesNoFile(s: Ingested, p: Gateway.Pack, fs: seq<Finding>, now: int)
    requires LedgerOk(s.rows) && Gateway.SpoolOk(s.spool) && NoSpoolCode(fs)
    ensures var t := IngestAll(s, p, fs, now);
      FilesKept(s.files, t.files) && LeftRecorded(s.files, t.files, t.rows) && s.rows <= t.rows
  {
    hide Ingest, LedgerOk, Kept, FiledSomewhere, Gateway.SpoolOk;
    FilesKeptReflexive(s.files);
    if fs != [] {
      var init, last := fs[..|fs| - 1], fs[|fs| - 1];
      assert NoSpoolCode([last]) by { assert [last][0] == fs[|fs| - 1]; }
      ScanLosesNoFile(s, p, init, now);
      ScanRecordsEveryReadableFile(s, p, init, now);
      var m := IngestAll(s, p, init, now);
      IngestMovesAfterRecording(m, p, last, now);
      var t := Ingest(m, p, last, now);
      FilesKeptTransitive(s.files, m.files, t.files);
      forall path | path in s.files.root && path !in t.files.root
        ensures FiledSomewhere(path, s.files.root[path], t.files, t.rows)
      {
        if path !in m.files.root { FiledStays(path, s.files.root[path], m.files, t.files, m.rows, t.rows); }
      }
    }
  }

  /** The new rows that were accepted. */
  ghost predicate AreAccepted(ids: seq<nat>, n: nat, rows: seq<Row>) {
    forall id :: id in ids <==> n <= id < |rows| && rows[id].status != Rejected
  }

  ghost predicate AreUnreadable(ks: seq<nat>, fs: seq<Finding>) {
    forall k :: k in ks <==> 0 <= k < |fs| && !fs[k].Readable?
  }

  lemma NoneYet(n: nat, rows: seq<Row>)
    requires |rows| <= n
    ensures AreAccepted([], n, rows) && AreUnreadable([], [])
  {
  }

  lemma OneMoreRow(ids: seq<nat>, n: nat, rows: seq<Row>, rows': seq<Row>)
    requires AreAccepted(ids, n, rows) && rows <= rows' && |rows'| <= |rows| + 1 && n <= |rows|
    ensures AreAccepted(if |rows'| > |rows| && rows'[|rows|].status != Rejected then ids + [|rows|] else ids, n, rows')
  {
  }

  lemma OneMoreFile(ks: seq<nat>, fs: seq<Finding>, i: nat)
    requires i < |fs| && AreUnreadable(ks, fs[..i])
    ensures AreUnreadable(if fs[i].Readable? then ks else ks + [i], fs[..i + 1])
  {
  }

  // ---- the process ----------------------------------------------------------------

  class GatewayRuntime {
    const pack: Gateway.Pack
    const queue: QueueStore
    var spool: map<SpoolName, string>
    var files: Files
    var lastError: Option<string>

    /** Starting the process recovers what an earlier one left in flight. */
    constructor (pack: Gateway.Pack, queue: QueueStore, spool: map<SpoolName, string>, files: Files, now: int)
      modifies queue
      ensures this.pack == pack && this.queue == queue && this.spool == spool && this.files == files
      ensures queue.rows == RecoverInflight(old(queue.rows), now)
    {
      this.pack := pack;
      this.queue := queue;
      this.spool := spool;
      this.files := files;
      this.lastError := None;
      new;
      var _ := queue.RecoverUploads(now);
    }

    /** Claim the least due row, send it, settle it. */
    method UploadOnce(now: int, response: Response) returns (id: Option<nat>)
      modifies this, queue
      ensures id == FindDue(old(queue.rows), now)
      ensures id.None? ==> queue.rows == old(queue.rows)
      ensures id.Some? ==>
        var row := old(queue.rows)[id.value];
        var claimed := old(queue.rows)[id.value := Claimed(row)];
        queue.rows ==
          if row.spool.None? then MarkFailed(claimed, id.value, "SPOOL_MISSING", false, now, 0)
          else if row.spool.value !in old(spool) then MarkFailed(claimed, id.value, "SPOOL_READ_ERROR", false, now, 0)
          else if row.key.None? then Conclude(claimed, id.value, UploadError("QUEUE_ITEM_INVALID", false), now)
          else Conclude(claimed, id.value, Classify(response), now)
      ensures spool == old(spool) && files == old(files)
      ensures id.None? ==> lastError == old(lastError)
      ensures id.Some? ==>
        var row, after := old(queue.rows)[id.value], queue.rows[id.value];
        && Gateway.OnlyRow(old(queue.rows), queue.rows, id.value)
        && after.attempts == row.attempts + 1 && lastError == after.errorCode
        && (if row.spool.None? || row.spool.value !in old(spool) || row.key.None? then
              FailedUntil(after, false, now)
            else if Transient(response) then
              FailedUntil(after, true, now + Delay(row.attempts + 1))
            else if response.status in {200, 201, 202} then
              after.status == Uploaded && after.inspection == response.inspection && NeverDue(after)
            else
              FailedUntil(after, false, now))
    {
      id := queue.ClaimDue(now);
      if id.None? {
        return;
      }
      var item := queue.rows[id.value];
      if item.spool.None? {
        queue.SetFailed(id.value, "SPOOL_MISSING", false, now, 0);
        lastError := Some("SPOOL_MISSING");
        return;
      }
      if item.spool.value !in spool {
        queue.SetFailed(id.value, "SPOOL_READ_ERROR", false, now, 0);
        lastError := Some("SPOOL_READ_ERROR");
        return;
      }
      var outcome := if item.key.None? then UploadError("QUEUE_ITEM_INVALID", false) else Classify(response);
      match outcome
      case Delivered(inspection) =>
        queue.SetUploaded(id.value, inspection);
        lastError := None;
      case UploadError(code, retryable) =>
        queue.SetFailed(id.value, code, retryable, now, Delay(item.attempts));
        lastError := Some(code);
    }

    /** Move a source out of the watch root. */
    method ArchiveSource(path: string, subdir: Subdir, movable: bool)
      modifies this`files
      ensures files == Moved(old(files), path, subdir, movable) && WentTo(path, movable, old(files), files, subdir)
    {
      if movable && path in files.root {
        match subdir
        case Archive => files := Files(files.root - {path}, files.archive[path := files.root[path]], files.quarantine);
        case Quarantine => files := Files(files.root - {path}, files.archive, files.quarantine[path := files.root[path]]);
      }
    }

    /** One stable file: skip, reject and quarantine, or spool, enqueue and archive. */
    method IngestFile(f: Finding, now: int) returns (id: Option<nat>, failed: bool)
      modifies this, queue
      ensures Ingested(queue.rows, spool, files) == Ingest(old(Ingested(queue.rows, spool, files)), pack, f, now)
      ensures id.Some? <==> |queue.rows| > |old(queue.rows)| && queue.rows[|old(queue.rows)|].status != Rejected
      ensures id.Some? ==> f.Readable? && id.value == |old(queue.rows)| && queue.rows[id.value].source == f.source
      ensures |queue.rows| <= |old(queue.rows)| + 1 && old(queue.rows) <= queue.rows
      ensures if failed then lastError == Some(if f.StillWriting? then "FILE_STILL_WRITING" else "LOCAL_INGEST_ERROR")
              else if f.Readable? && f.verdict.Reject? && FindSource(old(queue.rows), f.source).None? then lastError == Some(f.verdict.code)
              else lastError == old(lastError)
      ensures failed <==> (!f.Readable?
        || (f.verdict.Accept? && FindSource(old(queue.rows), f.source).None?
            && Collides(old(spool), ItemFor(pack, f).spool, f.data)))
    {
      id, failed := None, false;
      if !f.Readable? {
        lastError := Some(if f.StillWriting? then "FILE_STILL_WRITING" else "LOCAL_INGEST_ERROR");
        failed := true;
        return;
      }
      var known := FindSource(queue.rows, f.source);
      if known.Some? {
        return;
      }
      match f.verdict
      case Reject(code) =>
        var _ := queue.RecordRejectionOf(pack.tenant, f.source, code, now);
        lastError := Some(code);
        ArchiveSource(f.source.path, Quarantine, f.movable);
      case Accept(extension, context) =>
        var item := ItemFor(pack, f);
        if Collides(spool, item.spool, f.data) {
          lastError := Some("LOCAL_INGEST_ERROR");
          failed := true;
        } else {
          spool := spool[item.spool := f.data];
          var row := queue.EnqueueItem(item, now);
          id := Some(row);
          ArchiveSource(f.source.path, Archive, f.movable);
        }
    }

    /** All stable files in turn; a failure of one re-arms its observation and does not stop
        the scan, and over a sound spool only files that could not be read fail.  What is returned
        are the new rows that were accepted. */
    method ScanOnce(fs: seq<Finding>, now: int) returns (accepted: seq<nat>, rearmed: seq<nat>)
      requires Gateway.SpoolOk(spool)
      modifies this, queue
      ensures Ingested(queue.rows, spool, files) == IngestAll(old(Ingested(queue.rows, spool, files)), pack, fs, now)
      ensures old(queue.rows) <= queue.rows
      ensures AreAccepted(accepted, |old(queue.rows)|, queue.rows)
      ensures AreUnreadable(rearmed, fs)
    {
      hide Ingest, ItemFor, Collides, Gateway.SpoolOk, AreAccepted, AreUnreadable;
      NoneYet(|queue.rows|, queue.rows);
      accepted, rearmed := [], [];
      var i := 0;
      ghost var s0 := Ingested(queue.rows, spool, files);
      while i < |fs|
        invariant 0 <= i <= |fs|
        invariant Ingested(queue.rows, spool, files) == IngestAll(s0, pack, fs[..i], now)
        invariant s0.rows <= queue.rows
        invariant AreAccepted(accepted, |s0.rows|, queue.rows)
        invariant AreUnreadable(rearmed, fs[..i])
        invariant Gateway.SpoolOk(spool)
      {
        assert fs[..i + 1][..i] == fs[..i];
        ghost var before := Ingested(queue.rows, spool, files);
        IngestKeepsSpool(before, pack, fs[i], now);
        ghost var rows := queue.rows;
        var id, failed := IngestFile(fs[i], now);
        OneMoreFile(rearmed, fs, i);
        OneMoreRow(accepted, |s0.rows|, rows, queue.rows);
        if failed {
          rearmed := rearmed + [i];
        } else if id.Some? {
          accepted := accepted + [id.value];
        }
        i := i + 1;
      }
      assert fs[..i] == fs;
    }
  }
}
