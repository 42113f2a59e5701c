/** The upload protocol: any number of concurrent gateway cycles over one durable ledger,
    a backend that inserts or replays on (tenant, key), other clients, lost replies, late
    requests and process crashes.  A run is any sequence of events; an event that is not
    enabled changes nothing. */
module Gateway {
  import opened Base
  import opened Ledger

  /** Bytes together with the stat that was current when they were written. */
  datatype File = File(data: string, size: nat, mtime: int)

  datatype PackData = PackData(tenant: string, packKey: string, version: string, mapping: map<string, string>)

  /** A Deployment Pack: its validator insists on distinct submitted field names. */
  type Pack = p: PackData | MappingOk(p.mapping) ghost witness IDENTITY_PACK

  ghost const IDENTITY_PACK := PackData("", "", "", map f | f in CANONICAL :: f)

  /** Progress of one `scan_once` iteration, cut at the points where a crash matters. */
  datatype Scan =
    | Read(path: string, data: string)
    | Fingerprinted(path: string, data: string, source: SourceId)
    | Spooled(path: string, data: string, source: SourceId, spool: SpoolName, context: map<string, string>)
    | Recorded(path: string, data: string, source: SourceId, made: Option<nat>)

  /** A file that left the watch root, with what the scan that moved it had read and recorded:
      the source, and the row when this scan's own enqueue made it. */
  datatype Move = Move(path: string, read: string, source: SourceId, made: Option<nat>, file: File)

  /** A live cycle that claimed a row: about to send, or waiting for a reply. */
  datatype Holder = Ready | Waiting(request: nat)

  datatype Reply = Created(inspection: nat) | Replayed(inspection: nat) | Conflict | ClientError | ServerError | Malformed

  /** A request is on the wire, or was looked up and not found, or is answered. */
  datatype Phase = Sent | Checked | Replied(reply: Reply)

  datatype Request = Request(tenant: string, key: Key, data: string, form: map<string, string>, phase: Phase)

  datatype Fingerprint = Fingerprint(image: Digest, context: map<string, string>)

  datatype Inspection = Inspection(tenant: string, key: Key, fingerprint: Fingerprint)

  datatype System = System(
    pack: Pack,
    up: bool,
    rows: seq<Row>,
    spool: map<SpoolName, string>,
    root: map<string, File>,
    moved: seq<Move>,
    scans: map<nat, Scan>,
    holders: map<nat, Holder>,
    requests: seq<Request>,
    inspections: seq<Inspection>)

  // ---- requests and their fingerprints ---------------------------------------

  const CANONICAL: set<string> :=
    {"product_code", "product_revision", "batch_no", "station_code", "captured_at", "source"}

  /** The pack maps the canonical field names to distinct submitted names. */
  predicate MappingOk(m: map<string, string>) {
    && m.Keys == CANONICAL
    && forall f, g | f in m && g in m && m[f] == m[g] :: f == g
  }

  predicate IsSpace(c: char) {
    c == ' ' || c == '\t' || c == '\n' || c == '\r'
  }

  /** Without leading and trailing white space. */
  function Strip(s: string): string {
    if s == [] then s
    else if IsSpace(s[0]) then Strip(s[1..])
    else if IsSpace(s[|s| - 1]) then Strip(s[..|s| - 1])
    else s
  }

  /** What stripping removes is white space at the two ends, all of it and nothing else. */
  lemma {:induction false} StripMeaning(s: string) returns (i: nat, j: nat)
    ensures i <= j <= |s| && Strip(s) == s[i..j]
    ensures forall k | 0 <= k < i || j <= k < |s| :: IsSpace(s[k])
    ensures i < j ==> !IsSpace(s[i]) && !IsSpace(s[j - 1])
  {
    i, j := 0, |s|;
    if s != [] && IsSpace(s[0]) {
      i, j := StripMeaning(s[1..]);
      Shifted(s, s[1..], i, j);
      i, j := i + 1, j + 1;
    } else if s != [] && IsSpace(s[|s| - 1]) {
      i, j := StripMeaning(s[..|s| - 1]);
      Extended(s, s[..|s| - 1], i, j);
    }
  }

  lemma Shifted(s: string, t: string, i: nat, j: nat)
    requires s != [] && IsSpace(s[0]) && t == s[1..] && i <= j < |s|
    requires forall k | 0 <= k < i || j <= k < |t| :: IsSpace(t[k])
    ensures t[i..j] == s[i + 1..j + 1] && forall k | 0 <= k < i + 1 || j + 1 <= k < |s| :: IsSpace(s[k])
  {
    forall k | 0 <= k < i + 1 || j + 1 <= k < |s| ensures IsSpace(s[k]) {
      if k > 0 { assert IsSpace(t[k - 1]); }
    }
  }

  lemma Extended(s: string, t: string, i: nat, j: nat)
    requires s != [] && IsSpace(s[|s| - 1]) && t == s[..|s| - 1] && i <= j < |s|
    requires forall k | 0 <= k < i || j <= k < |t| :: IsSpace(t[k])
    ensures t[i..j] == s[i..j] && forall k | 0 <= k < i || j <= k < |s| :: IsSpace(s[k])
  {
    forall k | 0 <= k < i || j <= k < |s| ensures IsSpace(s[k]) {
      if k < |t| { assert IsSpace(t[k]); }
    }
  }

  /** How the backend reads fields: stripped, blank ones missing, the source "api" by default. */
  function Normal(fields: map<string, string>): map<string, string> {
    var read := map f | f in fields && Strip(fields[f]) != "" :: Strip(fields[f]);
    if "source" in read then read else read["source" := "api"]
  }

  /** A field is read exactly when it is not blank, and the source always is. */
  lemma NormalMeaning(fields: map<string, string>, f: string)
    ensures f in Normal(fields) <==> f == "source" || (f in fields && Strip(fields[f]) != [])
    ensures f in fields && Strip(fields[f]) != [] ==> Normal(fields)[f] == Strip(fields[f])
    ensures !("source" in fields && Strip(fields["source"]) != []) ==> Normal(fields)["source"] == "api"
  {
  }

  ghost function Restricted(context: map<string, string>): map<string, string> {
    map f | f in context && f in CANONICAL :: context[f]
  }

  ghost function Canonical(context: map<string, string>): map<string, string> {
    Normal(Restricted(context))
  }

  /** The multipart form: canonical context values under the pack's submitted names. */
  ghost function Form(context: map<string, string>, m: map<string, string>): map<string, string>
    requires MappingOk(m)
  {
    map n | n in m.Values && exists f :: f in m && m[f] == n && f in context
      :: context[FieldOf(m, n)]
  }

  ghost function FieldOf(m: map<string, string>, n: string): (f: string)
    requires MappingOk(m) && n in m.Values && exists f :: f in m && m[f] == n
    ensures f in m && m[f] == n
  {
    var f :| f in m && m[f] == n;
    f
  }

  /** The backend finds each canonical field under its submitted name. */
  ghost function Submitted(form: map<string, string>, m: map<string, string>): map<string, string>
    requires MappingOk(m)
  {
    map f | f in m && m[f] in form :: form[m[f]]
  }

  ghost function ParseForm(form: map<string, string>, m: map<string, string>): map<string, string>
    requires MappingOk(m)
  {
    Normal(Submitted(form, m))
  }

  ghost function FingerprintOf(r: Request, m: map<string, string>): Fingerprint
    requires MappingOk(m)
  {
    Fingerprint(Sha256(r.data), ParseForm(r.form, m))
  }

  /** What a key alone says about the request it was built for. */
  ghost function KeyFingerprint(material: Material): Fingerprint {
    Fingerprint(material.content, Canonical(material.context))
  }

  lemma FieldsArrive(context: map<string, string>, m: map<string, string>)
    requires MappingOk(m)
    ensures Submitted(Form(context, m), m) == Restricted(context)
  {
    var form, parsed := Form(context, m), Submitted(Form(context, m), m);
    forall f | f in CANONICAL
      ensures f in parsed <==> f in context
      ensures f in context ==> parsed[f] == context[f]
    {
      assert m[f] in m.Values;
      if f in context {
        assert m[f] in form;
        assert FieldOf(m, m[f]) == f;
      }
    }
  }

  /** What the backend reads from the mapped form is what the gateway's context means. */
  lemma FormRoundTrip(context: map<string, string>, m: map<string, string>)
    requires MappingOk(m)
    ensures ParseForm(Form(context, m), m) == Canonical(context)
  {
    hide Normal;
    FieldsArrive(context, m);
  }

  // ---- events ----------------------------------------------------------------

  datatype Event =
    // the environment writes a file below the watch root
    | WriteFile(path: string, file: File)
    // one stable file on its way into the ledger
    | ReadFile(scan: nat, path: string)
    | TakeFingerprint(scan: nat)
    | SpoolFile(scan: nat, extension: string, context: map<string, string>)
    | EnqueueFile(scan: nat, now: int)
    | RejectFile(scan: nat, code: string, now: int)
    | MoveSource(scan: nat)
    | AbandonScan(scan: nat)
    // one claimed row on its way to the backend
    | Claim(now: int)
    | Send(row: nat)
    | FailLocally(row: nat, code: string, retryable: bool, now: int, delay: int)
    | Receive(row: nat, now: int, delay: int)
    | LoseReply(row: nat, now: int, delay: int)
    | AbandonUpload(row: nat)
    // the backend
    | ForeignRequest(sent: Request)
    | Lookup(request: nat)
    | Insert(request: nat)
    | Refuse(request: nat, reply: Reply)
    // the process and its operator
    | Crash
    | Restart(now: int)
    | ManualRetry(row: nat, now: int)

  function MaterialOf(p: Pack, content: Digest, context: map<string, string>): Material {
    Material(p.tenant, p.packKey, p.version, content, context)
  }

  function ItemOf(p: Pack, s: Scan): NewItem
    requires s.Spooled?
  {
    NewItem(p.tenant, s.source, s.spool, Sha256(s.data), s.context,
            Edge(MaterialOf(p, Sha256(s.data), s.context)))
  }

  function SourceOf(path: string, root: map<string, File>): SourceId {
    if path in root then Observed(path, root[path].size, root[path].mtime) else Vanished(path)
  }

  /** Where the tenant and key of a request are already taken. */
  function FindInspection(inspections: seq<Inspection>, tenant: string, key: Key): (r: Option<nat>)
    ensures r.Some? ==> r.value < |inspections| && inspections[r.value].tenant == tenant && inspections[r.value].key == key
    ensures r.None? ==> forall j | 0 <= j < |inspections| :: inspections[j].tenant != tenant || inspections[j].key != key
  {
    if inspections == [] then None else
    var last := |inspections| - 1;
    var r := FindInspection(inspections[..last], tenant, key);
    if r.Some? then r
    else if inspections[last].tenant == tenant && inspections[last].key == key then Some(last) else None
  }

  /** The answer for a (tenant, key) that is already taken. */
  ghost function ReplayOrConflict(s: System, r: Request, taken: nat): Reply
    requires taken < |s.inspections|
  {
    if s.inspections[taken].fingerprint == FingerprintOf(r, s.pack.mapping) then Replayed(taken) else Conflict
  }

  ghost function Answer(s: System, r: nat, reply: Reply): System
    requires r < |s.requests|
  {
    s.(requests := s.requests[r := s.requests[r].(phase := Replied(reply))])
  }

  ghost predicate Scanning(s: System, scan: nat) {
    s.up && scan in s.scans
  }

  ghost predicate Holding(s: System, row: nat) {
    s.up && row in s.holders && row < |s.rows|
  }

  ghost predicate Answered(s: System, row: nat) {
    && Holding(s, row) && s.holders[row].Waiting? && s.holders[row].request < |s.requests|
    && s.requests[s.holders[row].request].phase.Replied?
  }

  /** Answers that fail the upload, with the error code and whether the row stays retryable. */
  function Failure(reply: Reply): (string, bool) {
    match reply
    case ServerError => ("UPLOAD_RETRYABLE", true)
    case Malformed => ("UPLOAD_RESPONSE_INVALID", true)
    case _ => ("UPLOAD_REJECTED", false)
  }

  /** How `upload_once` settles the claimed row on an answer. */
  function Settle(rows: seq<Row>, row: nat, reply: Reply, now: int, delay: int): seq<Row>
    requires row < |rows|
  {
    if reply.Created? || reply.Replayed? then MarkUploaded(rows, row, reply.inspection)
    else MarkFailed(rows, row, Failure(reply).0, Failure(reply).1, now, delay)
  }

  ghost function RequestFor(p: Pack, spool: map<SpoolName, string>, row: Row): Request
    requires row.key.Some? && row.spool.Some? && row.spool.value in spool
  {
    Request(row.tenant, row.key.value, spool[row.spool.value], Form(row.context, p.mapping), Sent)
  }

  /** The watch root, what left it, and the scans are the same. */
  ghost predicate FilesAlone(s: System, t: System) {
    t.root == s.root && t.moved == s.moved && t.scans == s.scans
  }

  /** Nothing of the gateway process has changed. */
  ghost predicate GatewayAlone(s: System, t: System) {
    t.rows == s.rows && t.spool == s.spool && t.up == s.up && t.holders == s.holders && t.pack == s.pack
  }

  /** At most this scan has changed, and it still is about the path and the bytes it read. */
  ghost predicate ScanAdvances(s: System, t: System, scan: nat) {
    && t.root == s.root && t.moved == s.moved
    && (t.scans == s.scans || t.scans == s.scans - {scan}
        || (scan in s.scans && scan in t.scans && t.scans == s.scans[scan := t.scans[scan]]
            && t.scans[scan].path == s.scans[scan].path && t.scans[scan].data == s.scans[scan].data))
  }

  ghost function ReadStep(s: System, scan: nat, path: string): System {
    if !s.up || scan in s.scans || path !in s.root then s
    else s.(scans := s.scans[scan := Read(path, s.root[path].data)])
  }

  /** The file is examined again after it was read; a known source is skipped. */
  ghost function FingerprintStep(s: System, scan: nat): (t: System)
    ensures ScanAdvances(s, t, scan)
  {
    if !Scanning(s, scan) || !s.scans[scan].Read? || s.scans[scan].path !in s.root then s
    else
      var sc := s.scans[scan];
      var source := SourceOf(sc.path, s.root);
      if FindSource(s.rows, source).Some? then s.(scans := s.scans - {scan})
      else s.(scans := s.scans[scan := Fingerprinted(sc.path, sc.data, source)])
  }

  /** An existing spool file with other bytes aborts the scan of this file. */
  ghost function SpoolStep(s: System, scan: nat, extension: string, context: map<string, string>): (t: System)
    ensures ScanAdvances(s, t, scan)
  {
    if !Scanning(s, scan) || !s.scans[scan].Fingerprinted? then s
    else
      var sc := s.scans[scan];
      var name := SpoolName(Sha256(sc.data), extension);
      if name in s.spool && s.spool[name] != sc.data then s.(scans := s.scans - {scan})
      else s.(spool := s.spool[name := sc.data],
              scans := s.scans[scan := Spooled(sc.path, sc.data, sc.source, name, context)])
  }

  /** The row an insert for this source makes; none when the source is already recorded. */
  function NewRow(rows: seq<Row>, source: SourceId): Option<nat> {
    if FindSource(rows, source).Some? then None else Some(|rows|)
  }

  ghost function EnqueueStep(s: System, scan: nat, now: int): (t: System)
    ensures ScanAdvances(s, t, scan)
  {
    if !Scanning(s, scan) || !s.scans[scan].Spooled? then s
    else
      var sc := s.scans[scan];
      s.(rows := Enqueue(s.rows, ItemOf(s.pack, sc), now),
         scans := s.scans[scan := Recorded(sc.path, sc.data, sc.source, NewRow(s.rows, sc.source))])
  }

  ghost function RejectStep(s: System, scan: nat, code: string, now: int): (t: System)
    ensures ScanAdvances(s, t, scan)
  {
    if !Scanning(s, scan) || !s.scans[scan].Fingerprinted? || code == "SPOOL_MISSING" then s
    else
      var source := SourceOf(s.scans[scan].path, s.root);
      s.(rows := RecordRejection(s.rows, s.pack.tenant, source, code, now),
         scans := s.scans[scan := Recorded(s.scans[scan].path, s.scans[scan].data, source, None)])
  }

  /** Archive or quarantine: whatever is at the path now leaves the watch root. */
  ghost function MoveStep(s: System, scan: nat): System {
    if !Scanning(s, scan) || !s.scans[scan].Recorded? then s
    else
      var sc := s.scans[scan];
      if sc.path !in s.root then s.(scans := s.scans - {scan})
      else s.(moved := s.moved + [Move(sc.path, sc.data, sc.source, sc.made, s.root[sc.path])],
              root := s.root - {sc.path}, scans := s.scans - {scan})
  }

  ghost function ClaimStep(s: System, now: int): (t: System)
    ensures FilesAlone(s, t)
  {
    if !s.up || FindDue(s.rows, now).None? then s
    else
      var i := FindDue(s.rows, now).value;
      s.(rows := s.rows[i := Claimed(s.rows[i])], holders := s.holders[i := Ready])
  }

  ghost function FailRow(s: System, row: nat, code: string, retryable: bool, now: int, delay: int): (t: System)
    requires row < |s.rows|
    ensures FilesAlone(s, t)
  {
    s.(rows := MarkFailed(s.rows, row, code, retryable, now, delay), holders := s.holders - {row})
  }

  ghost function SendStep(s: System, row: nat): (t: System)
    ensures FilesAlone(s, t)
  {
    if !Holding(s, row) || !s.holders[row].Ready? then s
    else if s.rows[row].spool.None? then FailRow(s, row, "SPOOL_MISSING", false, 0, 0)
    else if s.rows[row].spool.value !in s.spool then FailRow(s, row, "SPOOL_READ_ERROR", false, 0, 0)
    else if s.rows[row].key.None? then FailRow(s, row, "QUEUE_ITEM_INVALID", false, 0, 0)
    else s.(requests := s.requests + [RequestFor(s.pack, s.spool, s.rows[row])],
            holders := s.holders[row := Waiting(|s.requests|)])
  }

  ghost function FailLocallyStep(s: System, row: nat, code: string, retryable: bool, now: int, delay: int): (t: System)
    ensures FilesAlone(s, t)
  {
    if !Holding(s, row) || !s.holders[row].Ready? || code == "SPOOL_MISSING" then s
    else FailRow(s, row, code, retryable, now, delay)
  }

  ghost function ReceiveStep(s: System, row: nat, now: int, delay: int): (t: System)
    ensures FilesAlone(s, t)
  {
    if !Answered(s, row) then s
    else s.(rows := Settle(s.rows, row, s.requests[s.holders[row].request].phase.reply, now, delay),
            holders := s.holders - {row})
  }

  ghost function LoseStep(s: System, row: nat, now: int, delay: int): (t: System)
    ensures FilesAlone(s, t)
  {
    if !Holding(s, row) || !s.holders[row].Waiting? then s
    else FailRow(s, row, "UPLOAD_TRANSPORT_ERROR", true, now, delay)
  }

  /** Other clients may send anything under plain keys; whoever uses an edge key built it honestly. */
  ghost function ForeignStep(s: System, r: Request): (t: System)
    ensures FilesAlone(s, t)
  {
    if r.phase != Sent || (r.key.Edge? && FingerprintOf(r, s.pack.mapping) != KeyFingerprint(r.key.material)) then s
    else s.(requests := s.requests + [r])
  }

  ghost function LookupStep(s: System, r: nat): (t: System)
    ensures FilesAlone(s, t) && GatewayAlone(s, t)
  {
    if r >= |s.requests| || s.requests[r].phase != Sent then s
    else
      var taken := FindInspection(s.inspections, s.requests[r].tenant, s.requests[r].key);
      if taken.Some? then Answer(s, r, ReplayOrConflict(s, s.requests[r], taken.value))
      else s.(requests := s.requests[r := s.requests[r].(phase := Checked)])
  }

  /** The unique constraint decides again: another request may have inserted since the lookup. */
  ghost function InsertStep(s: System, r: nat): (t: System)
    ensures FilesAlone(s, t) && GatewayAlone(s, t)
  {
    if r >= |s.requests| || s.requests[r].phase != Checked then s
    else
      var q := s.requests[r];
      var taken := FindInspection(s.inspections, q.tenant, q.key);
      if taken.Some? then Answer(s, r, ReplayOrConflict(s, q, taken.value))
      else
        Answer(s, r, Created(|s.inspections|))
          .(inspections := s.inspections + [Inspection(q.tenant, q.key, FingerprintOf(q, s.pack.mapping))])
  }

  ghost function RefuseStep(s: System, r: nat, reply: Reply): (t: System)
    ensures FilesAlone(s, t)
  {
    if r >= |s.requests| || s.requests[r].phase.Replied? || !(reply.ClientError? || reply.ServerError? || reply.Malformed?) then s
    else Answer(s, r, reply)
  }

  ghost function RestartStep(s: System, now: int): (t: System)
    ensures FilesAlone(s, t)
  {
    if s.up then s else s.(up := true, rows := RecoverInflight(s.rows, now))
  }

  ghost function RetryStep(s: System, row: nat, now: int): (t: System)
    ensures FilesAlone(s, t)
  {
    if !s.up || row >= |s.rows| then s else s.(rows := Retry(s.rows, row, now))
  }

  predicate IsScanEvent(e: Event) {
    e.WriteFile? || e.ReadFile? || e.TakeFingerprint? || e.SpoolFile? || e.EnqueueFile? || e.RejectFile? || e.MoveSource? || e.AbandonScan?
  }

  predicate IsUploadEvent(e: Event) {
    e.Claim? || e.Send? || e.FailLocally? || e.Receive? || e.LoseReply? || e.AbandonUpload?
  }

  ghost function DoScan(s: System, e: Event): System
    requires IsScanEvent(e)
  {
    match e
    case WriteFile(path, file) => s.(root := s.root[path := file])
    case ReadFile(scan, path) => ReadStep(s, scan, path)
    case TakeFingerprint(scan) => FingerprintStep(s, scan)
    case SpoolFile(scan, extension, context) => SpoolStep(s, scan, extension, context)
    case EnqueueFile(scan, now) => EnqueueStep(s, scan, now)
    case RejectFile(scan, code, now) => RejectStep(s, scan, code, now)
    case MoveSource(scan) => MoveStep(s, scan)
    case AbandonScan(scan) => s.(scans := s.scans - {scan})
  }

  ghost function DoUpload(s: System, e: Event): System
    requires IsUploadEvent(e)
  {
    match e
    case Claim(now) => ClaimStep(s, now)
    case Send(row) => SendStep(s, row)
    case FailLocally(row, code, retryable, now, delay) => FailLocallyStep(s, row, code, retryable, now, delay)
    case Receive(row, now, delay) => ReceiveStep(s, row, now, delay)
    case LoseReply(row, now, delay) => LoseStep(s, row, now, delay)
    case AbandonUpload(row) => s.(holders := s.holders - {row})
  }

  /** The backend, the process and its operator. */
  ghost function DoOther(s: System, e: Event): System
    requires !IsScanEvent(e) && !IsUploadEvent(e)
  {
    match e
    case ForeignRequest(r) => ForeignStep(s, r)
    case Lookup(r) => LookupStep(s, r)
    case Insert(r) => InsertStep(s, r)
    case Refuse(r, reply) => RefuseStep(s, r, reply)
    case Crash => s.(up := false, scans := map[], holders := map[])
    case Restart(now) => RestartStep(s, now)
    case ManualRetry(row, now) => RetryStep(s, row, now)
  }

  ghost function Do(s: System, e: Event): System {
    if IsScanEvent(e) then DoScan(s, e) else if IsUploadEvent(e) then DoUpload(s, e) else DoOther(s, e)
  }

  ghost function Run(s: System, es: seq<Event>): System {
    if es == [] then s else Do(Run(s, es[..|es| - 1]), es[|es| - 1])
  }

  ghost predicate Initial(s: System) {
    && s.rows == [] && s.spool == map[] && s.moved == [] && s.scans == map[] && s.holders == map[]
    && s.requests == [] && s.inspections == []
  }

  // ---- the invariant -----------------------------------------------------------

  ghost predicate SpoolOk(spool: map<SpoolName, string>) {
    forall n | n in spool :: Sha256(spool[n]) == n.digest
  }

  /** An accepted row was keyed by this pack over what it holds, and can still be read. */
  ghost predicate AcceptedOk(row: Row, spool: map<SpoolName, string>, p: Pack) {
    && row.tenant == p.tenant && row.content.Some?
    && row.key == Some(Edge(MaterialOf(p, row.content.value, row.context)))
    && (row.spool.Some? ==> row.spool.value in spool)
  }

  ghost predicate RowsOk(rows: seq<Row>, spool: map<SpoolName, string>, p: Pack) {
    forall i | 0 <= i < |rows| && rows[i].status != Rejected :: AcceptedOk(rows[i], spool, p)
  }

  /** The row a scan made is about the source it recorded and the bytes it read. */
  ghost predicate MadeOk(made: Option<nat>, source: SourceId, data: string, rows: seq<Row>) {
    made.Some? ==> made.value < |rows| && rows[made.value].source == source && rows[made.value].content == Some(Sha256(data))
  }

  ghost predicate ScanOk(sc: Scan, rows: seq<Row>, spool: map<SpoolName, string>) {
    && (!sc.Read? ==> sc.source.path == sc.path)
    && (sc.Spooled? ==> sc.spool.digest == Sha256(sc.data) && sc.spool in spool)
    && (sc.Recorded? ==> FindSource(rows, sc.source).Some? && MadeOk(sc.made, sc.source, sc.data, rows))
  }

  ghost predicate ScansOk(scans: map<nat, Scan>, rows: seq<Row>, spool: map<SpoolName, string>) {
    forall n | n in scans :: ScanOk(scans[n], rows, spool)
  }

  ghost predicate HolderOk(h: Holder, i: nat, rows: seq<Row>, requests: seq<Request>) {
    && i < |rows| && rows[i].status == Uploading
    && (h.Waiting? ==>
          && h.request < |requests|
          && requests[h.request].tenant == rows[i].tenant
          && rows[i].key == Some(requests[h.request].key))
  }

  ghost predicate HoldersOk(holders: map<nat, Holder>, rows: seq<Row>, requests: seq<Request>) {
    forall i | i in holders :: HolderOk(holders[i], i, rows, requests)
  }

  ghost predicate Names(inspections: seq<Inspection>, k: nat, tenant: string, key: Key) {
    k < |inspections| && inspections[k].tenant == tenant && inspections[k].key == key
  }

  /** The inspection of the request's tenant and key was made of the request's own bytes and fields. */
  ghost predicate Serves(inspections: seq<Inspection>, k: nat, tenant: string, key: Key, made: Fingerprint) {
    Names(inspections, k, tenant, key) && inspections[k].fingerprint == made
  }

  /** Tenant and key are taken by an inspection made of something else. */
  ghost predicate Contradicts(inspections: seq<Inspection>, k: nat, tenant: string, key: Key, made: Fingerprint) {
    Names(inspections, k, tenant, key) && inspections[k].fingerprint != made
  }

  ghost predicate ReplyOk(reply: Reply, r: Request, inspections: seq<Inspection>, p: Pack) {
    var made := FingerprintOf(r, p.mapping);
    && (reply.Created? ==> Serves(inspections, reply.inspection, r.tenant, r.key, made))
    && (reply.Replayed? ==> Serves(inspections, reply.inspection, r.tenant, r.key, made))
    && (reply.Conflict? ==> r.key.Plain? && exists k :: Contradicts(inspections, k, r.tenant, r.key, made))
  }

  ghost predicate RequestOk(r: Request, inspections: seq<Inspection>, p: Pack) {
    && (r.key.Edge? ==> FingerprintOf(r, p.mapping) == KeyFingerprint(r.key.material))
    && (r.phase.Replied? ==> ReplyOk(r.phase.reply, r, inspections, p))
  }

  ghost predicate RequestsOk(requests: seq<Request>, inspections: seq<Inspection>, p: Pack) {
    forall r | 0 <= r < |requests| :: RequestOk(requests[r], inspections, p)
  }

  /** One inspection for each (tenant, key). */
  ghost predicate OneForEachKey(inspections: seq<Inspection>) {
    forall j, k | 0 <= j < k < |inspections| ::
      inspections[j].tenant != inspections[k].tenant || inspections[j].key != inspections[k].key
  }

  ghost predicate InspectionsOk(inspections: seq<Inspection>) {
    && (forall k | 0 <= k < |inspections| && inspections[k].key.Edge? ::
          inspections[k].fingerprint == KeyFingerprint(inspections[k].key.material))
    && OneForEachKey(inspections)
  }

  ghost predicate UploadedOk(rows: seq<Row>, inspections: seq<Inspection>) {
    forall i | 0 <= i < |rows| && rows[i].inspection.Some? && rows[i].key.Some? ::
      Names(inspections, rows[i].inspection.value, rows[i].tenant, rows[i].key.value)
  }

  /** No two requests created the same inspection. */
  ghost predicate CreatorsOk(requests: seq<Request>) {
    forall q, r | 0 <= q < r < |requests| && CreatedBy(requests[q]).Some? :: CreatedBy(requests[q]) != CreatedBy(requests[r])
  }

  function CreatedBy(r: Request): Option<nat> {
    if r.phase.Replied? && r.phase.reply.Created? then Some(r.phase.reply.inspection) else None
  }

  /** A move out of the watch root comes after the commit of the row for its very source. */
  ghost predicate MoveOk(m: Move, rows: seq<Row>) {
    m.source.path == m.path && FindSource(rows, m.source).Some? && MadeOk(m.made, m.source, m.read, rows)
  }

  ghost predicate MovedOk(moved: seq<Move>, rows: seq<Row>) {
    forall m | 0 <= m < |moved| :: MoveOk(moved[m], rows)
  }

  /** The content of row i, or of the primary it duplicates, is in the spool. */
  ghost predicate Retained(rows: seq<Row>, spool: map<SpoolName, string>, i: nat)
    requires i < |rows|
  {
    var p := if rows[i].dedupOf.Some? then rows[i].dedupOf.value else i;
    && p < |rows| && rows[p].spool.Some? && rows[p].spool.value in spool
    && rows[i].content == Some(Sha256(spool[rows[p].spool.value]))
  }

  ghost predicate GatewayOk(s: System) {
    && LedgerOk(s.rows)
    && SpoolOk(s.spool)
    && RowsOk(s.rows, s.spool, s.pack)
    && ScansOk(s.scans, s.rows, s.spool)
    && HoldersOk(s.holders, s.rows, s.requests)
    && RequestsOk(s.requests, s.inspections, s.pack)
    && InspectionsOk(s.inspections)
    && UploadedOk(s.rows, s.inspections)
    && CreatorsOk(s.requests)
    && MovedOk(s.moved, s.rows)
    && (!s.up ==> s.scans == map[] && s.holders == map[])
  }

  ghost predicate SpoolKept(spool: map<SpoolName, string>, spool': map<SpoolName, string>) {
    forall n | n in spool :: n in spool' && spool'[n] == spool[n]
  }

  /** What never shrinks: ledger identities and terminal rows, spool files, committed inspections. */
  ghost predicate Grows(s: System, s': System) {
    Kept(s.rows, s'.rows) && SpoolKept(s.spool, s'.spool) && s.inspections <= s'.inspections
  }

  // ---- one event keeps the invariant ---------------------------------------------

  lemma KeptReflexive(rows: seq<Row>)
    ensures Kept(rows, rows)
  {
  }

  lemma KeptKeepsFound(rows: seq<Row>, rows': seq<Row>, source: SourceId)
    requires Kept(rows, rows') && FindSource(rows, source).Some?
    ensures FindSource(rows', source).Some?
  {
    var i := FindSource(rows, source).value;
    assert RowKept(rows[i], rows'[i]);
  }

  lemma KeptKeepsMade(made: Option<nat>, source: SourceId, data: string, rows: seq<Row>, rows': seq<Row>)
    requires Kept(rows, rows') && MadeOk(made, source, data, rows)
    ensures MadeOk(made, source, data, rows')
  {
    if made.Some? { assert RowKept(rows[made.value], rows'[made.value]); }
  }

  lemma KeptKeepsScans(scans: map<nat, Scan>, rows: seq<Row>, rows': seq<Row>, spool: map<SpoolName, string>)
    requires ScansOk(scans, rows, spool) && Kept(rows, rows')
    ensures ScansOk(scans, rows', spool)
  {
    forall n | n in scans ensures ScanOk(scans[n], rows', spool) {
      if scans[n].Recorded? {
        KeptKeepsFound(rows, rows', scans[n].source);
        KeptKeepsMade(scans[n].made, scans[n].source, scans[n].data, rows, rows');
      }
    }
  }

  lemma KeptKeepsMoved(moved: seq<Move>, rows: seq<Row>, rows': seq<Row>)
    requires MovedOk(moved, rows) && Kept(rows, rows')
    ensures MovedOk(moved, rows')
  {
    forall m | 0 <= m < |moved| ensures MoveOk(moved[m], rows') {
      assert MoveOk(moved[m], rows);
      KeptKeepsFound(rows, rows', moved[m].source);
      KeptKeepsMade(moved[m].made, moved[m].source, moved[m].read, rows, rows');
    }
  }

  lemma RequestsKeepHolders(holders: map<nat, Holder>, rows: seq<Row>, requests: seq<Request>, requests': seq<Request>)
    requires HoldersOk(holders, rows, requests) && |requests| <= |requests'|
    requires forall r | 0 <= r < |requests| :: requests'[r].tenant == requests[r].tenant && requests'[r].key == requests[r].key
    ensures HoldersOk(holders, rows, requests')
  {
    forall i | i in holders ensures HolderOk(holders[i], i, rows, requests') {
      assert HolderOk(holders[i], i, rows, requests);
    }
  }

  lemma InspectionsKeepRequests(requests: seq<Request>, inspections: seq<Inspection>, inspections': seq<Inspection>, p: Pack)
    requires RequestsOk(requests, inspections, p) && inspections <= inspections'
    ensures RequestsOk(requests, inspections', p)
  {
    forall r | 0 <= r < |requests| ensures RequestOk(requests[r], inspections', p) {
      assert RequestOk(requests[r], inspections, p);
      if requests[r].phase == Replied(Conflict) {
        var q := requests[r];
        var k :| Contradicts(inspections, k, q.tenant, q.key, FingerprintOf(q, p.mapping));
        assert Contradicts(inspections', k, q.tenant, q.key, FingerprintOf(q, p.mapping));
      }
    }
  }

  /** Appending one well-formed row. */
  lemma AppendKeepsGateway(s: System, row: Row)
    requires GatewayOk(s) && LedgerOk(s.rows + [row]) && Kept(s.rows, s.rows + [row])
    requires row.inspection.None? && (row.status != Rejected ==> AcceptedOk(row, s.spool, s.pack))
    ensures GatewayOk(s.(rows := s.rows + [row]))
  {
    KeptKeepsScans(s.scans, s.rows, s.rows + [row], s.spool);
    KeptKeepsMoved(s.moved, s.rows, s.rows + [row]);
    forall i | i in s.holders ensures HolderOk(s.holders[i], i, s.rows + [row], s.requests) {
      assert HolderOk(s.holders[i], i, s.rows, s.requests);
    }
  }

  /** Updating one row; its holder, if it has one, is dropped first. */
  lemma UpdateKeepsGateway(s: System, i: nat, row: Row)
    requires GatewayOk(s) && i < |s.rows| && i !in s.holders
    requires LedgerOk(s.rows[i := row]) && Kept(s.rows, s.rows[i := row])
    requires row.status != Rejected ==> s.rows[i].status != Rejected
    requires row.inspection.Some? && row.key.Some? ==> Names(s.inspections, row.inspection.value, row.tenant, row.key.value)
    ensures GatewayOk(s.(rows := s.rows[i := row]))
  {
    var rows' := s.rows[i := row];
    KeptKeepsScans(s.scans, s.rows, rows', s.spool);
    KeptKeepsMoved(s.moved, s.rows, rows');
    assert RowKept(s.rows[i], rows'[i]);
    forall j | 0 <= j < |rows'| && rows'[j].status != Rejected ensures AcceptedOk(rows'[j], s.spool, s.pack) {
      assert AcceptedOk(s.rows[j], s.spool, s.pack);
    }
    forall j | j in s.holders ensures HolderOk(s.holders[j], j, rows', s.requests) {
      assert HolderOk(s.holders[j], j, s.rows, s.requests);
    }
  }

  /** Forgetting holders or scans, or taking the process down. */
  lemma DropKeeps(s: System, scans: map<nat, Scan>, holders: map<nat, Holder>, up: bool)
    requires GatewayOk(s)
    requires forall n | n in scans :: n in s.scans && scans[n] == s.scans[n]
    requires forall i | i in holders :: i in s.holders && holders[i] == s.holders[i]
    requires up == s.up || (!up && scans == map[] && holders == map[])
    ensures GatewayOk(s.(scans := scans, holders := holders, up := up))
  {
    forall n | n in scans ensures ScanOk(scans[n], s.rows, s.spool) { assert ScanOk(s.scans[n], s.rows, s.spool); }
    forall i | i in holders ensures HolderOk(holders[i], i, s.rows, s.requests) {
      assert HolderOk(s.holders[i], i, s.rows, s.requests);
    }
  }

  lemma SetScanKeeps(s: System, scan: nat, sc: Scan)
    requires GatewayOk(s) && s.up && ScanOk(sc, s.rows, s.spool)
    ensures GatewayOk(s.(scans := s.scans[scan := sc]))
  {
    var scans' := s.scans[scan := sc];
    forall n | n in scans' ensures ScanOk(scans'[n], s.rows, s.spool) {
      if n != scan { assert ScanOk(s.scans[n], s.rows, s.spool); }
    }
  }

  lemma DropScanKeeps(s: System, scan: nat)
    requires GatewayOk(s)
    ensures var t := s.(scans := s.scans - {scan}); GatewayOk(t) && Grows(s, t)
  {
    DropKeeps(s, s.scans - {scan}, s.holders, s.up);
    assert s.(scans := s.scans - {scan}, holders := s.holders, up := s.up) == s.(scans := s.scans - {scan});
    KeptReflexive(s.rows);
  }

  lemma DropHolderKeeps(s: System, i: nat)
    requires GatewayOk(s)
    ensures var t := s.(holders := s.holders - {i}); GatewayOk(t) && Grows(s, t)
  {
    DropKeeps(s, s.scans, s.holders - {i}, s.up);
    assert s.(scans := s.scans, holders := s.holders - {i}, up := s.up) == s.(holders := s.holders - {i});
    KeptReflexive(s.rows);
  }

  lemma WriteKeeps(s: System, root: map<string, File>)
    requires GatewayOk(s)
    ensures var t := s.(root := root); GatewayOk(t) && Grows(s, t)
  {
    KeptReflexive(s.rows);
  }

  lemma ReadKeeps(s: System, scan: nat, path: string)
    requires GatewayOk(s)
    ensures var t := ReadStep(s, scan, path); GatewayOk(t) && Grows(s, t)
  {
    KeptReflexive(s.rows);
    if ReadStep(s, scan, path) != s { SetScanKeeps(s, scan, Read(path, s.root[path].data)); }
  }

  lemma FingerprintKeeps(s: System, scan: nat)
    requires GatewayOk(s)
    ensures var t := FingerprintStep(s, scan); GatewayOk(t) && Grows(s, t)
  {
    KeptReflexive(s.rows);
    if FingerprintStep(s, scan) != s {
      var sc := s.scans[scan];
      DropScanKeeps(s, scan);
      SetScanKeeps(s, scan, Fingerprinted(sc.path, sc.data, SourceOf(sc.path, s.root)));
    }
  }

  /** Digests are injective, so an existing spool file always holds these very bytes. */
  lemma SpoolNeverCollides(s: System, name: SpoolName, data: string)
    requires GatewayOk(s) && name in s.spool && name.digest == Sha256(data)
    ensures s.spool[name] == data
  {
    assert Sha256(s.spool[name]) == name.digest;
  }

  /** One more spool file under the name of its own digest. */
  lemma AddSpoolKeeps(s: System, name: SpoolName, data: string)
    requires GatewayOk(s) && name.digest == Sha256(data)
    ensures var t := s.(spool := s.spool[name := data]); GatewayOk(t) && SpoolKept(s.spool, t.spool)
  {
    if name in s.spool { SpoolNeverCollides(s, name, data); }
    var spool' := s.spool[name := data];
    hide LedgerOk, HoldersOk, RequestsOk, InspectionsOk, UploadedOk, CreatorsOk, MovedOk;
    forall i | 0 <= i < |s.rows| && s.rows[i].status != Rejected ensures AcceptedOk(s.rows[i], spool', s.pack) {
      assert AcceptedOk(s.rows[i], s.spool, s.pack);
    }
    forall n | n in s.scans ensures ScanOk(s.scans[n], s.rows, spool') { assert ScanOk(s.scans[n], s.rows, s.spool); }
  }

  lemma SpoolKeeps(s: System, scan: nat, extension: string, context: map<string, string>)
    requires GatewayOk(s)
    ensures var t := SpoolStep(s, scan, extension, context); GatewayOk(t) && Grows(s, t)
  {
    KeptReflexive(s.rows);
    if Scanning(s, scan) && s.scans[scan].Fingerprinted? {
      var sc := s.scans[scan];
      assert ScanOk(sc, s.rows, s.spool);
      var name := SpoolName(Sha256(sc.data), extension);
      if name in s.spool { SpoolNeverCollides(s, name, sc.data); }
      hide GatewayOk, SpoolKept, Kept;
      AddSpoolKeeps(s, name, sc.data);
      var s1 := s.(spool := s.spool[name := sc.data]);
      SetScanKeeps(s1, scan, Spooled(sc.path, sc.data, sc.source, name, context));
      assert SpoolStep(s, scan, extension, context)
          == s1.(scans := s1.scans[scan := Spooled(sc.path, sc.data, sc.source, name, context)]);
    } else {
      SpoolKeptReflexive(s.spool);
    }
  }

  lemma SpoolKeptReflexive(spool: map<SpoolName, string>)
    ensures SpoolKept(spool, spool)
  {
  }

  lemma EnqueueMakesRow(rows: seq<Row>, item: NewItem, data: string, now: int)
    requires item.content == Sha256(data)
    ensures MadeOk(NewRow(rows, item.source), item.source, data, Enqueue(rows, item, now))
  {
  }

  /** The insert of an item whose spool file is there. */
  lemma InsertRowKeeps(s: System, item: NewItem, now: int)
    requires GatewayOk(s) && item.spool.digest == item.content && item.spool in s.spool && item.tenant == s.pack.tenant
    requires item.key == Edge(MaterialOf(s.pack, item.content, item.context))
    ensures var t := s.(rows := Enqueue(s.rows, item, now)); GatewayOk(t) && Kept(s.rows, t.rows)
    ensures FindSource(Enqueue(s.rows, item, now), item.source).Some?
  {
    assert LedgerOk(s.rows);
    hide GatewayOk, LedgerOk, Kept;
    KeptReflexive(s.rows);
    EnqueueKeepsLedger(s.rows, item, now);
    var rows' := Enqueue(s.rows, item, now);
    if rows' != s.rows { AppendKeepsGateway(s, rows'[|s.rows|]); }
  }

  lemma EnqueueKeeps(s: System, scan: nat, now: int)
    requires GatewayOk(s)
    ensures var t := EnqueueStep(s, scan, now); GatewayOk(t) && Grows(s, t)
  {
    if Scanning(s, scan) && s.scans[scan].Spooled? {
      var sc := s.scans[scan];
      assert ScanOk(sc, s.rows, s.spool);
      hide GatewayOk, Enqueue, Kept, FindSource;
      var item := ItemOf(s.pack, sc);
      InsertRowKeeps(s, item, now);
      EnqueueMakesRow(s.rows, item, sc.data, now);
      SetScanKeeps(s.(rows := Enqueue(s.rows, item, now)), scan, Recorded(sc.path, sc.data, sc.source, NewRow(s.rows, sc.source)));
    } else {
      KeptReflexive(s.rows);
    }
  }

  lemma RejectKeeps(s: System, scan: nat, code: string, now: int)
    requires GatewayOk(s)
    ensures var t := RejectStep(s, scan, code, now); GatewayOk(t) && Grows(s, t)
  {
    KeptReflexive(s.rows);
    if Scanning(s, scan) && s.scans[scan].Fingerprinted? && code != "SPOOL_MISSING" {
      var source := SourceOf(s.scans[scan].path, s.root);
      var rows' := RecordRejection(s.rows, s.pack.tenant, source, code, now);
      RejectionKeepsLedger(s.rows, s.pack.tenant, source, code, now);
      if rows' != s.rows { AppendKeepsGateway(s, RejectedRow(s.pack.tenant, source, code, now)); }
      SetScanKeeps(s.(rows := rows'), scan, Recorded(s.scans[scan].path, s.scans[scan].data, source, None));
    }
  }

  lemma MoveKeeps(s: System, scan: nat)
    requires GatewayOk(s)
    ensures var t := MoveStep(s, scan); GatewayOk(t) && Grows(s, t)
  {
    KeptReflexive(s.rows);
    DropScanKeeps(s, scan);
    if Scanning(s, scan) && s.scans[scan].Recorded? {
      assert ScanOk(s.scans[scan], s.rows, s.spool);
    }
  }

  lemma HeldIsUploading(s: System, i: nat)
    requires GatewayOk(s) && i < |s.rows|
    ensures i in s.holders ==> s.rows[i].status == Uploading
  {
  }

  lemma DueRowIsWhole(rows: seq<Row>, i: nat, now: int)
    requires LedgerOk(rows) && i < |rows| && IsDue(rows[i], now)
    ensures rows[i].status != Rejected && rows[i].inspection.None?
  {
    assert RowOk(rows[i]);
  }

  lemma ClaimRowKeeps(s: System, i: nat, now: int)
    requires GatewayOk(s) && s.up && i < |s.rows| && IsDue(s.rows[i], now)
    requires LedgerOk(s.rows[i := Claimed(s.rows[i])]) && Kept(s.rows, s.rows[i := Claimed(s.rows[i])])
    ensures var t := s.(rows := s.rows[i := Claimed(s.rows[i])], holders := s.holders[i := Ready]); GatewayOk(t)
  {
    DueRowIsWhole(s.rows, i, now);
    HeldIsUploading(s, i);
    hide GatewayOk, LedgerOk, Kept;
    UpdateKeepsGateway(s, i, Claimed(s.rows[i]));
    var s1 := s.(rows := s.rows[i := Claimed(s.rows[i])]);
    HoldKeeps(s1, i, Ready);
    assert s1.(holders := s1.holders[i := Ready]) == s.(rows := s.rows[i := Claimed(s.rows[i])], holders := s.holders[i := Ready]);
  }

  lemma ClaimKeeps(s: System, now: int)
    requires GatewayOk(s)
    ensures var t := ClaimStep(s, now); GatewayOk(t) && Grows(s, t)
  {
    assert LedgerOk(s.rows);
    SpoolKeptReflexive(s.spool);
    KeptReflexive(s.rows);
    hide GatewayOk, LedgerOk, Kept, SpoolKept, IsDue, Claimed;
    if s.up && FindDue(s.rows, now).Some? {
      ClaimKeepsLedger(s.rows, now);
      ClaimRowKeeps(s, FindDue(s.rows, now).value, now);
    }
  }

  lemma HoldKeeps(s: System, i: nat, h: Holder)
    requires GatewayOk(s) && s.up && HolderOk(h, i, s.rows, s.requests)
    ensures GatewayOk(s.(holders := s.holders[i := h]))
  {
    var holders' := s.holders[i := h];
    forall j | j in holders' ensures HolderOk(holders'[j], j, s.rows, s.requests) {
      if j != i { assert HolderOk(s.holders[j], j, s.rows, s.requests); }
    }
  }

  lemma FailKeeps(s: System, i: nat, code: string, retryable: bool, now: int, delay: int)
    requires GatewayOk(s) && Holding(s, i) && code != "SPOOL_MISSING"
    ensures var t := FailRow(s, i, code, retryable, now, delay); GatewayOk(t) && Grows(s, t)
  {
    assert HolderOk(s.holders[i], i, s.rows, s.requests);
    var row := MarkFailed(s.rows, i, code, retryable, now, delay)[i];
    MarksKeepLedger(s.rows, i, 0, code, retryable, now, delay);
    assert RowOk(s.rows[i]);
    DropHolderKeeps(s, i);
    UpdateKeepsGateway(s.(holders := s.holders - {i}), i, row);
  }

  /** A claimed row always has its key and its spool file, and the file holds exactly the
      bytes the row and the key were computed from. */
  lemma ClaimedRowIsReadable(s: System, i: nat)
    requires GatewayOk(s) && Holding(s, i)
    ensures s.rows[i].spool.Some? && s.rows[i].spool.value in s.spool
    ensures s.rows[i].content == Some(Sha256(s.spool[s.rows[i].spool.value]))
    ensures s.rows[i].tenant == s.pack.tenant
    ensures s.rows[i].key == Some(Edge(MaterialOf(s.pack, s.rows[i].content.value, s.rows[i].context)))
  {
    assert HolderOk(s.holders[i], i, s.rows, s.requests);
    assert RowOk(s.rows[i]) && AcceptedOk(s.rows[i], s.spool, s.pack);
  }

  lemma AddRequestKeeps(s: System, r: Request)
    requires GatewayOk(s) && RequestOk(r, s.inspections, s.pack) && r.phase == Sent
    ensures GatewayOk(s.(requests := s.requests + [r]))
  {
    RequestsKeepHolders(s.holders, s.rows, s.requests, s.requests + [r]);
    forall q | 0 <= q < |s.requests + [r]| ensures RequestOk((s.requests + [r])[q], s.inspections, s.pack) {
      if q < |s.requests| { assert RequestOk(s.requests[q], s.inspections, s.pack); }
    }
  }

  lemma SendKeeps(s: System, i: nat)
    requires GatewayOk(s)
    ensures var t := SendStep(s, i); GatewayOk(t) && Grows(s, t)
  {
    KeptReflexive(s.rows);
    if Holding(s, i) && s.holders[i].Ready? {
      ClaimedRowIsReadable(s, i);
      FormRoundTrip(s.rows[i].context, s.pack.mapping);
      assert HolderOk(s.holders[i], i, s.rows, s.requests);
      var r := RequestFor(s.pack, s.spool, s.rows[i]);
      AddRequestKeeps(s, r);
      HoldKeeps(s.(requests := s.requests + [r]), i, Waiting(|s.requests|));
    }
  }

  lemma ReceiveKeeps(s: System, i: nat, now: int, delay: int)
    requires GatewayOk(s)
    ensures var t := ReceiveStep(s, i, now, delay); GatewayOk(t) && Grows(s, t)
  {
    KeptReflexive(s.rows);
    if Answered(s, i) {
      var q := s.requests[s.holders[i].request];
      var reply := q.phase.reply;
      if reply.Created? || reply.Replayed? {
        UploadedKeeps(s, i, reply.inspection);
      } else {
        FailKeeps(s, i, Failure(reply).0, Failure(reply).1, now, delay);
      }
    }
  }

  lemma UploadedKeeps(s: System, i: nat, k: nat)
    requires GatewayOk(s) && Answered(s, i)
    requires var reply := s.requests[s.holders[i].request].phase.reply; reply == Created(k) || reply == Replayed(k)
    ensures var s' := s.(rows := MarkUploaded(s.rows, i, k), holders := s.holders - {i}); GatewayOk(s') && Grows(s, s')
  {
    assert HolderOk(s.holders[i], i, s.rows, s.requests);
    assert RequestOk(s.requests[s.holders[i].request], s.inspections, s.pack);
    MarksKeepLedger(s.rows, i, k, "", true, 0, 0);
    DropHolderKeeps(s, i);
    UpdateKeepsGateway(s.(holders := s.holders - {i}), i, MarkUploaded(s.rows, i, k)[i]);
  }

  lemma FailLocallyKeeps(s: System, i: nat, code: string, retryable: bool, now: int, delay: int)
    requires GatewayOk(s)
    ensures var t := FailLocallyStep(s, i, code, retryable, now, delay); GatewayOk(t) && Grows(s, t)
  {
    KeptReflexive(s.rows);
    if Holding(s, i) && code != "SPOOL_MISSING" { FailKeeps(s, i, code, retryable, now, delay); }
  }

  lemma LoseKeeps(s: System, i: nat, now: int, delay: int)
    requires GatewayOk(s)
    ensures var t := LoseStep(s, i, now, delay); GatewayOk(t) && Grows(s, t)
  {
    KeptReflexive(s.rows);
    if Holding(s, i) { FailKeeps(s, i, "UPLOAD_TRANSPORT_ERROR", true, now, delay); }
  }

  lemma SetPhaseKeeps(s: System, r: nat, phase: Phase)
    requires GatewayOk(s) && r < |s.requests|
    requires phase.Replied? ==> ReplyOk(phase.reply, s.requests[r], s.inspections, s.pack)
    requires phase.Replied? && phase.reply.Created? ==>
      forall q | 0 <= q < |s.requests| :: CreatedBy(s.requests[q]) != Some(phase.reply.inspection)
    ensures GatewayOk(s.(requests := s.requests[r := s.requests[r].(phase := phase)]))
  {
    var requests' := s.requests[r := s.requests[r].(phase := phase)];
    RequestsKeepHolders(s.holders, s.rows, s.requests, requests');
    assert RequestOk(s.requests[r], s.inspections, s.pack);
    forall q | 0 <= q < |requests'| ensures RequestOk(requests'[q], s.inspections, s.pack) {
      if q != r { assert RequestOk(s.requests[q], s.inspections, s.pack); }
    }
  }

  /** Whoever finds an edge key taken gets a replay: equal keys mean equal fingerprints. */
  lemma EdgeKeysReplay(s: System, r: nat, taken: nat)
    requires GatewayOk(s) && r < |s.requests|
    requires Names(s.inspections, taken, s.requests[r].tenant, s.requests[r].key)
    ensures ReplyOk(ReplayOrConflict(s, s.requests[r], taken), s.requests[r], s.inspections, s.pack)
    ensures !ReplayOrConflict(s, s.requests[r], taken).Created?
    ensures s.requests[r].key.Edge? ==> ReplayOrConflict(s, s.requests[r], taken) == Replayed(taken)
  {
    assert RequestOk(s.requests[r], s.inspections, s.pack);
    var q := s.requests[r];
    assert Serves(s.inspections, taken, q.tenant, q.key, FingerprintOf(q, s.pack.mapping))
      || Contradicts(s.inspections, taken, q.tenant, q.key, FingerprintOf(q, s.pack.mapping));
  }

  lemma LookupKeeps(s: System, r: nat)
    requires GatewayOk(s)
    ensures var t := LookupStep(s, r); GatewayOk(t) && Grows(s, t)
  {
    KeptReflexive(s.rows);
    if r < |s.requests| && s.requests[r].phase == Sent {
      var taken := FindInspection(s.inspections, s.requests[r].tenant, s.requests[r].key);
      if taken.Some? {
        EdgeKeysReplay(s, r, taken.value);
        SetPhaseKeeps(s, r, Replied(ReplayOrConflict(s, s.requests[r], taken.value)));
      } else {
        SetPhaseKeeps(s, r, Checked);
      }
    }
  }

  lemma AddInspectionKeeps(s: System, n: Inspection)
    requires GatewayOk(s)
    requires n.key.Edge? ==> n.fingerprint == KeyFingerprint(n.key.material)
    requires forall j | 0 <= j < |s.inspections| :: s.inspections[j].tenant != n.tenant || s.inspections[j].key != n.key
    ensures GatewayOk(s.(inspections := s.inspections + [n]))
  {
    InspectionsKeepRequests(s.requests, s.inspections, s.inspections + [n], s.pack);
  }

  lemma InsertKeeps(s: System, r: nat)
    requires GatewayOk(s)
    ensures var t := InsertStep(s, r); GatewayOk(t) && Grows(s, t)
  {
    KeptReflexive(s.rows);
    hide LedgerOk, RowsOk, ScansOk, HoldersOk, UploadedOk, MovedOk, SpoolOk;
    if r < |s.requests| && s.requests[r].phase == Checked {
      var q := s.requests[r];
      var taken := FindInspection(s.inspections, q.tenant, q.key);
      if taken.Some? {
        EdgeKeysReplay(s, r, taken.value);
        SetPhaseKeeps(s, r, Replied(ReplayOrConflict(s, q, taken.value)));
      } else {
        assert RequestOk(q, s.inspections, s.pack);
        var n := Inspection(q.tenant, q.key, FingerprintOf(q, s.pack.mapping));
        AddInspectionKeeps(s, n);
        forall q | 0 <= q < |s.requests| ensures CreatedBy(s.requests[q]) != Some(|s.inspections|) {
          assert RequestOk(s.requests[q], s.inspections, s.pack);
        }
        SetPhaseKeeps(s.(inspections := s.inspections + [n]), r, Replied(Created(|s.inspections|)));
      }
    }
  }

  lemma ForeignKeeps(s: System, r: Request)
    requires GatewayOk(s)
    ensures var t := ForeignStep(s, r); GatewayOk(t) && Grows(s, t)
  {
    KeptReflexive(s.rows);
    if ForeignStep(s, r) != s { AddRequestKeeps(s, r); }
  }

  lemma RefuseKeeps(s: System, r: nat, reply: Reply)
    requires GatewayOk(s)
    ensures var t := RefuseStep(s, r, reply); GatewayOk(t) && Grows(s, t)
  {
    KeptReflexive(s.rows);
    if RefuseStep(s, r, reply) != s { SetPhaseKeeps(s, r, Replied(reply)); }
  }

  lemma CrashKeeps(s: System)
    requires GatewayOk(s)
    ensures var s' := s.(up := false, scans := map[], holders := map[]); GatewayOk(s') && Grows(s, s')
  {
    KeptReflexive(s.rows);
    DropKeeps(s, map[], map[], false);
  }

  lemma RestartKeeps(s: System, now: int)
    requires GatewayOk(s)
    ensures var t := RestartStep(s, now); GatewayOk(t) && Grows(s, t)
  {
    KeptReflexive(s.rows);
    if !s.up {
      var rows' := RecoverInflight(s.rows, now);
      RecoverKeepsLedger(s.rows, now);
      KeptKeepsMoved(s.moved, s.rows, rows');
      forall i | 0 <= i < |rows'| && rows'[i].status != Rejected ensures AcceptedOk(rows'[i], s.spool, s.pack) {
        assert AcceptedOk(s.rows[i], s.spool, s.pack);
      }
    }
  }

  lemma RetryKeeps(s: System, i: nat, now: int)
    requires GatewayOk(s)
    ensures var t := RetryStep(s, i, now); GatewayOk(t) && Grows(s, t)
  {
    KeptReflexive(s.rows);
    if s.up && i < |s.rows| && s.rows[i].status == Failed {
      RetryKeepsLedger(s.rows, i, now);
      assert RowOk(s.rows[i]);
      HeldIsUploading(s, i);
      UpdateKeepsGateway(s, i, Retry(s.rows, i, now)[i]);
    }
  }

  lemma ScanEventKeeps(s: System, e: Event)
    requires GatewayOk(s) && IsScanEvent(e)
    ensures var t := DoScan(s, e); GatewayOk(t) && Grows(s, t)
  {
    hide GatewayOk, Grows, ReadStep, FingerprintStep, SpoolStep, EnqueueStep, RejectStep, MoveStep;
    hide IsUploadEvent, DoUpload, DoOther, Do, ScanOk, MoveOk;
    match e
    case WriteFile(path, file) => WriteKeeps(s, s.root[path := file]);
    case ReadFile(scan, path) => ReadKeeps(s, scan, path);
    case TakeFingerprint(scan) => FingerprintKeeps(s, scan);
    case SpoolFile(scan, extension, context) => SpoolKeeps(s, scan, extension, context);
    case EnqueueFile(scan, now) => EnqueueKeeps(s, scan, now);
    case RejectFile(scan, code, now) => RejectKeeps(s, scan, code, now);
    case MoveSource(scan) => MoveKeeps(s, scan);
    case AbandonScan(scan) => DropScanKeeps(s, scan);
  }

  lemma UploadEventKeeps(s: System, e: Event)
    requires GatewayOk(s) && IsUploadEvent(e)
    ensures var t := DoUpload(s, e); GatewayOk(t) && Grows(s, t)
  {
    hide GatewayOk, Grows, ClaimStep, SendStep, FailLocallyStep, ReceiveStep, LoseStep;
    match e
    case Claim(now) => ClaimKeeps(s, now);
    case Send(row) => SendKeeps(s, row);
    case FailLocally(row, code, retryable, now, delay) => FailLocallyKeeps(s, row, code, retryable, now, delay);
    case Receive(row, now, delay) => ReceiveKeeps(s, row, now, delay);
    case LoseReply(row, now, delay) => LoseKeeps(s, row, now, delay);
    case AbandonUpload(row) => DropHolderKeeps(s, row);
  }

  lemma OtherEventKeeps(s: System, e: Event)
    requires GatewayOk(s) && !IsScanEvent(e) && !IsUploadEvent(e)
    ensures var t := DoOther(s, e); GatewayOk(t) && Grows(s, t)
  {
    hide GatewayOk, Grows, ForeignStep, LookupStep, InsertStep, RefuseStep, RestartStep, RetryStep;
    match e
    case ForeignRequest(r) => ForeignKeeps(s, r);
    case Lookup(r) => LookupKeeps(s, r);
    case Insert(r) => InsertKeeps(s, r);
    case Refuse(r, reply) => RefuseKeeps(s, r, reply);
    case Crash => CrashKeeps(s);
    case Restart(now) => RestartKeeps(s, now);
    case ManualRetry(row, now) => RetryKeeps(s, row, now);
  }

  /** The invariant is inductive, and nothing that counts is ever taken back. */
  lemma EventKeeps(s: System, e: Event)
    requires GatewayOk(s)
    ensures var t := Do(s, e); GatewayOk(t) && Grows(s, t)
  {
    hide GatewayOk, Grows, IsScanEvent, IsUploadEvent, DoScan, DoUpload, DoOther;
    if IsScanEvent(e) { ScanEventKeeps(s, e); }
    else if IsUploadEvent(e) { UploadEventKeeps(s, e); }
    else { OtherEventKeeps(s, e); }
  }

  // ---- whole runs ------------------------------------------------------------------

  lemma {:induction false} RunKeeps(s: System, es: seq<Event>)
    requires GatewayOk(s)
    ensures var t := Run(s, es); GatewayOk(t) && Grows(s, t)
  {
    if es == [] {
      KeptReflexive(s.rows);
    } else {
      var init := es[..|es| - 1];
      RunKeeps(s, init);
      EventKeeps(Run(s, init), es[|es| - 1]);
      KeptTransitive(s.rows, Run(s, init).rows, Run(s, es).rows);
    }
  }

  lemma InitialOk(s: System)
    requires Initial(s)
    ensures GatewayOk(s)
  {
  }

  /** Running on: a longer run extends a shorter one. */
  lemma {:induction false} RunAppend(s: System, es: seq<Event>, more: seq<Event>)
    ensures Run(s, es + more) == Run(Run(s, es), more)
    decreases |more|
  {
    if more == [] {
      assert es + more == es;
    } else {
      var n := |more| - 1;
      assert (es + more)[..|es + more| - 1] == es + more[..n];
      RunAppend(s, es, more[..n]);
    }
  }

  /** An uploaded row names the inspection of its own key, made of its own content and context. */
  ghost predicate TellsTheTruth(row: Row, inspections: seq<Inspection>) {
    && row.inspection.Some? && row.key.Some? && row.key.value.Edge?
    && Names(inspections, row.inspection.value, row.tenant, row.key.value)
    && row.content == Some(inspections[row.inspection.value].fingerprint.image)
    && inspections[row.inspection.value].fingerprint.context == Canonical(row.context)
  }

  /** However many requests carried an edge key, none was told Conflict and at most one inserted. */
  ghost predicate OneInsertForEachKey(requests: seq<Request>) {
    && (forall r | 0 <= r < |requests| && requests[r].key.Edge? :: requests[r].phase != Replied(Conflict))
    && (forall q, r | 0 <= q < r < |requests| && CreatedBy(requests[q]).Some? && CreatedBy(requests[r]).Some? ::
          requests[q].tenant != requests[r].tenant || requests[q].key != requests[r].key)
  }

  lemma RequestsInsertOnce(s: System)
    requires GatewayOk(s)
    ensures OneInsertForEachKey(s.requests)
  {
    forall q, r | 0 <= q < r < |s.requests| && CreatedBy(s.requests[q]).Some? && CreatedBy(s.requests[r]).Some?
      ensures s.requests[q].tenant != s.requests[r].tenant || s.requests[q].key != s.requests[r].key
    {
      assert RequestOk(s.requests[q], s.inspections, s.pack) && RequestOk(s.requests[r], s.inspections, s.pack);
    }
    forall r | 0 <= r < |s.requests| && s.requests[r].key.Edge? ensures s.requests[r].phase != Replied(Conflict) {
      assert RequestOk(s.requests[r], s.inspections, s.pack);
    }
  }

  lemma UploadedRowsDiffer(s: System, i: nat, j: nat)
    requires GatewayOk(s) && i < j < |s.rows| && s.rows[i].status == Uploaded && s.rows[j].status == Uploaded
    ensures s.rows[i].inspection != s.rows[j].inspection
  {
    UploadedRowHasItsInspection(s, i);
    UploadedRowHasItsInspection(s, j);
    assert !SamePrimaryKey(s.rows[i], s.rows[j]);
  }

  /** Exactly-once upload, whatever is interleaved, lost, late, crashed or retried. */
  lemma ExactlyOnceUpload(s0: System, es: seq<Event>)
    requires Initial(s0)
    ensures var s := Run(s0, es);
      && OneForEachKey(s.inspections)
      && (forall i | 0 <= i < |s.rows| && s.rows[i].status == Uploaded :: TellsTheTruth(s.rows[i], s.inspections))
      && (forall i, j | 0 <= i < j < |s.rows| && s.rows[i].status == Uploaded && s.rows[j].status == Uploaded ::
            s.rows[i].inspection != s.rows[j].inspection)
      && OneInsertForEachKey(s.requests)
  {
    InitialOk(s0);
    RunKeeps(s0, es);
    SoundStateUploadedOnce(Run(s0, es));
  }

  lemma SoundStateUploadedOnce(s: System)
    requires GatewayOk(s)
    ensures OneForEachKey(s.inspections) && OneInsertForEachKey(s.requests)
    ensures forall i | 0 <= i < |s.rows| && s.rows[i].status == Uploaded :: TellsTheTruth(s.rows[i], s.inspections)
    ensures forall i, j | 0 <= i < j < |s.rows| && s.rows[i].status == Uploaded && s.rows[j].status == Uploaded ::
      s.rows[i].inspection != s.rows[j].inspection
  {
    assert OneForEachKey(s.inspections);
    hide GatewayOk, OneInsertForEachKey;
    RequestsInsertOnce(s);
    forall i | 0 <= i < |s.rows| && s.rows[i].status == Uploaded ensures TellsTheTruth(s.rows[i], s.inspections) {
      UploadedRowHasItsInspection(s, i);
    }
    forall i, j | 0 <= i < j < |s.rows| && s.rows[i].status == Uploaded && s.rows[j].status == Uploaded
      ensures s.rows[i].inspection != s.rows[j].inspection
    {
      UploadedRowsDiffer(s, i, j);
    }
  }

  lemma UploadedRowHasItsInspection(s: System, i: nat)
    requires GatewayOk(s) && i < |s.rows| && s.rows[i].status == Uploaded
    ensures s.rows[i].tenant == s.pack.tenant && TellsTheTruth(s.rows[i], s.inspections)
  {
    assert RowOk(s.rows[i]) && AcceptedOk(s.rows[i], s.spool, s.pack);
  }

  /** No accepted image is lost: at every point of every run each accepted row, or the
      primary a duplicate names, has a spool file with exactly its content, and whatever left
      the watch root has the row of its own source, made of the bytes that were read if the
      moving scan made it. */
  lemma NoAcceptedImageIsLost(s0: System, es: seq<Event>)
    requires Initial(s0)
    ensures var s := Run(s0, es);
      && (forall i | 0 <= i < |s.rows| && s.rows[i].status != Rejected :: Retained(s.rows, s.spool, i))
      && (forall m | 0 <= m < |s.moved| :: MoveOk(s.moved[m], s.rows))
      && (forall i | 0 <= i < |s.rows| :: s.rows[i].errorCode != Some("SPOOL_MISSING"))
  {
    InitialOk(s0);
    RunKeeps(s0, es);
    var s := Run(s0, es);
    forall i | 0 <= i < |s.rows| && s.rows[i].status != Rejected ensures Retained(s.rows, s.spool, i) {
      AcceptedRowIsRetained(s, i);
    }
    forall i | 0 <= i < |s.rows| ensures s.rows[i].errorCode != Some("SPOOL_MISSING") { assert RowOk(s.rows[i]); }
  }

  lemma AcceptedRowIsRetained(s: System, i: nat)
    requires GatewayOk(s) && i < |s.rows| && s.rows[i].status != Rejected
    ensures Retained(s.rows, s.spool, i)
  {
    assert RowOk(s.rows[i]) && DedupOk(s.rows, i);
    assert AcceptedOk(s.rows[i], s.spool, s.pack);
    if s.rows[i].dedupOf.Some? {
      var p := s.rows[i].dedupOf.value;
      assert RowOk(s.rows[p]) && AcceptedOk(s.rows[p], s.spool, s.pack);
    }
  }

  /** Terminal rows, spool files and committed inspections survive everything that follows. */
  lemma NothingIsTakenBack(s0: System, es: seq<Event>, more: seq<Event>)
    requires Initial(s0)
    ensures var s, t := Run(s0, es), Run(s0, es + more);
      && |s.rows| <= |t.rows|
      && (forall i | 0 <= i < |s.rows| && Terminal(s.rows[i].status) :: t.rows[i] == s.rows[i])
      && (forall i | 0 <= i < |s.rows| :: t.rows[i].key == s.rows[i].key && t.rows[i].dedupOf == s.rows[i].dedupOf)
      && SpoolKept(s.spool, t.spool)
      && s.inspections <= t.inspections
  {
    InitialOk(s0);
    RunKeeps(s0, es);
    RunKeeps(Run(s0, es), more);
    RunAppend(s0, es, more);
    var s, t := Run(s0, es), Run(s0, es + more);
    forall i | 0 <= i < |s.rows|
      ensures Terminal(s.rows[i].status) ==> t.rows[i] == s.rows[i]
      ensures t.rows[i].key == s.rows[i].key && t.rows[i].dedupOf == s.rows[i].dedupOf
    {
      assert RowKept(s.rows[i], t.rows[i]);
    }
  }

  // ---- recovery: a healthy cycle always finishes -------------------------------------

  lemma ClaimAndSend(s: System, now: int)
    requires GatewayOk(s) && s.up && FindDue(s.rows, now).Some?
    ensures var i, r, t := FindDue(s.rows, now).value, |s.requests|, SendStep(ClaimStep(s, now), FindDue(s.rows, now).value);
      && GatewayOk(t) && t.up && i < |t.rows| && i in t.holders && t.holders[i] == Waiting(r)
      && |t.requests| == r + 1 && t.requests[r].phase == Sent && t.requests[r].key.Edge?
  {
    hide GatewayOk, Grows;
    var i := FindDue(s.rows, now).value;
    ClaimKeeps(s, now);
    ClaimedRowIsReadable(ClaimStep(s, now), i);
    SendKeeps(ClaimStep(s, now), i);
  }

  ghost function HealthyCycle(s: System, i: nat, r: nat, now: int): System {
    InsertStep(LookupStep(SendStep(ClaimStep(s, now), i), r), r)
  }

  /** Whatever happened before, with the backend reachable one claimed row becomes UPLOADED,
      by creation or by replay of what an earlier lost request created. */
  lemma HealthyCycleUploads(s: System, now: int, later: int)
    requires GatewayOk(s) && s.up && FindDue(s.rows, now).Some?
    ensures var i := FindDue(s.rows, now).value;
      var t := ReceiveStep(HealthyCycle(s, i, |s.requests|, now), i, later, 0);
      i < |t.rows| && t.rows[i].status == Uploaded
  {
    AnswerAwaits(s, now);
  }

  lemma AnswerAwaits(s: System, now: int)
    requires GatewayOk(s) && s.up && FindDue(s.rows, now).Some?
    ensures var i, r := FindDue(s.rows, now).value, |s.requests|;
      var t := HealthyCycle(s, i, r, now);
      && Answered(t, i)
      && (t.requests[t.holders[i].request].phase.reply.Created? || t.requests[t.holders[i].request].phase.reply.Replayed?)
  {
    var i, r := FindDue(s.rows, now).value, |s.requests|;
    ClaimAndSend(s, now);
    var s2 := SendStep(ClaimStep(s, now), i);
    LookupKeeps(s2, r);
    LookupOfEdgeKey(s2, r);
    InsertOfEdgeKey(LookupStep(s2, r), r);
  }

  lemma LookupOfEdgeKey(s: System, r: nat)
    requires GatewayOk(s) && r < |s.requests| && s.requests[r].phase == Sent && s.requests[r].key.Edge?
    ensures var t := LookupStep(s, r);
      && t == s.(requests := t.requests) && |t.requests| == |s.requests|
      && t.requests[r].key == s.requests[r].key
      && (t.requests[r].phase == Checked || (t.requests[r].phase.Replied? && t.requests[r].phase.reply.Replayed?))
  {
    var taken := FindInspection(s.inspections, s.requests[r].tenant, s.requests[r].key);
    if taken.Some? { EdgeKeysReplay(s, r, taken.value); }
  }

  lemma InsertOfEdgeKey(s: System, r: nat)
    requires GatewayOk(s) && r < |s.requests| && s.requests[r].key.Edge?
    requires s.requests[r].phase == Checked || (s.requests[r].phase.Replied? && s.requests[r].phase.reply.Replayed?)
    ensures var t := InsertStep(s, r);
      && t == s.(requests := t.requests, inspections := t.inspections) && |t.requests| == |s.requests|
      && t.requests[r].phase.Replied?
      && (t.requests[r].phase.reply.Created? || t.requests[r].phase.reply.Replayed?)
  {
    var taken := FindInspection(s.inspections, s.requests[r].tenant, s.requests[r].key);
    if taken.Some? { EdgeKeysReplay(s, r, taken.value); }
  }

  // ---- what each answer does to its row ----------------------------------------------------

  /** Only this row has changed. */
  predicate OnlyRow(rows: seq<Row>, rows': seq<Row>, i: nat) {
    i < |rows| && |rows'| == |rows| && forall j | 0 <= j < |rows| && j != i :: rows'[j] == rows[j]
  }

  /** Created and Replayed end the row UPLOADED under the inspection they name.  After a server
      error or an answer without an inspection the row is claimable exactly from the end of its
      delay; after any other answer never again.  Nothing else in the ledger moves. */
  lemma AnswerDecides(s: System, i: nat, now: int, delay: int)
    requires Answered(s, i)
    ensures var reply, t := s.requests[s.holders[i].request].phase.reply, ReceiveStep(s, i, now, delay);
      && OnlyRow(s.rows, t.rows, i) && t.rows[i].attempts == s.rows[i].attempts && i !in t.holders
      && (if reply.Created? || reply.Replayed? then
            t.rows[i].status == Uploaded && t.rows[i].inspection == Some(reply.inspection) && NeverDue(t.rows[i])
          else
            FailedUntil(t.rows[i], reply.ServerError? || reply.Malformed?, if delay > 0 then now + delay else now))
  {
  }

  /** A lost reply leaves its row claimable exactly from the end of its delay. */
  lemma LossDecides(s: System, i: nat, now: int, delay: int)
    requires Holding(s, i) && s.holders[i].Waiting?
    ensures var t := LoseStep(s, i, now, delay);
      && OnlyRow(s.rows, t.rows, i) && t.rows[i].attempts == s.rows[i].attempts && i !in t.holders
      && FailedUntil(t.rows[i], true, if delay > 0 then now + delay else now)
  {
  }

  /** What the enqueue of a spooled file commits: one row about its tenant, source, bytes and
      context, under the key of exactly those and the pack, claimable at once and readable, or
      recognised as a duplicate; a known source commits nothing. */
  lemma EnqueueCommitsTheFile(s: System, scan: nat, now: int)
    requires GatewayOk(s) && Scanning(s, scan) && s.scans[scan].Spooled?
    ensures var sc, t := s.scans[scan], EnqueueStep(s, scan, now);
      scan in t.scans && t.scans[scan].Recorded? &&
      if exists i :: 0 <= i < |s.rows| && s.rows[i].source == sc.source then t.rows == s.rows && t.scans[scan].made.None?
      else
        var row := t.rows[|s.rows|];
        var key := Edge(Material(s.pack.tenant, s.pack.packKey, s.pack.version, Sha256(sc.data), sc.context));
        && |t.rows| == |s.rows| + 1 && t.rows[..|s.rows|] == s.rows && t.scans[scan].made == Some(|s.rows|)
        && row.tenant == s.pack.tenant && row.source == sc.source && row.content == Some(Sha256(sc.data))
        && row.context == sc.context && row.key == Some(key)
        && (if exists i :: 0 <= i < |s.rows| && IsPrimaryFor(s.rows[i], s.pack.tenant, key) then
              NeverDue(row) && row.dedupOf.Some?
            else DueFrom(row, now) && row.spool.Some? && row.spool.value in t.spool && t.spool[row.spool.value] == sc.data)
  {
    assert ScanOk(s.scans[scan], s.rows, s.spool);
    assert Sha256(s.spool[s.scans[scan].spool]) == Sha256(s.scans[scan].data);
    hide GatewayOk, Enqueue;
    EnqueueDecides(s.rows, ItemOf(s.pack, s.scans[scan]), now);
  }

  /** What a rejection commits: one row that is never claimed and carries the code, about the file as
      it is found then; a known source commits nothing. */
  lemma RejectCommitsTheCode(s: System, scan: nat, code: string, now: int)
    requires Scanning(s, scan) && s.scans[scan].Fingerprinted? && code != "SPOOL_MISSING"
    ensures var source, t := SourceOf(s.scans[scan].path, s.root), RejectStep(s, scan, code, now);
      if exists i :: 0 <= i < |s.rows| && s.rows[i].source == source then t.rows == s.rows
      else
        && |t.rows| == |s.rows| + 1 && t.rows[..|s.rows|] == s.rows && t.rows[|s.rows|].source == source
        && t.rows[|s.rows|].status == Rejected && t.rows[|s.rows|].errorCode == Some(code) && NeverDue(t.rows[|s.rows|])
  {
    hide RecordRejection, FilesAlone, ScanAdvances;
    RejectionDecides(s.rows, s.pack.tenant, SourceOf(s.scans[scan].path, s.root), code, now);
  }

  /** A failure before anything was sent is settled as the uploader judged it. */
  lemma LocalFailureDecides(s: System, i: nat, code: string, retryable: bool, now: int, delay: int)
    requires Holding(s, i) && s.holders[i].Ready? && code != "SPOOL_MISSING"
    ensures var t := FailLocallyStep(s, i, code, retryable, now, delay);
      && OnlyRow(s.rows, t.rows, i) && t.rows[i].errorCode == Some(code) && i !in t.holders
      && FailedUntil(t.rows[i], retryable, if delay > 0 then now + delay else now)
  {
  }

  /** Every answer is about the request it answers: Created and Replayed name the inspection of its
      tenant and key, made of its own bytes and fields; Conflict is said only when that inspection
      was made of something else. */
  lemma AnswersAreHonest(s0: System, es: seq<Event>, r: nat)
    requires Initial(s0) && r < |Run(s0, es).requests| && Run(s0, es).requests[r].phase.Replied?
    ensures var s := Run(s0, es);
      var q, made := s.requests[r], FingerprintOf(s.requests[r], s.pack.mapping);
      match q.phase.reply
      case Created(k) => Serves(s.inspections, k, q.tenant, q.key, made)
      case Replayed(k) => Serves(s.inspections, k, q.tenant, q.key, made)
      case Conflict => exists k :: Contradicts(s.inspections, k, q.tenant, q.key, made)
      case _ => true
  {
    InitialOk(s0);
    RunKeeps(s0, es);
    assert RequestOk(Run(s0, es).requests[r], Run(s0, es).inspections, Run(s0, es).pack);
  }

  /** A request whose tenant and key are taken is answered by that inspection: replayed to the same
      bytes and fields, refused to any others, and nothing is inserted. */
  lemma TakenKeyIsAnswered(s: System, r: nat, k: nat)
    requires GatewayOk(s) && r < |s.requests| && s.requests[r].phase == Sent
    requires Names(s.inspections, k, s.requests[r].tenant, s.requests[r].key)
    ensures var t := InsertStep(LookupStep(s, r), r);
      && |t.requests| == |s.requests| && t.inspections == s.inspections
      && t.requests[r].phase == Replied(
           if s.inspections[k].fingerprint == FingerprintOf(s.requests[r], s.pack.mapping) then Replayed(k) else Conflict)
  {
    assert OneForEachKey(s.inspections);
    var q := s.requests[r];
    assert FindInspection(s.inspections, q.tenant, q.key) == Some(k);
    hide GatewayOk, FindInspection, FingerprintOf, LookupStep, InsertStep;
    LookupFinds(s, r);
    AnsweredIsDone(LookupStep(s, r), r);
  }

  /** A request under a new tenant and key makes exactly one inspection, of its own bytes and fields. */
  lemma NewKeyIsInserted(s: System, r: nat)
    requires GatewayOk(s) && r < |s.requests| && s.requests[r].phase == Sent
    requires forall k :: !Names(s.inspections, k, s.requests[r].tenant, s.requests[r].key)
    ensures var q, t := s.requests[r], InsertStep(LookupStep(s, r), r);
      && |t.requests| == |s.requests| && t.requests[r].phase == Replied(Created(|s.inspections|))
      && t.inspections == s.inspections + [Inspection(q.tenant, q.key, FingerprintOf(q, s.pack.mapping))]
  {
    var q, taken := s.requests[r], FindInspection(s.inspections, s.requests[r].tenant, s.requests[r].key);
    assert taken.Some? ==> Names(s.inspections, taken.value, q.tenant, q.key);
    assert taken.None?;
    hide GatewayOk, FindInspection, FingerprintOf, LookupStep, InsertStep;
    LookupFinds(s, r);
    var u := LookupStep(s, r);
    SameFingerprint(q, u.requests[r], s.pack.mapping);
    InsertMakes(u, r);
  }

  lemma SameFingerprint(q: Request, r: Request, m: map<string, string>)
    requires MappingOk(m) && q.data == r.data && q.form == r.form
    ensures FingerprintOf(q, m) == FingerprintOf(r, m)
  {
  }

  lemma LookupFinds(s: System, r: nat)
    requires r < |s.requests| && s.requests[r].phase == Sent
    ensures var q, t := s.requests[r], LookupStep(s, r);
      var taken := FindInspection(s.inspections, q.tenant, q.key);
      t == s.(requests := s.requests[r := q.(phase := t.requests[r].phase)])
      && if taken.None? then t.requests[r].phase == Checked
         else t.requests[r].phase == Replied(
           if s.inspections[taken.value].fingerprint == FingerprintOf(q, s.pack.mapping) then Replayed(taken.value) else Conflict)
  {
    hide FindInspection, FingerprintOf, FilesAlone;
  }

  lemma AnsweredIsDone(s: System, r: nat)
    requires r < |s.requests| && s.requests[r].phase.Replied?
    ensures InsertStep(s, r) == s
  {
    hide FindInspection, FingerprintOf, FilesAlone;
  }

  lemma InsertMakes(s: System, r: nat)
    requires r < |s.requests| && s.requests[r].phase == Checked
    requires FindInspection(s.inspections, s.requests[r].tenant, s.requests[r].key).None?
    ensures var q, t := s.requests[r], InsertStep(s, r);
      t == s.(requests := s.requests[r := q.(phase := Replied(Created(|s.inspections|)))],
              inspections := s.inspections + [Inspection(q.tenant, q.key, FingerprintOf(q, s.pack.mapping))])
  {
    hide FindInspection, FingerprintOf, FilesAlone;
  }

  // ---- every due row gets through -----------------------------------------------------------

  function DueCount(rows: seq<Row>, at: int): nat {
    if rows == [] then 0 else DueCount(rows[..|rows| - 1], at) + if IsDue(rows[|rows| - 1], at) then 1 else 0
  }

  lemma {:induction false} DueCountUpdate(rows: seq<Row>, i: nat, row: Row, at: int)
    requires i < |rows| && IsDue(rows[i], at) && !IsDue(row, at)
    ensures DueCount(rows[i := row], at) == DueCount(rows, at) - 1
  {
    var n := |rows| - 1;
    if i == n {
      assert rows[i := row][..n] == rows[..n];
    } else {
      DueCountUpdate(rows[..n], i, row, at);
      assert rows[i := row][..n] == rows[..n][i := row];
    }
  }

  lemma {:induction false} DueCountZero(rows: seq<Row>, at: int)
    requires DueCount(rows, at) == 0
    ensures forall i | 0 <= i < |rows| :: !IsDue(rows[i], at)
  {
    if rows != [] {
      DueCountZero(rows[..|rows| - 1], at);
      forall i | 0 <= i < |rows| ensures !IsDue(rows[i], at) {
        if i < |rows| - 1 { assert rows[..|rows| - 1][i] == rows[i]; }
      }
    }
  }

  lemma DueCountZeroUnless(rows: seq<Row>, at: int)
    ensures DueCount(rows, at) == 0 || FindDue(rows, at).None? ==> forall i | 0 <= i < |rows| :: !IsDue(rows[i], at)
  {
    if DueCount(rows, at) == 0 { DueCountZero(rows, at); }
  }

  lemma {:induction false} DueCountBound(rows: seq<Row>, at: int)
    ensures DueCount(rows, at) <= |rows|
  {
    if rows != [] { DueCountBound(rows[..|rows| - 1], at); }
  }

  /** One undisturbed cycle from the claim to the mark. */
  ghost function Cycle(s: System, at: int, later: int): System
    requires FindDue(s.rows, at).Some?
  {
    ReceiveStep(HealthyCycle(s, FindDue(s.rows, at).value, |s.requests|, at), FindDue(s.rows, at).value, later, 0)
  }

  lemma CycleUploadsOne(s: System, at: int, later: int)
    requires GatewayOk(s) && s.up && FindDue(s.rows, at).Some?
    ensures var i, t := FindDue(s.rows, at).value, Cycle(s, at, later);
      && GatewayOk(t) && t.up && OnlyRow(s.rows, t.rows, i) && IsDue(s.rows[i], at)
      && t.rows[i].status == Uploaded && !IsDue(t.rows[i], at)
  {
    hide GatewayOk, Grows;
    var i, r := FindDue(s.rows, at).value, |s.requests|;
    AnswerAwaits(s, at);
    CycleRows(s, i, r, at);
    var u := HealthyCycle(s, i, r, at);
    AnswerDecides(u, i, later, 0);
    CycleKeeps(s, i, r, at);
    ReceiveKeeps(u, i, later, 0);
  }

  lemma CycleKeeps(s: System, i: nat, r: nat, at: int)
    requires GatewayOk(s)
    ensures GatewayOk(HealthyCycle(s, i, r, at))
  {
    hide GatewayOk, Grows, ClaimStep, SendStep, LookupStep, InsertStep;
    ClaimKeeps(s, at);
    SendKeeps(ClaimStep(s, at), i);
    LookupKeeps(SendStep(ClaimStep(s, at), i), r);
    InsertKeeps(LookupStep(SendStep(ClaimStep(s, at), i), r), r);
  }

  /** Up to the answer a cycle only claims its row. */
  lemma CycleRows(s: System, i: nat, r: nat, at: int)
    requires GatewayOk(s) && s.up && FindDue(s.rows, at) == Some(i) && r == |s.requests|
    ensures var u := HealthyCycle(s, i, r, at); u.up && OnlyRow(s.rows, u.rows, i)
  {
    hide GatewayOk, Grows, LookupStep, InsertStep, FilesAlone;
    ClaimKeeps(s, at);
    ClaimAndSend(s, at);
    ClaimedRowIsReadable(ClaimStep(s, at), i);
  }

  /** Up to n healthy cycles, as long as something is due. */
  ghost function Drain(s: System, at: int, later: int, n: nat): System
    decreases n
  {
    if n == 0 || FindDue(s.rows, at).None? then s else Drain(Cycle(s, at, later), at, later, n - 1)
  }

  /** Whatever happened before, with the backend reachable the process uploads every row that is
      due, in at most as many cycles as there are such rows, and touches no other row. */
  lemma {:induction false} HealthyCyclesDrain(s: System, at: int, later: int, n: nat)
    requires GatewayOk(s) && s.up && n >= DueCount(s.rows, at)
    ensures var t := Drain(s, at, later, n);
      && GatewayOk(t) && t.up && |t.rows| == |s.rows|
      && (forall i | 0 <= i < |s.rows| :: if IsDue(s.rows[i], at) then t.rows[i].status == Uploaded else t.rows[i] == s.rows[i])
    decreases n
  {
    DueCountZeroUnless(s.rows, at);
    hide GatewayOk, Cycle, IsDue, FindDue, DueCount;
    if n > 0 && FindDue(s.rows, at).Some? {
      var i, t := FindDue(s.rows, at).value, Cycle(s, at, later);
      CycleUploadsOne(s, at, later);
      DueCountUpdate(s.rows, i, t.rows[i], at);
      assert t.rows == s.rows[i := t.rows[i]];
      HealthyCyclesDrain(t, at, later, n - 1);
    }
  }

  /** A lost reply is repaired: once its delay is over, healthy cycles end the row UPLOADED, under
      the inspection the lost request may have created or under a new one. */
  lemma LostReplyIsRepaired(s: System, i: nat, now: int, delay: int, at: int, later: int)
    requires GatewayOk(s) && Holding(s, i) && s.holders[i].Waiting? && at >= now && at >= now + delay
    ensures var t := Drain(LoseStep(s, i, now, delay), at, later, |s.rows|);
      i < |t.rows| && t.rows[i].status == Uploaded && TellsTheTruth(t.rows[i], t.inspections)
  {
    hide GatewayOk, Grows, Drain, Cycle, TellsTheTruth;
    var u := LoseStep(s, i, now, delay);
    LoseKeeps(s, i, now, delay);
    LossDecides(s, i, now, delay);
    assert IsDue(u.rows[i], at);
    DueCountBound(u.rows, at);
    HealthyCyclesDrain(u, at, later, |s.rows|);
    UploadedRowHasItsInspection(Drain(u, at, later, |s.rows|), i);
  }

  /** So is a crash in the middle of an upload: after the restart healthy cycles end the row UPLOADED. */
  lemma CrashedUploadIsRepaired(s: System, i: nat, now: int, at: int, later: int)
    requires GatewayOk(s) && i < |s.rows| && s.rows[i].status == Uploading && at >= now
    ensures var t := Drain(RestartStep(s.(up := false, scans := map[], holders := map[]), now), at, later, |s.rows|);
      i < |t.rows| && t.rows[i].status == Uploaded && TellsTheTruth(t.rows[i], t.inspections)
  {
    hide GatewayOk, Grows, Drain, Cycle, TellsTheTruth;
    var down := s.(up := false, scans := map[], holders := map[]);
    CrashKeeps(s);
    RestartKeeps(down, now);
    RecoveryDecides(s.rows, now, i);
    var u := RestartStep(down, now);
    assert IsDue(u.rows[i], at);
    DueCountBound(u.rows, at);
    HealthyCyclesDrain(u, at, later, |s.rows|);
    UploadedRowHasItsInspection(Drain(u, at, later, |s.rows|), i);
  }

  // ---- leaving the watch root ------------------------------------------------------------

  /** A path leaves the watch root only by the move of a scan whose row is already committed. */
  lemma SourceLeavesAfterItsRow(s0: System, es: seq<Event>, e: Event, path: string)
    requires Initial(s0)
    requires path in Run(s0, es).root && path !in Do(Run(s0, es), e).root
    ensures var s := Run(s0, es);
      && e.MoveSource? && e.scan in s.scans && s.scans[e.scan].Recorded? && s.scans[e.scan].path == path
      && FindSource(s.rows, s.scans[e.scan].source).Some? && s.scans[e.scan].source.path == path
      && MadeOk(s.scans[e.scan].made, s.scans[e.scan].source, s.scans[e.scan].data, s.rows)
  {
    InitialOk(s0);
    RunKeeps(s0, es);
    OnlyMovesEmptyThePath(Run(s0, es), e, path);
    assert ScanOk(Run(s0, es).scans[e.scan], Run(s0, es).rows, Run(s0, es).spool);
  }

  lemma UploadsLeaveFilesAlone(s: System, e: Event)
    requires IsUploadEvent(e)
    ensures FilesAlone(s, DoUpload(s, e))
  {
    hide FilesAlone, ClaimStep, SendStep, FailLocallyStep, ReceiveStep, LoseStep;
    if e.AbandonUpload? { SameFiles(s, s.(holders := s.holders - {e.row})); }
  }

  lemma SameFiles(s: System, t: System)
    requires t.root == s.root && t.moved == s.moved && t.scans == s.scans
    ensures FilesAlone(s, t)
  {
  }

  lemma OthersLeaveFilesAlone(s: System, e: Event)
    requires !IsScanEvent(e) && !IsUploadEvent(e) && !e.Crash?
    ensures FilesAlone(s, DoOther(s, e))
  {
    hide FilesAlone, ForeignStep, LookupStep, InsertStep, RefuseStep, RestartStep, RetryStep;
  }

  lemma FilesChangeByScans(s: System, e: Event)
    requires !IsScanEvent(e)
    ensures FilesAlone(s, Do(s, e)) || Do(s, e) == s.(up := false, scans := map[], holders := map[])
  {
    hide FilesAlone, DoUpload;
    if IsUploadEvent(e) { UploadsLeaveFilesAlone(s, e); } else if !e.Crash? { OthersLeaveFilesAlone(s, e); }
  }

  predicate Steps(e: Event) {
    e.TakeFingerprint? || e.SpoolFile? || e.EnqueueFile? || e.RejectFile?
  }

  lemma StepsAdvanceOneScan(s: System, e: Event)
    requires Steps(e)
    ensures ScanAdvances(s, Do(s, e), e.scan)
  {
    hide ScanAdvances, ReadStep, MoveStep, FingerprintStep, SpoolStep, EnqueueStep, RejectStep, DoUpload, DoOther;
  }

  /** A path that is there after anything but a write to it was there with the same file. */
  lemma PathChangesByWriting(s: System, e: Event, path: string)
    requires path in Do(s, e).root && !(e.WriteFile? && e.path == path)
    ensures path in s.root && s.root[path] == Do(s, e).root[path]
  {
    hide FingerprintStep, SpoolStep, EnqueueStep, RejectStep, DoUpload, DoOther;
    if Steps(e) { StepsAdvanceOneScan(s, e); }
    if !IsScanEvent(e) { FilesChangeByScans(s, e); }
  }

  lemma OnlyMovesEmptyThePath(s: System, e: Event, path: string)
    requires path in s.root && path !in Do(s, e).root
    ensures e.MoveSource? && Scanning(s, e.scan) && s.scans[e.scan].Recorded? && s.scans[e.scan].path == path
  {
    hide FingerprintStep, SpoolStep, EnqueueStep, RejectStep, DoUpload, DoOther;
    if Steps(e) { StepsAdvanceOneScan(s, e); }
    if !IsScanEvent(e) { FilesChangeByScans(s, e); }
  }

  /** What the environment wrote to this path last. */
  function LastWrite(es: seq<Event>, path: string): Option<File> {
    if es == [] then None
    else
      var last := es[|es| - 1];
      if last.WriteFile? && last.path == path then Some(last.file) else LastWrite(es[..|es| - 1], path)
  }

  /** No event starts another scan under this number. */
  predicate ReadsOnce(es: seq<Event>, n: nat) {
    forall k | 0 <= k < |es| :: !(es[k].ReadFile? && es[k].scan == n)
  }

  /** What is at a path is what was written there last. */
  lemma {:induction false} RootIsLastWrite(s: System, es: seq<Event>, path: string)
    requires path in Run(s, es).root
    ensures LastWrite(es, path).Some? ==> Run(s, es).root[path] == LastWrite(es, path).value
    ensures LastWrite(es, path).None? ==> path in s.root && Run(s, es).root[path] == s.root[path]
  {
    if es != [] {
      var init, last := es[..|es| - 1], es[|es| - 1];
      if !(last.WriteFile? && last.path == path) {
        PathChangesByWriting(Run(s, init), last, path);
        RootIsLastWrite(s, init, path);
      }
    }
  }

  lemma ScanKeepsItsBytes(s: System, e: Event, n: nat)
    requires !(e.ReadFile? && e.scan == n) && n in Do(s, e).scans
    ensures n in s.scans && Do(s, e).scans[n].path == s.scans[n].path && Do(s, e).scans[n].data == s.scans[n].data
  {
    hide FingerprintStep, SpoolStep, EnqueueStep, RejectStep, DoUpload, DoOther;
    if Steps(e) { StepsAdvanceOneScan(s, e); }
    if !IsScanEvent(e) { FilesChangeByScans(s, e); }
  }

  lemma {:induction false} RunKeepsBytes(s: System, es: seq<Event>, n: nat)
    requires ReadsOnce(es, n) && n in Run(s, es).scans
    ensures n in s.scans && Run(s, es).scans[n].path == s.scans[n].path && Run(s, es).scans[n].data == s.scans[n].data
  {
    if es != [] {
      var init := es[..|es| - 1];
      assert forall k | 0 <= k < |init| :: init[k] == es[k];
      ScanKeepsItsBytes(Run(s, init), es[|es| - 1], n);
      RunKeepsBytes(s, init, n);
    }
  }

  /** What a move takes, of a scan that has recorded its source. */
  lemma MoveTakes(t: System, n: nat)
    requires GatewayOk(t) && MoveStep(t, n).moved != t.moved
    ensures n in t.scans && t.scans[n].Recorded? && t.scans[n].path in t.root
    ensures var sc, u := t.scans[n], MoveStep(t, n);
      var m := Move(sc.path, sc.data, sc.source, sc.made, t.root[sc.path]);
      u.moved == t.moved + [m] && u.rows == t.rows && MoveOk(m, u.rows)
  {
    assert ScanOk(t.scans[n], t.rows, t.spool);
  }

  lemma ReadStarts(s: System, n: nat, path: string)
    requires s.up && n !in s.scans && path in s.root
    ensures Do(s, ReadFile(n, path)) == s.(scans := s.scans[n := Read(path, s.root[path].data)])
  {
    hide FingerprintStep, SpoolStep, EnqueueStep, RejectStep, MoveStep, DoUpload, DoOther;
  }

  /** The move takes whatever is at the path by then.  Whatever happens between the read of a
      scan and its move, in any order and by anybody, the bytes it moves away are the bytes it
      read, and recorded if it made the row, exactly when the last write to the path in
      between, if there was one, wrote those bytes. */
  lemma MovedBytesAreRecordedIff(s: System, n: nat, path: string, es: seq<Event>)
    requires GatewayOk(s) && s.up && n !in s.scans && path in s.root && ReadsOnce(es, n)
    requires var t := Run(Do(s, ReadFile(n, path)), es); MoveStep(t, n).moved != t.moved
    ensures var t := Run(Do(s, ReadFile(n, path)), es);
      var u := MoveStep(t, n);
      && |u.moved| == |t.moved| + 1
      && var m := u.moved[|t.moved|];
         var same := LastWrite(es, path).None? || LastWrite(es, path).value.data == s.root[path].data;
         && m.path == path && m.read == s.root[path].data && MoveOk(m, u.rows)
         && (m.file.data == m.read <==> same)
         && (m.made.Some? ==> (u.rows[m.made.value].content == Some(Sha256(m.file.data)) <==> same))
  {
    hide GatewayOk, Grows, Do, MoveStep, FindSource;
    var s1 := Do(s, ReadFile(n, path));
    var t := Run(s1, es);
    ReadStarts(s, n, path);
    EventKeeps(s, ReadFile(n, path));
    RunKeeps(s1, es);
    MoveTakes(t, n);
    RunKeepsBytes(s1, es, n);
    RootIsLastWrite(s1, es, path);
  }

  /** Where that fails worst: the file is replaced after it was read but before it is examined
      again.  The row then carries the source of the new file with the bytes of the old one, the
      new file is moved away, and no row knows its bytes. */
  lemma TornReadRecordsOldBytes(p: Pack, before: File, after: File)
    requires before.data != after.data
    ensures var s := System(p, true, [], map[], map["a.png" := before], [], map[], map[], [], []);
      var es := [WriteFile("a.png", after), TakeFingerprint(0), SpoolFile(0, "png", map[]), EnqueueFile(0, 0)];
      var u := MoveStep(Run(Do(s, ReadFile(0, "a.png")), es), 0);
      Initial(s) && LostReplacement(u, before, after)
  {
    hide Do, MoveStep, EnqueueStep, SpoolStep, FingerprintStep, SourceOf, LostReplacement;
    var s := System(p, true, [], map[], map["a.png" := before], [], map[], map[], [], []);
    var s0 := Do(s, ReadFile(0, "a.png"));
    ReadStarts(s, 0, "a.png");
    RunFour(s0, WriteFile("a.png", after), TakeFingerprint(0), SpoolFile(0, "png", map[]), EnqueueFile(0, 0));
    WriteTakes(s0, "a.png", after);
    var s1 := Do(s0, WriteFile("a.png", after));
    assert s1.root == map["a.png" := after];
    ReplacedFileIsLost(s1, before, after);
  }

  /** The new file is gone from the watch root; the one row has its source and the old bytes. */
  ghost predicate LostReplacement(u: System, before: File, after: File) {
    && u.root == map[]
    && u.moved == [Move("a.png", before.data, Observed("a.png", after.size, after.mtime), Some(0), after)]
    && |u.rows| == 1 && u.rows[0].source == Observed("a.png", after.size, after.mtime)
    && u.rows[0].content == Some(Sha256(before.data)) && u.rows[0].content != Some(Sha256(after.data))
  }

  lemma ReplacedFileIsLost(s: System, before: File, after: File)
    requires s.up && s.rows == [] && s.spool == map[] && s.moved == [] && s.root == map["a.png" := after]
    requires 0 in s.scans && s.scans[0] == Read("a.png", before.data) && before.data != after.data
    ensures var u := MoveStep(Do(Do(Do(s, TakeFingerprint(0)), SpoolFile(0, "png", map[])), EnqueueFile(0, 0)), 0);
      LostReplacement(u, before, after)
  {
    hide Do, MoveStep, EnqueueStep, SpoolStep, FingerprintStep, LostReplacement;
    SecondLook(s, before.data, after);
    LookIs(s, 0);
    var s1 := FingerprintStep(s, 0);
    SpoolTakes(s1, 0, "png");
    SpoolIs(s1, 0, "png", map[]);
    var s2 := SpoolStep(s1, 0, "png", map[]);
    EnqueueIs(s2, 0, 0);
    TornReadIsMoved(s2, before, after);
  }

  lemma RunFour(s: System, a: Event, b: Event, c: Event, d: Event)
    ensures Run(s, [a, b, c, d]) == Do(Do(Do(Do(s, a), b), c), d)
  {
    hide Do;
    assert [a, b, c, d][..3] == [a, b, c] && [a, b, c][..2] == [a, b] && [a, b][..1] == [a] && [a][..0] == [];
    assert Run(s, [a]) == Do(s, a);
    assert Run(s, [a, b]) == Do(Do(s, a), b);
    assert Run(s, [a, b, c]) == Do(Do(Do(s, a), b), c);
  }

  lemma WriteTakes(s: System, path: string, file: File)
    ensures Do(s, WriteFile(path, file)) == s.(root := s.root[path := file])
  {
    hide ReadStep, FingerprintStep, SpoolStep, EnqueueStep, RejectStep, MoveStep, DoUpload, DoOther;
  }

  lemma LookIs(s: System, n: nat)
    ensures Do(s, TakeFingerprint(n)) == FingerprintStep(s, n)
  {
    hide ReadStep, FingerprintStep, SpoolStep, EnqueueStep, RejectStep, MoveStep, DoUpload, DoOther;
  }

  lemma SpoolIs(s: System, n: nat, extension: string, context: map<string, string>)
    ensures Do(s, SpoolFile(n, extension, context)) == SpoolStep(s, n, extension, context)
  {
    hide ReadStep, FingerprintStep, SpoolStep, EnqueueStep, RejectStep, MoveStep, DoUpload, DoOther;
  }

  lemma EnqueueIs(s: System, n: nat, now: int)
    ensures Do(s, EnqueueFile(n, now)) == EnqueueStep(s, n, now)
  {
    hide ReadStep, FingerprintStep, SpoolStep, EnqueueStep, RejectStep, MoveStep, DoUpload, DoOther;
  }

  /** The second look finds the replacement. */
  lemma SecondLook(s: System, data: string, after: File)
    requires s.up && s.rows == [] && s.root == map["a.png" := after] && 0 in s.scans && s.scans[0] == Read("a.png", data)
    ensures FingerprintStep(s, 0) == s.(scans := s.scans[0 := Fingerprinted("a.png", data, Observed("a.png", after.size, after.mtime))])
  {
  }

  lemma SpoolTakes(s: System, n: nat, extension: string)
    requires s.up && s.spool == map[] && n in s.scans && s.scans[n].Fingerprinted?
    ensures var t, sc, name := SpoolStep(s, n, extension, map[]), s.scans[n], SpoolName(Sha256(s.scans[n].data), extension);
      t == s.(spool := map[name := sc.data], scans := s.scans[n := Spooled(sc.path, sc.data, sc.source, name, map[])])
  {
  }

  lemma TornReadIsMoved(t: System, before: File, after: File)
    requires t.up && t.rows == [] && t.root == map["a.png" := after] && t.moved == [] && 0 in t.scans && before.data != after.data
    requires t.scans[0] == Spooled("a.png", before.data, Observed("a.png", after.size, after.mtime), SpoolName(Sha256(before.data), "png"), map[])
    ensures var u := MoveStep(EnqueueStep(t, 0, 0), 0); LostReplacement(u, before, after)
  {
    var source := Observed("a.png", after.size, after.mtime);
    var t1 := EnqueueStep(t, 0, 0);
    assert t1.scans[0] == Recorded("a.png", before.data, source, Some(0));
    assert t1.rows == [QueuedRow(ItemOf(t.pack, t.scans[0]), 0)];
  }
}
