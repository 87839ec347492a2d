/** Audit records and what their hashes cover. Hashing and date formatting are uninterpreted. */
module AuditRecord {
  import opened Outcome

  /** JSON values; an object lists its members in the order in which they are serialised. */
  datatype Json = Null | Bool(b: bool) | Integer(n: int) | Number(x: real) | Text(s: string)
                | Array(items: seq<Json>) | Object(members: seq<Member>)

  datatype Member = Member(name: string, value: Json)

  /** Clock ticks since the epoch; zero is a default-constructed time point. */
  type Instant = int

  datatype DecisionRecord = DecisionRecord(
    requestId: string, recordedAt: Instant, toolName: string, input: Json, inputHash: string, output: Json,
    outputHash: string, status: string, error: string, gitCommitSha: string, packageVersion: string,
    randomSeed: int, prevRecordHash: string, recordHash: string)

  /** HashJson and FormatDate; the latter keeps the day only. */
  datatype Digest = Digest(hashJson: Json -> string, formatDate: Instant -> string)

  function ToJson(d: Digest, r: DecisionRecord): Json {
    Object([
      Member("error", Text(r.error)),
      Member("git_commit_sha", Text(r.gitCommitSha)),
      Member("input", r.input),
      Member("input_hash", Text(r.inputHash)),
      Member("output", r.output),
      Member("output_hash", Text(r.outputHash)),
      Member("package_version", Text(r.packageVersion)),
      Member("prev_record_hash", Text(r.prevRecordHash)),
      Member("random_seed", Integer(r.randomSeed)),
      Member("record_hash", Text(r.recordHash)),
      Member("recorded_at", Text(d.formatDate(r.recordedAt))),
      Member("request_id", Text(r.requestId)),
      Member("status", Text(r.status)),
      Member("tool_name", Text(r.toolName))])
  }

  function Blanked(r: DecisionRecord): DecisionRecord { r.(recordHash := "") }

  function HashRecord(d: Digest, r: DecisionRecord): string { d.hashJson(ToJson(d, Blanked(r))) }

  /** Equal in every field, the moment of recording only as far as it is printed. */
  ghost predicate SameUpToDay(d: Digest, r: DecisionRecord, s: DecisionRecord) {
    r == s.(recordedAt := r.recordedAt) && d.formatDate(r.recordedAt) == d.formatDate(s.recordedAt)
  }

  /** The serialised form decides every field but the time of day. */
  lemma JsonDecides(d: Digest, r: DecisionRecord, s: DecisionRecord)
    ensures ToJson(d, r) == ToJson(d, s) <==> SameUpToDay(d, r, s)
  {
  }

  /** Two different values with one hash. */
  ghost predicate Collide(d: Digest, x: Json, y: Json) { x != y && d.hashJson(x) == d.hashJson(y) }

  /** Two records with equal hashes agree on everything hashed, or exhibit a collision. */
  lemma HashCovers(d: Digest, r: DecisionRecord, s: DecisionRecord)
    requires HashRecord(d, r) == HashRecord(d, s)
    ensures SameUpToDay(d, Blanked(r), Blanked(s)) || Collide(d, ToJson(d, Blanked(r)), ToJson(d, Blanked(s)))
  {
  }

  // ---------- the chain ----------

  datatype ChainError = InputMismatch(id: string) | OutputMismatch(id: string) | RecordMismatch(id: string)
    | ChainMismatch(id: string)

  ghost predicate Sealed(d: Digest, r: DecisionRecord) {
    r.inputHash == d.hashJson(r.input) && r.outputHash == d.hashJson(r.output) && r.recordHash == HashRecord(d, r)
  }

  /** Every record's hashes are right and every record but the first names its predecessor's. */
  ghost predicate ChainValid(d: Digest, records: seq<DecisionRecord>) {
    && (forall i :: 0 <= i < |records| ==> Sealed(d, records[i]))
    && (forall i :: 0 < i < |records| ==> records[i].prevRecordHash == records[i - 1].recordHash)
  }

  /** What the verifier finds wrong with record `i`, in the order of its checks. */
  function FaultAt(d: Digest, records: seq<DecisionRecord>, i: nat): Option<ChainError>
    requires i < |records|
  {
    var r := records[i];
    if d.hashJson(r.input) != r.inputHash then Some(InputMismatch(r.requestId))
    else if d.hashJson(r.output) != r.outputHash then Some(OutputMismatch(r.requestId))
    else if HashRecord(d, r) != r.recordHash then Some(RecordMismatch(r.requestId))
    else if i > 0 && r.prevRecordHash != records[i - 1].recordHash then Some(ChainMismatch(r.requestId))
    else None
  }

  ghost predicate IsFirstFault(d: Digest, records: seq<DecisionRecord>, e: Option<ChainError>) {
    exists i ::
      && 0 <= i < |records| && FaultAt(d, records, i) == e
      && forall j :: 0 <= j < i ==> FaultAt(d, records, j).None?
  }

  /** What each kind of fault says of record i: it is named by its request id, and only this is wrong up to here. */
  ghost predicate Faulty(d: Digest, records: seq<DecisionRecord>, e: ChainError, i: nat)
    requires i < |records|
  {
    var r := records[i];
    && ChainValid(d, records[..i]) && e.id == r.requestId
    && match e
       case InputMismatch(_) => r.inputHash != d.hashJson(r.input)
       case OutputMismatch(_) => r.inputHash == d.hashJson(r.input) && r.outputHash != d.hashJson(r.output)
       case RecordMismatch(_) =>
         r.inputHash == d.hashJson(r.input) && r.outputHash == d.hashJson(r.output) && r.recordHash != HashRecord(d, r)
       case ChainMismatch(_) => Sealed(d, r) && i > 0 && r.prevRecordHash != records[i - 1].recordHash
  }

  /** A reported fault is the first one there is, and is of the kind it says. */
  lemma FaultMeans(d: Digest, records: seq<DecisionRecord>, e: Option<ChainError>)
    requires IsFirstFault(d, records, e) && e.Some?
    ensures exists i: nat :: i < |records| && Faulty(d, records, e.value, i)
  {
    hide HashRecord;
    var i: nat :|
      && i < |records| && FaultAt(d, records, i) == e
      && forall j :: 0 <= j < i ==> FaultAt(d, records, j).None?;
    FaultlessPrefix(d, records, i);
    assert Faulty(d, records, e.value, i);
  }

  lemma FaultlessPrefix(d: Digest, records: seq<DecisionRecord>, i: nat)
    requires i <= |records| && forall j :: 0 <= j < i ==> FaultAt(d, records, j).None?
    ensures ChainValid(d, records[..i])
  {
    hide HashRecord;
    forall j | 0 <= j < i
      ensures Sealed(d, records[j]) && (j > 0 ==> records[j].prevRecordHash == records[j - 1].recordHash)
    {
      assert FaultAt(d, records, j).None?;
    }
  }

  method VerifyRecords(d: Digest, records: seq<DecisionRecord>) returns (e: Option<ChainError>)
    ensures e.None? <==> ChainValid(d, records)
    ensures e.Some? ==> IsFirstFault(d, records, e)
  {
    hide HashRecord;
    for i := 0 to |records|
      invariant forall j :: 0 <= j < i ==> FaultAt(d, records, j).None?
      invariant ChainValid(d, records[..i])
    {
      var r := records[i];
      if d.hashJson(r.input) != r.inputHash {
        e := Some(InputMismatch(r.requestId));
        assert FaultAt(d, records, i) == e;
        return;
      }
      if d.hashJson(r.output) != r.outputHash {
        e := Some(OutputMismatch(r.requestId));
        assert FaultAt(d, records, i) == e;
        return;
      }
      if HashRecord(d, r) != r.recordHash {
        e := Some(RecordMismatch(r.requestId));
        assert FaultAt(d, records, i) == e;
        return;
      }
      if i > 0 && r.prevRecordHash != records[i - 1].recordHash {
        e := Some(ChainMismatch(r.requestId));
        assert FaultAt(d, records, i) == e;
        return;
      }
    }
    assert records[..|records|] == records;
    return None;
  }

  // ---------- the tip pins the history ----------

  ghost predicate SuffixOf(d: Digest, a: seq<DecisionRecord>, b: seq<DecisionRecord>) {
    |a| <= |b| && forall i :: 0 <= i < |a| ==> SameUpToDay(d, a[i], b[|b| - |a| + i])
  }

  lemma ChainFront(d: Digest, records: seq<DecisionRecord>)
    requires ChainValid(d, records) && |records| > 0
    ensures ChainValid(d, records[..|records| - 1])
    ensures |records| > 1 ==> records[|records| - 1].prevRecordHash == records[|records| - 2].recordHash
    ensures Sealed(d, records[|records| - 1])
  {
  }

  /** Two valid chains that end in the same record hash: the shorter is the end of the longer, field by field up to
      the day of recording, unless the hash collides, and then two colliding values are at hand. */
  lemma {:induction false} TipPinsHistory(d: Digest, a: seq<DecisionRecord>, b: seq<DecisionRecord>)
    returns (x: Json, y: Json)
    requires 0 < |a| <= |b| && ChainValid(d, a) && ChainValid(d, b)
    requires a[|a| - 1].recordHash == b[|b| - 1].recordHash
    ensures SuffixOf(d, a, b) || Collide(d, x, y)
  {
    hide ChainValid, HashRecord, ToJson;
    var r, s := a[|a| - 1], b[|b| - 1];
    ChainFront(d, a);
    ChainFront(d, b);
    HashCovers(d, r, s);
    x, y := ToJson(d, Blanked(r)), ToJson(d, Blanked(s));
    if !Collide(d, x, y) && |a| > 1 {
      var a', b' := a[..|a| - 1], b[..|b| - 1];
      assert a'[|a'| - 1] == a[|a| - 2] && b'[|b'| - 1] == b[|b| - 2];
      x, y := TipPinsHistory(d, a', b');
      if !Collide(d, x, y) {
        forall i | 0 <= i < |a| ensures SameUpToDay(d, a[i], b[|b| - |a| + i]) {
          if i < |a| - 1 { assert SameUpToDay(d, a'[i], b'[|b'| - |a'| + i]); }
        }
      }
    }
  }
}
