/** The in-memory audit store, its writer and its verifier. */
module AuditLog {
  import opened Outcome
  import opened AuditRecord

  /** The latest stored record, if any. */
  function LatestOf(records: seq<DecisionRecord>): Option<DecisionRecord> {
    if |records| == 0 then None else Some(records[|records| - 1])
  }

  /** The writer copies a value before hashing it; null stays null. */
  function Canonical(value: Json): Json { if value.Null? then Null else value }

  /** The record that is stored for `record` when `latest` precedes it. */
  function Prepared(d: Digest, now: Instant, latest: Option<DecisionRecord>, record: DecisionRecord): DecisionRecord {
    var dated := if record.recordedAt == 0 then record.(recordedAt := now) else record;
    var linked := if latest.Some? && latest.value.recordHash != ""
      then dated.(prevRecordHash := latest.value.recordHash) else dated;
    var sealed := linked.(input := Canonical(linked.input), inputHash := d.hashJson(Canonical(linked.input)),
                          output := Canonical(linked.output), outputHash := d.hashJson(Canonical(linked.output)));
    sealed.(recordHash := HashRecord(d, sealed))
  }

  class MemoryStorage {
    var records: seq<DecisionRecord>

    constructor ()
      ensures records == []
    {
      records := [];
    }

    method Append(record: DecisionRecord)
      modifies this
      ensures records == old(records) + [record]
    {
      records := records + [record];
    }

    method Latest() returns (r: Result<DecisionRecord>)
      ensures r == match LatestOf(records) case None => Failure(NotFound) case Some(last) => Success(last)
    {
      if |records| == 0 {
        return Failure(NotFound);
      }
      return Success(records[|records| - 1]);
    }

    /** The last record stored under a request id. */
    method GetByRequestID(id: string) returns (r: Result<DecisionRecord>)
      ensures r.Failure? ==> r.error == NotFound && forall i :: 0 <= i < |records| ==> records[i].requestId != id
      ensures r.Success? ==> exists i :: 0 <= i < |records| && records[i] == r.value && r.value.requestId == id
                                        && forall j :: i < j < |records| ==> records[j].requestId != id
    {
      var i := |records|;
      while i > 0
        invariant 0 <= i <= |records|
        invariant forall j :: i <= j < |records| ==> records[j].requestId != id
      {
        if records[i - 1].requestId == id {
          return Success(records[i - 1]);
        }
        i := i - 1;
      }
      return Failure(NotFound);
    }

    method All() returns (all: seq<DecisionRecord>)
      ensures all == records
    {
      all := records;
    }
  }

  class Writer {
    const storage: MemoryStorage

    constructor (storage: MemoryStorage)
      ensures this.storage == storage
    {
      this.storage := storage;
    }

    /** `now` is what the clock reads. */
    method Write(d: Digest, now: Instant, record: DecisionRecord)
      modifies storage
      ensures storage.records == old(storage.records) + [Prepared(d, now, LatestOf(old(storage.records)), record)]
      ensures NeverEmpty(d) && ChainValid(d, old(storage.records)) ==> ChainValid(d, storage.records)
    {
      ghost var before := storage.records;
      var r := record;
      if r.recordedAt == 0 {
        r := r.(recordedAt := now);
      }
      var latest := storage.Latest();
      if latest.Success? {
        if latest.value.recordHash != "" {
          r := r.(prevRecordHash := latest.value.recordHash);
        }
      }
      var canonical := Canonical(r.input);
      r := r.(input := canonical, inputHash := d.hashJson(canonical));
      canonical := Canonical(r.output);
      r := r.(output := canonical, outputHash := d.hashJson(canonical));
      r := r.(recordHash := HashRecord(d, r));
      storage.Append(r);
      if NeverEmpty(d) && ChainValid(d, before) { WriteKeepsChain(d, now, before, record); }
    }
  }

  class Verifier {
    const storage: MemoryStorage

    constructor (storage: MemoryStorage)
      ensures this.storage == storage
    {
      this.storage := storage;
    }

    method VerifyChain(d: Digest) returns (e: Option<ChainError>)
      ensures e.None? <==> ChainValid(d, storage.records)
      ensures e.Some? ==> IsFirstFault(d, storage.records, e)
    {
      var records := storage.All();
      e := VerifyRecords(d, records);
    }
  }

  // ---------- writes keep the chain ----------

  /** A digest is never the empty string; SHA-256 in hexadecimal always has 64 characters. */
  ghost predicate NeverEmpty(d: Digest) { forall j :: d.hashJson(j) != "" }

  function Stored(d: Digest, now: Instant, records: seq<DecisionRecord>, record: DecisionRecord): seq<DecisionRecord> {
    records + [Prepared(d, now, LatestOf(records), record)]
  }

  lemma PreparedIsSealed(d: Digest, now: Instant, latest: Option<DecisionRecord>, record: DecisionRecord)
    ensures Sealed(d, Prepared(d, now, latest, record))
    ensures Prepared(d, now, latest, record).prevRecordHash ==
            if latest.Some? && latest.value.recordHash != "" then latest.value.recordHash else record.prevRecordHash
  {
  }

  /** A write keeps a valid chain valid exactly when there is nothing before it, or the previous hash is not empty,
      or the caller left the link empty too. */
  lemma WriteKeepsChainExactly(d: Digest, now: Instant, records: seq<DecisionRecord>, record: DecisionRecord)
    requires ChainValid(d, records)
    ensures ChainValid(d, Stored(d, now, records, record)) <==>
            |records| == 0 || records[|records| - 1].recordHash != "" || record.prevRecordHash == ""
  {
    hide Prepared, Sealed;
    PreparedIsSealed(d, now, LatestOf(records), record);
    var after := Stored(d, now, records, record);
    assert forall i :: 0 <= i < |records| ==> after[i] == records[i];
    if |records| > 0 { assert after[|records|].prevRecordHash == records[|records| - 1].recordHash <==>
                              records[|records| - 1].recordHash != "" || record.prevRecordHash == ""; }
  }

  lemma WriteKeepsChain(d: Digest, now: Instant, records: seq<DecisionRecord>, record: DecisionRecord)
    requires NeverEmpty(d) && ChainValid(d, records)
    ensures ChainValid(d, Stored(d, now, records, record))
  {
    hide Prepared;
    WriteKeepsChainExactly(d, now, records, record);
    if |records| > 0 { assert Sealed(d, records[|records| - 1]); }
  }

  /** What a write leaves alone: everything the caller supplied except the date when unset, the link and the hashes. */
  lemma WriteKeepsContent(d: Digest, now: Instant, latest: Option<DecisionRecord>, record: DecisionRecord)
    ensures var p := Prepared(d, now, latest, record);
            p == record.(recordedAt := p.recordedAt, prevRecordHash := p.prevRecordHash, inputHash := p.inputHash,
                         outputHash := p.outputHash, recordHash := p.recordHash)
            && p.recordedAt == (if record.recordedAt == 0 then now else record.recordedAt)
  {
  }
}
