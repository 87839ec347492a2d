/** Concurrent writes through one writer: every interleaving is some order of whole writes. */
module AuditRuns {
  import opened Outcome
  import opened AuditRecord
  import opened AuditLog

  type Thread = nat

  datatype Call = Call(now: Instant, record: DecisionRecord)

  /** Where a thread is inside Write. */
  datatype Phase =
    | Outside
    | Entered(call: Call)
    | Linked(call: Call, stored: DecisionRecord)
    | Appended

  /** The shared store, the mutex and every thread's position; `history` lists the calls in the order of their
      appends. */
  datatype System = System(records: seq<DecisionRecord>, holder: Option<Thread>, phases: map<Thread, Phase>,
                           history: seq<Call>)

  function PhaseOf(s: System, t: Thread): Phase { if t in s.phases then s.phases[t] else Outside }

  ghost predicate Start(s: System) { s.records == [] && s.holder.None? && s.phases == map[] && s.history == [] }

  datatype Action = Lock(call: Call) | ReadLatest | Store | Unlock

  /** One atomic step of one thread. */
  ghost predicate Step(d: Digest, s: System, t: Thread, a: Action, s': System) {
    match a
    case Lock(call) =>
      s.holder.None? && PhaseOf(s, t).Outside? && s' == s.(holder := Some(t), phases := s.phases[t := Entered(call)])
    case ReadLatest =>
      (PhaseOf(s, t).Entered?
       && var call := PhaseOf(s, t).call;
          var stored := Prepared(d, call.now, LatestOf(s.records), call.record);
          s' == s.(phases := s.phases[t := Linked(call, stored)]))
    case Store =>
      (PhaseOf(s, t).Linked?
       && s' == s.(records := s.records + [PhaseOf(s, t).stored], phases := s.phases[t := Appended],
                   history := s.history + [PhaseOf(s, t).call]))
    case Unlock =>
      PhaseOf(s, t).Appended? && s' == s.(holder := None, phases := s.phases[t := Outside])
  }

  ghost predicate Next(d: Digest, s: System, s': System) { exists t, a :: Step(d, s, t, a, s') }

  ghost predicate IsRun(d: Digest, run: seq<System>) {
    && |run| > 0 && Start(run[0])
    && forall i :: 0 <= i < |run| - 1 ==> Next(d, run[i], run[i + 1])
  }

  /** The store after whole writes, one after another. */
  ghost function Sequential(d: Digest, calls: seq<Call>): seq<DecisionRecord> {
    if |calls| == 0 then []
    else
      var call := calls[|calls| - 1];
      Stored(d, call.now, Sequential(d, calls[..|calls| - 1]), call.record)
  }

  /** Only the holder is inside, and what it is about to store still follows the latest record. */
  ghost predicate Coherent(d: Digest, s: System) {
    && (forall t: Thread :: !PhaseOf(s, t).Outside? ==> s.holder == Some(t))
    && (forall t: Thread :: PhaseOf(s, t).Linked? ==>
          PhaseOf(s, t).stored == Prepared(d, PhaseOf(s, t).call.now, LatestOf(s.records), PhaseOf(s, t).call.record))
    && s.records == Sequential(d, s.history)
  }

  lemma StepCoherent(d: Digest, s: System, t: Thread, a: Action, s': System)
    requires Coherent(d, s) && Step(d, s, t, a, s')
    ensures Coherent(d, s')
  {
    hide Prepared;
    assert forall u: Thread :: u != t ==> PhaseOf(s', u) == PhaseOf(s, u);
    if a.Store? {
      var call := PhaseOf(s, t).call;
      assert s'.history[..|s'.history| - 1] == s.history;
      assert s'.records == Stored(d, call.now, s.records, call.record);
    }
  }

  /** Every state of every run is coherent: the store is always what some order of whole writes would have left. */
  lemma {:induction false} RunsAreSequential(d: Digest, run: seq<System>, i: nat)
    requires IsRun(d, run) && i < |run|
    ensures Coherent(d, run[i]) && run[i].records == Sequential(d, run[i].history)
  {
    hide Step;
    if i == 0 {
      assert run[0].records == Sequential(d, []);
    } else {
      RunsAreSequential(d, run, i - 1);
      assert Next(d, run[i - 1], run[i]);
      var t, a :| Step(d, run[i - 1], t, a, run[i]);
      StepCoherent(d, run[i - 1], t, a, run[i]);
    }
  }

  lemma {:induction false} SequentialIsValid(d: Digest, calls: seq<Call>)
    requires NeverEmpty(d)
    ensures ChainValid(d, Sequential(d, calls))
  {
    if |calls| > 0 {
      var call := calls[|calls| - 1];
      SequentialIsValid(d, calls[..|calls| - 1]);
      WriteKeepsChain(d, call.now, Sequential(d, calls[..|calls| - 1]), call.record);
    }
  }

  /** Whatever the interleaving, the store passes verification at every moment. */
  lemma EveryStoreVerifies(d: Digest, run: seq<System>, i: nat)
    requires IsRun(d, run) && i < |run| && NeverEmpty(d)
    ensures ChainValid(d, run[i].records)
  {
    RunsAreSequential(d, run, i);
    SequentialIsValid(d, run[i].history);
  }

  /** Nothing already stored is ever changed or removed. */
  lemma {:induction false} StoreOnlyGrows(d: Digest, run: seq<System>, i: nat, j: nat)
    requires IsRun(d, run) && i <= j < |run|
    ensures run[i].records <= run[j].records && run[i].history <= run[j].history
  {
    hide Prepared;
    if i < j {
      StoreOnlyGrows(d, run, i, j - 1);
      assert Next(d, run[j - 1], run[j]);
    }
  }

  /** The link a write leaves in its record when it has read `records`. */
  function LinkAfter(records: seq<DecisionRecord>, record: DecisionRecord): string {
    if |records| == 0 then record.prevRecordHash else records[|records| - 1].recordHash
  }

  /** Two writers over one store hold different mutexes. If both read the same state before either appends, the chain
      survives exactly when the first record happens to hash like the one the second names: the record both follow or,
      when both found the store empty, whatever link the second caller supplied. */
  lemma UnserializedWritesFork(d: Digest, records: seq<DecisionRecord>, one: Call, two: Call)
    requires NeverEmpty(d) && ChainValid(d, records)
    ensures var latest := LatestOf(records);
            var first, second := Prepared(d, one.now, latest, one.record), Prepared(d, two.now, latest, two.record);
            ChainValid(d, records + [first, second]) <==> first.recordHash == LinkAfter(records, two.record)
  {
    hide Prepared, Sealed;
    var latest, n := LatestOf(records), |records|;
    var first, second := Prepared(d, one.now, latest, one.record), Prepared(d, two.now, latest, two.record);
    PreparedIsSealed(d, one.now, latest, one.record);
    PreparedIsSealed(d, two.now, latest, two.record);
    if n > 0 { LatestNotEmpty(d, records); }
    var after := records + [first, second];
    assert after[n] == first && after[n + 1] == second && (n > 0 ==> after[n - 1] == records[n - 1]);
    if first.recordHash == LinkAfter(records, two.record) {
      forall i | 0 < i < |after| ensures after[i].prevRecordHash == after[i - 1].recordHash {
        if i < n { assert after[i] == records[i] && after[i - 1] == records[i - 1]; }
      }
    }
  }

  lemma LatestNotEmpty(d: Digest, records: seq<DecisionRecord>)
    requires NeverEmpty(d) && ChainValid(d, records) && |records| > 0
    ensures records[|records| - 1].recordHash != ""
  {
  }
}
