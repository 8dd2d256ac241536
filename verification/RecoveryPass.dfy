/** What a recovery pass does to a journal that nobody else is writing. */
module RecoveryPass {
  import opened Wrappers
  import opened TxPhases
  import opened Strategies
  import opened Journal
  import opened RecoveryOps
  import opened ConfigModel
  import opened Objects
  import I = Interleaving

  type Answers = (TxId, nat) -> DeviceEnv

  /** What a record keeps for each of its devices. */
  datatype Saved = Saved(desired: Desired, ops: Option<seq<ChangeOp>>)

  /** What the surroundings decide: device answers, whether a confirmed commit has timed out, what a record
      has kept, whether the shadow of a device can be read and stored. */
  datatype Env = Env(answers: Answers, elapsed: TxId -> bool, saved: TxId -> map<DeviceId, Saved>, stores: DeviceId -> bool)

  /** The shadows of all devices of the record can be brought up to date. */
  predicate Persists(env: Env, tx: TxId, devices: seq<DeviceId>) {
    forall d :: d in devices ==> d in env.saved(tx) && env.stores(d)
  }

  function EnvsFor(env: Env, tx: TxId, record: Record): (envs: seq<DeviceEnv>)
    ensures |envs| == |record.devices|
  {
    seq(|record.devices|, (i: nat) => env.answers(tx, i))
  }

  /** The record is taken up by the pass. */
  predicate Attempted(env: Env, gate: I.Gate, tx: TxId, record: Record) {
    RequiresRecovery(record.phase) && I.GateMatches(gate, record, env.elapsed(tx))
  }

  /** The record after the pass has dealt with it. */
  function Outcome(env: Env, gate: I.Gate, tx: TxId, record: Record): Record {
    if !Attempted(env, gate, tx, record) || record.phase.InDoubt? then record
    else record.(phase := Resolution(record, ActionFor(record.phase), EnvsFor(env, tx, record), Persists(env, tx, record.devices)))
  }

  /** The record is taken up and its devices agree on the commit: their shadows are brought up to date. */
  predicate Agreed(env: Env, gate: I.Gate, tx: TxId, record: Record) {
    && Attempted(env, gate, tx, record) && !record.phase.InDoubt?
    && Combined(record, ActionFor(record.phase), EnvsFor(env, tx, record)) == Some(Committed)
  }

  /** The pass brings the shadow of the device up to date for this record. */
  predicate Writes(env: Env, gate: I.Gate, journal: map<TxId, Record>, tx: TxId, d: DeviceId) {
    tx in journal && Agreed(env, gate, tx, journal[tx]) && d in journal[tx].devices
  }

  predicate Unwritten(env: Env, gate: I.Gate, journal: map<TxId, Record>, candidates: seq<TxId>, d: DeviceId) {
    forall tx :: tx in candidates ==> !Writes(env, gate, journal, tx, d)
  }

  predicate OnlyWriter(env: Env, gate: I.Gate, journal: map<TxId, Record>, candidates: seq<TxId>, tx: TxId, d: DeviceId) {
    forall other :: other in candidates && Writes(env, gate, journal, other, d) ==> other == tx
  }

  /** The record of the device was unresolved and is stored as committed now. */
  predicate NewlyCommitted(before: map<TxId, Record>, now: map<TxId, Record>, tx: TxId, d: DeviceId) {
    && tx in before && RequiresRecovery(before[tx].phase) && d in before[tx].devices
    && tx in now && now[tx].phase.Committed?
  }

  /** The journal after a pass over the candidates. */
  function Recovered(env: Env, gate: I.Gate, journal: map<TxId, Record>, candidates: seq<TxId>): map<TxId, Record> {
    map tx | tx in journal :: if tx in candidates then Outcome(env, gate, tx, journal[tx]) else journal[tx]
  }

  function Recoverable(journal: map<TxId, Record>): set<TxId> {
    set tx | tx in journal && RequiresRecovery(journal[tx].phase)
  }

  function InDoubts(journal: map<TxId, Record>): set<TxId> {
    set tx | tx in journal && journal[tx].phase.InDoubt?
  }

  /** The records a pass brings to an end. */
  function Ended(env: Env, gate: I.Gate, journal: map<TxId, Record>, candidates: seq<TxId>): set<TxId> {
    set tx | tx in candidates && tx in journal && RequiresRecovery(journal[tx].phase)
             && !RequiresRecovery(Outcome(env, gate, tx, journal[tx]).phase)
  }

  /** The candidates the pass takes up, those in doubt included. */
  function TakenUp(env: Env, gate: I.Gate, journal: map<TxId, Record>, candidates: seq<TxId>): set<TxId> {
    set tx | tx in candidates && tx in journal && Attempted(env, gate, tx, journal[tx])
  }

  lemma ResolutionIsOneOfThree(record: Record, action: RecoveryAction, envs: seq<DeviceEnv>, persisted: bool)
    ensures Resolution(record, action, envs, persisted) in {Committed, RolledBack, InDoubt}
  {
    CombinedIsOneOfThree(record, action, envs);
  }

  /** A record taken up ends committed, rolled back or in doubt, and the phase changes on the way are allowed. */
  lemma OutcomeSettles(env: Env, gate: I.Gate, tx: TxId, record: Record)
    requires Attempted(env, gate, tx, record)
    ensures Outcome(env, gate, tx, record).phase in {Committed, RolledBack, InDoubt}
    ensures Outcome(env, gate, tx, record).devices == record.devices
    ensures !record.phase.InDoubt? ==>
              IsAllowed(record.phase, Recovering) && IsAllowed(Recovering, Outcome(env, gate, tx, record).phase)
  {
    ResolutionIsOneOfThree(record, ActionFor(record.phase), EnvsFor(env, tx, record), Persists(env, tx, record.devices));
  }

  /** The record is ended by the pass. */
  predicate Ends(env: Env, gate: I.Gate, journal: map<TxId, Record>, tx: TxId) {
    && tx in journal && RequiresRecovery(journal[tx].phase)
    && !RequiresRecovery(Outcome(env, gate, tx, journal[tx]).phase)
  }

  lemma OneMoreCandidate(env: Env, gate: I.Gate, journal: map<TxId, Record>, done: seq<TxId>, tx: TxId)
    requires tx !in done
    ensures Recovered(env, gate, journal, done + [tx])
         == if tx in journal then Recovered(env, gate, journal, done)[tx := Outcome(env, gate, tx, journal[tx])]
            else Recovered(env, gate, journal, done)
    ensures tx in journal ==> Recovered(env, gate, journal, done)[tx] == journal[tx]
    ensures |Ended(env, gate, journal, done + [tx])|
         == |Ended(env, gate, journal, done)| + (if Ends(env, gate, journal, tx) then 1 else 0)
  {
    if Ends(env, gate, journal, tx) {
      assert Ended(env, gate, journal, done + [tx]) == Ended(env, gate, journal, done) + {tx};
    } else {
      assert Ended(env, gate, journal, done + [tx]) == Ended(env, gate, journal, done);
    }
  }

  lemma OneMoreTakenUp(env: Env, gate: I.Gate, journal: map<TxId, Record>, done: seq<TxId>, tx: TxId)
    ensures TakenUp(env, gate, journal, done + [tx])
         == TakenUp(env, gate, journal, done)
            + (if tx in journal && Attempted(env, gate, tx, journal[tx]) then {tx} else {})
  {
  }

  /** The record is as it was, being recovered, or recovered. */
  predicate InProgress(env: Env, gate: I.Gate, tx: TxId, before: Record, now: Record) {
    now == before || now == before.(phase := Recovering) || now == Outcome(env, gate, tx, before)
  }

  /** A pass over the candidates that may have been cut short. */
  ghost predicate Partly(env: Env, gate: I.Gate, before: map<TxId, Record>, now: map<TxId, Record>, candidates: seq<TxId>) {
    && now.Keys == before.Keys
    && forall tx :: tx in before ==>
         if tx in candidates then InProgress(env, gate, tx, before[tx], now[tx]) else now[tx] == before[tx]
  }

  lemma CutShort(env: Env, gate: I.Gate, before: map<TxId, Record>, mid: map<TxId, Record>, now: map<TxId, Record>,
                 candidates: seq<TxId>, n: nat)
    requires n < |candidates| && candidates[n] !in candidates[..n]
    requires mid == Recovered(env, gate, before, candidates[..n]) && Partly(env, gate, mid, now, [candidates[n]])
    ensures Partly(env, gate, before, now, candidates)
  {
    assert forall tx :: tx in candidates[..n] ==> tx in candidates;
  }

  lemma SplitCount(a: set<TxId>, b: set<TxId>)
    requires a !! b
    ensures |a + b| == |a| + |b|
  {
  }

  /** After a pass over all unresolved records every unresolved record is in doubt, and none is lost: those
      ended and those still pending are the ones that were there. */
  lemma PassLeavesOnlyDoubt(env: Env, journal: map<TxId, Record>, candidates: seq<TxId>)
    requires forall tx :: tx in candidates <==> tx in Recoverable(journal)
    ensures var after := Recovered(env, I.AnyRecoverable, journal, candidates);
            && Recoverable(after) == InDoubts(after)
            && |Ended(env, I.AnyRecoverable, journal, candidates)| + |Recoverable(after)| == |Recoverable(journal)|
  {
    var after := Recovered(env, I.AnyRecoverable, journal, candidates);
    var ended := Ended(env, I.AnyRecoverable, journal, candidates);
    forall tx | tx in journal && RequiresRecovery(after[tx].phase) ensures after[tx].phase.InDoubt? {
      if tx in candidates { OutcomeSettles(env, I.AnyRecoverable, tx, journal[tx]); }
    }
    assert Recoverable(after) == InDoubts(after);
    forall tx | tx in Recoverable(after) ensures tx in Recoverable(journal) {
    }
    assert Recoverable(journal) == ended + Recoverable(after);
    SplitCount(ended, Recoverable(after));
  }

  lemma TakenUpSplits(env: Env, gate: I.Gate, journal: map<TxId, Record>, candidates: seq<TxId>, tx: TxId)
    ensures var after := Recovered(env, gate, journal, candidates);
            var taken := TakenUp(env, gate, journal, candidates);
            var ended := Ended(env, gate, journal, candidates);
            && (tx in ended ==> tx in taken && tx !in Recoverable(after))
            && (tx in taken && tx !in ended ==> tx in Recoverable(after) && tx in InDoubts(after))
  {
    if tx in TakenUp(env, gate, journal, candidates) {
      OutcomeSettles(env, gate, tx, journal[tx]);
    }
  }

  /** A pass with any gate: of the records it takes up, those not ended are in doubt, and none is lost. */
  lemma TakenUpIsEndedOrInDoubt(env: Env, gate: I.Gate, journal: map<TxId, Record>, candidates: seq<TxId>)
    ensures var after := Recovered(env, gate, journal, candidates);
            var taken := TakenUp(env, gate, journal, candidates);
            && Recoverable(after) * taken <= InDoubts(after)
            && |Ended(env, gate, journal, candidates)| + |Recoverable(after) * taken| == |taken|
  {
    var after := Recovered(env, gate, journal, candidates);
    var taken := TakenUp(env, gate, journal, candidates);
    var ended := Ended(env, gate, journal, candidates);
    var left := Recoverable(after) * taken;
    forall tx ensures (tx in taken <==> tx in ended || tx in left) && !(tx in ended && tx in left)
              ensures tx in left ==> tx in InDoubts(after)
    {
      TakenUpSplits(env, gate, journal, candidates, tx);
    }
    assert taken == ended + left;
    SplitCount(ended, left);
  }

  /** A second pass changes nothing and ends nothing, whatever the devices answer this time. */
  lemma SecondPassDoesNothing(env: Env, again: Env, journal: map<TxId, Record>, candidates: seq<TxId>, rest: seq<TxId>)
    requires forall tx :: tx in candidates <==> tx in Recoverable(journal)
    requires forall tx :: tx in rest <==> tx in Recoverable(Recovered(env, I.AnyRecoverable, journal, candidates))
    ensures var after := Recovered(env, I.AnyRecoverable, journal, candidates);
            && Recovered(again, I.AnyRecoverable, after, rest) == after
            && Ended(again, I.AnyRecoverable, after, rest) == {}
  {
    var after := Recovered(env, I.AnyRecoverable, journal, candidates);
    PassLeavesOnlyDoubt(env, journal, candidates);
    forall tx | tx in rest ensures after[tx].phase.InDoubt? {
      assert tx in InDoubts(after);
    }
  }

  // ---- By the reports of the devices ----

  /** The record is unresolved, not in doubt, and meets the gate. */
  predicate Due(env: Env, gate: I.Gate, tx: TxId, record: Record) {
    && record.phase !in {Committed, RolledBack, Failed, ForceResolved, InDoubt}
    && (gate.TimedOutConfirmedCommit? ==>
          && record.strategy == Some(ConfirmedCommit) && env.elapsed(tx)
          && record.phase in {Committing, Verifying, FinalConfirming, Recovering})
  }

  lemma DueIsTakenUp(env: Env, gate: I.Gate, tx: TxId, record: Record)
    ensures Due(env, gate, tx, record) <==> Attempted(env, gate, tx, record) && !record.phase.InDoubt?
  {
  }

  /** The record has got the phase its devices report: Committed exactly when all hold the change and their
      shadows can be stored, RolledBack exactly when all hold nothing, InDoubt otherwise. */
  ghost predicate ByReports(env: Env, tx: TxId, before: Record, now: Record) {
    var all := |before.devices|;
    && now == before.(phase := now.phase) && now.phase in {Committed, RolledBack, InDoubt}
    && (now.phase.Committed? <==>
          && before.devices != [] && Persists(env, tx, before.devices)
          && forall i: nat :: i < all ==> HoldsChange(before, env.answers(tx, i)))
    && (now.phase.RolledBack? <==>
          if before.devices == [] then before.phase in {Started, Preparing, Prepared}
          else forall i: nat :: i < all ==> HoldsNothing(before, env.answers(tx, i)))
  }

  lemma OutcomeByReports(env: Env, gate: I.Gate, tx: TxId, record: Record)
    requires Due(env, gate, tx, record)
    ensures ByReports(env, tx, record, Outcome(env, gate, tx, record))
  {
    var envs := EnvsFor(env, tx, record);
    DueIsTakenUp(env, gate, tx, record);
    ResolutionByPhase(record, envs, Persists(env, tx, record.devices));
    assert forall i: nat :: i < |envs| ==> envs[i] == env.answers(tx, i);
    assert (forall e :: e in envs ==> HoldsChange(record, e)) <==> forall i: nat :: i < |envs| ==> HoldsChange(record, envs[i]);
    assert (forall e :: e in envs ==> HoldsNothing(record, e)) <==> forall i: nat :: i < |envs| ==> HoldsNothing(record, envs[i]);
  }

  lemma TakenUpByReports(env: Env, gate: I.Gate, tx: TxId, record: Record)
    requires Attempted(env, gate, tx, record) && !record.phase.InDoubt?
    ensures ByReports(env, tx, record, Outcome(env, gate, tx, record))
  {
    DueIsTakenUp(env, gate, tx, record);
    OutcomeByReports(env, gate, tx, record);
  }

  /** Every candidate that is due has the phase its devices report, and every other record is as it was. */
  ghost predicate AllByReports(env: Env, gate: I.Gate, before: map<TxId, Record>, now: map<TxId, Record>, candidates: seq<TxId>) {
    && now.Keys == before.Keys
    && forall tx :: tx in before ==>
         if tx in candidates && Due(env, gate, tx, before[tx]) then ByReports(env, tx, before[tx], now[tx]) else now[tx] == before[tx]
  }

  lemma PassFollowsTheReports(env: Env, gate: I.Gate, journal: map<TxId, Record>, candidates: seq<TxId>)
    ensures AllByReports(env, gate, journal, Recovered(env, gate, journal, candidates), candidates)
  {
    forall tx | tx in journal && tx in candidates && Due(env, gate, tx, journal[tx])
      ensures ByReports(env, tx, journal[tx], Outcome(env, gate, tx, journal[tx]))
    {
      OutcomeByReports(env, gate, tx, journal[tx]);
    }
    forall tx | tx in journal ensures Due(env, gate, tx, journal[tx]) <==> Attempted(env, gate, tx, journal[tx]) && !journal[tx].phase.InDoubt? {
      DueIsTakenUp(env, gate, tx, journal[tx]);
    }
  }

  /** Every record that was due has the phase its devices report, and every other record is as it was. */
  ghost predicate Settled(env: Env, gate: I.Gate, before: map<TxId, Record>, now: map<TxId, Record>) {
    && now.Keys == before.Keys
    && forall tx :: tx in before ==>
         if Due(env, gate, tx, before[tx]) then ByReports(env, tx, before[tx], now[tx]) else now[tx] == before[tx]
  }

  lemma FullPassSettles(env: Env, gate: I.Gate, before: map<TxId, Record>, now: map<TxId, Record>, candidates: seq<TxId>)
    requires AllByReports(env, gate, before, now, candidates)
    requires forall tx :: tx in before && Attempted(env, gate, tx, before[tx]) ==> tx in candidates
    ensures Settled(env, gate, before, now)
  {
    forall tx | tx in before && Due(env, gate, tx, before[tx]) ensures tx in candidates {
      DueIsTakenUp(env, gate, tx, before[tx]);
    }
  }
}
