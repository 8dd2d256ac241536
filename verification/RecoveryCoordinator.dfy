/** Recovery as the coordinator runs it: loops over records and devices, merging what the devices say. */
module RecoveryCoordinator {
  import opened Wrappers
  import opened Ordering
  import opened TxPhases
  import opened Strategies
  import opened Journal
  import opened RecoveryOps
  import opened ConfigModel
  import opened Objects
  import opened Diff
  import A = ApplyCoordinator
  import opened RecoveryPass
  import I = Interleaving
  import M = ApplyMachine
  import S = Isolation

  /** Asks again after a transport error, three times at most. */
  method RecoverWithRetry(tries: nat -> Try) returns (answer: Answer)
    ensures answer == RecoverAnswer(tries)
    ensures forall status :: answer == Reply(status) <==> RepliesWith(tries, status)
  {
    forall status ensures RecoverAnswer(tries) == Reply(status) <==> RepliesWith(tries, status) {
      RepliesAreAnswers(tries, status);
    }
    for attempt := 0 to RETRY_ATTEMPTS
      invariant forall n: nat :: n < attempt ==> tries(n).TransportError?
    {
      match tries(attempt) {
        case TryReply(status) => return Reply(status);
        case OtherError => return RpcError;
        case TransportError =>
      }
    }
    answer := RpcError;
  }

  /** One device of an ordinary record. */
  method RecoverDevice(action: RecoveryAction, env: DeviceEnv) returns (verdict: Option<TxPhase>)
    ensures verdict == Verdict(action, env)
  {
    if !env.managed {
      return None;
    }
    var answer := RecoverWithRetry(env.tries);
    verdict := if answer.Reply? then Some(PhaseFromStatus(action, answer.status)) else None;
  }

  /** One device of a confirmed commit that was being confirmed: confirm again, else verify, else ask. The
      device counts as committed, or as rolled back, exactly when it says so, and is not settled otherwise. */
  method ConfirmDevice(ghost record: Record, env: DeviceEnv) returns (verdict: Option<TxPhase>)
    requires Confirming(record)
    ensures verdict == Some(Committed) <==> SaysCommitted(record, AdapterRecover, env)
    ensures verdict == Some(RolledBack) <==> SaysRolledBack(record, AdapterRecover, env)
    ensures verdict in {None, Some(Committed), Some(RolledBack)}
  {
    if !env.managed || !env.client {
      return None;
    }
    if env.confirm == Reply(StatusCommitted) {
      return Some(Committed);
    }
    if env.planned && (env.verify == Reply(NoChange) || env.verify == Reply(StatusCommitted)) {
      return Some(Committed);
    }
    var answer := RecoverWithRetry(env.tries);
    if answer.Reply? {
      var phase := PhaseFromStatus(AdapterRecover, answer.status);
      if phase.Committed? || phase.RolledBack? {
        return Some(phase);
      }
    }
    verdict := None;
  }

  /** All devices of a record: merges the phases, and fails if any device could not be settled. */
  method RecoverRecord(record: Record, action: RecoveryAction, envs: seq<DeviceEnv>) returns (phase: Option<TxPhase>)
    requires |envs| == |record.devices|
    ensures phase == Combined(record, action, envs)
  {
    if record.devices == [] {
      return Some(if action.DiscardPreparedChanges? && !Confirming(record) then RolledBack else InDoubt);
    }
    ghost var verdicts := Verdicts(record, action, envs);
    var merged: Option<TxPhase> := None;
    var failed := false;
    for i := 0 to |envs|
      invariant merged == Merged(verdicts[..i])
      invariant failed <==> None in verdicts[..i]
    {
      assert verdicts[..i + 1][..i] == verdicts[..i];
      assert verdicts[..i + 1] == verdicts[..i] + [verdicts[i]];
      var verdict;
      if Confirming(record) {
        verdict := ConfirmDevice(record, envs[i]);
        VerdictFollowsTheReport(record, action, envs[i]);
      } else {
        verdict := RecoverDevice(action, envs[i]);
      }
      if verdict.None? {
        failed := true;
        merged := Some(Merge(merged, InDoubt));
      } else {
        merged := Some(Merge(merged, verdict.value));
      }
    }
    assert verdicts[..|envs|] == verdicts;
    if failed {
      return None;
    }
    phase := Some(if merged.Some? then merged.value else InDoubt);
  }

  // ---- Shadows of recovered records ----

  /** The shadow a recovered device gets. */
  function RecoveredShadow(previous: Option<Shadow>, saved: Saved): Shadow {
    A.Revised(previous, if saved.ops.Some? then ShadowAfter(previous, saved.desired, 0, saved.ops.value) else ShadowFrom(saved.desired))
  }

  /** Storing the shadow of a recovered device again, as a pass after a crash does, leaves its contents. */
  lemma RecoveringTwiceIsSafe(previous: Option<Shadow>, saved: Saved, once: Shadow)
    requires SameContents(once, RecoveredShadow(previous, saved))
    ensures SameContents(RecoveredShadow(Some(once), saved), once)
  {
    if saved.ops.Some? {
      var ops := saved.ops.value;
      var d := saved.desired;
      var base := if previous.Some? then previous.value else EmptyShadow(d.deviceId);
      var start := base.(deviceId := d.deviceId, revision := 0, warnings := []);
      var again := once.(deviceId := d.deviceId, revision := 0, warnings := []);
      LookDetermines(again, Applied(start, ops));
      forall k ensures Look(Applied(again, ops), k) == Look(Applied(start, ops), k) {
        AppliedActsOnEachObject(start, ops, k);
        AppliedActsOnEachObject(again, ops, k);
        FateIsStable(Look(start, k), k, ops);
      }
      LookDetermines(Applied(again, ops), Applied(start, ops));
    }
  }

  /** What a recovered device holds under a key: what the kept change set makes of the recorded object, or the
      wanted object if no change set was kept. */
  function RecoveredObject(previous: Option<Shadow>, saved: Saved, k: ObjKey): Option<Obj> {
    if saved.ops.Some? then Fate(if previous.Some? then Look(previous.value, k) else None, k, saved.ops.value)
    else Wanted(saved.desired, k)
  }

  /** The device's shadow has the contents the recovered transaction leads to from `previous`. */
  ghost predicate UpToDate(env: Env, shadows: map<DeviceId, Shadow>, tx: TxId, d: DeviceId, previous: Option<Shadow>) {
    d in env.saved(tx) && d in shadows && forall k :: Look(shadows[d], k) == RecoveredObject(previous, env.saved(tx)[d], k)
  }

  lemma RecoveredShadowHolds(previous: Option<Shadow>, saved: Saved, k: ObjKey)
    ensures Look(RecoveredShadow(previous, saved), k) == RecoveredObject(previous, saved, k)
  {
    if saved.ops.Some? {
      ShadowAfterHolds(previous, saved.desired, 0, saved.ops.value, k);
    }
  }

  lemma HasRecoveredContents(s: Shadow, previous: Option<Shadow>, saved: Saved)
    ensures (forall k :: Look(s, k) == RecoveredObject(previous, saved, k)) <==> SameContents(s, RecoveredShadow(previous, saved))
  {
    forall k ensures Look(RecoveredShadow(previous, saved), k) == RecoveredObject(previous, saved, k) {
      RecoveredShadowHolds(previous, saved, k);
    }
    LookDetermines(s, RecoveredShadow(previous, saved));
  }

  /** Storing the shadow of a device, for the first time or again, brings it up to date. */
  lemma StoringBringsUpToDate(env: Env, shadows: map<DeviceId, Shadow>, tx: TxId, d: DeviceId, previous: Option<Shadow>)
    requires d in env.saved(tx) && (A.Previous(shadows, d) == previous || UpToDate(env, shadows, tx, d, previous))
    ensures UpToDate(env, shadows[d := RecoveredShadow(A.Previous(shadows, d), env.saved(tx)[d])], tx, d, previous)
  {
    var saved := env.saved(tx)[d];
    var next := RecoveredShadow(A.Previous(shadows, d), saved);
    if UpToDate(env, shadows, tx, d, previous) {
      HasRecoveredContents(shadows[d], previous, saved);
      RecoveringTwiceIsSafe(previous, saved, shadows[d]);
    }
    HasRecoveredContents(next, previous, saved);
  }

  /** A shadow has changed only with a record whose devices agreed on the commit. Where one such record
      alone has the device, it is stored as committed only if its shadow is up to date. */
  ghost predicate Followed(env: Env, gate: I.Gate, before: map<TxId, Record>, now: map<TxId, Record>,
                           done: seq<TxId>, candidates: seq<TxId>, first: map<DeviceId, Shadow>, shadows: map<DeviceId, Shadow>) {
    && (forall d :: Unwritten(env, gate, before, done, d) ==> A.Previous(shadows, d) == A.Previous(first, d))
    && (forall tx, d :: NewlyCommitted(before, now, tx, d) && OnlyWriter(env, gate, before, candidates, tx, d)
          ==> UpToDate(env, shadows, tx, d, A.Previous(first, d)))
  }

  /** What the next candidate does not write, for a device that only `x` writes. */
  lemma NextWrites(env: Env, gate: I.Gate, before: map<TxId, Record>, mid: map<TxId, Record>, candidates: seq<TxId>, n: nat,
                   x: TxId, d: DeviceId)
    requires n < |candidates| && candidates[n] !in candidates[..n]
    requires mid == Recovered(env, gate, before, candidates[..n])
    ensures Unwritten(env, gate, before, candidates[..n + 1], d)
            ==> Unwritten(env, gate, before, candidates[..n], d) && Unwritten(env, gate, mid, [candidates[n]], d)
    ensures OnlyWriter(env, gate, before, candidates, x, d) ==>
              if x == candidates[n] then Unwritten(env, gate, before, candidates[..n], d)
              else Unwritten(env, gate, mid, [candidates[n]], d)
  {
    var tx := candidates[n];
    assert candidates[..n + 1] == candidates[..n] + [tx];
    assert Writes(env, gate, mid, tx, d) == Writes(env, gate, before, tx, d);
  }

  lemma OneMoreFollowed(env: Env, gate: I.Gate, before: map<TxId, Record>, mid: map<TxId, Record>, now: map<TxId, Record>,
                        candidates: seq<TxId>, n: nat,
                        first: map<DeviceId, Shadow>, second: map<DeviceId, Shadow>, last: map<DeviceId, Shadow>)
    requires n < |candidates| && candidates[n] !in candidates[..n]
    requires mid == Recovered(env, gate, before, candidates[..n]) && Partly(env, gate, mid, now, [candidates[n]])
    requires Followed(env, gate, before, mid, candidates[..n], candidates, first, second)
    requires Followed(env, gate, mid, now, [candidates[n]], [candidates[n]], second, last)
    ensures Followed(env, gate, before, now, candidates[..n + 1], candidates, first, last)
  {
    var tx := candidates[n];
    forall d | Unwritten(env, gate, before, candidates[..n + 1], d) ensures A.Previous(last, d) == A.Previous(first, d) {
      NextWrites(env, gate, before, mid, candidates, n, tx, d);
    }
    forall x, d | NewlyCommitted(before, now, x, d) && OnlyWriter(env, gate, before, candidates, x, d)
      ensures UpToDate(env, last, x, d, A.Previous(first, d))
    {
      NextWrites(env, gate, before, mid, candidates, n, x, d);
      if x == tx {
        assert NewlyCommitted(mid, now, x, d) && OnlyWriter(env, gate, mid, [tx], x, d);
      } else {
        assert NewlyCommitted(before, mid, x, d);
        assert A.Previous(last, d) == A.Previous(second, d);
      }
    }
  }

  lemma AllFollowed(env: Env, gate: I.Gate, before: map<TxId, Record>, now: map<TxId, Record>, candidates: seq<TxId>, n: nat,
                    first: map<DeviceId, Shadow>, last: map<DeviceId, Shadow>)
    requires n <= |candidates| && Followed(env, gate, before, now, candidates[..n], candidates, first, last)
    ensures Followed(env, gate, before, now, candidates, candidates, first, last)
  {
    forall d | Unwritten(env, gate, before, candidates, d) ensures Unwritten(env, gate, before, candidates[..n], d) {
    }
  }

  lemma IsolatedHasOneWriter(env: Env, gate: I.Gate, journal: map<TxId, Record>, candidates: seq<TxId>, tx: TxId, d: DeviceId)
    requires S.Isolated(journal) && Unresolved(journal, tx) && d in journal[tx].devices
    ensures OnlyWriter(env, gate, journal, candidates, tx, d)
  {
    forall other | Writes(env, gate, journal, other, d) ensures other == tx {
      assert Unresolved(journal, other);
    }
  }

  lemma FollowedWhenIsolated(env: Env, gate: I.Gate, before: map<TxId, Record>, now: map<TxId, Record>, candidates: seq<TxId>,
                             first: map<DeviceId, Shadow>, last: map<DeviceId, Shadow>)
    requires Followed(env, gate, before, now, candidates, candidates, first, last)
    ensures S.Isolated(before) ==>
              forall tx, d :: NewlyCommitted(before, now, tx, d) ==> UpToDate(env, last, tx, d, A.Previous(first, d))
    ensures (forall tx :: tx in candidates && tx in before ==> before[tx].phase.InDoubt?) ==> last == first
  {
    if S.Isolated(before) {
      forall tx, d | NewlyCommitted(before, now, tx, d) ensures UpToDate(env, last, tx, d, A.Previous(first, d)) {
        IsolatedHasOneWriter(env, gate, before, candidates, tx, d);
      }
    }
    if forall tx :: tx in candidates && tx in before ==> before[tx].phase.InDoubt? {
      forall d ensures A.Previous(last, d) == A.Previous(first, d) {
        assert Unwritten(env, gate, before, candidates, d);
      }
      SameShadows(first, last);
    }
  }

  lemma SameShadows(first: map<DeviceId, Shadow>, last: map<DeviceId, Shadow>)
    requires forall d :: A.Previous(last, d) == A.Previous(first, d)
    ensures last == first
  {
    forall d ensures d in last <==> d in first
             ensures d in first ==> last[d] == first[d]
    {
      assert A.Previous(last, d) == A.Previous(first, d);
    }
  }

  datatype Report = Report(recovered: nat, inDoubt: nat, pending: nat)

  class RecoveryCoordinator {
    const env: Env
    const puts: nat -> M.PutOutcome
    var clock: nat
    var journal: map<TxId, Record>
    var shadows: map<DeviceId, Shadow>

    constructor (env: Env, puts: nat -> M.PutOutcome, journal: map<TxId, Record>, shadows: map<DeviceId, Shadow>)
      ensures this.env == env && this.puts == puts && this.clock == 0
      ensures this.journal == journal && this.shadows == shadows
    {
      this.env, this.puts, this.clock := env, puts, 0;
      this.journal, this.shadows := journal, shadows;
    }

    /** All journal writes between two points succeeded. */
    ghost predicate AllStored(from: nat, to: nat) {
      forall n :: from <= n < to ==> puts(n).PutOk?
    }

    method PutRecord(tx: TxId, r: Record) returns (ok: bool)
      modifies this`clock, this`journal
      ensures ok <==> puts(old(clock)).PutOk?
      ensures clock == old(clock) + 1
      ensures ok ==> journal == old(journal)[tx := r]
      ensures !ok ==> journal == old(journal) || journal == old(journal)[tx := r]
    {
      var outcome := puts(clock);
      clock := clock + 1;
      if !outcome.PutLost? {
        journal := journal[tx := r];
      }
      ok := outcome.PutOk?;
    }

    /** Brings the shadows of the devices up to date, one after the other, until one cannot be. */
    method PersistRecoveredShadow(tx: TxId, devices: seq<DeviceId>) returns (ok: bool)
      modifies this`shadows
      ensures ok <==> Persists(env, tx, devices)
      ensures forall d :: d !in devices ==> A.Previous(shadows, d) == old(A.Previous(shadows, d))
      ensures ok ==> forall d :: d in devices ==> UpToDate(env, shadows, tx, d, old(A.Previous(shadows, d)))
    {
      for n := 0 to |devices|
        invariant Persists(env, tx, devices[..n])
        invariant forall d :: d !in devices[..n] ==> A.Previous(shadows, d) == old(A.Previous(shadows, d))
        invariant forall d :: d in devices[..n] ==> UpToDate(env, shadows, tx, d, old(A.Previous(shadows, d)))
      {
        var d := devices[n];
        assert devices[..n + 1] == devices[..n] + [d];
        if d !in env.saved(tx) || !env.stores(d) {
          return false;
        }
        StoringBringsUpToDate(env, shadows, tx, d, old(A.Previous(shadows, d)));
        shadows := shadows[d := RecoveredShadow(A.Previous(shadows, d), env.saved(tx)[d])];
      }
      assert devices[..|devices|] == devices;
      ok := true;
    }

    /** Asks the devices of a record that is being recovered and stores the shadows of a commit. */
    method SettleRecord(tx: TxId, gate: I.Gate, record: Record) returns (final: TxPhase)
      requires Attempted(env, gate, tx, record) && !record.phase.InDoubt?
      modifies this`shadows
      ensures record.(phase := final) == Outcome(env, gate, tx, record)
      ensures ByReports(env, tx, record, record.(phase := final))
      ensures forall d :: !(Agreed(env, gate, tx, record) && d in record.devices)
                ==> A.Previous(shadows, d) == old(A.Previous(shadows, d))
      ensures final.Committed? ==>
                forall d :: d in record.devices ==> UpToDate(env, shadows, tx, d, old(A.Previous(shadows, d)))
    {
      var action := ActionFor(record.phase);
      var envs := EnvsFor(env, tx, record);
      var phase := RecoverRecord(record, action, envs);
      final := if phase.Some? then phase.value else InDoubt;
      if final.Committed? {
        var persisted := PersistRecoveredShadow(tx, record.devices);
        if !persisted {
          final := InDoubt;
        }
      }
      TakenUpByReports(env, gate, tx, record);
    }

    /** Recovers one record: marks it, asks the devices, stores shadows of a commit, stores the outcome. */
    method RecoverOne(tx: TxId, gate: I.Gate) returns (r: Result<bool>)
      requires tx in journal && Attempted(env, gate, tx, journal[tx]) && !journal[tx].phase.InDoubt?
      modifies this`clock, this`journal, this`shadows
      ensures journal.Keys == old(journal).Keys
      ensures forall t :: t in journal && t != tx ==> journal[t] == old(journal)[t]
      ensures InProgress(env, gate, tx, old(journal)[tx], journal[tx])
      ensures r.Ok? ==> journal[tx] == Outcome(env, gate, tx, old(journal)[tx])
      ensures r.Ok? ==> ByReports(env, tx, old(journal)[tx], journal[tx])
      ensures r.Ok? ==> (r.value <==> !RequiresRecovery(journal[tx].phase))
      ensures forall d :: !(Agreed(env, gate, tx, old(journal)[tx]) && d in old(journal)[tx].devices)
                ==> A.Previous(shadows, d) == old(A.Previous(shadows, d))
      ensures journal[tx].phase.Committed? ==>
                forall d :: d in journal[tx].devices ==> UpToDate(env, shadows, tx, d, old(A.Previous(shadows, d)))
      ensures old(clock) <= clock && (r.Ok? <==> AllStored(old(clock), clock))
    {
      var record := journal[tx];
      var ok := PutRecord(tx, record.(phase := Recovering));
      if !ok {
        assert !puts(old(clock)).PutOk?;
        return Err;
      }
      var final := SettleRecord(tx, gate, record);
      ok := PutRecord(tx, record.(phase := final));
      if !ok {
        assert !puts(old(clock) + 1).PutOk?;
        return Err;
      }
      assert journal[tx] == record.(phase := final) && AllStored(old(clock), clock);
      r := Ok(final.Committed? || final.RolledBack?);
    }

    /** One candidate of a pass: gone, not to be taken up, in doubt, or recovered. */
    method TakeUp(tx: TxId, gate: I.Gate) returns (r: Result<nat>)
      modifies this`clock, this`journal, this`shadows
      ensures r.Ok? ==> journal == if tx in old(journal) then old(journal)[tx := Outcome(env, gate, tx, old(journal)[tx])] else old(journal)
      ensures r.Ok? ==> r.value == if Ends(env, gate, old(journal), tx) then 1 else 0
      ensures Partly(env, gate, old(journal), journal, [tx])
      ensures Followed(env, gate, old(journal), journal, [tx], [tx], old(shadows), shadows)
      ensures old(clock) <= clock && (r.Ok? <==> AllStored(old(clock), clock))
    {
      if tx !in journal || !Attempted(env, gate, tx, journal[tx]) || journal[tx].phase.InDoubt? {
        return Ok(0);
      }
      var one := RecoverOne(tx, gate);
      r := if one.Err? then Err else Ok(if one.value then 1 else 0);
    }

    /** A pass over the candidates: every record taken up is brought to its outcome, all others stay. The
        report is about all unresolved records, or only about those taken up. If a journal write fails the
        pass stops, and every record is as it was, marked, or done. Stopped or not, a shadow changes only
        with a record whose devices agreed on the commit, and when only one such record has the device,
        that record is stored as committed only after its shadow. */
    method RecoverRecords(candidates: seq<TxId>, gate: I.Gate, onlyTaken: bool) returns (r: Result<Report>)
      requires forall m, n :: 0 <= m < n < |candidates| ==> candidates[m] != candidates[n]
      modifies this`clock, this`journal, this`shadows
      ensures r.Ok? ==> journal == Recovered(env, gate, old(journal), candidates)
      ensures r.Ok? ==> AllByReports(env, gate, old(journal), journal, candidates)
      ensures r.Ok? ==>
                var taken := TakenUp(env, gate, old(journal), candidates);
                var pending := if onlyTaken then Recoverable(journal) * taken else Recoverable(journal);
                r.value == Report(|Ended(env, gate, old(journal), candidates)|, |pending * InDoubts(journal)|, |pending|)
      ensures Partly(env, gate, old(journal), journal, candidates)
      ensures Followed(env, gate, old(journal), journal, candidates, candidates, old(shadows), shadows)
      ensures old(clock) <= clock && (r.Ok? <==> AllStored(old(clock), clock))
    {
      var recovered := 0;
      var taken: set<TxId> := {};
      for n := 0 to |candidates|
        invariant old(clock) <= clock && AllStored(old(clock), clock)
        invariant journal == Recovered(env, gate, old(journal), candidates[..n])
        invariant recovered == |Ended(env, gate, old(journal), candidates[..n])|
        invariant taken == TakenUp(env, gate, old(journal), candidates[..n])
        invariant Followed(env, gate, old(journal), journal, candidates[..n], candidates, old(shadows), shadows)
      {
        var tx := candidates[n];
        assert candidates[..n + 1] == candidates[..n] + [tx];
        OneMoreCandidate(env, gate, old(journal), candidates[..n], tx);
        OneMoreTakenUp(env, gate, old(journal), candidates[..n], tx);
        if tx in journal && Attempted(env, gate, tx, journal[tx]) {
          taken := taken + {tx};
        }
        ghost var soFar, shadowsSoFar := journal, shadows;
        var one := TakeUp(tx, gate);
        OneMoreFollowed(env, gate, old(journal), soFar, journal, candidates, n, old(shadows), shadowsSoFar, shadows);
        if one.Err? {
          CutShort(env, gate, old(journal), soFar, journal, candidates, n);
          AllFollowed(env, gate, old(journal), journal, candidates, n + 1, old(shadows), shadows);
          return Err;
        }
        recovered := recovered + one.value;
      }
      assert candidates[..|candidates|] == candidates;
      PassFollowsTheReports(env, gate, old(journal), candidates);
      var pending := if onlyTaken then Recoverable(journal) * taken else Recoverable(journal);
      r := Ok(Report(recovered, |pending * InDoubts(journal)|, |pending|));
    }

    /** A pass over everything unresolved: what is still unresolved afterwards is in doubt, and every record
        that was unresolved is either counted as recovered or still pending. */
    method RecoverPending() returns (r: Result<Report>)
      modifies this`clock, this`journal, this`shadows
      ensures r.Ok? ==> Recoverable(journal) == InDoubts(journal) && r.value.pending == r.value.inDoubt
      ensures r.Ok? ==> r.value.recovered + r.value.pending == |Recoverable(old(journal))|
      ensures r.Ok? ==> Settled(env, I.AnyRecoverable, old(journal), journal)
      ensures forall d :: (forall tx :: !Writes(env, I.AnyRecoverable, old(journal), tx, d))
                ==> A.Previous(shadows, d) == old(A.Previous(shadows, d))
      ensures S.Isolated(old(journal)) ==>
                forall tx, d :: NewlyCommitted(old(journal), journal, tx, d) ==> UpToDate(env, shadows, tx, d, old(A.Previous(shadows, d)))
      ensures Recoverable(old(journal)) == InDoubts(old(journal)) ==> shadows == old(shadows)
      ensures old(clock) <= clock && (r.Ok? <==> AllStored(old(clock), clock))
    {
      var candidates := SortStrings(Recoverable(journal));
      assert forall m, n :: 0 <= m < n < |candidates| ==> candidates[m] != candidates[n];
      PassLeavesOnlyDoubt(env, journal, candidates);
      r := RecoverRecords(candidates, I.AnyRecoverable, false);
      if r.Ok? {
        FullPassSettles(env, I.AnyRecoverable, old(journal), journal, candidates);
      }
      FollowedWhenIsolated(env, I.AnyRecoverable, old(journal), journal, candidates, old(shadows), shadows);
      assert r.Ok? ==> Recoverable(journal) * InDoubts(journal) == Recoverable(journal);
    }

    /** The watcher: only confirmed commits whose time is up, and a report about those alone. */
    method RecoverTimedOut() returns (r: Result<Report>)
      modifies this`clock, this`journal, this`shadows
      ensures r.Ok? ==> r.value.pending == r.value.inDoubt
      ensures r.Ok? ==> Settled(env, I.TimedOutConfirmedCommit, old(journal), journal)
      ensures r.Ok? ==> r.value.recovered + r.value.pending
                        == |set tx | tx in old(journal) && Attempted(env, I.TimedOutConfirmedCommit, tx, old(journal)[tx])|
      ensures forall tx :: tx in old(journal) && !Attempted(env, I.TimedOutConfirmedCommit, tx, old(journal)[tx])
                ==> tx in journal && journal[tx] == old(journal)[tx]
      ensures forall d :: (forall tx :: !Writes(env, I.TimedOutConfirmedCommit, old(journal), tx, d))
                ==> A.Previous(shadows, d) == old(A.Previous(shadows, d))
      ensures S.Isolated(old(journal)) ==>
                forall tx, d :: NewlyCommitted(old(journal), journal, tx, d) ==> UpToDate(env, shadows, tx, d, old(A.Previous(shadows, d)))
      ensures old(clock) <= clock && (r.Ok? <==> AllStored(old(clock), clock))
    {
      var gate := I.TimedOutConfirmedCommit;
      var due := set tx | tx in journal && Attempted(env, gate, tx, journal[tx]);
      var candidates := SortStrings(due);
      assert forall m, n :: 0 <= m < n < |candidates| ==> candidates[m] != candidates[n];
      TakenUpIsEndedOrInDoubt(env, gate, journal, candidates);
      assert TakenUp(env, gate, journal, candidates) == due;
      r := RecoverRecords(candidates, gate, true);
      if r.Ok? {
        FullPassSettles(env, gate, old(journal), journal, candidates);
      }
      FollowedWhenIsolated(env, gate, old(journal), journal, candidates, old(shadows), shadows);
      assert r.Ok? ==> (Recoverable(journal) * due) * InDoubts(journal) == Recoverable(journal) * due;
    }

    /** Manual resolution: only of a transaction in doubt, only if authorised and audited. Nothing else changes. */
    method ForceResolve(tx: TxId, authorised: bool, audited: bool) returns (ok: bool)
      modifies this`clock, this`journal
      ensures ok <==> && tx in old(journal) && old(journal)[tx].phase.InDoubt? && authorised && audited
                      && puts(old(clock)).PutOk?
      ensures ok ==> && tx in old(journal)
                     && journal == old(journal)[tx := old(journal)[tx].(phase := ForceResolved)]
      ensures journal != old(journal) ==>
                && tx in old(journal) && old(journal)[tx].phase.InDoubt? && authorised && audited
                && journal == old(journal)[tx := old(journal)[tx].(phase := ForceResolved)]
    {
      if tx !in journal || !journal[tx].phase.InDoubt? || !authorised || !audited {
        return false;
      }
      ok := PutRecord(tx, journal[tx].(phase := ForceResolved));
    }
  }
}
