/** Transaction phases and the relation that guards every phase change. */
module TxPhases {

  datatype TxPhase =
    | Started
    | Preparing
    | Prepared
    | Committing
    | Verifying
    | FinalConfirming
    | Recovering
    | Committed
    | RollingBack
    | RolledBack
    | Failed
    | InDoubt
    | ForceResolved

  predicate RequiresRecovery(p: TxPhase) {
    !(p.Committed? || p.RolledBack? || p.Failed? || p.ForceResolved?)
  }

  /** The forward phases of an apply that may still fail or roll back. */
  predicate InFlight(p: TxPhase) {
    p.Preparing? || p.Prepared? || p.Committing? || p.Verifying? || p.FinalConfirming?
  }

  predicate IsAllowed(from: TxPhase, to: TxPhase) {
    || from == to
    || (from.Started? && to.Preparing?)
    || (from.Preparing? && to.Prepared?)
    || (from.Prepared? && to.Committing?)
    || (from.Committing? && to.Verifying?)
    || (from.Verifying? && to.FinalConfirming?)
    || (from.FinalConfirming? && to.Committed?)
    || (InFlight(from) && (to.Failed? || to.RollingBack?))
    || ((from.Started? || InFlight(from) || from.RollingBack?) && to.Recovering?)
    || (from.Recovering? && (to.Committed? || to.RolledBack? || to.InDoubt?))
    || (from.RollingBack? && (to.RolledBack? || to.InDoubt?))
    || (from.Committed? && to.InDoubt?)
    || (from.InDoubt? && to.ForceResolved?)
  }

  /** A phase never moves to a lower rank; the three resting phases share the top rank. */
  function Rank(p: TxPhase): nat {
    match p
    case Started => 0
    case Preparing => 1
    case Prepared => 2
    case Committing => 3
    case Verifying => 4
    case FinalConfirming => 5
    case RollingBack => 6
    case Recovering => 7
    case Committed => 8
    case InDoubt => 9
    case RolledBack => 10
    case Failed => 10
    case ForceResolved => 10
  }

  ghost predicate Linked(step: (TxPhase, TxPhase) -> bool, ps: seq<TxPhase>) {
    forall i :: 0 <= i < |ps| - 1 ==> step(ps[i], ps[i + 1])
  }

  /** A history of phases in which every neighbouring pair is an allowed transition. */
  ghost predicate AllowedHistory(ps: seq<TxPhase>) {
    Linked(IsAllowed, ps)
  }

  function Changes(ps: seq<TxPhase>): nat {
    if |ps| < 2 then 0 else (if ps[0] == ps[1] then 0 else 1) + Changes(ps[1..])
  }

  /** Which phases can follow which over any number of transitions, in closed form. */
  predicate CanReach(from: TxPhase, to: TxPhase) {
    || from == to
    || (&& Rank(from) < Rank(to)
        && (to.Failed? ==> Rank(from) <= Rank(FinalConfirming))
        && (to.RolledBack? ==> Rank(from) <= Rank(Recovering)))
  }

  /** A history that only ever keeps the phase or raises its rank changes phase at most ten times. */
  lemma {:induction false} RisingHistoryChangesAtMostTenTimes(
    step: (TxPhase, TxPhase) -> bool, ps: seq<TxPhase>)
    requires forall a, b :: step(a, b) ==> a == b || Rank(a) < Rank(b)
    requires Linked(step, ps) && ps != []
    ensures Changes(ps) <= Rank(ps[|ps| - 1]) - Rank(ps[0]) <= 10
  {
    if |ps| > 1 {
      assert step(ps[0], ps[1]);
      assert Linked(step, ps[1..]) by {
        forall i | 0 <= i < |ps[1..]| - 1 ensures step(ps[1..][i], ps[1..][i + 1]) {
          assert step(ps[i + 1], ps[i + 2]);
        }
      }
      RisingHistoryChangesAtMostTenTimes(step, ps[1..]);
    }
  }

  lemma AllowedHistoryChangesAtMostTenTimes(ps: seq<TxPhase>)
    requires AllowedHistory(ps) && ps != []
    ensures Changes(ps) <= 10
    ensures !RequiresRecovery(ps[0]) && !ps[0].Committed? ==> forall p :: p in ps ==> p == ps[0]
  {
    RisingHistoryChangesAtMostTenTimes(IsAllowed, ps);
    if !RequiresRecovery(ps[0]) && !ps[0].Committed? {
      RestingPhaseIsNeverLeft(ps, |ps| - 1);
    }
  }

  lemma {:induction false} RestingPhaseIsNeverLeft(ps: seq<TxPhase>, n: nat)
    requires n < |ps| && AllowedHistory(ps)
    requires ps[0].RolledBack? || ps[0].Failed? || ps[0].ForceResolved?
    ensures forall i :: 0 <= i <= n ==> ps[i] == ps[0]
  {
    if n > 0 {
      RestingPhaseIsNeverLeft(ps, n - 1);
      assert IsAllowed(ps[n - 1], ps[n]);
    }
  }

  /** The phases of the longest possible history, by rank. */
  function AtRank(r: nat): TxPhase {
    match r
    case 0 => Started
    case 1 => Preparing
    case 2 => Prepared
    case 3 => Committing
    case 4 => Verifying
    case 5 => FinalConfirming
    case 6 => RollingBack
    case 7 => Recovering
    case 8 => Committed
    case 9 => InDoubt
    case _ => ForceResolved
  }

  /** Ten changes do occur: the bound is tight. */
  lemma TenChangesHappen()
    ensures exists ps :: AllowedHistory(ps) && Changes(ps) == 10
  {
    var ps := seq(11, (i: nat) => AtRank(i));
    EveryStepCounts(ps);
    assert AllowedHistory(ps);
  }

  lemma {:induction false} EveryStepCounts(ps: seq<TxPhase>)
    requires ps != [] && forall i :: 0 <= i < |ps| - 1 ==> ps[i] != ps[i + 1]
    ensures Changes(ps) == |ps| - 1
  {
    if |ps| > 1 {
      EveryStepCounts(ps[1..]);
    }
  }

  ghost predicate JoinedBy(ps: seq<TxPhase>, from: TxPhase, to: TxPhase) {
    ps != [] && AllowedHistory(ps) && ps[0] == from && ps[|ps| - 1] == to
  }

  /** CanReach is exactly the closure of IsAllowed. */
  lemma CanReachIsTheClosure(from: TxPhase, to: TxPhase)
    ensures CanReach(from, to) <==> exists ps :: JoinedBy(ps, from, to)
  {
    if CanReach(from, to) {
      var ps := PathBetween(from, to);
    }
    if exists ps :: JoinedBy(ps, from, to) {
      var ps :| JoinedBy(ps, from, to);
      HistoryIsReachable(ps);
    }
  }

  lemma {:induction false} HistoryIsReachable(ps: seq<TxPhase>)
    requires ps != [] && AllowedHistory(ps)
    ensures CanReach(ps[0], ps[|ps| - 1])
  {
    if |ps| > 1 {
      assert IsAllowed(ps[0], ps[1]);
      assert AllowedHistory(ps[1..]) by {
        forall i | 0 <= i < |ps[1..]| - 1 ensures IsAllowed(ps[1..][i], ps[1..][i + 1]) {
          assert IsAllowed(ps[i + 1], ps[i + 2]);
        }
      }
      HistoryIsReachable(ps[1..]);
    }
  }

  /** The next hop on a path towards `to`. */
  function Hop(from: TxPhase, to: TxPhase): (next: TxPhase)
    requires CanReach(from, to) && from != to
    ensures IsAllowed(from, next) && Rank(from) < Rank(next) && CanReach(next, to)
  {
    if IsAllowed(from, to) then to
    else if from.Recovering? || from.Committed? then InDoubt
    else if Rank(to) >= Rank(Committed) && !to.Failed? then Recovering
    else match from
      case Started => Preparing
      case Preparing => Prepared
      case Prepared => Committing
      case Committing => Verifying
      case _ => FinalConfirming
  }

  lemma {:induction false} PathBetween(from: TxPhase, to: TxPhase) returns (ps: seq<TxPhase>)
    requires CanReach(from, to)
    ensures JoinedBy(ps, from, to)
    decreases 10 - Rank(from)
  {
    if from == to {
      ps := [from];
    } else {
      var rest := PathBetween(Hop(from, to), to);
      ps := [from] + rest;
    }
  }

  /** What may follow each phase directly. */
  function Followers(p: TxPhase): set<TxPhase> {
    match p
    case Started => {Preparing, Recovering}
    case Preparing => {Prepared, Failed, RollingBack, Recovering}
    case Prepared => {Committing, Failed, RollingBack, Recovering}
    case Committing => {Verifying, Failed, RollingBack, Recovering}
    case Verifying => {FinalConfirming, Failed, RollingBack, Recovering}
    case FinalConfirming => {Committed, Failed, RollingBack, Recovering}
    case RollingBack => {RolledBack, InDoubt, Recovering}
    case Recovering => {Committed, RolledBack, InDoubt}
    case Committed => {InDoubt}
    case InDoubt => {ForceResolved}
    case RolledBack | Failed | ForceResolved => {}
  }

  /** A phase may stay, or change to one of its followers: no forward phase is skipped, only what is under way
      fails, rolls back or is recovered, and doubt is resolved by hand alone. */
  lemma AllowedExactly(p: TxPhase, q: TxPhase)
    ensures IsAllowed(p, q) <==> p == q || q in Followers(p)
    ensures RequiresRecovery(p) <==> Followers(p) != {} && !p.Committed?
  {
  }
}
