/** Interfaces that a recorded state keeps under other spellings of their names, in terms of the request. */
module PortSpellings {
  import opened Wrappers
  import Ordering
  import opened ConfigModel
  import opened Normalize
  import opened Objects
  import opened Diff
  import opened DiffContents
  import opened Convergence
  import opened Drift
  import opened Spellings

  /** The state keeps interface `n` under another spelling, too or only. */
  predicate SpelledOtherwise(s: Shadow, n: string, y: string) {
    y in s.interfaces && y != n && CanonicalName(y) == n
  }

  /** The request asks for another interface than the one that is there. */
  predicate Rewrites(d: Desired, n: string, cur: Option<Obj>) {
    n in d.interfaces && cur != Some(InterfaceObj(d.interfaces[n]))
  }

  lemma InterfaceOps(d: Desired, c: Shadow, n: string)
    requires CanonicalDesired(d)
    ensures var k, ops := InterfaceKey(n), DiffOps(d, c);
            && (SetIn(ops, k) <==> Rewrites(d, n, Look(c, k)))
            && (forall o: Obj :: o.InterfaceObj? ==> (RemovedIn(ops, k, o) <==> n in d.deleteInterfaces && Look(c, k).Some?))
  {
    var k, ops := InterfaceKey(n), DiffOps(d, c);
    if SetIn(ops, k) {
      var i :| 0 <= i < |ops| && Sets(ops[i], k);
      assert Has(ops, EffectOf(ops[i]));
      DiffWrites(d, c, EffectOf(ops[i]).obj);
    }
    if Rewrites(d, n, Look(c, k)) {
      DiffWrites(d, c, InterfaceObj(d.interfaces[n]));
      var i :| 0 <= i < |ops| && EffectOf(ops[i]) == Put(InterfaceObj(d.interfaces[n]));
      assert Sets(ops[i], k);
    }
    DiffRemoves(d, c, k);
    forall o: Obj | o.InterfaceObj? ensures RemovedIn(ops, k, o) <==> Has(ops, Del(k)) {
      if RemovedIn(ops, k, o) {
        var i :| 0 <= i < |ops| && Removes(ops[i], k, o);
        assert EffectOf(ops[i]) == Del(k);
      }
      if Has(ops, Del(k)) {
        var i :| 0 <= i < |ops| && EffectOf(ops[i]) == Del(k);
        assert Removes(ops[i], k, o);
      }
    }
  }

  /** What becomes of an interface on the device. */
  function PortAfter(d: Desired, n: string, cur: Option<Obj>): Option<Obj> {
    if n in d.deleteInterfaces && cur.Some? then None
    else if Rewrites(d, n, cur) then Some(InterfaceObj(d.interfaces[n]))
    else cur
  }

  lemma WrittenPortFate(d: Desired, c: Shadow, n: string)
    requires CanonicalDesired(d) && Rewrites(d, n, Look(c, InterfaceKey(n)))
    ensures Fate(Look(c, InterfaceKey(n)), InterfaceKey(n), DiffOps(d, c)) == PortAfter(d, n, Look(c, InterfaceKey(n)))
  {
    var k, ops := InterfaceKey(n), DiffOps(d, c);
    var cur, o := Look(c, k), InterfaceObj(d.interfaces[n]);
    InterfaceOps(d, c, n);
    forall i | 0 <= i < |ops| && Sets(ops[i], k) ensures EffectOf(ops[i]) == Put(o) {
      assert Has(ops, EffectOf(ops[i]));
      DiffWrites(d, c, EffectOf(ops[i]).obj);
    }
    if n in d.deleteInterfaces && cur.Some? {
      DiffIsRanked(d, c);
      DiffRemoves(d, c, k);
      Undone(cur, k, o, k, ops);
    } else {
      var i := LastSet(ops, k);
      FateAfterLastSet(cur, k, ops, i);
      var tail := ops[i + 1..];
      forall j | 0 <= j < |tail| ensures !Removes(tail[j], k, o) {
        assert !Removes(ops[i + 1 + j], k, o);
      }
    }
  }

  lemma PortFate(d: Desired, c: Shadow, n: string)
    requires CanonicalDesired(d)
    ensures Fate(Look(c, InterfaceKey(n)), InterfaceKey(n), DiffOps(d, c)) == PortAfter(d, n, Look(c, InterfaceKey(n)))
  {
    InterfaceOps(d, c, n);
    if Rewrites(d, n, Look(c, InterfaceKey(n))) {
      WrittenPortFate(d, c, n);
    } else {
      FateWithoutSets(Look(c, InterfaceKey(n)), InterfaceKey(n), DiffOps(d, c));
    }
  }

  /** An entry under another spelling always stays. */
  lemma OtherSpellingStays(d: Desired, c: Shadow, s: Shadow, n: string, y: string)
    requires CanonicalDesired(d) && NormalDrops(d) && Keyed(s) && SpelledOtherwise(s, n, y)
    ensures Stays(s, DiffOps(d, c), InterfaceKey(y), InterfaceKey(n))
  {
    var k, z, ops := InterfaceKey(n), InterfaceKey(y), DiffOps(d, c);
    assert KeyOf(Look(s, z).value) == z;
    assert Spells(s, z, k);
    DiffIsClear(d, c, s, k);
    forall i | 0 <= i < |ops| ensures !Removes(ops[i], z, Look(s, z).value) {
      if Removes(ops[i], z, Look(s, z).value) {
        assert Has(ops, Del(z));
        assert false;
      }
    }
  }

  /** The entries about an interface that stay: all other spellings, and its own if it is not touched. */
  lemma StayingPorts(d: Desired, c: Shadow, s: Shadow, n: string, z: ObjKey)
    requires CanonicalDesired(d) && NormalDrops(d) && Keyed(s) && Look(c, InterfaceKey(n)) == Look(NormalShadow(s), InterfaceKey(n))
    ensures Stays(s, DiffOps(d, c), z, InterfaceKey(n)) <==>
            && z.InterfaceKey? && Spells(s, z, InterfaceKey(n))
            && (z.name != n || (n !in d.deleteInterfaces && !Rewrites(d, n, Look(c, InterfaceKey(n)))))
  {
    var k := InterfaceKey(n);
    if Spells(s, z, k) {
      InterfaceSpelling(s, z, n);
      assert KeyOf(Look(s, z).value) == z;
      if z.name != n {
        OtherSpellingStays(d, c, s, n, z.name);
      } else {
        SpelledIsThere(s, z, k);
        InterfaceOps(d, c, n);
      }
    }
  }

  lemma TouchedPortIsOverruled(d: Desired, c: Shadow, s: Shadow, n: string, y: string)
    requires CanonicalDesired(d) && NormalDrops(d) && Keyed(s) && Look(c, InterfaceKey(n)) == Look(NormalShadow(s), InterfaceKey(n))
    requires SpelledOtherwise(s, n, y)
    requires n in d.deleteInterfaces || (Rewrites(d, n, Look(c, InterfaceKey(n))) && Ordering.StringLe(n, y))
    ensures exists z :: Overrules(s, DiffOps(d, c), z, InterfaceKey(n), PortAfter(d, n, Look(c, InterfaceKey(n))))
  {
    var k, ops := InterfaceKey(n), DiffOps(d, c);
    var cur := Look(c, k);
    DiffIsClear(d, c, s, k);
    OtherSpellingStays(d, c, s, n, y);
    SpelledIsThere(s, InterfaceKey(y), k);
    InterfaceOps(d, c, n);
    PortFate(d, c, n);
    if SetIn(ops, k) {
      WrittenFate(Look(s, k), cur, k, ops);
    }
    var z := SomeEntryIsLast(s, ops, InterfaceKey(y), k);
    OnlyTheLastOverrules(s, ops, z, k, PortAfter(d, n, cur));
    if n !in d.deleteInterfaces {
      forall w | Spells(s, w, k) ensures KeyLe(w, z) {
        InterfaceSpelling(s, w, n);
        StayingPorts(d, c, s, n, w);
      }
      FormOfLast(s, z, k);
    }
  }

  lemma OverruledPortIsTouched(d: Desired, c: Shadow, s: Shadow, n: string, z: ObjKey)
    requires CanonicalDesired(d) && NormalDrops(d) && Keyed(s) && Look(c, InterfaceKey(n)) == Look(NormalShadow(s), InterfaceKey(n))
    requires Overrules(s, DiffOps(d, c), z, InterfaceKey(n), PortAfter(d, n, Look(c, InterfaceKey(n))))
    ensures z.InterfaceKey? && SpelledOtherwise(s, n, z.name)
    ensures n in d.deleteInterfaces || (Rewrites(d, n, Look(c, InterfaceKey(n))) && Ordering.StringLe(n, z.name))
  {
    var k := InterfaceKey(n);
    StayingPorts(d, c, s, n, z);
    InterfaceSpelling(s, z, n);
    assert KeyOf(Look(s, z).value) == z;
    if n !in d.deleteInterfaces {
      InterfaceOps(d, c, n);
      if !Rewrites(d, n, Look(c, k)) {
        forall w | Spells(s, w, k) ensures KeyLe(w, z) {
          InterfaceSpelling(s, w, n);
          StayingPorts(d, c, s, n, w);
        }
        FormOfLast(s, z, k);
        assert false;
      }
    }
  }

  /** An entry under another spelling stands in the way of what is recorded for the interface: the request
      drops the interface, or rewrites it and the entry comes after its normal name. */
  ghost predicate Shadowed(d: Desired, s: Shadow, n: string) {
    exists y :: && SpelledOtherwise(s, n, y)
                && (n in d.deleteInterfaces
                    || (Rewrites(d, n, Look(NormalShadow(s), InterfaceKey(n))) && Ordering.StringLe(n, y)))
  }

  /** A request is carried out on a device whose record agreed with it, and recorded. The next audit has a
      finding about an interface exactly when another spelling stands in the way. */
  lemma InterfaceDriftsExactlyWhenShadowed(desired: Desired, current: Shadow, s: Shadow, now: Shadow, n: string)
    requires Keyed(s) && !Drifted(s, current, InterfaceKey(n))
    requires CarriedOut(current, ChangeSet(desired, current), now, InterfaceKey(n))
    ensures Drifted(Applied(s, ChangeSet(desired, current)), now, InterfaceKey(n)) <==> Shadowed(NormalDesired(desired), s, n)
  {
    var d, c, k := NormalDesired(desired), NormalShadow(current), InterfaceKey(n);
    NormalDesiredIsCanonical(desired);
    NormalDesiredHasNormalDrops(desired);
    AuditFindsExactlyTheOverruled(desired, current, s, now, k);
    AppliedActsOnEachObject(c, DiffOps(d, c), k);
    PortFate(d, c, n);
    ShadowedIsOverruled(d, c, s, n);
  }

  lemma ShadowedIsOverruled(d: Desired, c: Shadow, s: Shadow, n: string)
    requires CanonicalDesired(d) && NormalDrops(d) && Keyed(s) && Look(c, InterfaceKey(n)) == Look(NormalShadow(s), InterfaceKey(n))
    ensures Shadowed(d, s, n) <==>
            exists z :: Overrules(s, DiffOps(d, c), z, InterfaceKey(n), PortAfter(d, n, Look(c, InterfaceKey(n))))
  {
    if Shadowed(d, s, n) {
      var y :| && SpelledOtherwise(s, n, y)
               && (n in d.deleteInterfaces
                   || (Rewrites(d, n, Look(NormalShadow(s), InterfaceKey(n))) && Ordering.StringLe(n, y)));
      TouchedPortIsOverruled(d, c, s, n, y);
    }
    if z :| Overrules(s, DiffOps(d, c), z, InterfaceKey(n), PortAfter(d, n, Look(c, InterfaceKey(n)))) {
      OverruledPortIsTouched(d, c, s, n, z);
    }
  }

  /** A canonical record follows the device: it keeps no other spelling, so nothing an apply does is drift. */
  lemma CanonicalRecordNeverDrifts(desired: Desired, current: Shadow, s: Shadow, now: Shadow, k: ObjKey)
    requires CanonicalShadow(s) && !Drifted(s, current, k)
    requires CarriedOut(current, ChangeSet(desired, current), now, k)
    ensures !Drifted(Applied(s, ChangeSet(desired, current)), now, k)
  {
    var ops := ChangeSet(desired, current);
    RecordedStateStaysCanonical(desired, current, s);
    NormalShadowIsCanonical(s);
    AppliedActsOnEachObject(s, ops, k);
    AppliedActsOnEachObject(NormalShadow(current), ops, k);
  }

  lemma EntryStays(desired: Desired, current: Shadow, s: Shadow, n: string, y: string)
    requires Keyed(s) && SpelledOtherwise(s, n, y)
    ensures var after := Applied(s, ChangeSet(desired, current));
            Keyed(after) && SpelledOtherwise(after, n, y) && after.interfaces[y] == s.interfaces[y]
  {
    var d, c := NormalDesired(desired), NormalShadow(current);
    NormalDesiredIsCanonical(desired);
    NormalDesiredHasNormalDrops(desired);
    OtherSpellingStays(d, c, s, n, y);
    DiffWritesNormalObjects(d, c);
    SpellingsAfter(s, DiffOps(d, c), InterfaceKey(y), InterfaceKey(n));
    RecordingKeepsKeyed(s, DiffOps(d, c));
    assert Look(Applied(s, DiffOps(d, c)), InterfaceKey(y)) == Look(s, InterfaceKey(y));
  }

  lemma {:induction false} EntryStaysForever(s: Shadow, requests: seq<(Desired, Shadow)>, n: string, y: string)
    requires Keyed(s) && SpelledOtherwise(s, n, y)
    ensures var later := RecordedFrom(s, requests);
            Keyed(later) && SpelledOtherwise(later, n, y) && later.interfaces[y] == s.interfaces[y]
  {
    if requests != [] {
      var m := |requests| - 1;
      EntryStaysForever(s, requests[..m], n, y);
      EntryStays(requests[m].0, requests[m].1, RecordedFrom(s, requests[..m]), n, y);
    }
  }

  lemma OtherwiseIsThere(s: Shadow, n: string, y: string)
    requires Keyed(s) && SpelledOtherwise(s, n, y)
    ensures Look(NormalShadow(s), InterfaceKey(n)).Some?
  {
    assert KeyOf(Look(s, InterfaceKey(y)).value) == InterfaceKey(y);
    assert Spells(s, InterfaceKey(y), InterfaceKey(n));
    SpelledIsThere(s, InterfaceKey(y), InterfaceKey(n));
  }

  /** An entry under another spelling never leaves the record, whatever is requested, carried out and recorded
      after it: every audit of a device without that interface has a finding about it. */
  lemma OtherSpellingNeverLeaves(s: Shadow, requests: seq<(Desired, Shadow)>, n: string, y: string, observed: Shadow)
    requires Keyed(s) && SpelledOtherwise(s, n, y)
    ensures y in RecordedFrom(s, requests).interfaces
    ensures Look(NormalShadow(observed), InterfaceKey(n)).None? ==> Drifted(RecordedFrom(s, requests), observed, InterfaceKey(n))
  {
    EntryStaysForever(s, requests, n, y);
    OtherwiseIsThere(RecordedFrom(s, requests), n, y);
  }
}
