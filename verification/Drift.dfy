/** The drift audit: the recorded state of a device against the state it reports. */
module Drift {
  import opened Wrappers
  import opened Ordering
  import opened ConfigModel
  import opened Normalize
  import opened Objects
  import opened Diff

  datatype Finding = Missing(key: ObjKey) | Extra(key: ObjKey) | Mismatch(key: ObjKey) | Warned(text: string)

  /** What is to be said about one object. */
  function Found(expected: Shadow, observed: Shadow, k: ObjKey): Option<Finding> {
    match (Look(expected, k), Look(observed, k))
    case (None, None) => None
    case (Some(_), None) => Some(Missing(k))
    case (None, Some(_)) => Some(Extra(k))
    case (Some(a), Some(b)) => if a == b then None else Some(Mismatch(k))
  }

  /** The normal forms of the two states differ on an object. */
  predicate Drifted(expected: Shadow, observed: Shadow, k: ObjKey) {
    Look(NormalShadow(expected), k) != Look(NormalShadow(observed), k)
  }

  /** The audit looks at VLANs, interfaces, ACLs and ACL bindings, not at BGP. */
  predicate Audited(k: ObjKey) {
    k.VlanKey? || k.InterfaceKey? || k.AclKey? || k.BindingKey?
  }

  function Each<K, T>(xs: seq<K>, f: K -> T): (ys: seq<T>)
    ensures |ys| == |xs| && forall i :: 0 <= i < |xs| ==> ys[i] == f(xs[i])
    ensures forall x :: x in xs ==> f(x) in ys
  {
    var ys := seq(|xs|, i requires 0 <= i < |xs| => f(xs[i]));
    assert forall i :: 0 <= i < |xs| ==> ys[i] == f(xs[i]) && ys[i] in ys;
    ys
  }

  method VlanKeys(s: Shadow) returns (ks: seq<ObjKey>)
    ensures forall k :: k in ks <==> k.VlanKey? && Look(s, k).Some?
  {
    var xs := SortU16s(s.vlans.Keys);
    ks := Each(xs, (x: u16) => VlanKey(x));
  }

  method InterfaceKeys(s: Shadow) returns (ks: seq<ObjKey>)
    ensures forall k :: k in ks <==> k.InterfaceKey? && Look(s, k).Some?
  {
    var xs := SortStrings(s.interfaces.Keys);
    ks := Each(xs, x => InterfaceKey(x));
  }

  method AclKeys(s: Shadow) returns (ks: seq<ObjKey>)
    ensures forall k :: k in ks <==> k.AclKey? && Look(s, k).Some?
  {
    var xs := SortU16s(s.acls.Keys);
    ks := Each(xs, (x: u16) => AclKey(x));
  }

  method BindingKeys(s: Shadow) returns (ks: seq<ObjKey>)
    ensures forall k :: k in ks <==> k.BindingKey? && Look(s, k).Some?
  {
    var xs := SortStrings(s.bindings.Keys);
    ks := Each(xs, x => BindingKey(x));
  }

  /** Objects of one kind: first what is expected, then what else is there. */
  method CompareKind(e: Shadow, o: Shadow, expected: seq<ObjKey>, observed: seq<ObjKey>) returns (findings: seq<Finding>)
    requires forall k :: k in expected ==> Look(e, k).Some?
    requires forall k :: k in observed ==> Look(o, k).Some? && (Look(e, k).Some? ==> k in expected)
    ensures forall f :: f in findings <==> !f.Warned? && (f.key in expected || f.key in observed) && Found(e, o, f.key) == Some(f)
  {
    findings := [];
    for i := 0 to |expected|
      invariant forall f :: f in findings <==> !f.Warned? && f.key in expected[..i] && Found(e, o, f.key) == Some(f)
    {
      var k := expected[i];
      assert expected[..i + 1] == expected[..i] + [k];
      if Look(o, k).None? {
        findings := findings + [Missing(k)];
      } else if Look(o, k) != Look(e, k) {
        findings := findings + [Mismatch(k)];
      }
    }
    assert expected[..|expected|] == expected;
    for i := 0 to |observed|
      invariant forall f :: f in findings
                  <==> !f.Warned? && (f.key in expected || f.key in observed[..i]) && Found(e, o, f.key) == Some(f)
    {
      var k := observed[i];
      assert observed[..i + 1] == observed[..i] + [k];
      if Look(e, k).None? {
        findings := findings + [Extra(k)];
      }
    }
    assert observed[..|observed|] == observed;
  }

  method CompareBase(e: Shadow, o: Shadow) returns (findings: seq<Finding>)
    ensures forall f :: f in findings <==> !f.Warned? && (f.key.VlanKey? || f.key.InterfaceKey?) && Found(e, o, f.key) == Some(f)
  {
    var vlans := VlanKeys(e);
    var there := VlanKeys(o);
    var part0 := CompareKind(e, o, vlans, there);
    var ports := InterfaceKeys(e);
    var present := InterfaceKeys(o);
    var part1 := CompareKind(e, o, ports, present);
    findings := part0 + part1;
  }

  method CompareAcls(e: Shadow, o: Shadow) returns (findings: seq<Finding>)
    ensures forall f :: f in findings <==> !f.Warned? && (f.key.AclKey? || f.key.BindingKey?) && Found(e, o, f.key) == Some(f)
  {
    var acls := AclKeys(e);
    var there := AclKeys(o);
    var part0 := CompareKind(e, o, acls, there);
    var bindings := BindingKeys(e);
    var present := BindingKeys(o);
    var part1 := CompareKind(e, o, bindings, present);
    findings := part0 + part1;
  }

  ghost predicate Reports(findings: seq<Finding>, k: ObjKey) {
    exists f :: f in findings && !f.Warned? && f.key == k
  }

  /** An object that is not there is missing, one that should not be there is extra, and one that differs is a mismatch. */
  predicate SaidOf(findings: seq<Finding>, expected: Option<Obj>, observed: Option<Obj>, k: ObjKey) {
    && (Missing(k) in findings <==> Audited(k) && expected.Some? && observed.None?)
    && (Extra(k) in findings <==> Audited(k) && expected.None? && observed.Some?)
    && (Mismatch(k) in findings <==> Audited(k) && expected.Some? && observed.Some? && expected != observed)
  }

  lemma DriftIsReported(e: Shadow, o: Shadow, findings: seq<Finding>, k: ObjKey)
    requires forall f :: f in findings && !f.Warned? ==> Audited(f.key) && Found(e, o, f.key) == Some(f)
    requires forall f: Finding :: !f.Warned? && Audited(f.key) && Found(e, o, f.key) == Some(f) ==> f in findings
    ensures Reports(findings, k) <==> Audited(k) && Look(e, k) != Look(o, k)
    ensures SaidOf(findings, Look(e, k), Look(o, k), k)
  {
    if Audited(k) && Look(e, k) != Look(o, k) {
      var f := Found(e, o, k).value;
      assert f in findings && f.key == k;
    }
  }

  /** The report: one finding for each audited object on which the normal forms differ, and one for each
      warning of the device. */
  method DetectDrift(expected: Shadow, observed: Shadow) returns (findings: seq<Finding>)
    ensures forall f :: f in findings
              <==> if f.Warned? then f.text in observed.warnings
                   else Audited(f.key) && Found(NormalShadow(expected), NormalShadow(observed), f.key) == Some(f)
    ensures forall k :: Reports(findings, k) <==> Audited(k) && Drifted(expected, observed, k)
    ensures forall k :: SaidOf(findings, Look(NormalShadow(expected), k), Look(NormalShadow(observed), k), k)
  {
    var e, o := NormalShadow(expected), NormalShadow(observed);
    var base := CompareBase(e, o);
    var acls := CompareAcls(e, o);
    var warnings := Each(o.warnings, w => Warned(w));
    findings := base + acls + warnings;
    forall k
      ensures Reports(findings, k) <==> Audited(k) && Drifted(expected, observed, k)
      ensures SaidOf(findings, Look(e, k), Look(o, k), k)
    {
      DriftIsReported(e, o, findings, k);
    }
  }
}
