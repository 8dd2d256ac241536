/** What normalising forgets, field by field: two objects have one normal form exactly when they are the same up to
    blank texts, the spelling of interface names, space around VRF names and addresses, the order and repetition
    of allowed VLANs, and the order of rules with different numbers. */
module Sameness {
  import opened Wrappers
  import opened Ordering
  import opened Text
  import opened ConfigModel
  import opened Normalize
  import opened Objects
  import opened Spellings

  predicate IsBlank(t: Option<string>) { t.None? || t == Some("") }

  predicate SameText(a: Option<string>, b: Option<string>) { a == b || (IsBlank(a) && IsBlank(b)) }

  lemma TextsAreTheSame(a: Option<string>, b: Option<string>)
    ensures BlankToNone(a) == BlankToNone(b) <==> SameText(a, b)
  {
  }

  // ---- Interface names ----

  /** A long and a short name of one interface. */
  predicate LongFor(a: string, b: string, long: string, short: string) {
    && |a| >= |long| && a[..|long|] == long && |b| >= |short| && b[..|short|] == short && a[|long|..] == b[|short|..]
  }

  predicate Abbreviates(a: string, b: string) {
    LongFor(a, b, "GigabitEthernet", "GE") || LongFor(a, b, "Ten-GigabitEthernet", "XGE") || LongFor(a, b, "FortyGigE", "FGE")
  }

  /** Two spellings of one interface name, up to space around them. */
  predicate SameName(a: string, b: string) {
    Trim(a) == Trim(b) || Abbreviates(Trim(a), Trim(b)) || Abbreviates(Trim(b), Trim(a))
  }

  /** A name with one of the long beginnings. */
  predicate IsLong(t: string) { "GigabitEthernet" <= t || "Ten-GigabitEthernet" <= t || "FortyGigE" <= t }

  lemma ShortForm(name: string)
    ensures IsLong(Trim(name)) ==> Abbreviates(Trim(name), CanonicalName(name)) && CanonicalName(name)[..2] in {"GE", "XG", "FG"}
    ensures !IsLong(Trim(name)) ==> CanonicalName(name) == Trim(name)
  {
    var t, c := Trim(name), CanonicalName(name);
    if "GigabitEthernet" <= t {
      assert c[..2] == "GE";
    } else if "Ten-GigabitEthernet" <= t {
      assert c[..2] == "XG";
    } else if "FortyGigE" <= t {
      assert c[..2] == "FG";
    }
  }

  lemma ShortIsNotLong(t: string)
    requires |t| >= 2 && t[..2] in {"GE", "XG", "FG"}
    ensures !IsLong(t)
  {
    assert t[0] == t[..2][0] && t[1] == t[..2][1];
  }

  lemma AbbreviatedForm(a: string, b: string)
    requires Abbreviates(Trim(a), Trim(b))
    ensures CanonicalName(a) == Trim(b) == CanonicalName(b)
  {
    var s, t := Trim(a), Trim(b);
    if LongFor(s, t, "GigabitEthernet", "GE") {
      assert s[0] == s[..15][0] && s[1] == s[..15][1];
      assert t == "GE" + t[2..] && t[..2] == "GE";
    } else if LongFor(s, t, "Ten-GigabitEthernet", "XGE") {
      assert s[0] == s[..19][0];
      assert t == "XGE" + t[3..] && t[..2] == "XG";
    } else {
      assert s[0] == s[..9][0];
      assert t == "FGE" + t[3..] && t[..2] == "FG";
    }
    ShortIsNotLong(t);
  }

  lemma OneLongForm(a: string, b: string, c: string)
    requires Abbreviates(a, c) && Abbreviates(b, c)
    ensures a == b
  {
    if LongFor(a, c, "GigabitEthernet", "GE") {
      assert c[1] == c[..2][1] == 'E';
      assert LongFor(b, c, "GigabitEthernet", "GE") by { assert c[0] == 'G'; }
      assert a == "GigabitEthernet" + c[2..] == b;
    } else if LongFor(a, c, "Ten-GigabitEthernet", "XGE") {
      assert c[0] == c[..3][0] == 'X';
      assert a == "Ten-GigabitEthernet" + c[3..] == b;
    } else {
      assert c[0] == c[..3][0] == 'F';
      assert a == "FortyGigE" + c[3..] == b;
    }
  }

  lemma NamesAreTheSame(a: string, b: string)
    ensures CanonicalName(a) == CanonicalName(b) <==> SameName(a, b)
  {
    ShortForm(a);
    ShortForm(b);
    if Abbreviates(Trim(a), Trim(b)) {
      AbbreviatedForm(a, b);
    } else if Abbreviates(Trim(b), Trim(a)) {
      AbbreviatedForm(b, a);
    } else if CanonicalName(a) == CanonicalName(b) && IsLong(Trim(a)) && IsLong(Trim(b)) {
      OneLongForm(Trim(a), Trim(b), CanonicalName(a));
    }
  }

  // ---- Objects ----

  predicate SameVlan(a: VlanConfig, b: VlanConfig) {
    a.vlanId == b.vlanId && SameText(a.name, b.name) && SameText(a.description, b.description)
  }

  ghost predicate SameMode(a: PortMode, b: PortMode) {
    match (a, b)
    case (Access(v), Access(w)) => v == w
    case (Trunk(n, vs), Trunk(m, ws)) => n == m && forall v :: v in vs <==> v in ws
    case (_, _) => false
  }

  ghost predicate SamePort(a: InterfaceConfig, b: InterfaceConfig) {
    && SameName(a.name, b.name) && a.adminState == b.adminState && SameText(a.description, b.description)
    && SameMode(a.mode, b.mode)
  }

  predicate SameRule(a: AclRule, b: AclRule) {
    && a.sequence == b.sequence && a.action == b.action && a.protocol == b.protocol
    && a.source == b.source && a.destination == b.destination
    && a.sourcePort == b.sourcePort && a.destinationPort == b.destinationPort && SameText(a.description, b.description)
  }

  /** Rule by rule the same, for every number in its order. */
  ghost predicate SameRules(xs: seq<AclRule>, ys: seq<AclRule>) {
    forall n :: SameInOrder(Numbered(xs, n), Numbered(ys, n))
  }

  predicate SameInOrder(xs: seq<AclRule>, ys: seq<AclRule>) {
    |xs| == |ys| && forall i :: 0 <= i < |xs| ==> SameRule(xs[i], ys[i])
  }

  ghost predicate SameAcl(a: AclConfig, b: AclConfig) {
    && a.aclId == b.aclId && a.kind == b.kind && SameText(a.name, b.name) && SameText(a.description, b.description)
    && SameRules(a.rules, b.rules)
  }

  predicate SameBinding(a: AclBinding, b: AclBinding) {
    SameName(a.interfaceName, b.interfaceName) && a.direction == b.direction && a.aclId == b.aclId
  }

  predicate SameProcess(a: BgpProcess, b: BgpProcess) {
    Trim(a.vrf) == Trim(b.vrf) && a.localAs == b.localAs && SameText(a.routerId, b.routerId)
  }

  predicate SameNeighbor(a: BgpNeighbor, b: BgpNeighbor) {
    && Trim(a.vrf) == Trim(b.vrf) && Trim(a.address) == Trim(b.address) && a.remoteAs == b.remoteAs
    && SameText(a.description, b.description)
    && SameText(a.importPolicy, b.importPolicy) && SameText(a.exportPolicy, b.exportPolicy)
  }

  // ---- One normal form exactly for the same object ----

  lemma ModesAreTheSame(a: PortMode, b: PortMode)
    ensures NormalMode(a) == NormalMode(b) <==> SameMode(a, b)
  {
    if a.Trunk? && b.Trunk? {
      var vs, ws := SortedVlans(a.allowedVlans), SortedVlans(b.allowedVlans);
      if forall v :: v in a.allowedVlans <==> v in b.allowedVlans {
        U16sAreOrdered();
        ListedIsUnique(U16Le, (set v | v in a.allowedVlans), ws);
      }
      if vs == ws {
        forall v ensures v in a.allowedVlans <==> v in b.allowedVlans {
          assert v in vs <==> v in ws;
        }
      }
    }
  }

  /** The rules with blank descriptions dropped. */
  function Plain(rs: seq<AclRule>): seq<AclRule> {
    if rs == [] then [] else [NormalRule(rs[0])] + Plain(rs[1..])
  }

  lemma {:induction false} PlainIsEach(rs: seq<AclRule>)
    ensures |Plain(rs)| == |rs| && forall i :: 0 <= i < |rs| ==> Plain(rs)[i] == NormalRule(rs[i])
  {
    if rs != [] {
      PlainIsEach(rs[1..]);
    }
  }

  lemma NormalRulesAreSorted(rs: seq<AclRule>)
    ensures NormalRules(rs) == SortRules(Plain(rs))
  {
    PlainIsEach(rs);
    assert seq(|rs|, i requires 0 <= i < |rs| => NormalRule(rs[i])) == Plain(rs);
  }

  lemma {:induction false} PlainNumbered(rs: seq<AclRule>, n: u16)
    ensures Numbered(Plain(rs), n) == Plain(Numbered(rs, n))
  {
    if rs != [] {
      PlainNumbered(rs[1..], n);
      assert Plain(rs)[1..] == Plain(rs[1..]);
      if rs[0].sequence == n {
        assert ([rs[0]] + Numbered(rs[1..], n))[1..] == Numbered(rs[1..], n);
      } else {
        assert Numbered(rs, n) == Numbered(rs[1..], n) && Numbered(Plain(rs), n) == Numbered(Plain(rs)[1..], n);
      }
    }
  }

  lemma PlainsAreTheSame(xs: seq<AclRule>, ys: seq<AclRule>)
    ensures Plain(xs) == Plain(ys) <==> SameInOrder(xs, ys)
  {
    PlainIsEach(xs);
    PlainIsEach(ys);
    if Plain(xs) == Plain(ys) {
      forall i | 0 <= i < |xs| ensures SameRule(xs[i], ys[i]) {
        assert Plain(xs)[i] == Plain(ys)[i];
      }
    }
  }

  lemma {:induction false} NumberedHas(rs: seq<AclRule>, i: nat)
    requires i < |rs|
    ensures Numbered(rs, rs[i].sequence) != []
  {
    if i > 0 {
      NumberedHas(rs[1..], i - 1);
    }
  }

  lemma {:induction false} NumberedComesFrom(rs: seq<AclRule>, n: u16)
    requires Numbered(rs, n) != []
    ensures exists i :: 0 <= i < |rs| && rs[i].sequence == n
  {
    if rs[0].sequence != n {
      NumberedComesFrom(rs[1..], n);
      var i :| 0 <= i < |rs[1..]| && rs[1..][i].sequence == n;
      assert rs[i + 1].sequence == n;
    }
  }

  lemma FirstNumbers(a: seq<AclRule>, b: seq<AclRule>)
    requires InSequence(a) && InSequence(b) && a != [] && (forall n :: Numbered(a, n) == Numbered(b, n))
    ensures b != [] && b[0].sequence <= a[0].sequence
  {
    NumberedHas(a, 0);
    NumberedComesFrom(b, a[0].sequence);
  }

  lemma FirstIsSeen(rs: seq<AclRule>)
    ensures rs == [] || Numbered(rs, rs[0].sequence) != []
  {
    if rs != [] {
      NumberedHas(rs, 0);
    }
  }

  /** Sorted rules are known by their order within each number. */
  lemma {:induction false} SequencesAgree(a: seq<AclRule>, b: seq<AclRule>)
    requires InSequence(a) && InSequence(b) && forall n :: Numbered(a, n) == Numbered(b, n)
    ensures a == b
  {
    if a != [] {
      FirstNumbers(a, b);
      FirstNumbers(b, a);
      assert Numbered(a, a[0].sequence)[0] == a[0] && Numbered(b, b[0].sequence)[0] == b[0];
      forall n ensures Numbered(a[1..], n) == Numbered(b[1..], n) {
        assert Numbered(a, n) == Numbered(b, n);
        if a[0].sequence == n {
          assert Numbered(a, n)[1..] == Numbered(a[1..], n) && Numbered(b, n)[1..] == Numbered(b[1..], n);
        } else {
          assert Numbered(a, n) == Numbered(a[1..], n) && Numbered(b, n) == Numbered(b[1..], n);
        }
      }
      SequencesAgree(a[1..], b[1..]);
    } else {
      FirstIsSeen(b);
    }
  }

  lemma RulesAreTheSame(xs: seq<AclRule>, ys: seq<AclRule>)
    ensures NormalRules(xs) == NormalRules(ys) <==> SameRules(xs, ys)
  {
    var a, b := SortRules(Plain(xs)), SortRules(Plain(ys));
    NormalRulesAreSorted(xs);
    NormalRulesAreSorted(ys);
    SortPutsInSequence(Plain(xs));
    SortPutsInSequence(Plain(ys));
    forall n ensures Numbered(a, n) == Numbered(b, n) <==> SameInOrder(Numbered(xs, n), Numbered(ys, n)) {
      SortIsStable(Plain(xs), n);
      SortIsStable(Plain(ys), n);
      PlainNumbered(xs, n);
      PlainNumbered(ys, n);
      PlainsAreTheSame(Numbered(xs, n), Numbered(ys, n));
    }
    if SameRules(xs, ys) {
      SequencesAgree(a, b);
    }
  }

  lemma PortsAreTheSame(a: InterfaceConfig, b: InterfaceConfig)
    ensures NormalInterface(a) == NormalInterface(b) <==> SamePort(a, b)
  {
    NamesAreTheSame(a.name, b.name);
    TextsAreTheSame(a.description, b.description);
    ModesAreTheSame(a.mode, b.mode);
  }

  lemma AclsAreTheSame(a: AclConfig, b: AclConfig)
    ensures NormalAcl(a) == NormalAcl(b) <==> SameAcl(a, b)
  {
    TextsAreTheSame(a.name, b.name);
    TextsAreTheSame(a.description, b.description);
    RulesAreTheSame(a.rules, b.rules);
  }

  /** The same object, possibly written differently. */
  ghost predicate Same(a: Obj, b: Obj) {
    match (a, b)
    case (VlanObj(v), VlanObj(w)) => SameVlan(v, w)
    case (InterfaceObj(i), InterfaceObj(j)) => SamePort(i, j)
    case (AclObj(x), AclObj(y)) => SameAcl(x, y)
    case (BindingObj(x), BindingObj(y)) => SameBinding(x, y)
    case (ProcessObj(p), ProcessObj(q)) => SameProcess(p, q)
    case (NeighborObj(n), NeighborObj(m)) => SameNeighbor(n, m)
    case (_, _) => false
  }

  /** Two objects have one normal form exactly when they are the same object. */
  lemma SameExactlyWhenOneForm(a: Obj, b: Obj)
    ensures NormalOf(a) == NormalOf(b) <==> Same(a, b)
  {
    match (a, b)
    case (InterfaceObj(i), InterfaceObj(j)) => PortsAreTheSame(i, j);
    case (AclObj(x), AclObj(y)) => AclsAreTheSame(x, y);
    case (BindingObj(x), BindingObj(y)) => NamesAreTheSame(x.interfaceName, y.interfaceName);
    case (_, _) =>
  }
}
