/** The locks of the service: scope keys of domain applies, idempotency cells and endpoints. */
module Locks {
  import opened Wrappers
  import opened Ordering
  import opened Text
  import opened Journal

  // ---- Scope keys ----

  datatype LockScope = DomainScope | RegionScope(region: Option<string>) | SwitchPairScope

  datatype ScopeRequest = ScopeRequest(domainId: string, scope: LockScope, endpoints: seq<DeviceId>)

  /** Part of a scope key: trimmed, not empty, without a colon. */
  function Component(s: string): Result<string> {
    var t := Trim(s);
    if t == "" || ':' in t then Err else Ok(t)
  }

  function PairKeys(domain: string, endpoints: seq<DeviceId>): Result<set<string>> {
    if endpoints == [] then Ok({})
    else
      var n := |endpoints| - 1;
      match (PairKeys(domain, endpoints[..n]), Component(endpoints[n]))
      case (Ok(rest), Ok(e)) => Ok(rest + {"switch_pair:" + domain + ":" + e})
      case _ => Err
  }

  /** The keys of one apply, as a set. */
  function RawScopeKeys(r: ScopeRequest): Result<set<string>> {
    match Component(r.domainId)
    case Err => Err
    case Ok(domain) =>
      match r.scope
      case DomainScope => Ok({"domain:" + domain})
      case RegionScope(region) =>
        if region.None? then Err
        else (match Component(region.value) case Err => Err case Ok(x) => Ok({"domain:" + domain, "region:" + x}))
      case SwitchPairScope =>
        if r.endpoints == [] then Err
        else (match PairKeys(domain, r.endpoints) case Err => Err case Ok(keys) => Ok(keys + {"domain:" + domain}))
  }

  /** The keys in the order in which they are locked: trimmed, sorted, each once. */
  function ScopeKeys(r: ScopeRequest): (keys: Result<seq<string>>)
    ensures keys.Ok? ==> Ascending(StringLe, keys.value)
  {
    match RawScopeKeys(r)
    case Err => Err
    case Ok(raw) =>
      StringLeTotal();
      Ok(Listed(StringLe, set k | k in raw :: Trim(k)))
  }

  lemma {:induction false} PairKeysStart(domain: string, endpoints: seq<DeviceId>, k: string)
    requires PairKeys(domain, endpoints).Ok? && k in PairKeys(domain, endpoints).value
    ensures |k| > 0 && k[0] == 's'
  {
    var n := |endpoints| - 1;
    if k in PairKeys(domain, endpoints[..n]).value {
      PairKeysStart(domain, endpoints[..n], k);
    }
  }

  lemma DomainKeyStays(s: string)
    requires Component(s).Ok?
    ensures Trim("domain:" + Trim(s)) == "domain:" + Trim(s)
  {
    TrimIsTrimmed(s);
    TrimmedStays("domain:" + Trim(s));
  }

  /** Trimming keeps the first letter of a key. */
  lemma TrimKeepsHead(k: string)
    requires k != "" && !IsSpace(k[0])
    ensures Trim(k) != "" && Trim(k)[0] == k[0]
  {
    TrimEndKeepsStart(k);
  }

  /** Whatever its scope, an apply locks the key of its trimmed domain id, and of no other domain. */
  lemma ScopeHasOwnDomainOnly(r: ScopeRequest, other: string)
    requires ScopeKeys(r).Ok?
    ensures "domain:" + Trim(r.domainId) in ScopeKeys(r).value
    ensures "domain:" + other in ScopeKeys(r).value ==> other == Trim(r.domainId)
  {
    var own := "domain:" + Trim(r.domainId);
    var raw := RawScopeKeys(r).value;
    DomainKeyStays(r.domainId);
    assert own in raw && Trim(own) in (set k | k in raw :: Trim(k));
    forall k | k in raw && k != own ensures Trim(k) != "domain:" + other {
      if r.scope.SwitchPairScope? {
        PairKeysStart(Trim(r.domainId), r.endpoints, k);
        TrimKeepsHead(k);
      } else {
        assert k[0] == 'r';
        TrimKeepsHead(k);
      }
    }
    if "domain:" + other in ScopeKeys(r).value {
      var k :| k in raw && Trim(k) == "domain:" + other;
      assert own == "domain:" + other && own[7..] == other;
    }
  }

  lemma {:induction false} PairKeysHold(domain: string, endpoints: seq<DeviceId>, e: DeviceId)
    requires PairKeys(domain, endpoints).Ok? && e in endpoints
    ensures "switch_pair:" + domain + ":" + Trim(e) in PairKeys(domain, endpoints).value
  {
    var n := |endpoints| - 1;
    if e != endpoints[n] {
      assert endpoints == endpoints[..n] + [endpoints[n]];
      PairKeysHold(domain, endpoints[..n], e);
    }
  }

  lemma KeyStays(head: string, s: string)
    requires Component(s).Ok? && head != "" && !IsSpace(head[0])
    ensures Trim(head + Trim(s)) == head + Trim(s)
  {
    TrimIsTrimmed(s);
    TrimmedStays(head + Trim(s));
  }

  lemma {:induction false} PairComponentsOk(domain: string, endpoints: seq<DeviceId>, e: DeviceId)
    requires PairKeys(domain, endpoints).Ok? && e in endpoints
    ensures Component(e).Ok?
  {
    var n := |endpoints| - 1;
    if e != endpoints[n] {
      assert endpoints == endpoints[..n] + [endpoints[n]];
      PairComponentsOk(domain, endpoints[..n], e);
    }
  }

  /** A wider scope locks its region, or every switch pair, as well: applies that share one never overlap. */
  lemma ScopeHasRegionOrPairs(r: ScopeRequest, e: DeviceId)
    requires ScopeKeys(r).Ok?
    ensures r.scope.RegionScope? ==> r.scope.region.Some? && "region:" + Trim(r.scope.region.value) in ScopeKeys(r).value
    ensures r.scope.SwitchPairScope? && e in r.endpoints ==>
              "switch_pair:" + Trim(r.domainId) + ":" + Trim(e) in ScopeKeys(r).value
  {
    var raw := RawScopeKeys(r).value;
    if r.scope.RegionScope? {
      var k := "region:" + Trim(r.scope.region.value);
      KeyStays("region:", r.scope.region.value);
      assert k in raw && Trim(k) in (set x | x in raw :: Trim(x));
    }
    if r.scope.SwitchPairScope? && e in r.endpoints {
      var domain := Trim(r.domainId);
      var k := "switch_pair:" + domain + ":" + Trim(e);
      PairKeysHold(domain, r.endpoints, e);
      PairComponentsOk(domain, r.endpoints, e);
      KeyStays("switch_pair:" + domain + ":", e);
      assert k in raw && Trim(k) in (set x | x in raw :: Trim(x));
    }
  }

  // ---- The keys of a scope, exactly ----

  /** A text that cannot be part of a key: nothing but white space, or with a colon. */
  predicate BadPart(s: string) { AllSpace(s) || ':' in s }

  lemma PartIsBad(s: string)
    ensures BadPart(s) <==> Component(s).Err?
    ensures !BadPart(s) ==> Component(s) == Ok(Trim(s))
  {
    BlankIsTrimmedAway(s);
    assert !IsSpace(':');
    if ':' in s {
      TrimKeeps(s, ':');
    }
    if ':' in Trim(s) {
      TrimAddsNothing(s, ':');
    }
  }

  lemma {:induction false} PairKeysExactly(domain: string, endpoints: seq<DeviceId>, k: string)
    ensures PairKeys(domain, endpoints).Err? <==> exists n :: 0 <= n < |endpoints| && BadPart(endpoints[n])
    ensures PairKeys(domain, endpoints).Ok? ==>
              (k in PairKeys(domain, endpoints).value
               <==> exists n :: 0 <= n < |endpoints| && k == "switch_pair:" + domain + ":" + Trim(endpoints[n]))
  {
    if endpoints != [] {
      var n := |endpoints| - 1;
      PairKeysExactly(domain, endpoints[..n], k);
      PartIsBad(endpoints[n]);
      assert forall m :: 0 <= m < n ==> endpoints[..n][m] == endpoints[m];
    }
  }

  /** The request gives no keys: its domain, its region or one of its endpoints cannot be part of a key, or it
      lacks the region or the endpoints its scope needs. */
  predicate Unlockable(r: ScopeRequest) {
    || BadPart(r.domainId)
    || (r.scope.RegionScope? && (r.scope.region.None? || BadPart(r.scope.region.value)))
    || (r.scope.SwitchPairScope? && (r.endpoints == [] || exists n :: 0 <= n < |r.endpoints| && BadPart(r.endpoints[n])))
  }

  predicate IsScopeKey(r: ScopeRequest, k: string) {
    || k == "domain:" + Trim(r.domainId)
    || (r.scope.RegionScope? && r.scope.region.Some? && k == "region:" + Trim(r.scope.region.value))
    || (r.scope.SwitchPairScope?
        && exists n :: 0 <= n < |r.endpoints| && k == "switch_pair:" + Trim(r.domainId) + ":" + Trim(r.endpoints[n]))
  }

  lemma RawKeysExactly(r: ScopeRequest, k: string)
    ensures RawScopeKeys(r).Err? <==> Unlockable(r)
    ensures RawScopeKeys(r).Ok? ==> (k in RawScopeKeys(r).value <==> IsScopeKey(r, k))
  {
    PartIsBad(r.domainId);
    if r.scope.RegionScope? && r.scope.region.Some? {
      PartIsBad(r.scope.region.value);
    }
    if r.scope.SwitchPairScope? {
      PairKeysExactly(Trim(r.domainId), r.endpoints, k);
    }
  }

  lemma ScopeKeyIsTrimmed(r: ScopeRequest, k: string)
    requires !Unlockable(r) && IsScopeKey(r, k)
    ensures Trim(k) == k
  {
    if k == "domain:" + Trim(r.domainId) {
      PartIsBad(r.domainId);
      KeyStays("domain:", r.domainId);
    } else if r.scope.RegionScope? {
      PartIsBad(r.scope.region.value);
      KeyStays("region:", r.scope.region.value);
    } else {
      var n :| 0 <= n < |r.endpoints| && k == "switch_pair:" + Trim(r.domainId) + ":" + Trim(r.endpoints[n]);
      PartIsBad(r.endpoints[n]);
      KeyStays("switch_pair:" + Trim(r.domainId) + ":", r.endpoints[n]);
    }
  }

  /** A request has keys exactly when all parts of them are usable, and then it has its domain key, its region
      key or the key of each of its switch pairs, and no other. */
  lemma ScopeKeysExactly(r: ScopeRequest, k: string)
    ensures ScopeKeys(r).Err? <==> Unlockable(r)
    ensures ScopeKeys(r).Ok? ==> (k in ScopeKeys(r).value <==> IsScopeKey(r, k))
  {
    RawKeysExactly(r, k);
    if ScopeKeys(r).Ok? {
      var raw := RawScopeKeys(r).value;
      StringLeTotal();
      forall x ensures x in raw <==> IsScopeKey(r, x) {
        RawKeysExactly(r, x);
      }
      forall x | x in raw ensures Trim(x) == x {
        ScopeKeyIsTrimmed(r, x);
      }
      assert (set x | x in raw :: Trim(x)) == raw;
    }
  }
}
