/** Whole states on the wire: what a device is sent, and what it reports. */
module Mapper {
  import opened Wrappers
  import opened Ordering
  import opened Journal
  import opened ConfigModel
  import opened Intents
  import opened Diff
  import opened Wire

  datatype Observed = Observed(
    deviceId: DeviceId,
    vlans: seq<WireVlan>,
    interfaces: seq<WirePort>,
    acls: seq<WireAcl>,
    bindings: seq<WireBinding>,
    processes: seq<WireProcess>,
    neighbors: seq<WireNeighbor>)

  /** The values of a map in the order of its keys, encoded. */
  function EncodeAll<K, V, W>(keys: seq<K>, m: map<K, V>, encode: V -> W): (ws: seq<W>)
    requires forall k :: k in keys ==> k in m
    ensures |ws| == |keys| && forall n :: 0 <= n < |keys| ==> ws[n] == encode(m[keys[n]])
  {
    seq(|keys|, n requires 0 <= n < |keys| => encode(m[keys[n]]))
  }

  /** The wanted objects on the wire: what a device that carried them out would report. */
  ghost function Echo(d: Desired): Observed {
    Observed(
      d.deviceId,
      EncodeAll(U16s(d.vlans.Keys), d.vlans, EncodeVlan),
      EncodeAll(Strings(d.interfaces.Keys), d.interfaces, EncodePort),
      EncodeAll(U16s(d.acls.Keys), d.acls, EncodeAcl),
      EncodeAll(Strings(d.bindings.Keys), d.bindings, EncodeBinding),
      EncodeAll(Strings(d.processes.Keys), d.processes, EncodeProcess),
      EncodeAll(Strings(d.neighbors.Keys), d.neighbors, EncodeNeighbor))
  }

  /** The decoded objects by key; one that cannot be decoded spoils the whole. */
  function DecodeAll<K(==), V, W>(ws: seq<W>, decode: W -> Result<V>, key: V -> K): Result<map<K, V>> {
    if ws == [] then Ok(map[])
    else
      var n := |ws| - 1;
      match (DecodeAll(ws[..n], decode, key), decode(ws[n]))
      case (Ok(rest), Ok(v)) => Ok(rest[key(v) := v])
      case _ => Err
  }

  /** One loop of the reader: stop at the first object that cannot be decoded. */
  method ReadAll<K(==), V, W>(ws: seq<W>, decode: W -> Result<V>, key: V -> K) returns (r: Result<map<K, V>>)
    ensures r == DecodeAll(ws, decode, key)
  {
    var m: map<K, V> := map[];
    for n := 0 to |ws|
      invariant DecodeAll(ws[..n], decode, key) == Ok(m)
    {
      assert ws[..n + 1][..n] == ws[..n];
      match decode(ws[n]) {
        case Ok(v) => m := m[key(v) := v];
        case Err =>
          DecodeFails(ws, n + 1, decode, key);
          return Err;
      }
    }
    assert ws[..|ws|] == ws;
    r := Ok(m);
  }

  lemma {:induction false} DecodeFails<K, V, W>(ws: seq<W>, n: nat, decode: W -> Result<V>, key: V -> K)
    requires n <= |ws| && DecodeAll(ws[..n], decode, key).Err?
    ensures DecodeAll(ws, decode, key).Err?
  {
    if n == |ws| {
      assert ws[..n] == ws;
    } else {
      var m := |ws| - 1;
      assert ws[..m][..n] == ws[..n];
      DecodeFails(ws[..m], n, decode, key);
    }
  }

  /** The state a report describes. */
  function ShadowOf(o: Observed, warnings: seq<string>): Result<Shadow> {
    var vlans := DecodeAll(o.vlans, DecodeVlan, VlanKeyOf);
    var interfaces := DecodeAll(o.interfaces, DecodePort, InterfaceKeyOf);
    var acls := DecodeAll(o.acls, DecodeAcl, AclKeyOf);
    var bindings := DecodeAll(o.bindings, DecodeBinding, BindingKeyOf);
    var processes := DecodeAll(o.processes, DecodeProcess, ProcessKeyOf);
    var neighbors := DecodeAll(o.neighbors, DecodeNeighbor, NeighborKeyOf);
    if vlans.Ok? && interfaces.Ok? && acls.Ok? && bindings.Ok? && processes.Ok? && neighbors.Ok? then
      Ok(Shadow(o.deviceId, 0, vlans.value, interfaces.value, acls.value, bindings.value, processes.value,
                neighbors.value, warnings))
    else Err
  }

  /** A list can be read exactly when each of its objects can. */
  lemma {:induction false} ReadExactlyWhenEachIs<K, V, W>(ws: seq<W>, decode: W -> Result<V>, key: V -> K)
    ensures DecodeAll(ws, decode, key).Err? <==> exists n :: 0 <= n < |ws| && decode(ws[n]).Err?
  {
    if ws != [] {
      var n := |ws| - 1;
      ReadExactlyWhenEachIs(ws[..n], decode, key);
      assert forall m :: 0 <= m < n ==> ws[..n][m] == ws[m];
    }
  }

  /** Under each key is the last object of the list that has it. */
  ghost predicate LastRead<K, V, W>(ws: seq<W>, decode: W -> Result<V>, key: V -> K, k: K, v: V) {
    exists n :: && 0 <= n < |ws| && decode(ws[n]) == Ok(v) && key(v) == k
                && forall m :: n < m < |ws| ==> !(decode(ws[m]).Ok? && key(decode(ws[m]).value) == k)
  }

  lemma {:induction false} ReadHoldsTheLast<K, V, W>(ws: seq<W>, decode: W -> Result<V>, key: V -> K, k: K)
    requires DecodeAll(ws, decode, key).Ok?
    ensures var m := DecodeAll(ws, decode, key).value;
            if k in m then LastRead(ws, decode, key, k, m[k])
            else forall n :: 0 <= n < |ws| ==> decode(ws[n]).Ok? && key(decode(ws[n]).value) != k
  {
    if ws != [] {
      var n := |ws| - 1;
      var front := ws[..n];
      ReadHoldsTheLast(front, decode, key, k);
      assert forall m :: 0 <= m < n ==> front[m] == ws[m];
      var v := decode(ws[n]).value;
      var rest := DecodeAll(front, decode, key).value;
      if key(v) == k {
        assert LastRead(ws, decode, key, k, v);
      } else if k in rest {
        var l :| && 0 <= l < |front| && decode(front[l]) == Ok(rest[k]) && key(rest[k]) == k
                 && forall m :: l < m < |front| ==> !(decode(front[m]).Ok? && key(decode(front[m]).value) == k);
        assert LastRead(ws, decode, key, k, rest[k]);
      }
    }
  }

  method ReadShadow(o: Observed, warnings: seq<string>) returns (r: Result<Shadow>)
    ensures r == ShadowOf(o, warnings)
    ensures r.Ok? ==> r.value.deviceId == o.deviceId && r.value.revision == 0 && r.value.warnings == warnings
  {
    var vlans := ReadAll(o.vlans, DecodeVlan, VlanKeyOf);
    if vlans.Err? { return Err; }
    var interfaces := ReadAll(o.interfaces, DecodePort, InterfaceKeyOf);
    if interfaces.Err? { return Err; }
    var acls := ReadAll(o.acls, DecodeAcl, AclKeyOf);
    if acls.Err? { return Err; }
    var bindings := ReadAll(o.bindings, DecodeBinding, BindingKeyOf);
    if bindings.Err? { return Err; }
    var processes := ReadAll(o.processes, DecodeProcess, ProcessKeyOf);
    if processes.Err? { return Err; }
    var neighbors := ReadAll(o.neighbors, DecodeNeighbor, NeighborKeyOf);
    if neighbors.Err? { return Err; }
    r := Ok(Shadow(o.deviceId, 0, vlans.value, interfaces.value, acls.value, bindings.value, processes.value,
                   neighbors.value, warnings));
  }

  // ---- The round trip ----

  ghost predicate Keyed<K, V>(m: map<K, V>, key: V -> K) {
    forall k :: k in m ==> key(m[k]) == k
  }

  ghost predicate AllGood<K, V>(m: map<K, V>, good: V -> bool) {
    forall k :: k in m ==> good(m[k])
  }

  function Cut<K, V>(m: map<K, V>, keys: seq<K>): map<K, V> {
    map k | k in m && k in keys :: m[k]
  }

  lemma OneMoreCut<K, V>(m: map<K, V>, front: seq<K>, k: K)
    requires k in m
    ensures Cut(m, front + [k]) == Cut(m, front)[k := m[k]]
  {
  }

  lemma OneMoreEncoded<K, V, W>(front: seq<K>, k: K, m: map<K, V>, encode: V -> W)
    requires forall x :: x in front + [k] ==> x in m
    ensures EncodeAll(front + [k], m, encode) == EncodeAll(front, m, encode) + [encode(m[k])]
  {
  }

  lemma {:induction false} MapTripFrom<K(!new), V(!new), W>(keys: seq<K>, m: map<K, V>, encode: V -> W,
                                                      decode: W -> Result<V>, key: V -> K, good: V -> bool)
    requires forall k :: k in keys ==> k in m && key(m[k]) == k
    requires forall v :: decode(encode(v)) == if good(v) then Ok(v) else Err
    ensures DecodeAll(EncodeAll(keys, m, encode), decode, key)
         == if forall n :: 0 <= n < |keys| ==> good(m[keys[n]]) then Ok(Cut(m, keys)) else Err
  {
    if keys == [] {
      assert Cut(m, keys) == map[];
    } else {
      var n := |keys| - 1;
      var front := keys[..n];
      assert keys == front + [keys[n]];
      MapTripFrom(front, m, encode, decode, key, good);
      OneMoreEncoded(front, keys[n], m, encode);
      OneMoreCut(m, front, keys[n]);
      assert EncodeAll(keys, m, encode)[..n] == EncodeAll(front, m, encode);
      assert forall i :: 0 <= i < n ==> front[i] == keys[i];
    }
  }

  /** A map whose objects are under their own keys comes back unchanged exactly when all are readable. */
  lemma MapTrip<K(!new), V(!new), W>(keys: seq<K>, m: map<K, V>, encode: V -> W, decode: W -> Result<V>, key: V -> K, good: V -> bool)
    requires (forall k :: k in keys <==> k in m) && Keyed(m, key)
    requires forall v :: decode(encode(v)) == if good(v) then Ok(v) else Err
    ensures DecodeAll(EncodeAll(keys, m, encode), decode, key) == if AllGood(m, good) then Ok(m) else Err
  {
    MapTripFrom(keys, m, encode, decode, key, good);
    assert Cut(m, keys) == m;
    if forall n :: 0 <= n < |keys| ==> good(m[keys[n]]) {
      forall k | k in m ensures good(m[k]) {
        assert k in keys;
      }
    }
  }

  ghost predicate KeyedState(d: Desired) {
    && Keyed(d.vlans, VlanKeyOf) && Keyed(d.interfaces, InterfaceKeyOf) && Keyed(d.acls, AclKeyOf)
    && Keyed(d.bindings, BindingKeyOf) && Keyed(d.processes, ProcessKeyOf) && Keyed(d.neighbors, NeighborKeyOf)
  }

  ghost predicate ReadableState(d: Desired) {
    && AllGood(d.vlans, VlanOk) && AllGood(d.acls, AclReadable) && AllGood(d.bindings, BindingReadable)
    && AllGood(d.processes, ProcessReadable) && AllGood(d.neighbors, NeighborReadable)
  }

  /** Sent out and read back, a state comes back with the same maps exactly when every object is readable. */
  lemma EchoTrip(d: Desired)
    requires KeyedState(d)
    ensures ShadowOf(Echo(d), []) == if ReadableState(d) then Ok(ShadowFrom(d)) else Err
  {
    var o := Echo(d);
    assert DecodeAll(o.vlans, DecodeVlan, VlanKeyOf) == if AllGood(d.vlans, VlanOk) then Ok(d.vlans) else Err by {
      forall v ensures DecodeVlan(EncodeVlan(v)) == if VlanOk(v) then Ok(v) else Err { VlanTrip(v); }
      MapTrip(U16s(d.vlans.Keys), d.vlans, EncodeVlan, DecodeVlan, VlanKeyOf, VlanOk);
    }
    assert DecodeAll(o.interfaces, DecodePort, InterfaceKeyOf) == Ok(d.interfaces) by {
      forall v ensures DecodePort(EncodePort(v)) == if AnyPort(v) then Ok(v) else Err { PortTrip(v); }
      MapTrip(Strings(d.interfaces.Keys), d.interfaces, EncodePort, DecodePort, InterfaceKeyOf, AnyPort);
    }
    EchoAclsTrip(d);
    EchoBgpTrip(d);
  }

  lemma EchoAclsTrip(d: Desired)
    requires KeyedState(d)
    ensures DecodeAll(Echo(d).acls, DecodeAcl, AclKeyOf) == if AllGood(d.acls, AclReadable) then Ok(d.acls) else Err
    ensures DecodeAll(Echo(d).bindings, DecodeBinding, BindingKeyOf)
         == if AllGood(d.bindings, BindingReadable) then Ok(d.bindings) else Err
  {
    forall v ensures DecodeAcl(EncodeAcl(v)) == if AclReadable(v) then Ok(v) else Err { AclTrip(v); }
    MapTrip(U16s(d.acls.Keys), d.acls, EncodeAcl, DecodeAcl, AclKeyOf, AclReadable);
    forall v ensures DecodeBinding(EncodeBinding(v)) == if BindingReadable(v) then Ok(v) else Err { BindingTrip(v); }
    MapTrip(Strings(d.bindings.Keys), d.bindings, EncodeBinding, DecodeBinding, BindingKeyOf, BindingReadable);
  }

  lemma EchoBgpTrip(d: Desired)
    requires KeyedState(d)
    ensures DecodeAll(Echo(d).processes, DecodeProcess, ProcessKeyOf)
         == if AllGood(d.processes, ProcessReadable) then Ok(d.processes) else Err
    ensures DecodeAll(Echo(d).neighbors, DecodeNeighbor, NeighborKeyOf)
         == if AllGood(d.neighbors, NeighborReadable) then Ok(d.neighbors) else Err
  {
    forall v ensures DecodeProcess(EncodeProcess(v)) == if ProcessReadable(v) then Ok(v) else Err { ProcessTrip(v); }
    MapTrip(Strings(d.processes.Keys), d.processes, EncodeProcess, DecodeProcess, ProcessKeyOf, ProcessReadable);
    forall v ensures DecodeNeighbor(EncodeNeighbor(v)) == if NeighborReadable(v) then Ok(v) else Err { NeighborTrip(v); }
    MapTrip(Strings(d.neighbors.Keys), d.neighbors, EncodeNeighbor, DecodeNeighbor, NeighborKeyOf, NeighborReadable);
  }
}
