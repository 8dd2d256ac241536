/** Keeping the operation summary log small: which records stay, and where the rest goes. */
module Retention {
  import opened Wrappers

  /** A summary and the bytes of its line when the service writes it. */
  datatype Summary = Summary(text: string, bytes: nat)

  /** A line of the file as it is: it may be longer than the service would write it. */
  datatype Line = RecordLine(summary: Summary, bytes: nat) | BlankLine(bytes: nat) | BrokenLine(bytes: nat)

  type Payload = seq<Line>

  datatype Policy = Policy(maxRecords: Option<nat>, maxBytes: Option<nat>, maxFiles: nat)

  predicate PolicyOk(p: Policy) { p.maxRecords != Some(0) && p.maxBytes != Some(0) }

  function Bytes(ss: seq<Summary>): nat {
    if ss == [] then 0 else ss[0].bytes + Bytes(ss[1..])
  }

  function Size(lines: Payload): nat {
    if lines == [] then 0 else lines[0].bytes + Size(lines[1..])
  }

  /** Blank lines are skipped, a broken line spoils the whole. */
  function Parse(lines: Payload): Result<seq<Summary>> {
    if lines == [] then Ok([])
    else
      var n := |lines| - 1;
      match Parse(lines[..n])
      case Err => Err
      case Ok(rest) =>
        match lines[n]
        case BlankLine(_) => Ok(rest)
        case BrokenLine(_) => Err
        case RecordLine(s, _) => Ok(rest + [s])
  }

  /** A file can be read exactly when it has no broken line. */
  lemma {:induction false} ReadableExactlyWithoutBrokenLine(lines: Payload)
    ensures Parse(lines).Err? <==> exists n :: 0 <= n < |lines| && lines[n].BrokenLine?
  {
    if lines != [] {
      var n := |lines| - 1;
      ReadableExactlyWithoutBrokenLine(lines[..n]);
      assert forall m :: 0 <= m < n ==> lines[..n][m] == lines[m];
    }
  }

  /** The lines with records, from the first to the last. */
  ghost predicate RecordLines(lines: Payload, at: seq<nat>) {
    && (forall j :: 0 <= j < |at| ==> at[j] < |lines| && lines[at[j]].RecordLine?)
    && (forall j, k :: 0 <= j < k < |at| ==> at[j] < at[k])
    && (forall n :: 0 <= n < |lines| && lines[n].RecordLine? ==> n in at)
  }

  /** What is read are the records of all record lines, in the order of the file. */
  lemma {:induction false} ReadInOrder(lines: Payload) returns (at: seq<nat>)
    requires Parse(lines).Ok?
    ensures RecordLines(lines, at) && |at| == |Parse(lines).value|
    ensures forall j :: 0 <= j < |at| ==> lines[at[j]].summary == Parse(lines).value[j]
  {
    if lines == [] {
      at := [];
    } else {
      var n := |lines| - 1;
      at := ReadInOrder(lines[..n]);
      assert forall m :: 0 <= m < n ==> lines[..n][m] == lines[m];
      if lines[n].RecordLine? {
        at := at + [n];
      }
    }
  }

  /** The bytes of records, and of lines, add up. */
  lemma {:induction false} BytesAddUp(a: seq<Summary>, b: seq<Summary>)
    ensures Bytes(a + b) == Bytes(a) + Bytes(b) && forall s :: Bytes([s]) == s.bytes
  {
    if a == [] {
      assert a + b == b;
    } else {
      assert (a + b)[1..] == a[1..] + b;
      BytesAddUp(a[1..], b);
    }
  }

  lemma {:induction false} SizesAddUp(a: Payload, b: Payload)
    ensures Size(a + b) == Size(a) + Size(b) && forall l :: Size([l]) == l.bytes
  {
    if a == [] {
      assert a + b == b;
    } else {
      assert (a + b)[1..] == a[1..] + b;
      SizesAddUp(a[1..], b);
    }
  }

  function Encode(ss: seq<Summary>): Payload {
    seq(|ss|, n requires 0 <= n < |ss| => RecordLine(ss[n], ss[n].bytes))
  }

  predicate Fits(ss: seq<Summary>, p: Policy) {
    && (p.maxRecords.Some? ==> |ss| <= p.maxRecords.value)
    && (p.maxBytes.Some? ==> Bytes(ss) <= p.maxBytes.value)
  }

  /** The start of the longest suffix within both bounds. */
  function KeepFrom(ss: seq<Summary>, p: Policy, from: nat): (r: nat)
    requires from <= |ss|
    ensures from <= r <= |ss| && Fits(ss[r..], p) && forall j :: from <= j < r ==> !Fits(ss[j..], p)
    decreases |ss| - from
  {
    if from == |ss| || Fits(ss[from..], p) then from else KeepFrom(ss, p, from + 1)
  }

  function Kept(ss: seq<Summary>, p: Policy): seq<Summary> { ss[KeepFrom(ss, p, 0)..] }

  lemma BytesOfSuffix(ss: seq<Summary>, i: nat)
    requires i < |ss|
    ensures Bytes(ss[i..]) == ss[i].bytes + Bytes(ss[i + 1..])
  {
    assert ss[i..][1..] == ss[i + 1..];
  }

  lemma {:induction false} LongerIsBigger(ss: seq<Summary>, i: nat, j: nat)
    requires i <= j <= |ss|
    ensures Bytes(ss[j..]) <= Bytes(ss[i..])
    decreases j - i
  {
    if i < j {
      BytesOfSuffix(ss, i);
      LongerIsBigger(ss, i + 1, j);
    }
  }

  /** What is kept is a suffix within both bounds, and every longer suffix breaks one. */
  lemma KeptIsLongest(ss: seq<Summary>, p: Policy, i: nat)
    requires i <= |ss|
    ensures Fits(ss[i..], p) <==> |ss[i..]| <= |Kept(ss, p)|
  {
    var k := KeepFrom(ss, p, 0);
    if i >= k {
      LongerIsBigger(ss, k, i);
    }
  }

  /** The loop of the service: from the newest record back, while the bytes allow. */
  method RetainSummaries(ss: seq<Summary>, p: Policy) returns (kept: seq<Summary>)
    ensures kept == Kept(ss, p)
  {
    var start := if p.maxRecords.Some? && |ss| > p.maxRecords.value then |ss| - p.maxRecords.value else 0;
    if p.maxBytes.None? {
      KeptIsAt(ss, p, start);
      return ss[start..];
    }
    kept := [];
    var bytes := 0;
    var i := |ss|;
    while i > start
      invariant start <= i <= |ss| && kept == ss[i..] && bytes == Bytes(kept) && Fits(kept, p)
    {
      BytesOfSuffix(ss, i - 1);
      if bytes + ss[i - 1].bytes > p.maxBytes.value {
        break;
      }
      bytes := bytes + ss[i - 1].bytes;
      i := i - 1;
      kept := [ss[i]] + kept;
    }
    KeptIsAt(ss, p, i);
  }

  lemma KeptIsAt(ss: seq<Summary>, p: Policy, i: nat)
    requires i <= |ss| && Fits(ss[i..], p) && (i > 0 ==> !Fits(ss[i - 1..], p))
    ensures Kept(ss, p) == ss[i..]
  {
    KeptIsLongest(ss, p, i);
    if i > 0 { KeptIsLongest(ss, p, i - 1); }
  }

  // ---- Compaction ----

  lemma {:induction false} ParseOfEncode(ss: seq<Summary>)
    ensures Parse(Encode(ss)) == Ok(ss)
  {
    if ss != [] {
      var n := |ss| - 1;
      ParseOfEncode(ss[..n]);
      assert Encode(ss)[..n] == Encode(ss[..n]);
      assert ss == ss[..n] + [ss[n]];
    }
  }

  lemma {:induction false} SizeOfEncode(ss: seq<Summary>)
    ensures Size(Encode(ss)) == Bytes(ss)
  {
    if ss != [] {
      SizeOfEncode(ss[1..]);
      assert Encode(ss)[1..] == Encode(ss[1..]);
    }
  }

  datatype Report = Report(compacted: bool, recordsBefore: nat, recordsAfter: nat, bytesBefore: nat, bytesAfter: nat, rotated: nat)

  /** Something is dropped, or an oversized file gets smaller. */
  predicate Worthwhile(active: Payload, ss: seq<Summary>, p: Policy) {
    var kept := Kept(ss, p);
    || |kept| < |ss|
    || (p.maxBytes.Some? && Size(active) > p.maxBytes.value && Bytes(kept) < Size(active))
  }

  /** A compacted file is not compacted again under the same policy. */
  lemma CompactedIsSettled(ss: seq<Summary>, p: Policy)
    ensures !Worthwhile(Encode(Kept(ss, p)), Kept(ss, p), p)
  {
    var kept := Kept(ss, p);
    SizeOfEncode(kept);
    assert kept[0..] == kept;
    KeptIsLongest(kept, p, 0);
  }

  /** The file after a compaction. */
  function AfterCompaction(active: Payload, ss: seq<Summary>, p: Policy): Payload {
    if Worthwhile(active, ss, p) then Encode(Kept(ss, p)) else active
  }

  /** A second compaction with the same policy reports no change, whatever the file was. */
  lemma SecondCompactionDoesNothing(active: Payload, p: Policy)
    requires Parse(active).Ok?
    ensures var after := AfterCompaction(active, Parse(active).value, p);
            Parse(after).Ok? && !Worthwhile(after, Parse(after).value, p)
  {
    var ss := Parse(active).value;
    ParseOfEncode(Kept(ss, p));
    CompactedIsSettled(ss, p);
  }

  /** After a compaction the file holds exactly what is kept. It has changed exactly when records were dropped
      or a file over the byte limit got smaller. */
  lemma CompactionKeepsTheKept(active: Payload, p: Policy)
    requires Parse(active).Ok?
    ensures var ss := Parse(active).value;
            var after := AfterCompaction(active, ss, p);
            && Parse(after) == Ok(Kept(ss, p)) && Fits(Kept(ss, p), p)
            && (after != active <==> || |Kept(ss, p)| < |ss|
                                     || (p.maxBytes.Some? && p.maxBytes.value < Size(active) && Bytes(ss) < Size(active)))
  {
    var ss := Parse(active).value;
    ParseOfEncode(Kept(ss, p));
    SizeOfEncode(Kept(ss, p));
    if |Kept(ss, p)| == |ss| {
      assert Kept(ss, p) == ss;
    }
  }

  // ---- Archives ----

  type Archives = map<nat, Payload>

  /** The payload becomes archive 1 and every older archive moves up by one; the last one is dropped. */
  ghost predicate ShiftedBy(before: Archives, payload: Payload, n: nat, after: Archives) {
    && (n > 0 ==> 1 in after && after[1] == payload)
    && (forall g :: 1 < g <= n ==> (g in after <==> g - 1 in before) && (g in after ==> after[g] == before[g - 1]))
    && (forall g :: g == 0 || g > n ==> (g in after <==> g in before) && (g in after ==> after[g] == before[g]))
  }

  method RotateArchives(before: Archives, payload: Payload, n: nat) returns (archives: Archives, rotated: nat)
    ensures ShiftedBy(before, payload, n, archives) && rotated == (if n == 0 then 0 else 1)
  {
    archives := before;
    if n == 0 {
      return archives, 0;
    }
    var g := n;
    while g >= 1
      invariant 0 <= g <= n
      invariant forall h :: h > n || h < g ==> (h in archives <==> h in before) && (h in archives ==> archives[h] == before[h])
      invariant g == n ==> archives == before
      invariant g < n ==> g + 1 !in archives
      invariant forall h :: g + 1 < h <= n ==> (h in archives <==> h - 1 in before) && (h in archives ==> archives[h] == before[h - 1])
      invariant g < n ==> (g in archives <==> g in before) && (g in archives ==> archives[g] == before[g])
    {
      if g == n {
        archives := archives - {g};
      } else if g in archives {
        archives := (archives - {g})[g + 1 := archives[g]];
      }
      g := g - 1;
    }
    archives := archives[1 := payload];
    rotated := 1;
  }

  /** A history of rotations with one limit: `payloads[i]` is put away between state i and state i + 1. */
  ghost predicate Rotations(states: seq<Archives>, payloads: seq<Payload>, n: nat) {
    && |states| == |payloads| + 1
    && forall i {:trigger payloads[i]} :: 0 <= i < |payloads| ==> ShiftedBy(states[i], payloads[i], n, states[i + 1])
  }

  /** After any number of rotations with limit n, archives 1 to n hold the last n payloads, newest first;
      numbers beyond the rotations so far hold what was there at the start, moved up. */
  lemma {:induction false} ArchivesHoldTheNewest(states: seq<Archives>, payloads: seq<Payload>, n: nat, m: nat, g: nat)
    requires Rotations(states, payloads, n) && m < |states| && 1 <= g <= n
    ensures g <= m ==> g in states[m] && states[m][g] == payloads[m - g]
    ensures g > m ==> (g in states[m] <==> g - m in states[0]) && (g in states[m] ==> states[m][g] == states[0][g - m])
  {
    if m > 0 {
      var l := m - 1;
      var last := payloads[l];
      assert ShiftedBy(states[l], payloads[l], n, states[l + 1]);
      if g > 1 {
        ArchivesHoldTheNewest(states, payloads, n, l, g - 1);
      }
    }
  }

  /** The log: the active file, if there is one, and its archives. */
  class SummaryLog {
    var active: Option<Payload>
    var archives: Archives

    constructor ()
      ensures active == None && archives == map[]
    {
      active := None;
      archives := map[];
    }

    method Compact(p: Policy) returns (r: Result<Report>)
      modifies this
      ensures r.Err? <==> !PolicyOk(p) || (old(active).Some? && Parse(old(active).value).Err?)
      ensures r.Err? <==> || p.maxRecords == Some(0) || p.maxBytes == Some(0)
                          || (old(active).Some? && exists n :: 0 <= n < |old(active).value| && old(active).value[n].BrokenLine?)
      ensures r.Err? || old(active).None? || !r.value.compacted ==> active == old(active) && archives == old(archives)
      ensures r.Ok? && old(active).None? ==> r.value == Report(false, 0, 0, 0, 0, 0)
      ensures r.Ok? && old(active).Some? ==>
                var was := old(active).value;
                var ss := Parse(was).value;
                && r.value == Report(Worthwhile(was, ss, p), |ss|, |Kept(ss, p)|, Size(was), Bytes(Kept(ss, p)),
                                     if Worthwhile(was, ss, p) && p.maxFiles > 0 then 1 else 0)
                && active == Some(AfterCompaction(was, ss, p)) && Parse(active.value) == Ok(Kept(ss, p))
                && (r.value.compacted <==> active != old(active))
                && (Worthwhile(was, ss, p) ==> ShiftedBy(old(archives), was, p.maxFiles, archives))
    {
      if !PolicyOk(p) {
        return Err;
      }
      if active.None? {
        return Ok(Report(false, 0, 0, 0, 0, 0));
      }
      var was := active.value;
      ReadableExactlyWithoutBrokenLine(was);
      if Parse(was).Err? {
        return Err;
      }
      CompactionKeepsTheKept(was, p);
      var ss := Parse(was).value;
      var kept := RetainSummaries(ss, p);
      var payload := Encode(kept);
      SizeOfEncode(kept);
      var before, after := Size(was), Size(payload);
      var smaller := p.maxBytes.Some? && before > p.maxBytes.value && after < before;
      if |kept| == |ss| && !smaller {
        return Ok(Report(false, |ss|, |kept|, before, after, 0));
      }
      var rotated;
      archives, rotated := RotateArchives(archives, was, p.maxFiles);
      active := Some(payload);
      r := Ok(Report(true, |ss|, |kept|, before, after, rotated));
    }
  }
}
