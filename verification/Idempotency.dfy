/** Requests with an idempotency key: one cell for each key, filled from a durable store, held by one
    request at a time. Requests run side by side; any of them may be dropped, and the process may restart. */
module Idempotency {
  import opened Wrappers

  type Key = string
  type TaskId = int

  /** An answer; `body` stands for everything but the four annotated fields and the warnings. */
  datatype Response = Response(requestId: string, traceId: string, key: Option<Key>, reused: bool, body: string)

  datatype Record = Record(fingerprint: string, response: Response)

  datatype Request = Request(key: Key, fingerprint: string, requestId: string, traceId: string)

  function Annotate(r: Response, q: Request, reused: bool): Response {
    r.(requestId := q.requestId, traceId := q.traceId, key := Some(q.key), reused := reused)
  }

  datatype Pc =
    | Finding                       // looks for the cell of its key
    | Reading                       // no cell yet: reads the store
    | Inserting(found: Option<Record>) // makes the cell unless someone else has
    | Waiting                       // waits for the cell
    | Checking                      // holds the cell and looks at it
    | Running                       // holds the cell, the coordinator is at work
    | Storing(record: Record)       // holds the cell, writes the record

  datatype Task = Task(request: Request, pc: Pc)

  datatype Answer = Fresh(request: Request, response: Response) | Reused(request: Request, response: Response)

  /** How a run that did not settle its key ended, and what the store has been asked. */
  datatype Tally = Tally(runs: nat, lost: nat, landed: bool)

  datatype System = System(
    store: map<Key, Record>,         // durable
    cells: map<Key, Option<Record>>, // in memory
    holders: map<Key, TaskId>,       // in memory: who holds a cell
    tasks: map<TaskId, Task>,
    answers: seq<Answer>,
    tallies: map<Key, Tally>)

  datatype PutOutcome = PutOk | PutLost | PutLanded

  datatype Label =
    | Arrive(id: TaskId, request: Request)
    | Find(id: TaskId)
    | Read(id: TaskId, works: bool)
    | Insert(id: TaskId)
    | Acquire(id: TaskId)
    | Check(id: TaskId)
    | Finish(id: TaskId, outcome: Result<Response>)
    | Put(id: TaskId, write: PutOutcome)
    | Drop(id: TaskId)
    | Crash(landed: set<Key>)

  function TallyOf(s: System, k: Key): Tally {
    if k in s.tallies then s.tallies[k] else Tally(0, 0, false)
  }

  function Stored(s: System, k: Key): Option<Record> {
    if k in s.store then Some(s.store[k]) else None
  }

  predicate HoldsCell(pc: Pc) { pc.Checking? || pc.Running? || pc.Storing? }

  predicate Busy(pc: Pc) { pc.Running? || pc.Storing? }

  predicate Enabled(s: System, l: Label) {
    match l
    case Arrive(id, _) => id !in s.tasks
    case Find(id) => id in s.tasks && s.tasks[id].pc.Finding?
    case Read(id, _) => id in s.tasks && s.tasks[id].pc.Reading?
    case Insert(id) => id in s.tasks && s.tasks[id].pc.Inserting?
    case Acquire(id) => id in s.tasks && s.tasks[id].pc.Waiting? && s.tasks[id].request.key !in s.holders
    case Check(id) => id in s.tasks && s.tasks[id].pc.Checking? && s.tasks[id].request.key in s.cells
    case Finish(id, _) => id in s.tasks && s.tasks[id].pc.Running?
    case Put(id, _) => id in s.tasks && s.tasks[id].pc.Storing?
    case Drop(id) => id in s.tasks
    case Crash(landed) => forall k :: k in landed ==> k in s.holders && s.holders[k] in s.tasks && s.tasks[s.holders[k]].pc.Storing?
  }

  function Goto(s: System, id: TaskId, pc: Pc): System
    requires id in s.tasks
  {
    s.(tasks := s.tasks[id := s.tasks[id].(pc := pc)])
  }

  /** The task ends and lets go of the cell if it holds it. */
  function Leave(s: System, id: TaskId): System
    requires id in s.tasks
  {
    var k := s.tasks[id].request.key;
    s.(tasks := s.tasks - {id}, holders := if HoldsCell(s.tasks[id].pc) then s.holders - {k} else s.holders)
  }

  function Counted(s: System, k: Key, t: Tally): System { s.(tallies := s.tallies[k := t]) }

  /** A run has ended without settling its key. */
  function Lost(s: System, k: Key): System {
    Counted(s, k, TallyOf(s, k).(lost := TallyOf(s, k).lost + 1))
  }

  /** A restart loses every run at work, and forgets cells, holders and requests. Records being written
      may have reached the store. */
  function AfterCrash(s: System, landed: set<Key>): System
    requires forall k :: k in landed ==> k in s.holders && s.holders[k] in s.tasks && s.tasks[s.holders[k]].pc.Storing?
  {
    System(s.store + (map k | k in landed :: s.tasks[s.holders[k]].pc.record), map[], map[], map[], s.answers,
           map k | k in s.tallies :: Tally(s.tallies[k].runs, s.tallies[k].lost + (if InFlight(s, k) then 1 else 0), false))
  }

  /** A run for the key is at work. */
  predicate InFlight(s: System, k: Key) {
    k in s.holders && s.holders[k] in s.tasks && Busy(s.tasks[s.holders[k]].pc)
  }

  function Next(s: System, l: Label): System
    requires Enabled(s, l)
  {
    match l
    case Arrive(id, request) => s.(tasks := s.tasks[id := Task(request, Finding)])
    case Find(id) => Goto(s, id, if s.tasks[id].request.key in s.cells then Waiting else Reading)
    case Read(id, works) =>
      if works then Goto(s, id, Inserting(Stored(s, s.tasks[id].request.key))) else Leave(s, id)
    case Insert(id) =>
      var k := s.tasks[id].request.key;
      var t := Goto(s, id, Waiting);
      if k in s.cells then t else t.(cells := t.cells[k := s.tasks[id].pc.found])
    case Acquire(id) =>
      Goto(s, id, Checking).(holders := s.holders[s.tasks[id].request.key := id])
    case Check(id) =>
      var q := s.tasks[id].request;
      (match s.cells[q.key]
       case None =>
         Counted(Goto(s, id, Running), q.key, TallyOf(s, q.key).(runs := TallyOf(s, q.key).runs + 1))
       case Some(r) =>
         if r.fingerprint != q.fingerprint then Leave(s, id)
         else Leave(s, id).(answers := s.answers + [Reused(q, Annotate(r.response, q, true))]))
    case Finish(id, outcome) =>
      var q := s.tasks[id].request;
      (match outcome
       case Err => Lost(Leave(s, id), q.key)
       case Ok(r) => Goto(s, id, Storing(Record(q.fingerprint, Annotate(r, q, false)))))
    case Put(id, outcome) =>
      var q := s.tasks[id].request;
      var rec := s.tasks[id].pc.record;
      var t := Leave(s, id).(answers := s.answers + [Fresh(q, rec.response)]);
      (match outcome
       case PutOk =>
         Counted(t, q.key, TallyOf(t, q.key).(landed := false))
         .(store := t.store[q.key := rec], cells := t.cells[q.key := Some(rec)])
       case PutLost => Lost(t, q.key)
       case PutLanded =>
         var u := Lost(t, q.key);
         Counted(u, q.key, TallyOf(u, q.key).(landed := true)).(store := t.store[q.key := rec]))
    case Drop(id) =>
      if Busy(s.tasks[id].pc) then Lost(Leave(s, id), s.tasks[id].request.key) else Leave(s, id)
    case Crash(landed) => AfterCrash(s, landed)
  }

  // ---- What is known about a key ----

  /** The record every later request for the key will be answered from. */
  function Known(s: System, k: Key): Option<Record> {
    if k in s.cells then s.cells[k] else Stored(s, k)
  }

  ghost predicate TaskOk(s: System, id: TaskId)
    requires id in s.tasks
  {
    var t := s.tasks[id];
    var k := t.request.key;
    && (HoldsCell(t.pc) <==> k in s.holders && s.holders[k] == id)
    && (t.pc.Waiting? || HoldsCell(t.pc) ==> k in s.cells)
    && (t.pc.Inserting? && k !in s.cells ==> t.pc.found == Stored(s, k))
    && (Busy(t.pc) ==> k in s.cells && s.cells[k] == None)
    && (t.pc.Storing? ==> t.pc.record.fingerprint == t.request.fingerprint)
  }

  ghost predicate CellOk(s: System, k: Key) {
    && (k in s.cells && s.cells[k].Some? ==> Stored(s, k) == s.cells[k])
    && (TallyOf(s, k).landed <==> k in s.cells && s.cells[k].None? && k in s.store)
    && (k in s.holders ==> s.holders[k] in s.tasks && s.tasks[s.holders[k]].request.key == k)
  }

  /** Every run is accounted for: lost, at work, or the one that settled the key. */
  ghost predicate TallyOk(s: System, k: Key) {
    var t := TallyOf(s, k);
    t.runs <= t.lost + (if InFlight(s, k) then 1 else 0) + (if Known(s, k).Some? then 1 else 0)
  }

  ghost predicate Inv(s: System) {
    && (forall id :: id in s.tasks ==> TaskOk(s, id))
    && (forall k :: CellOk(s, k))
    && (forall k :: TallyOk(s, k))
  }

  ghost predicate Init(s: System) {
    s.cells == map[] && s.holders == map[] && s.tasks == map[] && s.answers == [] && s.tallies == map[]
  }

  // ---- Every step keeps the invariant ----

  /** What a step leaves alone for every other task and key. */
  lemma OthersStay(s: System, t: System, id: TaskId, k: Key)
    requires Inv(s) && id in s.tasks && s.tasks[id].request.key == k
    requires (forall x :: x != id ==> (x in t.tasks <==> x in s.tasks) && (x in s.tasks ==> t.tasks[x] == s.tasks[x]))
    requires forall y :: y != k ==> && Stored(t, y) == Stored(s, y) && (y in t.cells <==> y in s.cells)
                                    && (y in s.cells ==> t.cells[y] == s.cells[y])
                                    && (y in t.holders <==> y in s.holders)
                                    && (y in s.holders ==> t.holders[y] == s.holders[y])
                                    && TallyOf(t, y) == TallyOf(s, y)
    ensures forall y :: y != k ==> CellOk(t, y) && TallyOk(t, y) && Known(t, y) == Known(s, y)
    ensures forall x :: x in t.tasks && x != id && t.tasks[x].request.key != k ==> TaskOk(t, x)
  {
    forall y | y != k ensures CellOk(t, y) && TallyOk(t, y) && Known(t, y) == Known(s, y) {
      assert CellOk(s, y) && TallyOk(s, y);
      if y in s.holders {
        assert s.holders[y] != id;
      }
    }
    forall x | x in t.tasks && x != id && t.tasks[x].request.key != k ensures TaskOk(t, x) {
      assert TaskOk(s, x);
    }
  }

  lemma ArriveKeepsInv(s: System, l: Label)
    requires Inv(s) && Enabled(s, l) && l.Arrive?
    ensures Inv(Next(s, l)) && forall k :: Known(Next(s, l), k) == Known(s, k)
  {
    var t := Next(s, l);
    forall x | x in t.tasks ensures TaskOk(t, x) {
      if x != l.id { assert TaskOk(s, x); }
      assert CellOk(s, t.tasks[x].request.key);
    }
    forall k ensures CellOk(t, k) && TallyOk(t, k) {
      assert CellOk(s, k) && TallyOk(s, k);
    }
  }

  lemma FindKeepsInv(s: System, l: Label)
    requires Inv(s) && Enabled(s, l) && (l.Find? || (l.Read? && l.works))
    ensures Inv(Next(s, l)) && forall k :: Known(Next(s, l), k) == Known(s, k)
  {
    var t := Next(s, l);
    var k := s.tasks[l.id].request.key;
    assert TaskOk(s, l.id);
    OthersStay(s, t, l.id, k);
    forall x | x in t.tasks ensures TaskOk(t, x) {
      assert TaskOk(s, x);
    }
    assert CellOk(s, k) && TallyOk(s, k);
  }

  lemma InsertKeepsTasks(s: System, l: Label)
    requires Inv(s) && Enabled(s, l) && l.Insert?
    ensures forall x :: x in Next(s, l).tasks ==> TaskOk(Next(s, l), x)
  {
    var t := Next(s, l);
    assert TaskOk(s, l.id);
    forall x | x in t.tasks ensures TaskOk(t, x) {
      assert TaskOk(s, x);
    }
  }

  lemma InsertKeepsInv(s: System, l: Label)
    requires Inv(s) && Enabled(s, l) && l.Insert?
    ensures Inv(Next(s, l)) && forall k :: Known(Next(s, l), k) == Known(s, k)
  {
    var t := Next(s, l);
    var k := s.tasks[l.id].request.key;
    assert TaskOk(s, l.id);
    OthersStay(s, t, l.id, k);
    InsertKeepsTasks(s, l);
    assert CellOk(s, k) && TallyOk(s, k);
  }

  lemma AcquireKeepsInv(s: System, l: Label)
    requires Inv(s) && Enabled(s, l) && l.Acquire?
    ensures Inv(Next(s, l)) && forall k :: Known(Next(s, l), k) == Known(s, k)
  {
    var t := Next(s, l);
    var k := s.tasks[l.id].request.key;
    assert TaskOk(s, l.id);
    OthersStay(s, t, l.id, k);
    forall x | x in t.tasks ensures TaskOk(t, x) {
      assert TaskOk(s, x);
    }
    assert CellOk(s, k) && TallyOk(s, k);
  }

  /** A task that goes away without having run leaves everything known as it was. */
  lemma LeaveKeepsInv(s: System, id: TaskId, t: System)
    requires Inv(s) && id in s.tasks && !Busy(s.tasks[id].pc)
    requires exists answers :: t == Leave(s, id).(answers := answers)
    ensures Inv(t) && forall k :: Known(t, k) == Known(s, k)
  {
    var k := s.tasks[id].request.key;
    assert TaskOk(s, id);
    OthersStay(s, t, id, k);
    forall x | x in t.tasks ensures TaskOk(t, x) {
      assert TaskOk(s, x);
    }
    assert CellOk(s, k) && TallyOk(s, k);
  }

  lemma RunKeepsInv(s: System, l: Label)
    requires Inv(s) && Enabled(s, l) && l.Check? && s.cells[s.tasks[l.id].request.key].None?
    ensures Inv(Next(s, l)) && forall k :: Known(Next(s, l), k) == Known(s, k)
  {
    var t := Next(s, l);
    var k := s.tasks[l.id].request.key;
    assert TaskOk(s, l.id);
    OthersStay(s, t, l.id, k);
    forall x | x in t.tasks ensures TaskOk(t, x) {
      assert TaskOk(s, x);
    }
    assert CellOk(s, k) && TallyOk(s, k);
  }

  lemma FinishKeepsInv(s: System, l: Label)
    requires Inv(s) && Enabled(s, l) && l.Finish? && l.outcome.Ok?
    ensures Inv(Next(s, l)) && forall k :: Known(Next(s, l), k) == Known(s, k)
  {
    var t := Next(s, l);
    var k := s.tasks[l.id].request.key;
    assert TaskOk(s, l.id);
    OthersStay(s, t, l.id, k);
    forall x | x in t.tasks ensures TaskOk(t, x) {
      assert TaskOk(s, x);
    }
    assert CellOk(s, k) && TallyOk(s, k);
  }

  /** A run that ends without settling its key is counted as lost. */
  lemma LossKeepsInv(s: System, id: TaskId, t: System)
    requires Inv(s) && id in s.tasks && Busy(s.tasks[id].pc)
    requires exists answers :: t == Lost(Leave(s, id), s.tasks[id].request.key).(answers := answers)
    ensures Inv(t) && forall k :: Known(t, k) == Known(s, k)
  {
    var k := s.tasks[id].request.key;
    assert TaskOk(s, id);
    OthersStay(s, t, id, k);
    forall x | x in t.tasks ensures TaskOk(t, x) {
      assert TaskOk(s, x);
    }
    assert CellOk(s, k) && TallyOk(s, k);
  }

  lemma PutKeepsTasks(s: System, l: Label)
    requires Inv(s) && Enabled(s, l) && l.Put? && !l.write.PutLost?
    ensures forall x :: x in Next(s, l).tasks ==> TaskOk(Next(s, l), x)
  {
    var t := Next(s, l);
    assert TaskOk(s, l.id);
    forall x | x in t.tasks ensures TaskOk(t, x) {
      assert TaskOk(s, x);
    }
  }

  lemma PutKeepsInv(s: System, l: Label)
    requires Inv(s) && Enabled(s, l) && l.Put? && !l.write.PutLost?
    ensures Inv(Next(s, l)) && forall k :: Known(s, k).Some? ==> Known(Next(s, l), k) == Known(s, k)
  {
    var t := Next(s, l);
    var k := s.tasks[l.id].request.key;
    assert TaskOk(s, l.id);
    OthersStay(s, t, l.id, k);
    PutKeepsTasks(s, l);
    assert CellOk(s, k) && TallyOk(s, k);
  }

  lemma CrashKeepsInv(s: System, l: Label)
    requires Inv(s) && Enabled(s, l) && l.Crash?
    ensures Inv(Next(s, l)) && forall k :: Known(s, k).Some? ==> Known(Next(s, l), k) == Known(s, k)
  {
    var t := Next(s, l);
    forall k ensures CellOk(t, k) && TallyOk(t, k) && (Known(s, k).Some? ==> Known(t, k) == Known(s, k)) {
      assert CellOk(s, k) && TallyOk(s, k);
      if k in s.holders {
        assert TaskOk(s, s.holders[k]);
      }
    }
  }

  lemma StepKeepsInv(s: System, l: Label)
    requires Inv(s) && Enabled(s, l)
    ensures Inv(Next(s, l)) && forall k :: Known(s, k).Some? ==> Known(Next(s, l), k) == Known(s, k)
  {
    match l {
      case Arrive(_, _) => ArriveKeepsInv(s, l);
      case Find(_) => FindKeepsInv(s, l);
      case Read(id, works) =>
        if works { FindKeepsInv(s, l); } else {
          assert Next(s, l) == Leave(s, id).(answers := s.answers);
          LeaveKeepsInv(s, id, Next(s, l));
        }
      case Insert(_) => InsertKeepsInv(s, l);
      case Acquire(_) => AcquireKeepsInv(s, l);
      case Check(id) =>
        if s.cells[s.tasks[id].request.key].None? { RunKeepsInv(s, l); } else {
          assert Next(s, l) == Leave(s, id).(answers := Next(s, l).answers);
          LeaveKeepsInv(s, id, Next(s, l));
        }
      case Finish(id, outcome) =>
        if outcome.Ok? { FinishKeepsInv(s, l); } else {
          assert Next(s, l) == Lost(Leave(s, id), s.tasks[id].request.key).(answers := s.answers);
          LossKeepsInv(s, id, Next(s, l));
        }
      case Put(id, outcome) =>
        if !outcome.PutLost? { PutKeepsInv(s, l); } else {
          assert Next(s, l) == Lost(Leave(s, id), s.tasks[id].request.key).(answers := Next(s, l).answers);
          LossKeepsInv(s, id, Next(s, l));
        }
      case Drop(id) =>
        if Busy(s.tasks[id].pc) {
          assert Next(s, l) == Lost(Leave(s, id), s.tasks[id].request.key).(answers := s.answers);
          LossKeepsInv(s, id, Next(s, l));
        } else {
          assert Next(s, l) == Leave(s, id).(answers := s.answers);
          LeaveKeepsInv(s, id, Next(s, l));
        }
      case Crash(_) => CrashKeepsInv(s, l);
    }
  }

  // ---- Whole runs ----

  predicate Moves(s: System, t: System, l: Label) { Enabled(s, l) && t == Next(s, l) }

  ghost predicate Run(states: seq<System>, labels: seq<Label>) {
    && |states| == |labels| + 1 && Init(states[0])
    && forall i {:trigger labels[i]} :: 0 <= i < |labels| ==> Moves(states[i], states[i + 1], labels[i])
  }

  /** The answer a request gets from a response with this body. */
  function AnswerTo(q: Request, reused: bool, body: string): Response {
    Response(q.requestId, q.traceId, Some(q.key), reused, body)
  }

  /** The answer is to a request with the record's payload, and has the record's body and the request's own
      request id, trace id and key. */
  predicate Repeats(answer: Answer, r: Record) {
    && answer.Reused? && answer.request.fingerprint == r.fingerprint
    && answer.response == AnswerTo(answer.request, true, r.response.body)
  }

  /** Reused answers repeat the known record of their key. */
  ghost predicate AnswersOk(s: System) {
    forall n :: 0 <= n < |s.answers| && s.answers[n].Reused? ==>
      Known(s, s.answers[n].request.key).Some? && Repeats(s.answers[n], Known(s, s.answers[n].request.key).value)
  }

  lemma InitHasInv(s: System)
    requires Init(s)
    ensures Inv(s) && AnswersOk(s)
  {
    forall k ensures CellOk(s, k) && TallyOk(s, k) {
    }
  }

  lemma StepKeepsAnswers(s: System, l: Label)
    requires Inv(s) && Enabled(s, l) && AnswersOk(s)
    ensures AnswersOk(Next(s, l))
  {
    var t := Next(s, l);
    StepKeepsInv(s, l);
    forall n | 0 <= n < |t.answers| && t.answers[n].Reused?
      ensures Known(t, t.answers[n].request.key).Some? && Repeats(t.answers[n], Known(t, t.answers[n].request.key).value)
    {
      var q := t.answers[n].request;
      if n == |s.answers| {
        assert l.Check? && Known(s, q.key).Some?;
      } else {
        assert t.answers[n] == s.answers[n];
      }
    }
  }

  lemma {:induction false} RunKeepsInvariants(states: seq<System>, labels: seq<Label>, n: nat)
    requires Run(states, labels) && n < |states|
    ensures Inv(states[n]) && AnswersOk(states[n])
  {
    if n == 0 {
      InitHasInv(states[0]);
    } else {
      var m := n - 1;
      RunKeepsInvariants(states, labels, m);
      assert Moves(states[m], states[m + 1], labels[m]);
      StepKeepsInv(states[m], labels[m]);
      StepKeepsAnswers(states[m], labels[m]);
    }
  }

  /** Over any interleaving, with restarts, the coordinator runs for a key at most once more than the
      number of its runs that were lost: failed, dropped, cut off by a restart, or not stored. */
  lemma RunsAtMostOncePlusLost(states: seq<System>, labels: seq<Label>, n: nat, k: Key)
    requires Run(states, labels) && n < |states|
    ensures TallyOf(states[n], k).runs <= TallyOf(states[n], k).lost + 1
  {
    RunKeepsInvariants(states, labels, n);
    var s := states[n];
    assert TallyOk(s, k) && CellOk(s, k);
    if InFlight(s, k) {
      assert TaskOk(s, s.holders[k]);
    }
  }

  /** Once the record of a key is known it never changes, whatever happens after. */
  lemma {:induction false} KnownIsForever(states: seq<System>, labels: seq<Label>, m: nat, n: nat, k: Key)
    requires Run(states, labels) && m <= n < |states| && Known(states[m], k).Some?
    ensures Known(states[n], k) == Known(states[m], k)
  {
    if m < n {
      var p := n - 1;
      KnownIsForever(states, labels, m, p, k);
      RunKeepsInvariants(states, labels, p);
      assert Moves(states[p], states[p + 1], labels[p]);
      StepKeepsInv(states[p], labels[p]);
    }
  }

  /** A step starts a run for the key. */
  predicate StartsRun(s: System, l: Label, k: Key) {
    Enabled(s, l) && l.Check? && s.tasks[l.id].request.key == k && Next(s, l).tasks.Keys == s.tasks.Keys
  }

  lemma RunNeedsUnknown(s: System, l: Label, k: Key)
    requires Inv(s) && Enabled(s, l) && l.Check? && s.tasks[l.id].request.key == k
    ensures StartsRun(s, l, k) <==> Known(s, k).None?
  {
    assert TaskOk(s, l.id);
    if Known(s, k).Some? {
      assert l.id !in Next(s, l).tasks;
    }
  }

  /** No run starts for a key whose record is known. */
  lemma KnownStopsRuns(states: seq<System>, labels: seq<Label>, m: nat, n: nat, k: Key)
    requires Run(states, labels) && m <= n < |labels| && Known(states[m], k).Some?
    ensures !StartsRun(states[n], labels[n], k)
  {
    KnownIsForever(states, labels, m, n, k);
    RunKeepsInvariants(states, labels, n);
    if StartsRun(states[n], labels[n], k) {
      RunNeedsUnknown(states[n], labels[n], k);
    }
  }

  /** When a record of the key is in the store, a request that reaches the cell starts another run exactly
      when the last write of this process reached the store although it reported failure. */
  lemma RecordStopsRunsExactlyWhenNotLanded(states: seq<System>, labels: seq<Label>, n: nat, k: Key)
    requires Run(states, labels) && n < |labels| && k in states[n].store
    requires labels[n].Check? && labels[n].id in states[n].tasks && states[n].tasks[labels[n].id].request.key == k
    ensures StartsRun(states[n], labels[n], k) <==> TallyOf(states[n], k).landed
  {
    RunKeepsInvariants(states, labels, n);
    assert Moves(states[n], states[n + 1], labels[n]);
    assert CellOk(states[n], k) && TaskOk(states[n], labels[n].id);
    RunNeedsUnknown(states[n], labels[n], k);
  }

  /** From a request about to store its record: when the write lands and fails, one with another payload runs. */
  lemma AnotherPayloadRunsAfterLanding(s: System, id: TaskId, other: TaskId, q: Request)
    returns (tail: seq<System>, more: seq<Label>)
    requires Inv(s) && id in s.tasks && s.tasks[id].pc.Storing? && other !in s.tasks
    requires q.key == s.tasks[id].request.key && q.fingerprint != s.tasks[id].request.fingerprint
    ensures |tail| == |more| + 1 && tail[0] == s && forall i {:trigger more[i]} :: 0 <= i < |more| ==> Moves(tail[i], tail[i + 1], more[i])
    ensures var t := tail[|more|];
            && other in t.tasks && t.tasks[other] == Task(q, Running)
            && t.answers == s.answers + [Fresh(s.tasks[id].request, s.tasks[id].pc.record.response)]
            && q.key in t.store && t.store[q.key].fingerprint != q.fingerprint
  {
    assert TaskOk(s, id);
    var s1 := Next(s, Put(id, PutLanded));
    var s2 := Next(s1, Arrive(other, q));
    var s3 := Next(s2, Find(other));
    var s4 := Next(s3, Acquire(other));
    tail, more := [s, s1, s2, s3, s4, Next(s4, Check(other))], [Put(id, PutLanded), Arrive(other, q), Find(other), Acquire(other), Check(other)];
  }

  /** The first request of all, up to the point where its record is about to be stored. */
  function FirstRequest(id: TaskId, q: Request, response: Response): seq<Label> {
    [Arrive(id, q), Find(id), Read(id, true), Insert(id), Acquire(id), Check(id), Finish(id, Ok(response))]
  }

  lemma Extended(states: seq<System>, labels: seq<Label>, l: Label) returns (longer: seq<System>)
    requires Run(states, labels) && Enabled(states[|labels|], l)
    ensures Run(longer, labels + [l]) && longer[|labels| + 1] == Next(states[|labels|], l)
  {
    longer := states + [Next(states[|labels|], l)];
    var more := labels + [l];
    forall i {:trigger more[i]} | 0 <= i < |more| ensures Moves(longer[i], longer[i + 1], more[i]) {
      if i < |labels| {
        assert Moves(states[i], states[i + 1], labels[i]);
      }
    }
  }

  lemma FirstRequestReachesStoring(id: TaskId, q: Request, response: Response) returns (states: seq<System>)
    ensures Run(states, FirstRequest(id, q, response))
    ensures var s := states[7];
            s.tasks == map[id := Task(q, Storing(Record(q.fingerprint, Annotate(response, q, false))))] && s.answers == []
  {
    var labels := FirstRequest(id, q, response);
    states := [System(map[], map[], map[], map[], [], map[])];
    assert labels[..0] == [];
    for n := 0 to 7
      invariant Run(states, labels[..n]) && states[n].answers == [] && states[n].store == map[]
      invariant n > 0 ==> states[n].tasks.Keys == {id} && states[n].tasks[id].request == q
      invariant n == 0 ==> states[n].tasks == map[] && states[n].cells == map[] && states[n].holders == map[]
      invariant 1 <= n <= 3 ==> states[n].cells == map[]
      invariant 1 <= n <= 4 ==> states[n].holders == map[]
      invariant n == 1 ==> states[n].tasks[id].pc == Finding
      invariant n == 2 ==> states[n].tasks[id].pc == Reading
      invariant n == 3 ==> states[n].tasks[id].pc == Inserting(None)
      invariant n == 4 ==> states[n].tasks[id].pc == Waiting
      invariant 4 <= n ==> states[n].cells == map[q.key := None]
      invariant n == 5 ==> states[n].tasks[id].pc == Checking
      invariant n == 6 ==> states[n].tasks[id].pc == Running
      invariant n == 7 ==> states[n].tasks[id].pc == Storing(Record(q.fingerprint, Annotate(response, q, false)))
    {
      assert labels[..n + 1] == labels[..n] + [labels[n]];
      states := Extended(states, labels[..n], labels[n]);
    }
    assert labels[..7] == labels;
  }

  lemma Continued(states: seq<System>, labels: seq<Label>, tail: seq<System>, more: seq<Label>) returns (longer: seq<System>)
    requires Run(states, labels) && |tail| == |more| + 1 && tail[0] == states[|labels|]
    requires forall i {:trigger more[i]} :: 0 <= i < |more| ==> Moves(tail[i], tail[i + 1], more[i])
    ensures Run(longer, labels + more) && longer[|labels| + |more|] == tail[|more|]
  {
    longer := states[..|labels|] + tail;
    var all := labels + more;
    forall i {:trigger all[i]} | 0 <= i < |all| ensures Moves(longer[i], longer[i + 1], all[i]) {
      if i < |labels| {
        assert Moves(states[i], states[i + 1], labels[i]);
      } else {
        assert Moves(tail[i - |labels|], tail[i - |labels| + 1], more[i - |labels|]);
      }
    }
  }

  /** The promise fails in a run from the start: the first request is answered from its run, its record
      lands although the write fails, and a request with another payload under the same key runs too. */
  lemma LandedRecordLetsAnotherPayloadRun(q: Request, response: Response, p: Request) returns (states: seq<System>, labels: seq<Label>)
    requires p.key == q.key && p.fingerprint != q.fingerprint
    ensures Run(states, labels)
    ensures var s := states[|labels|];
            && s.answers == [Fresh(q, AnswerTo(q, false, response.body))] && 1 in s.tasks && s.tasks[1] == Task(p, Running)
            && p.key in s.store && s.store[p.key].fingerprint != p.fingerprint
  {
    states := FirstRequestReachesStoring(0, q, response);
    labels := FirstRequest(0, q, response);
    RunKeepsInvariants(states, labels, 7);
    var tail, more := AnotherPayloadRunsAfterLanding(states[7], 0, 1, p);
    states := Continued(states, labels, tail, more);
    labels := labels + more;
  }
}
