/** What the answers to requests with an idempotency key are, over whole runs: what a reused answer repeats, where
    the repeated record comes from, and whose run its body is from. */
module IdempotentAnswers {
  import opened Idempotency

  /** Once the record of a key is known, every reused answer for the key, given before or after, repeats it. */
  lemma ReusedAnswersRepeatTheRecord(states: seq<System>, labels: seq<Label>, m: nat, n: nat, a: nat)
    requires Run(states, labels) && m <= n < |states| && a < |states[n].answers| && states[n].answers[a].Reused?
    requires Known(states[m], states[n].answers[a].request.key).Some?
    ensures Repeats(states[n].answers[a], Known(states[m], states[n].answers[a].request.key).value)
  {
    RunKeepsInvariants(states, labels, n);
    KnownIsForever(states, labels, m, n, states[n].answers[a].request.key);
  }

  /** So any two reused answers for a key differ only in the annotated fields and had the same payload. */
  lemma ReusedAnswersAgree(states: seq<System>, labels: seq<Label>, n: nat, a: nat, b: nat)
    requires Run(states, labels) && n < |states| && a < |states[n].answers| && b < |states[n].answers|
    requires states[n].answers[a].Reused? && states[n].answers[b].Reused?
    requires states[n].answers[a].request.key == states[n].answers[b].request.key
    ensures states[n].answers[a].request.fingerprint == states[n].answers[b].request.fingerprint
    ensures states[n].answers[b].response == AnswerTo(states[n].answers[b].request, true, states[n].answers[a].response.body)
  {
    RunKeepsInvariants(states, labels, n);
    ReusedAnswersRepeatTheRecord(states, labels, n, n, a);
    ReusedAnswersRepeatTheRecord(states, labels, n, n, b);
  }

  /** Some request for the key was answered with this record as the outcome of its own run. */
  predicate AnsweredWith(answers: seq<Answer>, k: Key, r: Record) {
    exists b :: 0 <= b < |answers| && answers[b] == Fresh(answers[b].request, r.response)
                && answers[b].request.key == k && answers[b].request.fingerprint == r.fingerprint
  }

  /** A restart cut off the request that was writing this record, and the record reached the store. */
  predicate CutOff(s: System, l: Label, k: Key, r: Record) {
    && l.Crash? && Enabled(s, l) && k in l.landed && s.tasks[s.holders[k]].pc == Storing(r)
  }

  /** Where a stored record comes from: it was there at the start, one of the first `upTo` answers was given
      with it, or it landed in a restart. */
  ghost predicate Sourced(states: seq<System>, labels: seq<Label>, n: nat, upTo: nat, k: Key, r: Record)
    requires Run(states, labels) && n < |states| && upTo <= |states[n].answers|
  {
    || (k in states[0].store && states[0].store[k] == r)
    || AnsweredWith(states[n].answers[..upTo], k, r)
    || exists i :: 0 <= i < n && CutOff(states[i], labels[i], k, r)
  }

  lemma AnswersGrow(s: System, l: Label)
    requires Enabled(s, l)
    ensures s.answers <= Next(s, l).answers
  {
    match l {
      case Check(id) =>
        if s.cells[s.tasks[id].request.key].Some? {
          assert |s.answers| <= |Next(s, l).answers| <= |s.answers| + 1;
        }
      case Put(id, _) => assert Next(s, l).answers == s.answers + [Fresh(s.tasks[id].request, s.tasks[id].pc.record.response)];
      case _ => assert Next(s, l).answers == s.answers;
    }
  }

  lemma SourcedStays(states: seq<System>, labels: seq<Label>, n: nat, upTo: nat, more: nat, k: Key, r: Record)
    requires Run(states, labels) && n + 1 < |states| && upTo <= |states[n].answers| && upTo <= more <= |states[n + 1].answers|
    requires Sourced(states, labels, n, upTo, k, r)
    ensures Sourced(states, labels, n + 1, more, k, r)
  {
    assert Moves(states[n], states[n + 1], labels[n]);
    AnswersGrow(states[n], labels[n]);
    var answers := states[n].answers[..upTo];
    if AnsweredWith(answers, k, r) {
      var b :| 0 <= b < |answers| && answers[b] == Fresh(answers[b].request, r.response)
                  && answers[b].request.key == k && answers[b].request.fingerprint == r.fingerprint;
      assert states[n + 1].answers[..more][b] == answers[b];
    }
  }

  /** A step that changes what is stored for a key writes the record of a run. */
  lemma StoreIsWrittenByRuns(s: System, l: Label, k: Key)
    requires Inv(s) && Enabled(s, l) && k in Next(s, l).store && Stored(Next(s, l), k) != Stored(s, k)
    ensures var r := Next(s, l).store[k];
            AnsweredWith(Next(s, l).answers, k, r) || CutOff(s, l, k, r)
  {
    var t := Next(s, l);
    if l.Put? {
      assert TaskOk(s, l.id);
      assert t.answers[|s.answers|].Fresh?;
    } else {
      assert l.Crash? && k in l.landed;
    }
  }

  lemma {:induction false} StoredIsSourced(states: seq<System>, labels: seq<Label>, n: nat, k: Key)
    requires Run(states, labels) && n < |states| && k in states[n].store
    ensures Sourced(states, labels, n, |states[n].answers|, k, states[n].store[k])
  {
    if n > 0 {
      var m := n - 1;
      var r := states[n].store[k];
      RunKeepsInvariants(states, labels, m);
      assert Moves(states[m], states[m + 1], labels[m]);
      AnswersGrow(states[m], labels[m]);
      if Stored(states[n], k) == Stored(states[m], k) {
        StoredIsSourced(states, labels, m, k);
        SourcedStays(states, labels, m, |states[m].answers|, |states[n].answers|, k, r);
      } else {
        StoreIsWrittenByRuns(states[m], labels[m], k);
        assert states[n].answers[..|states[n].answers|] == states[n].answers;
      }
    }
  }

  /** Every reused answer repeats a record with an origin: one that was in the store from the start, one that
      an earlier request with the same key and payload was answered with after its own run, or one that a
      restart caught being written. */
  lemma {:induction false} ReusedAnswersHaveAnOrigin(states: seq<System>, labels: seq<Label>, n: nat, a: nat) returns (r: Record)
    requires Run(states, labels) && n < |states| && a < |states[n].answers| && states[n].answers[a].Reused?
    ensures Repeats(states[n].answers[a], r) && Sourced(states, labels, n, a, states[n].answers[a].request.key, r)
  {
    var m := n - 1;
    assert Moves(states[m], states[m + 1], labels[m]);
    AnswersGrow(states[m], labels[m]);
    var k := states[n].answers[a].request.key;
    if a < |states[m].answers| {
      r := ReusedAnswersHaveAnOrigin(states, labels, m, a);
      SourcedStays(states, labels, m, a, a, k, r);
    } else {
      RunKeepsInvariants(states, labels, m);
      assert labels[m].Check? && a == |states[m].answers|;
      assert CellOk(states[m], k);
      r := states[m].store[k];
      StoredIsSourced(states, labels, m, k);
      SourcedStays(states, labels, m, a, a, k, r);
    }
  }

  // ---- Answers carry the body of a run ----

  /** Some step so far ended a run of this request with this body. */
  ghost predicate RanWith(states: seq<System>, labels: seq<Label>, n: nat, q: Request, body: string)
    requires Run(states, labels) && n < |states|
  {
    exists i :: && 0 <= i < n && labels[i].Finish? && labels[i].outcome.Ok? && labels[i].outcome.value.body == body
                && labels[i].id in states[i].tasks && states[i].tasks[labels[i].id].request == q
  }

  /** Records being written, and answers given after a run, are what their own run ended with. */
  ghost predicate OwnRuns(states: seq<System>, labels: seq<Label>, n: nat)
    requires Run(states, labels) && n < |states|
  {
    && (forall id :: id in states[n].tasks && states[n].tasks[id].pc.Storing? ==>
          IsOwn(states, labels, n, states[n].tasks[id].request, states[n].tasks[id].pc.record.response))
    && (forall b :: 0 <= b < |states[n].answers| && states[n].answers[b].Fresh? ==>
          IsOwn(states, labels, n, states[n].answers[b].request, states[n].answers[b].response))
  }

  ghost predicate IsOwn(states: seq<System>, labels: seq<Label>, n: nat, q: Request, response: Response)
    requires Run(states, labels) && n < |states|
  {
    response == AnswerTo(q, false, response.body) && RanWith(states, labels, n, q, response.body)
  }

  lemma IsOwnStays(states: seq<System>, labels: seq<Label>, n: nat, q: Request, response: Response)
    requires Run(states, labels) && n + 1 < |states| && IsOwn(states, labels, n, q, response)
    ensures IsOwn(states, labels, n + 1, q, response)
  {
  }

  lemma FinishTouchesItsTask(s: System, l: Label, id: TaskId)
    requires Enabled(s, l) && l.Finish? && id in Next(s, l).tasks
    ensures id in s.tasks && Next(s, l).tasks[id].request == s.tasks[id].request
    ensures id != l.id ==> Next(s, l).tasks[id] == s.tasks[id]
    ensures id == l.id ==> l.outcome.Ok? && Next(s, l).tasks[id].pc.Storing?
                           && Next(s, l).tasks[id].pc.record.response == AnswerTo(s.tasks[id].request, false, l.outcome.value.body)
  {
  }

  ghost predicate SameTask(s: System, t: System, id: TaskId) {
    id in t.tasks ==> id in s.tasks && t.tasks[id] == s.tasks[id]
  }

  lemma OthersStayInAPut(s: System, l: Label, id: TaskId)
    requires Enabled(s, l) && l.Put? && l.id != id
    ensures SameTask(s, Next(s, l), id)
  {
  }

  lemma OthersStayInARun(s: System, l: Label, id: TaskId)
    requires Enabled(s, l) && (l.Check? || l.Finish? || l.Drop?) && l.id != id
    ensures SameTask(s, Next(s, l), id)
  {
  }

  lemma OthersStayOnTheWay(s: System, l: Label, id: TaskId)
    requires Enabled(s, l) && !l.Crash? && !l.Put? && !l.Check? && !l.Finish? && !l.Drop? && l.id != id
    ensures SameTask(s, Next(s, l), id)
  {
  }

  lemma OtherTasksStay(s: System, l: Label, id: TaskId)
    requires Enabled(s, l) && !l.Crash? && l.id != id
    ensures SameTask(s, Next(s, l), id)
  {
    if l.Put? {
      OthersStayInAPut(s, l, id);
    } else if l.Check? || l.Finish? || l.Drop? {
      OthersStayInARun(s, l, id);
    } else {
      OthersStayOnTheWay(s, l, id);
    }
  }

  lemma OwnStoringIsFinish(s: System, l: Label)
    requires Enabled(s, l) && !l.Crash? && l.id in Next(s, l).tasks && Next(s, l).tasks[l.id].pc.Storing?
    ensures l.Finish?
  {
  }

  /** Only the end of a run brings a task to writing. */
  lemma StoringStays(s: System, l: Label, id: TaskId)
    requires Enabled(s, l) && !l.Finish? && id in Next(s, l).tasks && Next(s, l).tasks[id].pc.Storing?
    ensures id in s.tasks && Next(s, l).tasks[id] == s.tasks[id]
  {
    if l.Crash? {
    } else if l.id == id {
      OwnStoringIsFinish(s, l);
    } else {
      OtherTasksStay(s, l, id);
    }
  }

  /** Who is writing after a step, and with what: someone who was, or the one whose run has just ended. */
  lemma StoringComesFromFinish(s: System, l: Label, id: TaskId)
    requires Enabled(s, l) && id in Next(s, l).tasks && Next(s, l).tasks[id].pc.Storing?
    ensures id in s.tasks && Next(s, l).tasks[id].request == s.tasks[id].request
    ensures || s.tasks[id] == Next(s, l).tasks[id]
            || (&& l.Finish? && l.id == id && l.outcome.Ok?
                && Next(s, l).tasks[id].pc.record.response == AnswerTo(s.tasks[id].request, false, l.outcome.value.body))
  {
    if l.Finish? {
      FinishTouchesItsTask(s, l, id);
    } else {
      StoringStays(s, l, id);
    }
  }

  lemma FreshComesFromStoring(s: System, l: Label, b: nat)
    requires Enabled(s, l) && b < |Next(s, l).answers| && Next(s, l).answers[b].Fresh?
    ensures || (b < |s.answers| && Next(s, l).answers[b] == s.answers[b])
            || (&& l.Put? && s.tasks[l.id].request == Next(s, l).answers[b].request
                && s.tasks[l.id].pc.record.response == Next(s, l).answers[b].response)
  {
    AnswersGrow(s, l);
  }

  lemma StepKeepsOwnRuns(states: seq<System>, labels: seq<Label>, m: nat)
    requires Run(states, labels) && m + 1 < |states| && OwnRuns(states, labels, m)
    ensures OwnRuns(states, labels, m + 1)
  {
    var n, s, t, l := m + 1, states[m], states[m + 1], labels[m];
    assert Moves(s, t, l);
    forall id | id in t.tasks && t.tasks[id].pc.Storing?
      ensures IsOwn(states, labels, n, t.tasks[id].request, t.tasks[id].pc.record.response)
    {
      StoringComesFromFinish(s, l, id);
      if s.tasks[id] == t.tasks[id] {
        IsOwnStays(states, labels, m, t.tasks[id].request, t.tasks[id].pc.record.response);
      }
    }
    forall b | 0 <= b < |t.answers| && t.answers[b].Fresh?
      ensures IsOwn(states, labels, n, t.answers[b].request, t.answers[b].response)
    {
      FreshComesFromStoring(s, l, b);
      IsOwnStays(states, labels, m, t.answers[b].request, t.answers[b].response);
    }
  }

  lemma {:induction false} RunHasOwnRuns(states: seq<System>, labels: seq<Label>, n: nat)
    requires Run(states, labels) && n < |states|
    ensures OwnRuns(states, labels, n)
  {
    if n > 0 {
      RunHasOwnRuns(states, labels, n - 1);
      StepKeepsOwnRuns(states, labels, n - 1);
    }
  }

  /** An answer given after a run has the body that run ended with, the request's own request id, trace id and
      key, and is not marked as reused. */
  lemma FreshAnswersCarryTheirRun(states: seq<System>, labels: seq<Label>, n: nat, b: nat)
    requires Run(states, labels) && n < |states| && b < |states[n].answers| && states[n].answers[b].Fresh?
    ensures var q, response := states[n].answers[b].request, states[n].answers[b].response;
            response == AnswerTo(q, false, response.body) && RanWith(states, labels, n, q, response.body)
  {
    RunHasOwnRuns(states, labels, n);
    assert IsOwn(states, labels, n, states[n].answers[b].request, states[n].answers[b].response);
  }

  lemma CutOffCarriesItsRun(states: seq<System>, labels: seq<Label>, i: nat, n: nat, k: Key, r: Record)
    requires Run(states, labels) && i < n < |states| && CutOff(states[i], labels[i], k, r)
    ensures exists q: Request :: q.key == k && q.fingerprint == r.fingerprint && RanWith(states, labels, n, q, r.response.body)
  {
    var s := states[i];
    RunHasOwnRuns(states, labels, i);
    RunKeepsInvariants(states, labels, i);
    var id := s.holders[k];
    assert TaskOk(s, id) && CellOk(s, k);
    assert IsOwn(states, labels, i, s.tasks[id].request, r.response);
    assert RanWith(states, labels, n, s.tasks[id].request, r.response.body);
  }

  lemma AnsweredCarriesItsRun(states: seq<System>, labels: seq<Label>, n: nat, upTo: nat, k: Key, r: Record)
    requires Run(states, labels) && n < |states| && upTo <= |states[n].answers| && AnsweredWith(states[n].answers[..upTo], k, r)
    ensures exists q: Request :: q.key == k && q.fingerprint == r.fingerprint && RanWith(states, labels, n, q, r.response.body)
  {
    var answers := states[n].answers[..upTo];
    var b :| 0 <= b < |answers| && answers[b] == Fresh(answers[b].request, r.response)
             && answers[b].request.key == k && answers[b].request.fingerprint == r.fingerprint;
    assert states[n].answers[b] == answers[b];
    FreshAnswersCarryTheirRun(states, labels, n, b);
    assert RanWith(states, labels, n, answers[b].request, r.response.body);
  }

  /** The body of a reused answer is the one that a run for the same key and payload ended with, unless the
      record was in the store from the start. */
  lemma ReusedAnswersCarryARun(states: seq<System>, labels: seq<Label>, n: nat, a: nat)
    requires Run(states, labels) && n < |states| && a < |states[n].answers| && states[n].answers[a].Reused?
    ensures var q, response := states[n].answers[a].request, states[n].answers[a].response;
            && response == AnswerTo(q, true, response.body)
            && (|| (&& q.key in states[0].store && states[0].store[q.key].fingerprint == q.fingerprint
                    && states[0].store[q.key].response.body == response.body)
                || exists p: Request :: p.key == q.key && p.fingerprint == q.fingerprint && RanWith(states, labels, n, p, response.body))
  {
    var k := states[n].answers[a].request.key;
    var r := ReusedAnswersHaveAnOrigin(states, labels, n, a);
    if k in states[0].store && states[0].store[k] == r {
    } else if AnsweredWith(states[n].answers[..a], k, r) {
      AnsweredCarriesItsRun(states, labels, n, a, k, r);
    } else {
      var i :| 0 <= i < n && CutOff(states[i], labels[i], k, r);
      CutOffCarriesItsRun(states, labels, i, n, k, r);
    }
  }

  /** A request that finds the record of its key is answered from it if it has the same payload, and refused
      otherwise; one that finds none is run. */
  lemma KnownKeyIsAnswered(s: System, id: TaskId)
    requires Inv(s) && Enabled(s, Check(id))
    ensures var q, t := s.tasks[id].request, Next(s, Check(id));
            match Known(s, q.key)
            case None => t.answers == s.answers && id in t.tasks && t.tasks[id] == Task(q, Running)
            case Some(r) =>
              && t.answers == s.answers + (if r.fingerprint == q.fingerprint then [Reused(q, AnswerTo(q, true, r.response.body))] else [])
              && id !in t.tasks
  {
    assert TaskOk(s, id);
  }
}
