/**
 * What redeliveries do to the rows over whole runs of the consumer: compared with a run in which every entry took
 * effect only the first time it was committed.
 */
module IngestRedelivery {
  import opened IngestConsumer
  import opened IngestOrder
  import opened IngestTables
  import opened Options
  import opened Seqs

  /** The valid messages committed, in order, each entry only where it was committed first. */
  function FirstLog(stream: seq<Parsed>, history: seq<Done>): seq<Message> {
    if history == [] then []
    else
      var front, last := history[..|history| - 1], history[|history| - 1];
      FirstLog(stream, front) + if last in front then [] else MessageOf(stream, last)
  }

  // ---- events, intervals and evidence -----------------------------------------------------------------------

  lemma OpensFirstPrefix(cams: Cameras, a: seq<Message>, b: seq<Message>)
    requires OpensFirst(cams, a + b)
    ensures OpensFirst(cams, a)
  {
    var all := a + b;
    assert forall i | 0 <= i < |a| :: all[i] == a[i];
    forall i | 0 <= i < |a| && a[i].Close? && Known(cams, a[i]) && OpenedBy(cams, a, |a|, a[i].session)
      ensures OpenedBy(cams, a, i, a[i].session)
    {
      var j :| 0 <= j < |a| && Opens(cams, a[j], a[i].session);
      assert Opens(cams, all[j], all[i].session);
      assert OpenedBy(cams, all, i, all[i].session);
    }
  }

  lemma {:induction false} FirstLogHas(stream: seq<Parsed>, history: seq<Done>, done: Done) returns (i: nat)
    requires done in history && MessageOf(stream, done) != []
    ensures i < |FirstLog(stream, history)| && FirstLog(stream, history)[i] == MessageOf(stream, done)[0]
  {
    var front, last := history[..|history| - 1], history[|history| - 1];
    if done in front {
      i := FirstLogHas(stream, front, done);
    } else {
      assert done == last;
      i := |FirstLog(stream, front)|;
    }
  }

  lemma ApplyAllStep(cams: Cameras, ms: seq<Message>, more: seq<Message>)
    requires |more| <= 1
    ensures ApplyAll(cams, NoRows, ms + more) ==
      if more == [] then ApplyAll(cams, NoRows, ms) else Apply(cams, ApplyAll(cams, NoRows, ms), more[0])
  {
    hide Apply;
    if more == [] {
      assert ms + more == ms;
    } else {
      assert (ms + more)[..|ms|] == ms;
    }
  }

  lemma SameRowsTransitive(t: Tables, u: Tables, v: Tables)
    requires SameRows(t, u) && SameRows(u, v)
    ensures SameRows(t, v) && SameRows(u, t)
  {
  }

  /** A redelivery finds what it wrote, also in rows that saw each entry once. */
  lemma AgainSameRows(cams: Cameras, t: Tables, ms: seq<Message>, i: nat)
    requires i < |ms| && OpensFirst(cams, ms) && SameRows(t, ApplyAll(cams, NoRows, ms))
    ensures SameRows(Apply(cams, t, ms[i]), ApplyAll(cams, NoRows, ms))
  {
    var u := ApplyAll(cams, NoRows, ms);
    AllSeen(cams, NoRows, ms, i);
    NoneStillCloses(cams, NoRows, ms, i);
    hide ApplyAll;
    SeenChangesNoRow(cams, u, ms[i]);
    ApplySameRows(cams, t, u, ms[i]);
    hide Apply;
    SameRowsTransitive(u, Apply(cams, u, ms[i]), u);
    SameRowsTransitive(Apply(cams, t, ms[i]), Apply(cams, u, ms[i]), u);
  }

  lemma {:induction false} RowsOnce(cams: Cameras, stream: seq<Parsed>, history: seq<Done>)
    requires OpensFirst(cams, FirstLog(stream, history))
    ensures SameRows(ApplyAll(cams, NoRows, Log(stream, history)), ApplyAll(cams, NoRows, FirstLog(stream, history)))
  {
    if history != [] {
      var front, last := history[..|history| - 1], history[|history| - 1];
      var more := MessageOf(stream, last);
      var log, once := Log(stream, front), FirstLog(stream, front);
      ApplyAllStep(cams, log, more);
      ApplyAllStep(cams, once, more);
      if last in front {
        assert FirstLog(stream, history) == once;
        RowsOnce(cams, stream, front);
        if more != [] {
          var i := FirstLogHas(stream, front, last);
          hide *;
          AgainSameRows(cams, ApplyAll(cams, NoRows, log), once, i);
        }
      } else {
        OpensFirstPrefix(cams, once, more);
        RowsOnce(cams, stream, front);
        hide Apply;
        hide ApplyAll;
        if more != [] {
          ApplySameRows(cams, ApplyAll(cams, NoRows, log), ApplyAll(cams, NoRows, once), more[0]);
        }
      }
    }
  }

  // ---- metrics ----------------------------------------------------------------------------------------------

  lemma FirstUseStep(cams: Cameras, ms: seq<Message>, more: seq<Message>, k: MetricKey)
    requires |more| <= 1
    ensures FirstUse(cams, ms + more, k) ==
      if FirstUse(cams, ms, k).None? && more != [] && Writes(cams, more[0], k) then Some(more[0].useCase)
      else FirstUse(cams, ms, k)
  {
    if more == [] {
      assert ms + more == ms;
    } else {
      assert (ms + more)[..|ms|] == ms;
    }
  }

  lemma {:induction false} SomeFirstUse(cams: Cameras, ms: seq<Message>, i: nat, k: MetricKey)
    requires i < |ms| && Writes(cams, ms[i], k)
    ensures FirstUse(cams, ms, k).Some?
  {
    if i < |ms| - 1 {
      SomeFirstUse(cams, ms[..|ms| - 1], i, k);
    }
  }

  /** No redelivery is the first to write a key. */
  lemma {:induction false} SameFirstUse(cams: Cameras, stream: seq<Parsed>, history: seq<Done>, k: MetricKey)
    ensures FirstUse(cams, Log(stream, history), k) == FirstUse(cams, FirstLog(stream, history), k)
  {
    if history != [] {
      var front, last := history[..|history| - 1], history[|history| - 1];
      var more := MessageOf(stream, last);
      SameFirstUse(cams, stream, front, k);
      FirstUseStep(cams, Log(stream, front), more, k);
      FirstUseStep(cams, FirstLog(stream, front), more, k);
      if last in front {
        assert FirstLog(stream, history) == FirstLog(stream, front);
        if more != [] && Writes(cams, more[0], k) {
          var i := FirstLogHas(stream, front, last);
          SomeFirstUse(cams, FirstLog(stream, front), i, k);
        }
      }
      hide FirstUse;
    }
  }

  /** Per key, the last commit that wrote it wrote the value of the last first commit that did. */
  ghost predicate LastWritesAgree(cams: Cameras, stream: seq<Parsed>, history: seq<Done>) {
    forall k: MetricKey :: LastWrite(cams, Log(stream, history), k) == LastWrite(cams, FirstLog(stream, history), k)
  }

  lemma MetricsOnceIff(cams: Cameras, stream: seq<Parsed>, history: seq<Done>)
    ensures var log, once := Log(stream, history), FirstLog(stream, history);
      ApplyAll(cams, NoRows, log).metrics == ApplyAll(cams, NoRows, once).metrics <==> LastWritesAgree(cams, stream, history)
  {
    var log, once := Log(stream, history), FirstLog(stream, history);
    var t, u := ApplyAll(cams, NoRows, log), ApplyAll(cams, NoRows, once);
    forall k: MetricKey
      ensures k in t.metrics <==> k in u.metrics
      ensures LastWrite(cams, log, k).Some? <==> k in t.metrics
      ensures LastWrite(cams, once, k).Some? <==> k in u.metrics
      ensures k in t.metrics ==>
        (t.metrics[k] == u.metrics[k] <==> LastWrite(cams, log, k) == LastWrite(cams, once, k))
    {
      LastMetricWins(cams, NoRows, log, k);
      LastMetricWins(cams, NoRows, once, k);
      FirstUseWins(cams, NoRows, log, k);
      FirstUseWins(cams, NoRows, once, k);
      SameFirstUse(cams, stream, history, k);
    }
    hide ApplyAll;
    hide LastWrite;
  }

  // ---- every run --------------------------------------------------------------------------------------------

  /**
   * In every run in which sessions are opened before they are closed, redeliveries leave no trace in events, intervals
   * and evidence; and none in any row if and only if each key's last commit wrote the value of its last first commit.
   */
  lemma RedeliveriesLeaveNoTraceIff(cams: Cameras, steps: seq<Step>)
    requires OpensFirst(cams, FirstLog(Run(cams, steps).stream, Run(cams, steps).history))
    ensures var s := Run(cams, steps);
      var once := ApplyAll(cams, NoRows, FirstLog(s.stream, s.history));
      && SameRows(s.tables, once)
      && (s.tables == once <==> LastWritesAgree(cams, s.stream, s.history))
  {
    var s := Run(cams, steps);
    RunKeepsRows(cams, steps);
    hide Run;
    RowsOnce(cams, s.stream, s.history);
    MetricsOnceIff(cams, s.stream, s.history);
    hide ApplyAll;
    hide LastWritesAgree;
  }

  // ---- when the last write of a key is that of its newest entry ---------------------------------------------

  /** After the last commit of `y`, `x` was not committed. */
  predicate NoneAfter(history: seq<Done>, x: nat, y: nat) {
    history != [] &&
      var front, last := history[..|history| - 1], history[|history| - 1];
      last == Wrote(y) || (last != Wrote(x) && NoneAfter(front, x, y))
  }

  /** With an entry, everything that has to come before it is acknowledged, and is not committed again after it. */
  ghost predicate Repeats(s: State) {
    && (forall x: nat, y: nat | Before(s.stream, x, y) && y in s.acked :: x in s.acked)
    && (forall x: nat, y: nat | Before(s.stream, x, y) && y in s.acked && Buried(y) !in s.history :: NoneAfter(s.history, x, y))
  }

  lemma NoneAfterStep(history: seq<Done>, done: Done, x: nat, y: nat)
    ensures NoneAfter(history + [done], x, y) <==> done == Wrote(y) || (done != Wrote(x) && NoneAfter(history, x, y))
  {
    assert (history + [done])[..|history|] == history;
  }

  /** Another commit or burial of an entry that is not acknowledged. */
  lemma AppendKeepsRepeats(s: State, t: State, done: Done)
    requires Repeats(s) && t.stream == s.stream && t.acked == s.acked && t.history == s.history + [done]
    requires done.Wrote? ==> done.id !in s.acked
    ensures Repeats(t)
  {
    hide NoneAfter;
    forall x: nat, y: nat | Before(t.stream, x, y) && y in t.acked && Buried(y) !in t.history
      ensures NoneAfter(t.history, x, y)
    {
      assert Buried(y) !in s.history;
      NoneAfterStep(s.history, done, x, y);
    }
    hide Before;
  }

  lemma {:induction false} WriteAllKeepsRepeats(cams: Cameras, s: State, ids: seq<nat>)
    requires Repeats(s) && InStream(s, ids) && (forall k | 0 <= k < |ids| :: ids[k] !in s.acked)
    ensures Repeats(WriteAll(cams, s, ids))
  {
    if ids != [] {
      var front, last := ids[..|ids| - 1], ids[|ids| - 1];
      WriteAllKeepsRepeats(cams, s, front);
      WriteAllKeepsStream(cams, s, front);
      hide Repeats;
      AppendKeepsRepeats(WriteAll(cams, s, front), WriteAll(cams, s, ids), Wrote(last));
    }
  }

  /** Entries written in order: nothing older, and nothing acknowledged, is written after one of them. */
  lemma {:induction false} WrittenInOrder(cams: Cameras, s: State, ids: seq<nat>, x: nat, y: nat)
    requires InStream(s, ids) && (forall i, j | 0 <= i < j < |ids| :: ids[i] < ids[j])
    requires x < y && y in ids
    ensures NoneAfter(WriteAll(cams, s, ids).history, x, y)
  {
    var front, last := ids[..|ids| - 1], ids[|ids| - 1];
    NoneAfterStep(WriteAll(cams, s, front).history, Wrote(last), x, y);
    if last != y {
      assert y in front;
      WrittenInOrder(cams, s, front, x, y);
    }
    hide NoneAfter;
  }

  /** The entries of `ids` may be acknowledged: what has to come before them is, or is among them. */
  ghost predicate Ackable(s: State, ids: seq<nat>) {
    && (forall x: nat, y: nat | Before(s.stream, x, y) && y in ids :: x in s.acked || x in ids)
    && (forall x: nat, y: nat | Before(s.stream, x, y) && y in ids && Buried(y) !in s.history :: NoneAfter(s.history, x, y))
  }

  lemma AckedKeepsRepeats(s: State, ids: seq<nat>, ack: AckOutcome)
    requires Repeats(s) && Ackable(s, ids)
    ensures Repeats(Acked(s, ids, ack))
  {
    hide NoneAfter;
    hide Before;
  }

  lemma CommittedKeepsRepeats(cams: Cameras, s: State, ids: seq<nat>, ack: AckOutcome)
    requires Repeats(s) && InStream(s, ids) && (forall i, j | 0 <= i < j < |ids| :: ids[i] < ids[j])
    requires forall k | 0 <= k < |ids| :: ids[k] !in s.acked
    requires forall x: nat, y: nat | Before(s.stream, x, y) && y in ids :: x in s.acked || x in ids
    ensures Repeats(Committed(cams, s, ids, ack))
  {
    WriteAllKeepsRepeats(cams, s, ids);
    WriteAllKeepsStream(cams, s, ids);
    var w := WriteAll(cams, s, ids);
    forall x: nat, y: nat | Before(s.stream, x, y) && y in ids
      ensures NoneAfter(w.history, x, y)
    {
      WrittenInOrder(cams, s, ids, x, y);
    }
    hide NoneAfter;
    hide Before;
    hide WriteAll;
    var u := if ack.Crashed? then w.(said := s.said, unsaid := true) else w;
    assert Repeats(u) && Ackable(u, ids);
    hide Repeats;
    hide Ackable;
    AckedKeepsRepeats(u, ids, ack);
  }

  lemma FailedKeepsRepeats(cams: Cameras, s: State, ids: seq<nat>, f: Faults)
    requires Repeats(s) && InStream(s, ids) && (forall k | 0 <= k < |ids| :: ids[k] !in s.acked)
    ensures Repeats(Failed(cams, s, ids, f))
  {
    WriteAllKeepsRepeats(cams, s, ids);
    hide WriteAll;
    hide NoneAfter;
    hide Before;
  }

  lemma FailureKeepsRepeats(l: Loop, id: nat, camera: Option<int>, f: Faults)
    requires Repeats(l.state) && (forall x: nat | Before(l.state.stream, x, id) :: x in l.state.acked)
    ensures Repeats(CountFailure(l, id, camera, f).state)
  {
    var c := Counted(l.state, id);
    var b := Bury(c, id);
    assert Repeats(c) by {
      hide NoneAfter;
      hide Before;
    }
    assert b.history == c.history + [Buried(id)];
    AppendKeepsRepeats(c, b, Buried(id));
    assert Buried(id) in b.history;
    assert Ackable(b, [id]) by {
      hide NoneAfter;
      hide Before;
    }
    hide Repeats;
    hide Ackable;
    AckedKeepsRepeats(b, [id], f.buryAck);
    hide Acked;
  }

  lemma TurnKeepsRepeats(cams: Cameras, l: Loop, ids: seq<nat>, id: nat, f: Faults)
    requires Repeats(l.state) && LoopOk(l, ids) && id < |l.state.stream| && id !in l.state.acked
    requires forall x: nat | x < id :: x in l.state.acked || x in ids
    ensures Repeats(Turn(cams, l, id, f).state)
  {
    var camera := Source(l.state.stream[id]);
    if !l.thrown && !Waits(l.held, camera) {
      forall x: nat | Before(l.state.stream, x, id)
        ensures x in l.state.acked
      {
        AttemptedInOrder(l, ids, id, x);
      }
      hide Before;
      hide Repeats;
      hide LoopOk;
      hide Waits;
      CommittedKeepsRepeats(cams, l.state, [id], f.ack);
      FailedKeepsRepeats(cams, l.state, [id], f);
      FailedKeepsStream(cams, l.state, [id], f);
      hide Failed;
      FailureKeepsRepeats(l.(state := Failed(cams, l.state, [id], f)), id, camera, f);
      hide Committed;
      hide CountFailure;
    }
  }

  lemma {:induction false} OneByOneAcksOnly(cams: Cameras, s: State, ids: seq<nat>, each: nat -> Faults)
    requires InStream(s, ids)
    ensures forall x: nat | x in OneByOne(cams, s, ids, each).state.acked :: x in s.acked || x in ids
  {
    if ids != [] {
      var front, last := ids[..|ids| - 1], ids[|ids| - 1];
      OneByOneAcksOnly(cams, s, front, each);
      assert ids == front + [last];
      TurnAcksOnly(cams, OneByOne(cams, s, front, each), last, each(last));
      hide Turn;
    }
  }

  lemma LastNotInFront(ids: seq<nat>)
    requires ids != [] && forall i, j | 0 <= i < j < |ids| :: ids[i] < ids[j]
    ensures ids[|ids| - 1] !in ids[..|ids| - 1]
  {
  }

  lemma {:induction false} OneByOneKeepsRepeats(cams: Cameras, s: State, ids: seq<nat>, each: nat -> Faults)
    requires s.delivered <= |s.stream| && OrderInv(s) && OldestFirst(s, ids) && Repeats(s)
    requires forall k | 0 <= k < |ids| :: ids[k] < s.delivered && ids[k] !in s.acked
    ensures Repeats(OneByOne(cams, s, ids, each).state)
  {
    if ids != [] {
      var front, last := ids[..|ids| - 1], ids[|ids| - 1];
      FrontIsOldestFirst(s, ids);
      LastNotInFront(ids);
      hide OldestFirst;
      hide Turn;
      hide LoopOk;
      hide Repeats;
      hide OrderInv;
      OneByOneKeepsRepeats(cams, s, front, each);
      OneByOneKeepsOrder(cams, s, front, each);
      OneByOneKeepsStream(cams, s, front, each);
      OneByOneAcksOnly(cams, s, front, each);
      var l := OneByOne(cams, s, front, each);
      assert l.state.stream == s.stream && last < |s.stream|;
      assert last !in l.state.acked;
      assert forall x: nat | x < last :: x in l.state.acked || x in front;
      TurnKeepsRepeats(cams, l, front, last, each(last));
    }
  }

  lemma ProcessedKeepsRepeats(cams: Cameras, s: State, ids: seq<nat>, batch: Faults, each: nat -> Faults)
    requires s.delivered <= |s.stream| && OrderInv(s) && OldestFirst(s, ids) && Repeats(s)
    requires forall k | 0 <= k < |ids| :: ids[k] < s.delivered && ids[k] !in s.acked
    ensures Repeats(Processed(cams, s, ids, batch, each))
  {
    OldestAreAckable(s, ids);
    hide OrderInv;
    hide Repeats;
    hide Before;
    CommittedKeepsRepeats(cams, s, ids, batch.ack);
    FailedKeepsOrder(cams, s, ids, batch);
    FailedKeepsStream(cams, s, ids, batch);
    FailedKeepsRepeats(cams, s, ids, batch);
    hide Failed;
    OneByOneKeepsRepeats(cams, Failed(cams, s, ids, batch), ids, each);
    hide OldestFirst;
    hide Committed;
    hide OneByOne;
  }

  lemma OldestAreAckable(s: State, ids: seq<nat>)
    requires OldestFirst(s, ids)
    ensures forall x: nat, y: nat | Before(s.stream, x, y) && y in ids :: x in s.acked || x in ids
  {
    forall x: nat, y: nat | Before(s.stream, x, y) && y in ids
      ensures x in s.acked || x in ids
    {
      var k :| 0 <= k < |ids| && ids[k] == y;
      assert x in s.acked || x in ids[..k];
    }
  }

  lemma DeliveredKeepsRepeats(s: State)
    requires Repeats(s) && s.delivered <= |s.stream|
    ensures Repeats(Delivered(s))
  {
    hide NoneAfter;
    hide Before;
  }

  lemma PassKeepsRepeats(cams: Cameras, s: State, batch: Faults, each: nat -> Faults)
    requires Base(s) && Repeats(s)
    ensures Repeats(Passed(cams, s, batch, each))
  {
    var d := Delivered(s);
    var ids := ReadIds(d);
    DeliveredPending(s);
    DeliveredKeepsOrder(s);
    PendingIsOldestFirst(d);
    PendingInStream(d.acked, d.delivered);
    PendingIs(d.acked, d.delivered);
    assert forall k | 0 <= k < |ids| :: ids[k] in ids;
    DeliveredKeepsRepeats(s);
    hide OrderInv;
    hide OldestFirst;
    hide Repeats;
    ProcessedKeepsRepeats(cams, d, ids, batch, each);
    hide Processed;
    hide Delivered;
  }

  lemma ProduceKeepsRepeats(s: State, p: Parsed)
    requires Base(s) && Repeats(s)
    ensures Repeats(s.(stream := s.stream + [p]))
  {
    var t := s.(stream := s.stream + [p]);
    forall y: nat | y in s.acked
      ensures y < |s.stream|
    {
      assert Handled(s.history, y);
    }
    assert forall x: nat, y: nat | y in s.acked :: Before(t.stream, x, y) == Before(s.stream, x, y);
    hide NoneAfter;
    hide Before;
  }

  lemma {:induction false} RunKeepsRepeats(cams: Cameras, steps: seq<Step>)
    ensures Repeats(Run(cams, steps))
  {
    if steps != [] {
      var s, step := Run(cams, steps[..|steps| - 1]), steps[|steps| - 1];
      RunKeepsRepeats(cams, steps[..|steps| - 1]);
      RunKeepsBase(cams, steps[..|steps| - 1]);
      hide Base;
      hide Repeats;
      if step.Pass? {
        PassKeepsRepeats(cams, s, step.batch, step.each);
      } else {
        ProduceKeepsRepeats(s, step.entry);
      }
      hide Passed;
    }
  }

  // ---- positions in the history -----------------------------------------------------------------------------

  /** The n-th thing done is a commit that writes the key. */
  predicate WritesAt(cams: Cameras, stream: seq<Parsed>, history: seq<Done>, n: nat, k: MetricKey)
    requires n < |history|
  {
    MessageOf(stream, history[n]) != [] && Writes(cams, MessageOf(stream, history[n])[0], k)
  }

  lemma LastWriteStep(cams: Cameras, ms: seq<Message>, more: seq<Message>, k: MetricKey)
    requires |more| <= 1
    ensures LastWrite(cams, ms + more, k) ==
      if more != [] && Writes(cams, more[0], k) then Some(more[0].value) else LastWrite(cams, ms, k)
  {
    if more == [] {
      assert ms + more == ms;
    } else {
      assert (ms + more)[..|ms|] == ms;
    }
  }

  lemma {:induction false} LastWriteAt(cams: Cameras, stream: seq<Parsed>, history: seq<Done>, k: MetricKey) returns (n: nat)
    requires LastWrite(cams, Log(stream, history), k).Some?
    ensures n < |history| && WritesAt(cams, stream, history, n, k)
    ensures LastWrite(cams, Log(stream, history), k).value == MessageOf(stream, history[n])[0].value
    ensures forall m: nat | n < m < |history| :: !WritesAt(cams, stream, history, m, k)
  {
    assert history != [];
    var front, last := history[..|history| - 1], history[|history| - 1];
    LastWriteStep(cams, Log(stream, front), MessageOf(stream, last), k);
    if WritesAt(cams, stream, history, |history| - 1, k) {
      n := |history| - 1;
    } else {
      hide LastWrite;
      n := LastWriteAt(cams, stream, front, k);
      forall m: nat | n < m < |history|
        ensures !WritesAt(cams, stream, history, m, k)
      {
        if m < |front| {
          assert !WritesAt(cams, stream, front, m, k);
        }
      }
    }
  }

  /** The n-th thing done is the last first commit that writes the key. */
  ghost predicate IsLastFirst(cams: Cameras, stream: seq<Parsed>, history: seq<Done>, n: nat, k: MetricKey) {
    && n < |history| && WritesAt(cams, stream, history, n, k) && history[n] !in history[..n]
    && (forall m: nat | n < m < |history| && WritesAt(cams, stream, history, m, k) :: history[m] in history[..m])
  }

  /** One more that is no first commit of the key. */
  lemma StaysLastFirst(cams: Cameras, stream: seq<Parsed>, history: seq<Done>, n: nat, k: MetricKey)
    requires history != [] && IsLastFirst(cams, stream, history[..|history| - 1], n, k)
    requires WritesAt(cams, stream, history, |history| - 1, k) ==> history[|history| - 1] in history[..|history| - 1]
    ensures IsLastFirst(cams, stream, history, n, k)
  {
    var front := history[..|history| - 1];
    assert front[..n] == history[..n];
    forall m: nat | n < m < |history| && WritesAt(cams, stream, history, m, k)
      ensures history[m] in history[..m]
    {
      if m < |front| {
        assert WritesAt(cams, stream, front, m, k);
        assert front[..m] == history[..m];
      }
    }
  }

  lemma {:induction false} LastFirstAt(cams: Cameras, stream: seq<Parsed>, history: seq<Done>, k: MetricKey) returns (n: nat)
    requires LastWrite(cams, FirstLog(stream, history), k).Some?
    ensures IsLastFirst(cams, stream, history, n, k)
    ensures LastWrite(cams, FirstLog(stream, history), k).value == MessageOf(stream, history[n])[0].value
  {
    assert history != [];
    var front, last := history[..|history| - 1], history[|history| - 1];
    LastWriteStep(cams, FirstLog(stream, front), MessageOf(stream, last), k);
    if WritesAt(cams, stream, history, |history| - 1, k) && last !in front {
      n := |history| - 1;
    } else {
      if last in front {
        assert FirstLog(stream, history) == FirstLog(stream, front);
      }
      hide LastWrite;
      hide IsLastFirst;
      n := LastFirstAt(cams, stream, front, k);
      StaysLastFirst(cams, stream, history, n, k);
      assert n < |front| by {
        IsLastFirstBound(cams, stream, front, n, k);
      }
    }
  }

  lemma IsLastFirstBound(cams: Cameras, stream: seq<Parsed>, history: seq<Done>, n: nat, k: MetricKey)
    requires IsLastFirst(cams, stream, history, n, k)
    ensures n < |history| && MessageOf(stream, history[n]) != []
  {
  }

  lemma {:induction false} FirstAt(history: seq<Done>, done: Done) returns (q: nat)
    requires done in history
    ensures q < |history| && history[q] == done && done !in history[..q]
  {
    var front := history[..|history| - 1];
    if done in front {
      q := FirstAt(front, done);
      assert front[..q] == history[..q];
    } else {
      q := |front|;
    }
  }

  /** A commit of `x` is followed by one of `y`. */
  lemma {:induction false} CommittedLater(history: seq<Done>, x: nat, y: nat, n: nat) returns (p: nat)
    requires NoneAfter(history, x, y) && x != y && n < |history| && history[n] == Wrote(x)
    ensures n < p < |history| && history[p] == Wrote(y)
  {
    if history[|history| - 1] == Wrote(y) {
      p := |history| - 1;
    } else {
      p := CommittedLater(history[..|history| - 1], x, y, n);
    }
  }

  // ---- when redeliveries leave no trace ---------------------------------------------------------------------

  /** Whatever was committed is acknowledged and was not dead-lettered as well. */
  ghost predicate Settled(s: State) {
    forall id: nat | Wrote(id) in s.history :: id in s.acked && Buried(id) !in s.history
  }

  /** Before an entry is committed, whatever has to come before it, if committed at all, is. */
  lemma CommittedBefore(s: State, x: nat, y: nat, n: nat) returns (r: nat)
    requires OrderInv(s) && Settled(s) && Before(s.stream, x, y) && Wrote(x) in s.history
    requires n < |s.history| && s.history[n] == Wrote(y)
    ensures r < n && s.history[r] == Wrote(x)
  {
    assert OrderOk(s.stream, s.history[..n], s.history[n]);
    assert Handled(s.history[..n], x);
    r :| 0 <= r < n && s.history[..n][r].id == x;
    assert s.history[r] in s.history;
    assert s.history[r] == Wrote(x) || s.history[r] == Buried(x);
  }

  lemma SameCamera(cams: Cameras, stream: seq<Parsed>, history: seq<Done>, n: nat, m: nat, k: MetricKey)
    requires n < |history| && m < |history|
    requires WritesAt(cams, stream, history, n, k) && WritesAt(cams, stream, history, m, k)
    ensures history[n].Wrote? && history[m].Wrote?
    ensures history[n].id < history[m].id ==> Before(stream, history[n].id, history[m].id)
  {
  }

  /** Of two entries that write a key, the newer one is committed last. */
  lemma NewestIsLast(cams: Cameras, s: State, n: nat, m: nat, k: MetricKey)
    requires Repeats(s) && Settled(s) && n < |s.history| && m < |s.history|
    requires WritesAt(cams, s.stream, s.history, n, k) && WritesAt(cams, s.stream, s.history, m, k)
    requires s.history[n].id < s.history[m].id
    ensures exists p: nat :: n < p < |s.history| && WritesAt(cams, s.stream, s.history, p, k)
  {
    SameCamera(cams, s.stream, s.history, n, m, k);
    var x, y := s.history[n].id, s.history[m].id;
    assert Wrote(y) in s.history;
    assert NoneAfter(s.history, x, y);
    var p := CommittedLater(s.history, x, y, n);
    assert s.history[p] == s.history[m];
    assert WritesAt(cams, s.stream, s.history, p, k);
  }

  /** Of two entries that write a key, the newer one is first committed last. */
  lemma NewestIsFirstLast(cams: Cameras, s: State, n: nat, m: nat, k: MetricKey)
    requires OrderInv(s) && Settled(s) && n < |s.history| && m < |s.history|
    requires WritesAt(cams, s.stream, s.history, n, k) && WritesAt(cams, s.stream, s.history, m, k)
    requires s.history[n] !in s.history[..n] && s.history[n].id < s.history[m].id
    ensures exists q: nat :: n < q < |s.history| && WritesAt(cams, s.stream, s.history, q, k) && s.history[q] !in s.history[..q]
  {
    SameCamera(cams, s.stream, s.history, n, m, k);
    var x, y := s.history[n].id, s.history[m].id;
    var q := FirstAt(s.history, s.history[m]);
    assert s.history[n] in s.history;
    var r := CommittedBefore(s, x, y, q);
    assert n <= r;
    assert WritesAt(cams, s.stream, s.history, q, k);
  }

  lemma SomeLastWrite(cams: Cameras, s: State, k: MetricKey)
    ensures LastWrite(cams, Log(s.stream, s.history), k).Some? <==> LastWrite(cams, FirstLog(s.stream, s.history), k).Some?
  {
    SameFirstUse(cams, s.stream, s.history, k);
    LastMetricWins(cams, NoRows, Log(s.stream, s.history), k);
    LastMetricWins(cams, NoRows, FirstLog(s.stream, s.history), k);
    FirstUseWins(cams, NoRows, Log(s.stream, s.history), k);
    FirstUseWins(cams, NoRows, FirstLog(s.stream, s.history), k);
    hide ApplyAll;
    hide LastWrite;
    hide FirstUse;
  }

  lemma SettledAgrees(cams: Cameras, s: State, k: MetricKey)
    requires Repeats(s) && OrderInv(s) && Settled(s)
    ensures LastWrite(cams, Log(s.stream, s.history), k) == LastWrite(cams, FirstLog(s.stream, s.history), k)
  {
    SomeLastWrite(cams, s, k);
    if LastWrite(cams, Log(s.stream, s.history), k).Some? {
      var n := LastWriteAt(cams, s.stream, s.history, k);
      var m := LastFirstAt(cams, s.stream, s.history, k);
      SameCamera(cams, s.stream, s.history, n, m, k);
      hide *;
      if s.history[n].id < s.history[m].id {
        NewestIsLast(cams, s, n, m, k);
        assert false;
      } else if s.history[m].id < s.history[n].id {
        NewestIsFirstLast(cams, s, m, n, k);
        assert false;
      } else {
        assert s.history[n] == s.history[m];
      }
    }
  }

  predicate OpensFor(cams: Cameras, p: Parsed, q: Parsed) {
    && p.Valid? && q.Valid? && q.message.Close? && Known(cams, q.message)
    && Opens(cams, p.message, q.message.session)
  }

  /** Every open of a session comes before every close of it, and from the same camera. */
  ghost predicate StreamOpensFirst(cams: Cameras, stream: seq<Parsed>) {
    forall x: nat, y: nat | x < |stream| && y < |stream| && OpensFor(cams, stream[x], stream[y]) :: Before(stream, x, y)
  }

  lemma {:induction false} FirstLogAt(stream: seq<Parsed>, history: seq<Done>, i: nat) returns (n: nat)
    requires i < |FirstLog(stream, history)|
    ensures n < |history| && MessageOf(stream, history[n]) == [FirstLog(stream, history)[i]]
    ensures FirstLog(stream, history[..n]) == FirstLog(stream, history)[..i]
  {
    var front := history[..|history| - 1];
    if i < |FirstLog(stream, front)| {
      n := FirstLogAt(stream, front, i);
      assert front[..n] == history[..n];
    } else {
      n := |front|;
    }
  }

  lemma OpensFirstOnce(cams: Cameras, s: State)
    requires StreamOpensFirst(cams, s.stream) && Settled(s) && OrderInv(s)
    ensures OpensFirst(cams, FirstLog(s.stream, s.history))
  {
    var ms := FirstLog(s.stream, s.history);
    forall i | 0 <= i < |ms| && ms[i].Close? && Known(cams, ms[i]) && OpenedBy(cams, ms, |ms|, ms[i].session)
      ensures OpenedBy(cams, ms, i, ms[i].session)
    {
      var j :| 0 <= j < |ms| && Opens(cams, ms[j], ms[i].session);
      var n := FirstLogAt(s.stream, s.history, i);
      var m := FirstLogAt(s.stream, s.history, j);
      OpenComesFirst(cams, s, n, m);
      var h := FirstLogHas(s.stream, s.history[..n], s.history[m]);
      assert Opens(cams, ms[h], ms[i].session);
    }
  }

  /** The open that a close belongs to was committed before the close. */
  lemma OpenComesFirst(cams: Cameras, s: State, n: nat, m: nat)
    requires StreamOpensFirst(cams, s.stream) && Settled(s) && OrderInv(s) && n < |s.history| && m < |s.history|
    requires MessageOf(s.stream, s.history[n]) != [] && MessageOf(s.stream, s.history[m]) != []
    requires OpensFor(cams, s.stream[s.history[m].id], s.stream[s.history[n].id])
    ensures s.history[m] in s.history[..n]
  {
    var x, y := s.history[m].id, s.history[n].id;
    assert Before(s.stream, x, y);
    assert s.history[m] in s.history;
    var r := CommittedBefore(s, x, y, n);
    assert s.history[..n][r] == s.history[m];
  }

  /**
   * What a caller can check: if sessions are opened before they are closed and everything committed is acknowledged and
   * none of it dead-lettered, the rows are those of a run in which every entry took effect once.
   */
  lemma SettledRowsAreOnce(cams: Cameras, steps: seq<Step>)
    requires StreamOpensFirst(cams, Run(cams, steps).stream) && Settled(Run(cams, steps))
    ensures var s := Run(cams, steps);
      s.tables == ApplyAll(cams, NoRows, FirstLog(s.stream, s.history))
  {
    var s := Run(cams, steps);
    RunKeepsBase(cams, steps);
    RunKeepsRepeats(cams, steps);
    OpensFirstOnce(cams, s);
    RedeliveriesLeaveNoTraceIff(cams, steps);
    hide Run;
    forall k: MetricKey
      ensures LastWrite(cams, Log(s.stream, s.history), k) == LastWrite(cams, FirstLog(s.stream, s.history), k)
    {
      SettledAgrees(cams, s, k);
    }
    hide LastWrite;
    hide ApplyAll;
  }

  // ---- a run in which a redelivery does leave a trace -------------------------------------------------------

  const OneCamera: Cameras := map[1 := Camera(false, 0, 0)]

  function Value(value: real): Message {
    Metric(1, Named(0), 0, 0, value)
  }

  const Key := MetricKey(1, 0, 0)

  function Pair(older: real, newer: real): seq<Parsed> {
    [Valid(Value(older)), Valid(Value(newer))]
  }

  /** The first transaction commits and its XACK fails. */
  const Unacked := Faults(Commits, false, AckLost, true, true, AckOk)
  const Faulty := Faults(EntryFault, false, AckOk, true, true, AckOk)
  const Sound := Faults(Commits, false, AckOk, true, true, AckOk)

  /** Later the batch fails, and of its entries only the newer one. */
  function NewerFails(id: nat): Faults {
    if id == 1 then Faulty else Sound
  }

  const FirstPass := Pass(Unacked, NewerFails)
  const AgainPass := Pass(Faulty, NewerFails)

  function Holding(value: real): Tables {
    NoRows.(metrics := map[Key := MetricRow(Named(0), value)])
  }

  /** Both entries written once; then the older one again, and `attempts` at the newer one. */
  function BothWritten(older: real, newer: real): State {
    State(Pair(older, newer), 2, {}, map[], Holding(newer), [], [Wrote(0), Wrote(1)], [], false)
  }

  function Stale(older: real, newer: real, attempts: nat): State {
    State(Pair(older, newer), 2, {0}, map[1 := attempts], Holding(older), [], [Wrote(0), Wrote(1), Wrote(0)], [], false)
  }

  function Forgotten(older: real, newer: real): State {
    State(Pair(older, newer), 2, {0, 1}, map[], Holding(older), [1], [Wrote(0), Wrote(1), Wrote(0), Buried(1)], [], false)
  }

  lemma WriteValue(s: State, id: nat, value: real)
    requires id < |s.stream| && s.stream[id] == Valid(Value(value)) && (s.tables == NoRows || exists v :: s.tables == Holding(v))
    ensures Write(OneCamera, s, id) == s.(tables := Holding(value), history := s.history + [Wrote(id)])
  {
    assert Apply(OneCamera, s.tables, Value(value)).metrics == Holding(value).metrics;
  }

  lemma WriteTwo(cams: Cameras, s: State, a: nat, b: nat)
    requires a < |s.stream| && b < |s.stream|
    ensures WriteAll(cams, s, [a, b]) == Write(cams, Write(cams, s, a), b)
  {
    hide Write;
    assert [a, b][..1] == [a];
    WriteOne(cams, s, a);
  }

  lemma PendingTwo(acked: set<nat>)
    ensures PendingBelow(acked, 0) == []
    ensures PendingBelow(acked, 2) == (if 0 in acked then [] else [0]) + if 1 in acked then [] else [1]
  {
    assert PendingBelow(acked, 1) == if 0 in acked then [] else [0];
  }

  lemma RunStep(cams: Cameras, steps: seq<Step>, step: Step)
    ensures Run(cams, steps + [step]) == Next(cams, Run(cams, steps), step)
  {
    hide Next;
    assert (steps + [step])[..|steps|] == steps;
  }

  lemma ProducedTwo(p: Parsed, q: Parsed)
    ensures Run(OneCamera, [Produce(p), Produce(q)]) == Fresh.(stream := [p, q])
  {
    assert [Produce(p), Produce(q)] == [Produce(p)] + [Produce(q)];
    assert [Produce(p)] == [] + [Produce(p)];
    RunStep(OneCamera, [], Produce(p));
    RunStep(OneCamera, [Produce(p)], Produce(q));
    assert Run(OneCamera, []) == Fresh;
    hide Run;
  }

  lemma FirstPassWrites(older: real, newer: real)
    ensures Passed(OneCamera, Fresh.(stream := Pair(older, newer)), Unacked, NewerFails) == BothWritten(older, newer)
  {
    var s := Fresh.(stream := Pair(older, newer));
    PendingTwo({});
    var d := Delivered(s);
    assert d == s.(delivered := 2) && ReadIds(d) == [0, 1];
    WriteTwo(OneCamera, d, 0, 1);
    WriteValue(d, 0, older);
    WriteValue(Write(OneCamera, d, 0), 1, newer);
    hide Write;
    hide WriteAll;
    hide OneByOne;
  }

  lemma BothAreWritten(older: real, newer: real)
    ensures Run(OneCamera, [Produce(Valid(Value(older))), Produce(Valid(Value(newer))), FirstPass]) == BothWritten(older, newer)
  {
    ProducedTwo(Valid(Value(older)), Valid(Value(newer)));
    var two := [Produce(Valid(Value(older))), Produce(Valid(Value(newer)))];
    assert two + [FirstPass] == [Produce(Valid(Value(older))), Produce(Valid(Value(newer))), FirstPass];
    RunStep(OneCamera, two, FirstPass);
    hide Run;
    FirstPassWrites(older, newer);
    hide Passed;
  }

  lemma LoopTwo(s: State, a: nat, b: nat)
    requires a < |s.stream| && b < |s.stream|
    ensures OneByOne(OneCamera, s, [a, b], NewerFails) ==
      Turn(OneCamera, Turn(OneCamera, Loop(s, {}, false), a, NewerFails(a)), b, NewerFails(b))
  {
    hide Turn;
    assert [a, b][..1] == [a] && [a][..0] == [];
    LoopOne(s, a);
  }

  lemma LoopOne(s: State, a: nat)
    requires a < |s.stream|
    ensures OneByOne(OneCamera, s, [a], NewerFails) == Turn(OneCamera, Loop(s, {}, false), a, NewerFails(a))
  {
    hide Turn;
    assert [a][..0] == [];
    assert OneByOne(OneCamera, s, [], NewerFails) == Loop(s, {}, false);
  }

  /** The older entry is applied again and acknowledged. */
  lemma OlderAgain(older: real, newer: real)
    ensures Turn(OneCamera, Loop(BothWritten(older, newer), {}, false), 0, Sound) ==
      Loop(Stale(older, newer, 0).(failures := map[]), {}, false)
  {
    var s := BothWritten(older, newer);
    WriteOne(OneCamera, s, 0);
    WriteValue(s, 0, older);
    hide Write;
    hide WriteAll;
    assert s.acked + Ids([0]) == {0};
    assert s.failures - Ids([0]) == map[];
    assert s.history + [Wrote(0)] == [Wrote(0), Wrote(1), Wrote(0)];
  }

  lemma AgainAfterBoth(older: real, newer: real)
    ensures Passed(OneCamera, BothWritten(older, newer), Faulty, NewerFails) == Stale(older, newer, 1)
  {
    var s := BothWritten(older, newer);
    PendingTwo({});
    assert Delivered(s) == s && ReadIds(s) == [0, 1];
    LoopTwo(s, 0, 1);
    OlderAgain(older, newer);
    hide OneByOne;
    hide Committed;
  }

  lemma AgainAfterStale(older: real, newer: real, attempts: nat)
    requires 1 <= attempts < MAX_ATTEMPTS
    ensures Passed(OneCamera, Stale(older, newer, attempts), Faulty, NewerFails) ==
      if attempts + 1 < MAX_ATTEMPTS then Stale(older, newer, attempts + 1) else Forgotten(older, newer)
  {
    var s := Stale(older, newer, attempts);
    PendingTwo({0});
    assert Delivered(s) == s && ReadIds(s) == [1];
    LoopOne(s, 1);
    hide OneByOne;
    hide Committed;
    if attempts + 1 == MAX_ATTEMPTS {
      var c := Counted(s, 1);
      assert c.acked + Ids([1]) == {0, 1};
      assert c.failures - Ids([1]) == map[];
      assert s.history + [Buried(1)] == [Wrote(0), Wrote(1), Wrote(0), Buried(1)];
    }
  }

  function Agains(n: nat): seq<Step> {
    if n == 0 then [] else Agains(n - 1) + [AgainPass]
  }

  function UntilAgain(older: real, newer: real): seq<Step> {
    [Produce(Valid(Value(older))), Produce(Valid(Value(newer))), FirstPass]
  }

  lemma {:induction false} StaleRuns(older: real, newer: real, n: nat)
    requires 1 <= n <= MAX_ATTEMPTS
    ensures Run(OneCamera, UntilAgain(older, newer) + Agains(n)) ==
      if n < MAX_ATTEMPTS then Stale(older, newer, n) else Forgotten(older, newer)
  {
    hide Run;
    hide Passed;
    hide Stale;
    hide Forgotten;
    hide BothWritten;
    var before := UntilAgain(older, newer) + Agains(n - 1);
    assert UntilAgain(older, newer) + Agains(n) == before + [AgainPass];
    RunStep(OneCamera, before, AgainPass);
    if n == 1 {
      assert before == UntilAgain(older, newer);
      BothAreWritten(older, newer);
      AgainAfterBoth(older, newer);
    } else {
      StaleRuns(older, newer, n - 1);
      AgainAfterStale(older, newer, n - 1);
    }
  }

  lemma OnceIsNewer(older: real, newer: real)
    ensures var s := Forgotten(older, newer);
      FirstLog(s.stream, s.history) == [Value(older), Value(newer)]
    ensures ApplyAll(OneCamera, NoRows, [Value(older), Value(newer)]) == Holding(newer)
  {
    var s := Forgotten(older, newer);
    var h := s.history;
    assert h[..3][..2][..1][..0] == [];
    assert h[..3][..2][..1] == [Wrote(0)] && h[..3][..2] == [Wrote(0), Wrote(1)] && h[..3] == [Wrote(0), Wrote(1), Wrote(0)];
    assert FirstLog(s.stream, h[..3][..2][..1]) == [Value(older)];
    assert FirstLog(s.stream, h[..3][..2]) == [Value(older), Value(newer)];
    assert FirstLog(s.stream, h[..3]) == [Value(older), Value(newer)];
    var ms := [Value(older), Value(newer)];
    assert ms[..1] == [Value(older)] && ms[..1][..0] == [];
    assert ApplyAll(OneCamera, NoRows, ms[..1]).metrics == Holding(older).metrics;
    assert ApplyAll(OneCamera, NoRows, ms).metrics == Holding(newer).metrics;
  }

  /**
   * A run in which a redelivery changes a row for good: two values of one metric are committed and not acknowledged,
   * then the older one is applied again while the newer one fails until it is dead-lettered. Nothing is pending any
   * more, and the row holds the older value.
   */
  lemma RedeliveryLeavesATrace(older: real, newer: real)
    requires older != newer
    ensures var s := Run(OneCamera, UntilAgain(older, newer) + Agains(MAX_ATTEMPTS));
      && Pending(s) == [] && !s.unsaid && s.tables == Holding(older)
      && ApplyAll(OneCamera, NoRows, FirstLog(s.stream, s.history)) == Holding(newer) != s.tables
  {
    StaleRuns(older, newer, MAX_ATTEMPTS);
    OnceIsNewer(older, newer);
    PendingTwo({0, 1});
    assert Holding(older).metrics[Key].value != Holding(newer).metrics[Key].value;
    hide Run;
    hide FirstLog;
    hide ApplyAll;
  }
}
