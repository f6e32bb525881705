/**
 * Order and accounting over whole runs of the consumer, whatever fails: entries of one camera are first applied in
 * stream order, nothing is acknowledged unhandled, and the rows are those of the log of committed entries.
 */
module IngestOrder {
  import opened IngestConsumer
  import opened IngestTables
  import opened Options
  import opened Seqs

  function Run(cams: Cameras, steps: seq<Step>): (s: State)
    ensures s.delivered <= |s.stream|
  {
    if steps == [] then Fresh
    else
      var before := Run(cams, steps[..|steps| - 1]);
      NextStaysInStream(cams, before, steps[|steps| - 1]);
      Next(cams, before, steps[|steps| - 1])
  }

  lemma NextStaysInStream(cams: Cameras, s: State, step: Step)
    requires s.delivered <= |s.stream|
    ensures var t := Next(cams, s, step);
      s.delivered <= t.delivered <= |t.stream| && s.stream <= t.stream
  {
    if step.Pass? {
      PassKeepsStream(cams, s, step.batch, step.each);
      hide Passed;
    }
  }

  // ---- what a pass leaves alone --------------------------------------------------------------------------

  predicate SameStream(s: State, t: State) {
    t.stream == s.stream && t.delivered == s.delivered && s.acked <= t.acked && s.history <= t.history
  }

  lemma {:induction false} WriteAllKeepsStream(cams: Cameras, s: State, ids: seq<nat>)
    requires InStream(s, ids)
    ensures var t := WriteAll(cams, s, ids);
      SameStream(s, t) && t.acked == s.acked && t.failures == s.failures
  {
    if ids != [] {
      WriteAllKeepsStream(cams, s, ids[..|ids| - 1]);
    }
  }

  lemma CommittedKeepsStream(cams: Cameras, s: State, ids: seq<nat>, ack: AckOutcome)
    requires InStream(s, ids)
    ensures SameStream(s, Committed(cams, s, ids, ack))
    ensures Committed(cams, s, ids, ack).history == WriteAll(cams, s, ids).history
    ensures ack.AckOk? || ack.HdelLost? ==> Committed(cams, s, ids, ack).acked == s.acked + Ids(ids)
    ensures !(ack.AckOk? || ack.HdelLost?) ==> Committed(cams, s, ids, ack).acked == s.acked
  {
    WriteAllKeepsStream(cams, s, ids);
    hide WriteAll;
  }

  lemma FailedKeepsStream(cams: Cameras, s: State, ids: seq<nat>, f: Faults)
    requires InStream(s, ids)
    ensures var t := Failed(cams, s, ids, f);
      SameStream(s, t) && t.acked == s.acked && t.failures == s.failures
  {
    WriteAllKeepsStream(cams, s, ids);
    hide WriteAll;
  }

  lemma TurnKeepsStream(cams: Cameras, l: Loop, id: nat, f: Faults)
    requires id < |l.state.stream|
    ensures SameStream(l.state, Turn(cams, l, id, f).state)
  {
    CommittedKeepsStream(cams, l.state, [id], f.ack);
    FailedKeepsStream(cams, l.state, [id], f);
    hide Committed;
    hide Failed;
  }

  lemma TurnAcksOnly(cams: Cameras, l: Loop, id: nat, f: Faults)
    requires id < |l.state.stream|
    ensures Turn(cams, l, id, f).state.acked <= l.state.acked + {id}
  {
    CommittedKeepsStream(cams, l.state, [id], f.ack);
    FailedKeepsStream(cams, l.state, [id], f);
    hide Committed;
    hide Failed;
  }

  lemma {:induction false} OneByOneKeepsStream(cams: Cameras, s: State, ids: seq<nat>, each: nat -> Faults)
    requires InStream(s, ids)
    ensures SameStream(s, OneByOne(cams, s, ids, each).state)
  {
    if ids != [] {
      var front, last := ids[..|ids| - 1], ids[|ids| - 1];
      OneByOneKeepsStream(cams, s, front, each);
      TurnKeepsStream(cams, OneByOne(cams, s, front, each), last, each(last));
      hide Turn;
    }
  }

  lemma ProcessedKeepsStream(cams: Cameras, s: State, ids: seq<nat>, batch: Faults, each: nat -> Faults)
    requires InStream(s, ids)
    ensures SameStream(s, Processed(cams, s, ids, batch, each))
  {
    CommittedKeepsStream(cams, s, ids, batch.ack);
    FailedKeepsStream(cams, s, ids, batch);
    OneByOneKeepsStream(cams, Failed(cams, s, ids, batch), ids, each);
    hide Committed;
    hide Failed;
    hide OneByOne;
  }

  lemma PassKeepsStream(cams: Cameras, s: State, batch: Faults, each: nat -> Faults)
    requires s.delivered <= |s.stream|
    ensures var t := Passed(cams, s, batch, each);
      && t.stream == s.stream && t.delivered == Delivered(s).delivered && s.delivered <= t.delivered <= |t.stream|
      && s.acked <= t.acked && s.history <= t.history
  {
    var d := Delivered(s);
    PendingInStream(d.acked, d.delivered);
    ProcessedKeepsStream(cams, d, ReadIds(d), batch, each);
    hide Processed;
  }

  // ---- what is pending ------------------------------------------------------------------------------------

  lemma {:induction false} PendingIs(acked: set<nat>, n: nat)
    ensures var p := PendingBelow(acked, n);
      && (forall x: nat :: x in p <==> x < n && x !in acked)
      && (forall i, j | 0 <= i < j < |p| :: p[i] < p[j])
  {
    if n > 0 {
      PendingIs(acked, n - 1);
      var front := PendingBelow(acked, n - 1);
      forall i | 0 <= i < |front|
        ensures front[i] < n - 1
      {
        assert front[i] in front;
      }
    }
  }

  lemma {:induction false} FewerPending(a: set<nat>, b: set<nat>, n: nat)
    requires a <= b
    ensures |PendingBelow(b, n)| <= |PendingBelow(a, n)|
  {
    if n > 0 {
      FewerPending(a, b, n - 1);
    }
  }

  lemma {:induction false} NewlyPending(acked: set<nat>, n: nat, m: nat)
    requires n <= m
    ensures |PendingBelow(acked, m)| <= |PendingBelow(acked, n)| + m - n
  {
    if n < m {
      NewlyPending(acked, n, m - 1);
    }
  }

  lemma DeliveredPending(s: State)
    requires s.delivered <= |s.stream| && |Pending(s)| <= COUNT
    ensures |Pending(Delivered(s))| <= COUNT && ReadIds(Delivered(s)) == Pending(Delivered(s))
  {
    NewlyPending(s.acked, s.delivered, Delivered(s).delivered);
  }

  /** Everything older than an entry that is read was handled, or is read before it. */
  ghost predicate OldestFirst(s: State, ids: seq<nat>) {
    && InStream(s, ids)
    && (forall i, j | 0 <= i < j < |ids| :: ids[i] < ids[j])
    && (forall k, x: nat | 0 <= k < |ids| && x < ids[k] :: x in s.acked || x in ids[..k])
  }

  lemma FrontIsOldestFirst(s: State, ids: seq<nat>)
    requires OldestFirst(s, ids) && ids != []
    ensures OldestFirst(s, ids[..|ids| - 1])
    ensures forall x: nat | x < ids[|ids| - 1] :: x in s.acked || x in ids[..|ids| - 1]
  {
    var front := ids[..|ids| - 1];
    forall k, x: nat | 0 <= k < |front| && x < front[k]
      ensures x in s.acked || x in front[..k]
    {
      assert front[..k] == ids[..k] && front[k] == ids[k];
    }
  }

  lemma PendingIsOldestFirst(s: State)
    requires s.delivered <= |s.stream|
    ensures OldestFirst(s, Pending(s))
  {
    var p := Pending(s);
    PendingIs(s.acked, s.delivered);
    PendingInStream(s.acked, s.delivered);
    forall k, x: nat | 0 <= k < |p| && x < p[k]
      ensures x in s.acked || x in p[..k]
    {
      if x !in s.acked {
        assert p[k] in p;
        var m :| 0 <= m < |p| && p[m] == x;
        assert m < k;
        assert p[..k][m] == x;
      }
    }
  }

  // ---- order ----------------------------------------------------------------------------------------------

  predicate Handled(history: seq<Done>, id: nat) {
    exists n | 0 <= n < |history| :: history[n].id == id
  }

  /** An entry that has to be handled before another: an older one of its camera, or any older one for a system entry. */
  predicate Before(stream: seq<Parsed>, x: nat, y: nat) {
    x < y < |stream| && (Source(stream[y]).None? || Source(stream[x]) == Source(stream[y]))
  }

  ghost predicate OrderOk(stream: seq<Parsed>, history: seq<Done>, done: Done) {
    done.Wrote? ==> forall x: nat | Before(stream, x, done.id) :: Handled(history, x)
  }

  ghost predicate InOrder(stream: seq<Parsed>, history: seq<Done>) {
    forall n | 0 <= n < |history| :: OrderOk(stream, history[..n], history[n])
  }

  lemma HandledGrows(history: seq<Done>, done: Done, id: nat)
    ensures Handled(history + [done], id) <==> Handled(history, id) || done.id == id
  {
    var h := history + [done];
    if Handled(history, id) {
      var n :| 0 <= n < |history| && history[n].id == id;
      assert h[n].id == id;
    }
    if done.id == id {
      assert h[|history|].id == id;
    }
  }

  lemma InOrderAppend(stream: seq<Parsed>, history: seq<Done>, done: Done)
    requires InOrder(stream, history) && OrderOk(stream, history, done)
    ensures InOrder(stream, history + [done])
  {
    var h := history + [done];
    forall n | 0 <= n < |h|
      ensures OrderOk(stream, h[..n], h[n])
    {
      if n < |history| {
        assert h[..n] == history[..n] && h[n] == history[n];
      } else {
        assert h[..n] == history;
      }
    }
  }

  lemma InOrderProduced(stream: seq<Parsed>, p: Parsed, history: seq<Done>)
    requires InOrder(stream, history) && (forall n | 0 <= n < |history| :: history[n].id < |stream|)
    ensures InOrder(stream + [p], history)
  {
    forall n | 0 <= n < |history|
      ensures OrderOk(stream + [p], history[..n], history[n])
    {
      assert OrderOk(stream, history[..n], history[n]);
      forall x: nat | history[n].Wrote? && Before(stream + [p], x, history[n].id)
        ensures Handled(history[..n], x)
      {
        assert Before(stream, x, history[n].id);
      }
    }
  }

  /** What is acknowledged was handled, and a buried entry has its dead letter. */
  ghost predicate Accounted(s: State) {
    && (forall id | id in s.acked :: Handled(s.history, id))
    && (forall n | 0 <= n < |s.history| :: s.history[n].id < s.delivered)
    && (forall n | 0 <= n < |s.history| && s.history[n].Buried? :: s.history[n].id in s.letters)
  }

  ghost predicate OrderInv(s: State) {
    InOrder(s.stream, s.history) && Accounted(s)
  }

  lemma WriteKeepsOrder(cams: Cameras, s: State, id: nat)
    requires id < s.delivered <= |s.stream| && OrderInv(s)
    requires forall x: nat | Before(s.stream, x, id) :: Handled(s.history, x)
    ensures OrderInv(Write(cams, s, id)) && Handled(Write(cams, s, id).history, id)
    ensures forall x: nat | Handled(s.history, x) :: Handled(Write(cams, s, id).history, x)
  {
    var t := Write(cams, s, id);
    InOrderAppend(s.stream, s.history, Wrote(id));
    forall x: nat
      ensures Handled(t.history, x) <==> Handled(s.history, x) || x == id
    {
      HandledGrows(s.history, Wrote(id), x);
    }
    hide Handled;
  }

  lemma {:induction false} WriteAllKeepsOrder(cams: Cameras, s: State, ids: seq<nat>)
    requires s.delivered <= |s.stream| && OrderInv(s) && OldestFirst(s, ids)
    requires forall k | 0 <= k < |ids| :: ids[k] < s.delivered
    ensures var t := WriteAll(cams, s, ids);
      && OrderInv(t)
      && (forall x: nat | Handled(s.history, x) || x in ids :: Handled(t.history, x))
  {
    if ids != [] {
      var front, last := ids[..|ids| - 1], ids[|ids| - 1];
      FrontIsOldestFirst(s, ids);
      WriteAllKeepsOrder(cams, s, front);
      WriteAllKeepsStream(cams, s, front);
      var u := WriteAll(cams, s, front);
      forall x: nat | Before(s.stream, x, last)
        ensures Handled(u.history, x)
      {
        assert x in s.acked || x in ids[..|ids| - 1];
      }
      hide Write;
      hide OrderInv;
      WriteKeepsOrder(cams, u, last);
      assert ids == front + [last];
    }
  }

  lemma AckedKeepsOrder(s: State, ids: seq<nat>, ack: AckOutcome)
    requires OrderInv(s) && forall x: nat | x in ids :: Handled(s.history, x)
    ensures OrderInv(Acked(s, ids, ack))
  {
  }

  lemma CommittedKeepsOrder(cams: Cameras, s: State, ids: seq<nat>, ack: AckOutcome)
    requires s.delivered <= |s.stream| && OrderInv(s) && OldestFirst(s, ids)
    requires forall k | 0 <= k < |ids| :: ids[k] < s.delivered
    ensures OrderInv(Committed(cams, s, ids, ack))
  {
    WriteAllKeepsOrder(cams, s, ids);
    var w := WriteAll(cams, s, ids);
    var u := if ack.Crashed? then w.(said := s.said, unsaid := true) else w;
    assert OrderInv(u);
    hide OrderInv;
    AckedKeepsOrder(u, ids, ack);
  }

  lemma FailedKeepsOrder(cams: Cameras, s: State, ids: seq<nat>, f: Faults)
    requires s.delivered <= |s.stream| && OrderInv(s) && OldestFirst(s, ids)
    requires forall k | 0 <= k < |ids| :: ids[k] < s.delivered
    ensures OrderInv(Failed(cams, s, ids, f))
  {
    WriteAllKeepsOrder(cams, s, ids);
    hide WriteAll;
    hide Handled;
    hide InOrder;
  }

  // ---- order within a one-by-one pass ---------------------------------------------------------------------

  /** An entry of this pass that was not acknowledged holds back the ones that have to come after it. */
  predicate HeldBack(l: Loop, id: nat)
    requires id < |l.state.stream|
  {
    var camera := Source(l.state.stream[id]);
    || id in l.state.acked || l.thrown
    || (l.held != {} && (camera.None? || camera in l.held || None in l.held))
  }

  ghost predicate LoopOk(l: Loop, ids: seq<nat>) {
    && InStream(l.state, ids) && OrderInv(l.state) && l.state.delivered <= |l.state.stream|
    && (forall k | 0 <= k < |ids| :: HeldBack(l, ids[k]))
  }

  lemma HeldBackStays(cams: Cameras, l: Loop, x: nat, id: nat, f: Faults)
    requires id < |l.state.stream| && x < |l.state.stream| && HeldBack(l, x)
    ensures Turn(cams, l, id, f).state.stream == l.state.stream && HeldBack(Turn(cams, l, id, f), x)
  {
    TurnKeepsStream(cams, l, id, f);
    FailedKeepsStream(cams, l.state, [id], f);
    hide Committed;
    hide Failed;
  }

  lemma TurnHoldsBack(cams: Cameras, l: Loop, id: nat, f: Faults)
    requires id < |l.state.stream|
    ensures Turn(cams, l, id, f).state.stream == l.state.stream && HeldBack(Turn(cams, l, id, f), id)
  {
    CommittedKeepsStream(cams, l.state, [id], f.ack);
    TurnKeepsStream(cams, l, id, f);
    FailedKeepsStream(cams, l.state, [id], f);
    assert id in Ids([id]);
    hide Committed;
    hide Failed;
  }

  /** When an entry is attempted, everything that has to come before it was handled. */
  lemma AttemptedInOrder(l: Loop, ids: seq<nat>, id: nat, x: nat)
    requires LoopOk(l, ids) && !l.thrown && id < |l.state.stream| && !Waits(l.held, Source(l.state.stream[id]))
    requires Before(l.state.stream, x, id) && (x in l.state.acked || x in ids)
    ensures x in l.state.acked
  {
  }

  lemma FailureKeepsOrder(l: Loop, id: nat, camera: Option<int>, f: Faults)
    requires OrderInv(l.state) && id < l.state.delivered <= |l.state.stream|
    ensures OrderInv(CountFailure(l, id, camera, f).state)
  {
    var c := Counted(l.state, id);
    var b := Bury(c, id);
    assert OrderInv(b) by {
      InOrderAppend(l.state.stream, l.state.history, Buried(id));
      forall x: nat
        ensures Handled(b.history, x) <==> Handled(l.state.history, x) || x == id
      {
        HandledGrows(l.state.history, Buried(id), x);
      }
      hide Handled;
    }
    HandledGrows(l.state.history, Buried(id), id);
    hide Handled;
    AckedKeepsOrder(b, [id], f.buryAck);
    assert OrderInv(c);
    hide InOrder;
    hide Acked;
    hide Accounted;
  }

  lemma OneIsOldest(s: State, id: nat)
    requires id < s.delivered <= |s.stream| && OrderInv(s)
    requires forall x: nat | Before(s.stream, x, id) :: x in s.acked
    ensures forall x: nat | Before(s.stream, x, id) :: Handled(s.history, x)
  {
  }

  lemma WriteOne(cams: Cameras, s: State, id: nat)
    requires id < |s.stream|
    ensures InStream(s, [id]) && WriteAll(cams, s, [id]) == Write(cams, s, id)
  {
    hide Write;
    assert [id][..0] == [];
    assert WriteAll(cams, s, []) == s;
  }

  lemma OneCommitKeepsOrder(cams: Cameras, s: State, id: nat, ack: AckOutcome)
    requires id < s.delivered <= |s.stream| && OrderInv(s)
    requires forall x: nat | Before(s.stream, x, id) :: x in s.acked
    ensures OrderInv(Committed(cams, s, [id], ack))
  {
    OneIsOldest(s, id);
    WriteKeepsOrder(cams, s, id);
    WriteOne(cams, s, id);
    var w := WriteAll(cams, s, [id]);
    hide WriteAll;
    hide Write;
    var u := if ack.Crashed? then w.(said := s.said, unsaid := true) else w;
    assert OrderInv(u) && Handled(u.history, id);
    hide OrderInv;
    hide Handled;
    AckedKeepsOrder(u, [id], ack);
  }

  lemma OneFailedKeepsOrder(cams: Cameras, s: State, id: nat, f: Faults)
    requires id < s.delivered <= |s.stream| && OrderInv(s)
    requires forall x: nat | Before(s.stream, x, id) :: x in s.acked
    ensures OrderInv(Failed(cams, s, [id], f))
  {
    OneIsOldest(s, id);
    WriteKeepsOrder(cams, s, id);
    WriteOne(cams, s, id);
    hide WriteAll;
    hide Write;
    hide Handled;
    hide InOrder;
  }

  lemma TurnKeepsOrder(cams: Cameras, l: Loop, ids: seq<nat>, id: nat, f: Faults)
    requires LoopOk(l, ids) && id < l.state.delivered
    requires forall x: nat | x < id :: x in l.state.acked || x in ids
    ensures OrderInv(Turn(cams, l, id, f).state)
  {
    var camera := Source(l.state.stream[id]);
    if !l.thrown && !Waits(l.held, camera) {
      forall x: nat | Before(l.state.stream, x, id)
        ensures x in l.state.acked
      {
        AttemptedInOrder(l, ids, id, x);
      }
      hide Before;
      hide OrderInv;
      hide HeldBack;
      hide Waits;
      OneCommitKeepsOrder(cams, l.state, id, f.ack);
      OneFailedKeepsOrder(cams, l.state, id, f);
      FailedKeepsStream(cams, l.state, [id], f);
      hide Failed;
      FailureKeepsOrder(l.(state := Failed(cams, l.state, [id], f)), id, camera, f);
      hide Committed;
      hide CountFailure;
    }
  }

  lemma TurnKeepsLoop(cams: Cameras, l: Loop, ids: seq<nat>, id: nat, f: Faults)
    requires LoopOk(l, ids) && id < l.state.delivered
    requires forall x: nat | x < id :: x in l.state.acked || x in ids
    ensures LoopOk(Turn(cams, l, id, f), ids + [id])
  {
    var t, more := Turn(cams, l, id, f), ids + [id];
    TurnKeepsOrder(cams, l, ids, id, f);
    TurnKeepsStream(cams, l, id, f);
    TurnHoldsBack(cams, l, id, f);
    forall k | 0 <= k < |more|
      ensures more[k] < |t.state.stream| && HeldBack(t, more[k])
    {
      if k < |ids| {
        HeldBackStays(cams, l, ids[k], id, f);
      }
    }
    hide Turn;
    hide HeldBack;
    hide OrderInv;
  }

  lemma {:induction false} OneByOneKeepsOrder(cams: Cameras, s: State, ids: seq<nat>, each: nat -> Faults)
    requires s.delivered <= |s.stream| && OrderInv(s) && OldestFirst(s, ids)
    requires forall k | 0 <= k < |ids| :: ids[k] < s.delivered
    ensures LoopOk(OneByOne(cams, s, ids, each), ids)
  {
    if ids != [] {
      var front, last := ids[..|ids| - 1], ids[|ids| - 1];
      FrontIsOldestFirst(s, ids);
      OneByOneKeepsOrder(cams, s, front, each);
      OneByOneKeepsStream(cams, s, front, each);
      hide OldestFirst;
      var l := OneByOne(cams, s, front, each);
      assert forall x: nat | x < last :: x in l.state.acked || x in front;
      hide Turn;
      hide LoopOk;
      TurnKeepsLoop(cams, l, front, last, each(last));
      assert ids == front + [last];
    }
  }

  // ---- every pass -----------------------------------------------------------------------------------------

  ghost predicate Base(s: State) {
    s.delivered <= |s.stream| && |Pending(s)| <= COUNT && OrderInv(s)
  }

  lemma DeliveredKeepsOrder(s: State)
    requires Base(s)
    ensures OrderInv(Delivered(s)) && Delivered(s).delivered <= |s.stream|
  {
  }

  lemma ProcessedKeepsOrder(cams: Cameras, s: State, ids: seq<nat>, batch: Faults, each: nat -> Faults)
    requires s.delivered <= |s.stream| && OrderInv(s) && OldestFirst(s, ids)
    requires forall k | 0 <= k < |ids| :: ids[k] < s.delivered
    ensures OrderInv(Processed(cams, s, ids, batch, each))
  {
    hide OrderInv;
    CommittedKeepsOrder(cams, s, ids, batch.ack);
    FailedKeepsOrder(cams, s, ids, batch);
    FailedKeepsStream(cams, s, ids, batch);
    hide Failed;
    OneByOneKeepsOrder(cams, Failed(cams, s, ids, batch), ids, each);
    hide OldestFirst;
    hide Committed;
    hide OneByOne;
  }

  lemma PassKeepsBase(cams: Cameras, s: State, batch: Faults, each: nat -> Faults)
    requires Base(s)
    ensures Base(Passed(cams, s, batch, each))
  {
    var d := Delivered(s);
    var ids := ReadIds(d);
    var t := Passed(cams, s, batch, each);
    DeliveredPending(s);
    DeliveredKeepsOrder(s);
    PendingIsOldestFirst(d);
    PendingInStream(d.acked, d.delivered);
    ProcessedKeepsStream(cams, d, ids, batch, each);
    FewerPending(d.acked, t.acked, d.delivered);
    hide OrderInv;
    hide OldestFirst;
    ProcessedKeepsOrder(cams, d, ids, batch, each);
    hide Processed;
    hide Delivered;
  }

  lemma ProduceKeepsBase(cams: Cameras, s: State, p: Parsed)
    requires Base(s)
    ensures Base(Next(cams, s, Produce(p)))
  {
    InOrderProduced(s.stream, p, s.history);
    hide InOrder;
  }

  lemma {:induction false} RunKeepsBase(cams: Cameras, steps: seq<Step>)
    ensures Base(Run(cams, steps))
  {
    if steps != [] {
      var s, step := Run(cams, steps[..|steps| - 1]), steps[|steps| - 1];
      RunKeepsBase(cams, steps[..|steps| - 1]);
      hide Base;
      if step.Pass? {
        PassKeepsBase(cams, s, step.batch, step.each);
      } else {
        ProduceKeepsBase(cams, s, step.entry);
      }
      hide Passed;
    }
  }

  // ---- the rows are those of the log ----------------------------------------------------------------------

  function MessageOf(stream: seq<Parsed>, done: Done): seq<Message> {
    if done.Wrote? && done.id < |stream| && stream[done.id].Valid? then [stream[done.id].message] else []
  }

  /** The valid messages committed, in order; redelivered ones again. */
  function Log(stream: seq<Parsed>, history: seq<Done>): seq<Message> {
    if history == [] then []
    else Log(stream, history[..|history| - 1]) + MessageOf(stream, history[|history| - 1])
  }

  /** A message that could not be read, is of an unknown camera, or closes a session that was not opened before. */
  ghost predicate DeadAfter(cams: Cameras, log: seq<Message>, p: Parsed) {
    || p.Invalid? || !Known(cams, p.message)
    || (p.message.Close? && !OpenedBy(cams, log, |log|, p.message.session))
  }

  ghost predicate LeavesLetter(cams: Cameras, stream: seq<Parsed>, front: seq<Done>, done: Done) {
    done.Buried? || (done.id < |stream| && DeadAfter(cams, Log(stream, front), stream[done.id]))
  }

  /** The entries with a dead letter, in order: buried, or dead when they were committed. */
  ghost function DeadLetters(cams: Cameras, stream: seq<Parsed>, history: seq<Done>): seq<nat> {
    if history == [] then []
    else
      var front, last := history[..|history| - 1], history[|history| - 1];
      DeadLetters(cams, stream, front) + if LeavesLetter(cams, stream, front, last) then [last.id] else []
  }

  ghost predicate RowsOk(cams: Cameras, s: State) {
    && s.tables == ApplyAll(cams, NoRows, Log(s.stream, s.history))
    && s.letters == DeadLetters(cams, s.stream, s.history)
    && (!s.unsaid ==> s.said == Announced(cams, NoRows, Log(s.stream, s.history)))
  }

  lemma ApplyOne(cams: Cameras, ms: seq<Message>, m: Message)
    ensures ApplyAll(cams, NoRows, ms + [m]) == Apply(cams, ApplyAll(cams, NoRows, ms), m)
    ensures Announced(cams, NoRows, ms + [m]) ==
      Announced(cams, NoRows, ms) + if Inserts(cams, ApplyAll(cams, NoRows, ms), m) then [m] else []
  {
    assert (ms + [m])[..|ms|] == ms;
    hide Apply;
  }

  lemma WriteLog(cams: Cameras, s: State, id: nat)
    requires id < |s.stream|
    ensures var t, p := Write(cams, s, id), s.stream[id];
      Log(t.stream, t.history) == Log(s.stream, s.history) + if p.Valid? then [p.message] else []
  {
    assert Write(cams, s, id).history[..|s.history|] == s.history;
  }

  /** The rows and announcements of a log that goes on with what the entry says. */
  lemma WriteRows(cams: Cameras, s: State, id: nat)
    requires RowsOk(cams, s) && id < |s.stream|
    ensures var t := Write(cams, s, id);
      && t.tables == ApplyAll(cams, NoRows, Log(t.stream, t.history))
      && (!t.unsaid ==> t.said == Announced(cams, NoRows, Log(t.stream, t.history)))
  {
    WriteLog(cams, s, id);
    var log := Log(s.stream, s.history);
    if s.stream[id].Valid? {
      ApplyOne(cams, log, s.stream[id].message);
    } else {
      assert log + [] == log;
    }
    hide *;
    hide Write;
    WriteIs(cams, s, id);
    RowsAre(cams, s);
  }

  lemma RowsAre(cams: Cameras, s: State)
    requires RowsOk(cams, s)
    ensures s.tables == ApplyAll(cams, NoRows, Log(s.stream, s.history))
    ensures !s.unsaid ==> s.said == Announced(cams, NoRows, Log(s.stream, s.history))
  {
  }

  lemma WriteIs(cams: Cameras, s: State, id: nat)
    requires id < |s.stream|
    ensures var t, p := Write(cams, s, id), s.stream[id];
      && t.stream == s.stream && t.unsaid == s.unsaid
      && t.tables == (if p.Valid? then Apply(cams, s.tables, p.message) else s.tables)
      && t.said == s.said + if p.Valid? && Inserts(cams, s.tables, p.message) then [p.message] else []
  {
    hide Apply;
    hide Inserts;
  }

  lemma DeadIff(cams: Cameras, s: State, p: Parsed)
    requires RowsOk(cams, s)
    ensures BecomesLetter(cams, s.tables, p) <==> DeadAfter(cams, Log(s.stream, s.history), p)
  {
    RowsAre(cams, s);
    if p.Valid? && p.message.Close? {
      OpenedIff(cams, Log(s.stream, s.history), p.message.session);
    }
    hide RowsOk;
    hide ApplyAll;
    hide OpenedBy;
    hide Log;
  }

  lemma WriteLetters(cams: Cameras, s: State, id: nat)
    requires RowsOk(cams, s) && id < |s.stream|
    ensures var t := Write(cams, s, id);
      t.letters == DeadLetters(cams, t.stream, t.history)
  {
    DeadIff(cams, s, s.stream[id]);
    hide BecomesLetter;
    hide DeadAfter;
    hide Apply;
    hide ApplyAll;
    hide Announced;
    hide Log;
    assert Write(cams, s, id).history[..|s.history|] == s.history;
  }

  lemma WriteKeepsRows(cams: Cameras, s: State, id: nat)
    requires RowsOk(cams, s) && id < |s.stream|
    ensures RowsOk(cams, Write(cams, s, id))
  {
    WriteRows(cams, s, id);
    WriteLetters(cams, s, id);
    hide Write;
    hide ApplyAll;
    hide Announced;
    hide DeadLetters;
    hide Log;
  }

  lemma {:induction false} WriteAllKeepsRows(cams: Cameras, s: State, ids: seq<nat>)
    requires RowsOk(cams, s) && InStream(s, ids)
    ensures RowsOk(cams, WriteAll(cams, s, ids))
  {
    if ids != [] {
      WriteAllKeepsRows(cams, s, ids[..|ids| - 1]);
      hide RowsOk;
      hide Write;
      WriteKeepsRows(cams, WriteAll(cams, s, ids[..|ids| - 1]), ids[|ids| - 1]);
    }
  }

  lemma CommittedKeepsRows(cams: Cameras, s: State, ids: seq<nat>, ack: AckOutcome)
    requires RowsOk(cams, s) && InStream(s, ids)
    ensures RowsOk(cams, Committed(cams, s, ids, ack))
  {
    WriteAllKeepsRows(cams, s, ids);
    hide WriteAll;
    hide ApplyAll;
    hide Announced;
    hide Log;
  }

  lemma FailedKeepsRows(cams: Cameras, s: State, ids: seq<nat>, f: Faults)
    requires RowsOk(cams, s) && InStream(s, ids)
    ensures RowsOk(cams, Failed(cams, s, ids, f))
  {
    WriteAllKeepsRows(cams, s, ids);
    hide WriteAll;
    hide ApplyAll;
    hide Announced;
    hide Log;
  }

  lemma BuryKeepsRows(cams: Cameras, s: State, id: nat)
    requires RowsOk(cams, s)
    ensures RowsOk(cams, Bury(s, id))
  {
    assert Bury(s, id).history[..|s.history|] == s.history;
    assert Log(s.stream, Bury(s, id).history) == Log(s.stream, s.history);
    assert DeadLetters(cams, s.stream, Bury(s, id).history) == DeadLetters(cams, s.stream, s.history) + [id];
    hide ApplyAll;
    hide Announced;
  }

  lemma FailureKeepsRows(cams: Cameras, l: Loop, id: nat, camera: Option<int>, f: Faults)
    requires RowsOk(cams, l.state)
    ensures RowsOk(cams, CountFailure(l, id, camera, f).state)
  {
    var c := Counted(l.state, id);
    assert RowsOk(cams, c);
    BuryKeepsRows(cams, c, id);
    hide ApplyAll;
    hide Announced;
    hide Log;
  }

  lemma TurnKeepsRows(cams: Cameras, l: Loop, id: nat, f: Faults)
    requires RowsOk(cams, l.state) && id < |l.state.stream|
    ensures RowsOk(cams, Turn(cams, l, id, f).state)
  {
    hide RowsOk;
    CommittedKeepsRows(cams, l.state, [id], f.ack);
    hide Committed;
    FailedKeepsRows(cams, l.state, [id], f);
    FailureKeepsRows(cams, l.(state := Failed(cams, l.state, [id], f)), id, Source(l.state.stream[id]), f);
    hide Failed;
    hide CountFailure;
  }

  lemma {:induction false} OneByOneKeepsRows(cams: Cameras, s: State, ids: seq<nat>, each: nat -> Faults)
    requires RowsOk(cams, s) && InStream(s, ids)
    ensures RowsOk(cams, OneByOne(cams, s, ids, each).state)
  {
    if ids != [] {
      var front, last := ids[..|ids| - 1], ids[|ids| - 1];
      OneByOneKeepsRows(cams, s, front, each);
      hide RowsOk;
      hide Turn;
      TurnKeepsRows(cams, OneByOne(cams, s, front, each), last, each(last));
    }
  }

  lemma ProcessedKeepsRows(cams: Cameras, s: State, ids: seq<nat>, batch: Faults, each: nat -> Faults)
    requires RowsOk(cams, s) && InStream(s, ids)
    ensures RowsOk(cams, Processed(cams, s, ids, batch, each))
  {
    hide RowsOk;
    CommittedKeepsRows(cams, s, ids, batch.ack);
    FailedKeepsRows(cams, s, ids, batch);
    var failed := Failed(cams, s, ids, batch);
    hide Committed;
    hide Failed;
    OneByOneKeepsRows(cams, failed, ids, each);
    hide OneByOne;
  }

  lemma DeliveredKeepsRows(cams: Cameras, s: State)
    requires RowsOk(cams, s) && s.delivered <= |s.stream|
    ensures RowsOk(cams, Delivered(s))
  {
    hide ApplyAll;
    hide Announced;
    hide Log;
  }

  lemma PassKeepsRows(cams: Cameras, s: State, batch: Faults, each: nat -> Faults)
    requires RowsOk(cams, s) && s.delivered <= |s.stream|
    ensures RowsOk(cams, Passed(cams, s, batch, each))
  {
    var d := Delivered(s);
    DeliveredKeepsRows(cams, s);
    hide RowsOk;
    PendingInStream(d.acked, d.delivered);
    ProcessedKeepsRows(cams, d, ReadIds(d), batch, each);
    hide Processed;
    hide Delivered;
  }

  lemma {:induction false} LogProduced(stream: seq<Parsed>, p: Parsed, history: seq<Done>)
    requires forall n | 0 <= n < |history| :: history[n].id < |stream|
    ensures Log(stream + [p], history) == Log(stream, history)
  {
    if history != [] {
      LogProduced(stream, p, history[..|history| - 1]);
    }
  }

  lemma {:induction false} LettersProduced(cams: Cameras, stream: seq<Parsed>, p: Parsed, history: seq<Done>)
    requires forall n | 0 <= n < |history| :: history[n].id < |stream|
    ensures DeadLetters(cams, stream + [p], history) == DeadLetters(cams, stream, history)
  {
    if history != [] {
      LettersProduced(cams, stream, p, history[..|history| - 1]);
      LogProduced(stream, p, history[..|history| - 1]);
      hide DeadAfter;
    }
  }

  function AllWrote(ids: seq<nat>): seq<Done> {
    seq(|ids|, i requires 0 <= i < |ids| => Wrote(ids[i]))
  }

  lemma {:induction false} WriteAllHistory(cams: Cameras, s: State, ids: seq<nat>)
    requires InStream(s, ids)
    ensures WriteAll(cams, s, ids).history == s.history + AllWrote(ids)
  {
    if ids != [] {
      var front := ids[..|ids| - 1];
      WriteAllHistory(cams, s, front);
      assert AllWrote(ids) == AllWrote(front) + [Wrote(ids[|ids| - 1])];
    }
  }

  /**
   * A transaction reported as failed either left nothing behind, or took effect: then its rows are there, but nothing is
   * acknowledged or announced.
   */
  lemma FailureIsAllOrNothing(cams: Cameras, s: State, ids: seq<nat>, f: Faults)
    requires InStream(s, ids) && RowsOk(cams, s)
    ensures var t := Failed(cams, s, ids, f);
      && t.acked == s.acked && t.failures == s.failures && t.said == s.said
      && (!f.kept ==> t == s)
      && (f.kept ==>
            && t.history == s.history + AllWrote(ids)
            && t.tables == ApplyAll(cams, NoRows, Log(t.stream, t.history)))
  {
    WriteAllHistory(cams, s, ids);
    WriteAllKeepsStream(cams, s, ids);
    WriteAllKeepsRows(cams, s, ids);
    WriteAllLeaves(cams, s, ids);
    hide WriteAll;
    hide ApplyAll;
    hide Announced;
    hide DeadLetters;
    hide Log;
    hide AllWrote;
  }

  lemma {:induction false} WriteAllLeaves(cams: Cameras, s: State, ids: seq<nat>)
    requires InStream(s, ids)
    ensures var t := WriteAll(cams, s, ids);
      t.acked == s.acked && t.failures == s.failures && t.delivered == s.delivered
  {
    if ids != [] {
      WriteAllLeaves(cams, s, ids[..|ids| - 1]);
    }
  }

  lemma {:induction false} RunKeepsRows(cams: Cameras, steps: seq<Step>)
    ensures RowsOk(cams, Run(cams, steps))
  {
    if steps != [] {
      var s, step := Run(cams, steps[..|steps| - 1]), steps[|steps| - 1];
      RunKeepsRows(cams, steps[..|steps| - 1]);
      if step.Pass? {
        hide RowsOk;
        PassKeepsRows(cams, s, step.batch, step.each);
      } else {
        RunKeepsBase(cams, steps[..|steps| - 1]);
        LogProduced(s.stream, step.entry, s.history);
        LettersProduced(cams, s.stream, step.entry, s.history);
        hide ApplyAll;
        hide DeadLetters;
        hide Announced;
        hide Log;
      }
      hide Passed;
    }
  }

  // ---- what every run guarantees --------------------------------------------------------------------------

  /** At most 100 entries are ever pending, so every read returns all of them. */
  lemma PendingIsBounded(cams: Cameras, steps: seq<Step>)
    ensures |Pending(Run(cams, steps))| <= 100
  {
    RunKeepsBase(cams, steps);
  }

  /** An entry leaves the pending list only if its transaction committed or it has a dead letter. */
  lemma AckedIsAccounted(cams: Cameras, steps: seq<Step>, id: nat)
    requires var s := Run(cams, steps);
      id < s.delivered && id !in Pending(s)
    ensures var s := Run(cams, steps);
      Wrote(id) in s.history || id in s.letters
  {
    RunKeepsBase(cams, steps);
    var s := Run(cams, steps);
    hide Run;
    PendingIs(s.acked, s.delivered);
    assert Handled(s.history, id);
    var n :| 0 <= n < |s.history| && s.history[n].id == id;
    assert s.history[n] == Wrote(id) || s.history[n] == Buried(id);
  }

  /**
   * When an entry is first applied, every older entry of its camera was applied or dead-lettered before; for a system
   * entry, every older entry was.
   */
  lemma AppliedInStreamOrder(cams: Cameras, steps: seq<Step>, n: nat, x: nat)
    requires var s := Run(cams, steps);
      n < |s.history| && s.history[n].Wrote? && Before(s.stream, x, s.history[n].id)
    ensures Handled(Run(cams, steps).history[..n], x)
  {
    RunKeepsBase(cams, steps);
    var s := Run(cams, steps);
    assert OrderOk(s.stream, s.history[..n], s.history[n]);
  }

  /**
   * In every run the dead letters are those of the entries buried and of the commits of entries that could not be read,
   * are of an unknown camera, or close a session no earlier commit opened.
   */
  lemma LettersAreTheDead(cams: Cameras, steps: seq<Step>)
    ensures var s := Run(cams, steps);
      s.letters == DeadLetters(cams, s.stream, s.history)
  {
    RunKeepsRows(cams, steps);
  }

  /** The rows are what one in-order pass over the log of committed entries writes, redeliveries included. */
  lemma RowsAreTheLog(cams: Cameras, steps: seq<Step>)
    ensures var s := Run(cams, steps);
      s.tables == ApplyAll(cams, NoRows, Log(s.stream, s.history))
  {
    RunKeepsRows(cams, steps);
  }

  /**
   * As long as no commit was reported as failed and the process did not end between a commit and its announcement,
   * each event row was announced once, whatever else failed.
   */
  lemma EventsAreAnnouncedOnce(cams: Cameras, steps: seq<Step>)
    requires !Run(cams, steps).unsaid
    ensures Announces(NoRows, Run(cams, steps).tables, Run(cams, steps).said)
  {
    RunKeepsRows(cams, steps);
    var s := Run(cams, steps);
    hide Run;
    EachRowIsAnnouncedOnce(cams, NoRows, Log(s.stream, s.history));
  }
}
