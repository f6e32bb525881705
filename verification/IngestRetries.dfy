/** Retries end: while the database and Redis answer, every pending entry is soon applied or dead-lettered. */
module IngestRetries {
  import opened IngestConsumer
  import opened IngestOrder
  import opened IngestTables
  import opened Options
  import opened Seqs

  /** The database and Redis answer; a transaction may still fail through an entry's own fault. */
  predicate Answers(f: Faults) {
    (f.tx.Commits? || f.tx.EntryFault?) && f.ack.AckOk? && f.counts && f.buries && f.buryAck.AckOk?
  }

  datatype Attempt = Attempt(batch: Faults, each: nat -> Faults)

  ghost predicate AllAnswer(a: Attempt) {
    Answers(a.batch) && forall id: nat :: Answers(a.each(id))
  }

  /** How many more times the entry may be attempted. */
  function Left(s: State, id: nat): nat {
    if id in s.acked then 0
    else if Attempts(s, id) + 1 < MAX_ATTEMPTS then MAX_ATTEMPTS - Attempts(s, id) else 1
  }

  function LeftBelow(s: State, n: nat): nat {
    if n == 0 then 0 else LeftBelow(s, n - 1) + Left(s, n - 1)
  }

  ghost predicate NoMore(s: State, t: State) {
    forall id: nat :: Left(t, id) <= Left(s, id)
  }

  lemma {:induction false} LessLeft(s: State, t: State, n: nat, x: nat)
    requires NoMore(s, t)
    ensures LeftBelow(t, n) <= LeftBelow(s, n)
    ensures x < n && Left(t, x) < Left(s, x) ==> LeftBelow(t, n) < LeftBelow(s, n)
  {
    if n > 0 {
      LessLeft(s, t, n - 1, x);
      assert Left(t, n - 1) <= Left(s, n - 1);
    }
  }

  lemma {:induction false} LeftAtMost(s: State, n: nat)
    ensures LeftBelow(s, n) <= MAX_ATTEMPTS * |PendingBelow(s.acked, n)|
  {
    if n > 0 {
      LeftAtMost(s, n - 1);
    }
  }

  // ---- one turn, one pass ---------------------------------------------------------------------------------

  lemma CommitLeaves(cams: Cameras, s: State, ids: seq<nat>)
    requires InStream(s, ids)
    ensures var t := Committed(cams, s, ids, AckOk);
      && NoMore(s, t) && (forall id | id in ids :: Left(t, id) == 0)
  {
    WriteAllKeepsStream(cams, s, ids);
    hide WriteAll;
  }

  lemma FailedLeaves(cams: Cameras, s: State, ids: seq<nat>, f: Faults)
    requires InStream(s, ids)
    ensures var t := Failed(cams, s, ids, f);
      && t.acked == s.acked && t.failures == s.failures && (forall id: nat :: Left(t, id) == Left(s, id))
  {
    FailedKeepsStream(cams, s, ids, f);
    hide Failed;
  }

  lemma FailureLeaves(l: Loop, id: nat, camera: Option<int>, f: Faults)
    requires Answers(f) && id !in l.state.acked && !l.thrown
    ensures var t := CountFailure(l, id, camera, f);
      !t.thrown && NoMore(l.state, t.state) && Left(t.state, id) < Left(l.state, id)
  {
    var c := Counted(l.state, id);
    assert Attempts(c, id) == Attempts(l.state, id) + 1;
  }

  lemma TurnLeaves(cams: Cameras, l: Loop, id: nat, f: Faults)
    requires Answers(f) && id < |l.state.stream| && !l.thrown && id !in l.state.acked
    ensures var t := Turn(cams, l, id, f);
      && !t.thrown && NoMore(l.state, t.state)
      && (!Waits(l.held, Source(l.state.stream[id])) ==> Left(t.state, id) < Left(l.state, id))
  {
    CommitLeaves(cams, l.state, [id]);
    assert id in [id];
    FailedLeaves(cams, l.state, [id], f);
    var failed := l.(state := Failed(cams, l.state, [id], f));
    hide Failed;
    FailureLeaves(failed, id, Source(l.state.stream[id]), f);
    hide Committed;
    hide CountFailure;
  }

  /** The first entry of a pass is attempted, so a pass makes progress. */
  lemma {:induction false} OneByOneLeaves(cams: Cameras, s: State, ids: seq<nat>, each: nat -> Faults)
    requires InStream(s, ids) && (forall id: nat :: Answers(each(id)))
    requires forall k | 0 <= k < |ids| :: ids[k] !in s.acked
    requires forall i, j | 0 <= i < j < |ids| :: ids[i] < ids[j]
    ensures var t := OneByOne(cams, s, ids, each);
      && !t.thrown && NoMore(s, t.state) && (forall id | id in t.state.acked :: id in s.acked || id in ids)
      && (ids != [] ==> Left(t.state, ids[0]) < Left(s, ids[0]))
  {
    if ids != [] {
      var front, last := ids[..|ids| - 1], ids[|ids| - 1];
      OneByOneLeaves(cams, s, front, each);
      var l := OneByOne(cams, s, front, each);
      assert last !in front;
      assert forall id | id in front :: id in ids;
      TurnLeaves(cams, l, last, each(last));
      TurnAcksOnly(cams, l, last, each(last));
      if front == [] {
        assert l == Loop(s, {}, false);
      } else {
        assert Left(Turn(cams, l, last, each(last)).state, ids[0]) <= Left(l.state, ids[0]);
      }
      hide Turn;
    }
  }

  /** While anything is pending, each pass with answers leaves fewer attempts. */
  lemma PassLeavesLess(cams: Cameras, s: State, a: Attempt)
    requires Base(s) && AllAnswer(a) && Pending(s) != []
    ensures var t := Passed(cams, s, a.batch, a.each);
      t.delivered == s.delivered && LeftBelow(t, s.delivered) < LeftBelow(s, s.delivered)
  {
    var ids, t := Pending(s), Passed(cams, s, a.batch, a.each);
    DeliveredPending(s);
    assert Delivered(s) == s;
    PendingIs(s.acked, s.delivered);
    PendingInStream(s.acked, s.delivered);
    assert forall k | 0 <= k < |ids| :: ids[k] in ids;
    PassKeepsStream(cams, s, a.batch, a.each);
    hide Base;
    ProcessedLeaves(cams, s, ids, a);
    hide Processed;
    LessLeft(s, t, s.delivered, ids[0]);
  }

  lemma ProcessedLeaves(cams: Cameras, s: State, ids: seq<nat>, a: Attempt)
    requires InStream(s, ids) && AllAnswer(a) && ids != []
    requires forall k | 0 <= k < |ids| :: ids[k] !in s.acked
    requires forall i, j | 0 <= i < j < |ids| :: ids[i] < ids[j]
    ensures var t := Processed(cams, s, ids, a.batch, a.each);
      NoMore(s, t) && Left(t, ids[0]) < Left(s, ids[0])
  {
    assert ids[0] in ids;
    if a.batch.tx.Commits? {
      CommitLeaves(cams, s, ids);
      hide Committed;
    } else {
      FailedLeaves(cams, s, ids, a.batch);
      hide Failed;
      OneByOneLeaves(cams, Failed(cams, s, ids, a.batch), ids, a.each);
      hide OneByOne;
    }
  }

  function After(cams: Cameras, s: State, attempts: seq<Attempt>): State
    requires s.delivered <= |s.stream|
    decreases attempts
  {
    if attempts == [] then s
    else
      PassKeepsStream(cams, s, attempts[0].batch, attempts[0].each);
      After(cams, Passed(cams, s, attempts[0].batch, attempts[0].each), attempts[1..])
  }

  lemma {:induction false} PendingEmpties(cams: Cameras, s: State, attempts: seq<Attempt>) returns (k: nat)
    requires Base(s) && (forall i | 0 <= i < |attempts| :: AllAnswer(attempts[i]))
    requires |attempts| >= LeftBelow(s, s.delivered)
    ensures k <= LeftBelow(s, s.delivered) && Pending(After(cams, s, attempts[..k])) == []
    decreases |attempts|
  {
    if Pending(s) == [] {
      k := 0;
    } else {
      NoneLeftMeansNonePending(s);
      var t := Passed(cams, s, attempts[0].batch, attempts[0].each);
      PassLeavesLess(cams, s, attempts[0]);
      PassKeepsBase(cams, s, attempts[0].batch, attempts[0].each);
      hide Base;
      hide Passed;
      var m := PendingEmpties(cams, t, attempts[1..]);
      k := m + 1;
      assert attempts[..k][1..] == attempts[1..][..m];
      assert attempts[..k][0] == attempts[0];
    }
  }

  lemma NoneLeftMeansNonePending(s: State)
    requires Pending(s) != []
    ensures LeftBelow(s, s.delivered) > 0
  {
    PendingSome(s, s.delivered);
  }

  lemma {:induction false} PendingSome(s: State, n: nat)
    requires PendingBelow(s.acked, n) != []
    ensures LeftBelow(s, n) > 0
  {
    if n - 1 in s.acked {
      PendingSome(s, n - 1);
    }
  }

  /**
   * After any run, with n entries pending, some pass among the next 5 n finds the pending list empty, if the database
   * and Redis answer meanwhile: each entry was applied and acknowledged, or dead-lettered after its fifth attempt.
   */
  lemma RetriesEnd(cams: Cameras, steps: seq<Step>, attempts: seq<Attempt>) returns (k: nat)
    requires forall i | 0 <= i < |attempts| :: AllAnswer(attempts[i])
    requires |attempts| >= MAX_ATTEMPTS * |Pending(Run(cams, steps))|
    ensures k <= MAX_ATTEMPTS * |Pending(Run(cams, steps))|
    ensures Pending(After(cams, Run(cams, steps), attempts[..k])) == []
  {
    var s := Run(cams, steps);
    RunKeepsBase(cams, steps);
    hide Run;
    LeftAtMost(s, s.delivered);
    k := PendingEmpties(cams, s, attempts);
  }

  // ---- what waits and what does not -----------------------------------------------------------------------

  /** The loop of a one-by-one pass before its k-th entry. */
  function LoopAt(cams: Cameras, s: State, ids: seq<nat>, each: nat -> Faults, k: nat): (l: Loop)
    requires InStream(s, ids) && k <= |ids|
    ensures l.state.stream == s.stream
  {
    OneByOne(cams, s, ids[..k], each)
  }

  predicate Attempted(cams: Cameras, s: State, ids: seq<nat>, each: nat -> Faults, k: nat)
    requires InStream(s, ids) && k < |ids|
  {
    var l := LoopAt(cams, s, ids, each, k);
    !l.thrown && !Waits(l.held, Source(s.stream[ids[k]]))
  }

  /** The k-th entry was attempted, failed through its own fault, and stays for another attempt. */
  predicate Stays(cams: Cameras, s: State, ids: seq<nat>, each: nat -> Faults, k: nat)
    requires InStream(s, ids) && k < |ids|
  {
    && Attempted(cams, s, ids, each, k) && each(ids[k]).tx.EntryFault? && each(ids[k]).counts
    && Attempts(LoopAt(cams, s, ids, each, k).state, ids[k]) + 1 < MAX_ATTEMPTS
  }

  lemma LoopStep(cams: Cameras, s: State, ids: seq<nat>, each: nat -> Faults, k: nat)
    requires InStream(s, ids) && k < |ids|
    ensures LoopAt(cams, s, ids, each, k + 1) == Turn(cams, LoopAt(cams, s, ids, each, k), ids[k], each(ids[k]))
  {
    assert ids[..k + 1][..k] == ids[..k];
  }

  lemma TurnHolds(cams: Cameras, l: Loop, id: nat, f: Faults)
    requires id < |l.state.stream|
    ensures var camera := Source(l.state.stream[id]);
      Turn(cams, l, id, f).held ==
      if !l.thrown && !Waits(l.held, camera) && f.tx.EntryFault? && f.counts && Attempts(l.state, id) + 1 < MAX_ATTEMPTS
      then l.held + {camera} else l.held
  {
    FailedKeepsStream(cams, l.state, [id], f);
    hide Failed;
    hide Committed;
  }

  predicate StaysFor(cams: Cameras, s: State, ids: seq<nat>, each: nat -> Faults, k: nat, camera: Option<int>)
    requires InStream(s, ids) && k < |ids|
  {
    Stays(cams, s, ids, each, k) && Source(s.stream[ids[k]]) == camera
  }

  lemma StaysIsHeld(cams: Cameras, s: State, ids: seq<nat>, each: nat -> Faults, k: nat, camera: Option<int>)
    requires InStream(s, ids) && k < |ids|
    ensures camera in LoopAt(cams, s, ids, each, k + 1).held <==>
      camera in LoopAt(cams, s, ids, each, k).held || StaysFor(cams, s, ids, each, k, camera)
  {
    var l := LoopAt(cams, s, ids, each, k);
    LoopStep(cams, s, ids, each, k);
    hide LoopAt;
    hide Turn;
    hide Waits;
    TurnHolds(cams, l, ids[k], each(ids[k]));
  }

  /** The cameras held are those of the entries that failed and stay. */
  lemma {:induction false} HeldIs(cams: Cameras, s: State, ids: seq<nat>, each: nat -> Faults, k: nat, camera: Option<int>)
    requires InStream(s, ids) && k <= |ids|
    ensures camera in LoopAt(cams, s, ids, each, k).held <==>
      exists j :: 0 <= j < k && StaysFor(cams, s, ids, each, j, camera)
  {
    if k > 0 {
      StaysIsHeld(cams, s, ids, each, k - 1, camera);
      hide *;
      HeldIs(cams, s, ids, each, k - 1, camera);
    } else {
      assert ids[..0] == [];
    }
  }

  /** Of the entries before the k-th one that failed and stay, none is a system one or of the same camera. */
  ghost predicate NothingHeldFor(cams: Cameras, s: State, ids: seq<nat>, each: nat -> Faults, k: nat)
    requires InStream(s, ids) && k < |ids|
  {
    forall j | 0 <= j < k && Stays(cams, s, ids, each, j) ::
      && Source(s.stream[ids[j]]).Some? && Source(s.stream[ids[k]]).Some?
      && Source(s.stream[ids[j]]) != Source(s.stream[ids[k]])
  }

  /**
   * As long as no error ended the pass, an entry is attempted if and only if every entry before it that failed and
   * stays is of another camera, and neither is a system entry.
   */
  lemma AttemptedIff(cams: Cameras, s: State, ids: seq<nat>, each: nat -> Faults, k: nat)
    requires InStream(s, ids) && k < |ids| && !LoopAt(cams, s, ids, each, k).thrown
    ensures Attempted(cams, s, ids, each, k) <==> NothingHeldFor(cams, s, ids, each, k)
  {
    var l, camera := LoopAt(cams, s, ids, each, k), Source(s.stream[ids[k]]);
    hide LoopAt;
    hide Stays;
    forall c
      ensures c in l.held <==> exists j :: 0 <= j < k && StaysFor(cams, s, ids, each, j, c)
    {
      HeldIs(cams, s, ids, each, k, c);
    }
    forall j | 0 <= j < k && Stays(cams, s, ids, each, j)
      ensures Source(s.stream[ids[j]]) in l.held
    {
      assert StaysFor(cams, s, ids, each, j, Source(s.stream[ids[j]]));
    }
  }

  lemma {:induction false} ThrownStays(cams: Cameras, s: State, ids: seq<nat>, each: nat -> Faults, j: nat, k: nat)
    requires InStream(s, ids) && j <= k <= |ids| && !LoopAt(cams, s, ids, each, k).thrown
    ensures !LoopAt(cams, s, ids, each, j).thrown
  {
    if j < k {
      LoopStep(cams, s, ids, each, k - 1);
      hide LoopAt;
      ThrownStays(cams, s, ids, each, j, k - 1);
    }
  }

  /**
   * While no error ends the pass, a system entry waits and a later entry, whose transaction commits, is applied before
   * it if and only if some entry that failed and stays holds back the first and none holds back the second.
   */
  lemma SystemEntryIsOvertakenIff(cams: Cameras, s: State, ids: seq<nat>, each: nat -> Faults, j: nat, k: nat)
    requires InStream(s, ids) && j < k < |ids| && !LoopAt(cams, s, ids, each, k).thrown
    requires Source(s.stream[ids[j]]).None? && each(ids[k]).tx.Commits?
    ensures var before, after := LoopAt(cams, s, ids, each, k), LoopAt(cams, s, ids, each, k + 1);
      !Attempted(cams, s, ids, each, j) && after.state.history == before.state.history + [Wrote(ids[k])]
      <==> (exists i :: 0 <= i < j && Stays(cams, s, ids, each, i)) && NothingHeldFor(cams, s, ids, each, k)
  {
    var l := LoopAt(cams, s, ids, each, k);
    AttemptedIff(cams, s, ids, each, k);
    ThrownStays(cams, s, ids, each, j, k);
    AttemptedIff(cams, s, ids, each, j);
    LoopStep(cams, s, ids, each, k);
    WriteOne(cams, l.state, ids[k]);
    CommittedKeepsStream(cams, l.state, [ids[k]], each(ids[k]).ack);
    assert !NothingHeldFor(cams, s, ids, each, j) <==> exists i :: 0 <= i < j && Stays(cams, s, ids, each, i);
    hide LoopAt;
    hide Stays;
    hide NothingHeldFor;
    hide Committed;
    hide WriteAll;
  }

  // ---- an entry is buried only after its last attempt -------------------------------------------------------

  /** The k-th entry was attempted, failed through its own fault, and the failure was counted. */
  predicate CountedAt(cams: Cameras, s: State, ids: seq<nat>, each: nat -> Faults, k: nat)
    requires InStream(s, ids) && k < |ids|
  {
    Attempted(cams, s, ids, each, k) && each(ids[k]).tx.EntryFault? && each(ids[k]).counts
  }

  /** One of the first `k` entries is `id`, and its failure was counted. */
  ghost predicate CountedBy(cams: Cameras, s: State, ids: seq<nat>, each: nat -> Faults, k: nat, id: nat)
    requires InStream(s, ids) && k <= |ids|
  {
    exists j :: 0 <= j < k && ids[j] == id && CountedAt(cams, s, ids, each, j)
  }

  predicate IsBuried(s: State, id: nat) {
    Buried(id) in s.history
  }

  lemma {:induction false} WriteAllBuriesNone(cams: Cameras, s: State, ids: seq<nat>, id: nat)
    requires InStream(s, ids)
    ensures IsBuried(WriteAll(cams, s, ids), id) <==> IsBuried(s, id)
  {
    if ids != [] {
      WriteAllBuriesNone(cams, s, ids[..|ids| - 1], id);
    }
  }

  lemma CommittedBuriesNone(cams: Cameras, s: State, ids: seq<nat>, ack: AckOutcome, id: nat)
    requires InStream(s, ids)
    ensures IsBuried(Committed(cams, s, ids, ack), id) <==> IsBuried(s, id)
    ensures Attempts(Committed(cams, s, ids, ack), id) <= Attempts(s, id)
  {
    WriteAllBuriesNone(cams, s, ids, id);
    WriteAllKeepsStream(cams, s, ids);
    hide WriteAll;
  }

  lemma FailedBuriesNone(cams: Cameras, s: State, ids: seq<nat>, f: Faults, id: nat)
    requires InStream(s, ids)
    ensures IsBuried(Failed(cams, s, ids, f), id) <==> IsBuried(s, id)
    ensures Attempts(Failed(cams, s, ids, f), id) == Attempts(s, id)
  {
    WriteAllBuriesNone(cams, s, ids, id);
    WriteAllKeepsStream(cams, s, ids);
    hide WriteAll;
  }

  lemma FailureBuries(l: Loop, id: nat, camera: Option<int>, f: Faults, x: nat)
    ensures var t := CountFailure(l, id, camera, f).state;
      && Attempts(t, x) <= Attempts(l.state, x) + (if x == id && f.counts then 1 else 0)
      && (IsBuried(t, x) ==>
            IsBuried(l.state, x) || (x == id && f.counts && Attempts(l.state, x) + 1 >= MAX_ATTEMPTS))
  {
  }

  lemma TurnBuries(cams: Cameras, l: Loop, id: nat, f: Faults, x: nat)
    requires id < |l.state.stream|
    ensures var t := Turn(cams, l, id, f).state;
      var counted := x == id && !l.thrown && !Waits(l.held, Source(l.state.stream[id])) && f.tx.EntryFault? && f.counts;
      && Attempts(t, x) <= Attempts(l.state, x) + (if counted then 1 else 0)
      && (IsBuried(t, x) ==> IsBuried(l.state, x) || (counted && Attempts(l.state, x) + 1 >= MAX_ATTEMPTS))
  {
    CommittedBuriesNone(cams, l.state, [id], f.ack, x);
    FailedBuriesNone(cams, l.state, [id], f, x);
    var failed := l.(state := Failed(cams, l.state, [id], f));
    hide Committed;
    hide Failed;
    hide IsBuried;
    hide Attempts;
    FailureBuries(failed, id, Source(l.state.stream[id]), f, x);
    hide CountFailure;
  }

  lemma {:induction false} LoopBuries(cams: Cameras, s: State, ids: seq<nat>, each: nat -> Faults, k: nat, x: nat)
    requires InStream(s, ids) && k <= |ids| && forall i, j | 0 <= i < j < |ids| :: ids[i] < ids[j]
    ensures var t := LoopAt(cams, s, ids, each, k).state;
      && Attempts(t, x) <= Attempts(s, x) + (if CountedBy(cams, s, ids, each, k, x) then 1 else 0)
      && (IsBuried(t, x) ==>
            IsBuried(s, x) || (CountedBy(cams, s, ids, each, k, x) && Attempts(s, x) + 1 >= MAX_ATTEMPTS))
  {
    if k == 0 {
      assert ids[..0] == [];
    } else {
      LoopBuries(cams, s, ids, each, k - 1, x);
      LoopStep(cams, s, ids, each, k - 1);
      TurnBuries(cams, LoopAt(cams, s, ids, each, k - 1), ids[k - 1], each(ids[k - 1]), x);
      hide Turn;
      hide LoopAt;
      hide IsBuried;
      hide Attempts;
      hide Waits;
      if CountedAt(cams, s, ids, each, k - 1) && x == ids[k - 1] {
        assert CountedBy(cams, s, ids, each, k, x);
        assert !CountedBy(cams, s, ids, each, k - 1, x);
      }
    }
  }

  /** The pass counts a failed attempt of the entry. */
  ghost predicate CountsFailure(cams: Cameras, s: State, step: Step, id: nat)
    requires s.delivered <= |s.stream|
  {
    step.Pass? && step.batch.tx.EntryFault? &&
      var d := Delivered(s);
      PendingInStream(d.acked, d.delivered);
      var ids := ReadIds(d);
      CountedBy(cams, Failed(cams, d, ids, step.batch), ids, step.each, |ids|, id)
  }

  lemma ProcessedBuries(cams: Cameras, s: State, ids: seq<nat>, batch: Faults, each: nat -> Faults, x: nat)
    requires InStream(s, ids) && forall i, j | 0 <= i < j < |ids| :: ids[i] < ids[j]
    ensures var t := Processed(cams, s, ids, batch, each);
      var counted := batch.tx.EntryFault? && CountedBy(cams, Failed(cams, s, ids, batch), ids, each, |ids|, x);
      && Attempts(t, x) <= Attempts(s, x) + (if counted then 1 else 0)
      && (IsBuried(t, x) ==> IsBuried(s, x) || (counted && Attempts(s, x) + 1 >= MAX_ATTEMPTS))
  {
    CommittedBuriesNone(cams, s, ids, batch.ack, x);
    FailedBuriesNone(cams, s, ids, batch, x);
    hide Committed;
    hide IsBuried;
    hide Attempts;
    var failed := Failed(cams, s, ids, batch);
    hide Failed;
    LoopBuries(cams, failed, ids, each, |ids|, x);
    assert ids[..|ids|] == ids;
    hide OneByOne;
    hide CountedBy;
  }

  lemma NextBuries(cams: Cameras, s: State, step: Step, x: nat)
    requires Base(s)
    ensures var t := Next(cams, s, step);
      var counted := CountsFailure(cams, s, step, x);
      && Attempts(t, x) <= Attempts(s, x) + (if counted then 1 else 0)
      && (IsBuried(t, x) ==> IsBuried(s, x) || (counted && Attempts(s, x) + 1 >= MAX_ATTEMPTS))
  {
    if step.Pass? {
      var d := Delivered(s);
      PendingInStream(d.acked, d.delivered);
      PendingIs(d.acked, d.delivered);
      hide OrderInv;
      ProcessedBuries(cams, d, ReadIds(d), step.batch, step.each, x);
      hide Processed;
      hide CountedBy;
    }
  }

  /** How many failed attempts of the entry the run counted. */
  ghost function FailedAttempts(cams: Cameras, steps: seq<Step>, id: nat): nat {
    if steps == [] then 0
    else
      var front := steps[..|steps| - 1];
      FailedAttempts(cams, front, id)
      + if CountsFailure(cams, Run(cams, front), steps[|steps| - 1], id) then 1 else 0
  }

  /** In every run an entry has been dead-lettered as failing only after five failed attempts of its own were counted. */
  lemma {:induction false} BuriedAfterFiveAttempts(cams: Cameras, steps: seq<Step>, id: nat)
    ensures Attempts(Run(cams, steps), id) <= FailedAttempts(cams, steps, id)
    ensures Buried(id) in Run(cams, steps).history ==> FailedAttempts(cams, steps, id) >= 5
  {
    if steps != [] {
      var front, last := steps[..|steps| - 1], steps[|steps| - 1];
      var s := Run(cams, front);
      BuriedAfterFiveAttempts(cams, front, id);
      RunKeepsBase(cams, front);
      NextBuries(cams, s, last, id);
      hide Next;
      hide Base;
      hide CountsFailure;
      hide Attempts;
    }
  }

  // ---- what the counters hold -------------------------------------------------------------------------------

  /** While `x` is not acknowledged its counter grows by `n`. */
  ghost predicate CountsOn(s: State, t: State, x: nat, n: nat) {
    s.acked <= t.acked && (x !in t.acked ==> Attempts(t, x) == Attempts(s, x) + n)
  }

  predicate ClearsCounters(f: Faults) {
    !f.ack.HdelLost? && !f.buryAck.HdelLost?
  }

  /** An acknowledged entry has no counter. */
  predicate Cleared(s: State, x: nat) {
    x in s.acked ==> x !in s.failures
  }

  lemma CommittedCounters(cams: Cameras, s: State, ids: seq<nat>, ack: AckOutcome, x: nat)
    requires InStream(s, ids)
    ensures var t := Committed(cams, s, ids, ack);
      && CountsOn(s, t, x, 0) && t.acked <= s.acked + Ids(ids)
      && (Cleared(s, x) && !ack.HdelLost? ==> Cleared(t, x))
  {
    WriteAllLeaves(cams, s, ids);
    hide WriteAll;
  }

  lemma FailedIs(cams: Cameras, s: State, ids: seq<nat>, f: Faults, x: nat)
    requires InStream(s, ids)
    ensures var t := Failed(cams, s, ids, f);
      && t.acked == s.acked && t.failures == s.failures && t.stream == s.stream
      && Attempts(t, x) == Attempts(s, x) && (Cleared(t, x) <==> Cleared(s, x))
  {
    WriteAllLeaves(cams, s, ids);
    hide WriteAll;
  }

  lemma FailureCounters(l: Loop, id: nat, camera: Option<int>, f: Faults, x: nat)
    requires id !in l.state.acked
    ensures var t := CountFailure(l, id, camera, f).state;
      && CountsOn(l.state, t, x, One(x == id && f.counts)) && t.acked <= l.state.acked + {id}
      && (Cleared(l.state, x) && !f.buryAck.HdelLost? ==> Cleared(t, x))
  {
  }

  lemma TurnCounters(cams: Cameras, l: Loop, id: nat, f: Faults, x: nat)
    requires id < |l.state.stream| && id !in l.state.acked
    ensures var t := Turn(cams, l, id, f).state;
      var counted := x == id && !l.thrown && !Waits(l.held, Source(l.state.stream[id])) && f.tx.EntryFault? && f.counts;
      && CountsOn(l.state, t, x, One(counted)) && t.acked <= l.state.acked + {id}
      && (Cleared(l.state, x) && ClearsCounters(f) ==> Cleared(t, x))
  {
    CommittedCounters(cams, l.state, [id], f.ack, x);
    FailedIs(cams, l.state, [id], f, x);
    hide Committed;
    hide Failed;
    hide Attempts;
    hide Cleared;
    FailureCounters(l.(state := Failed(cams, l.state, [id], f)), id, Source(l.state.stream[id]), f, x);
    hide CountFailure;
    hide Waits;
  }

  lemma {:induction false} LoopCounters(cams: Cameras, s: State, ids: seq<nat>, each: nat -> Faults, k: nat, x: nat)
    requires InStream(s, ids) && k <= |ids| && (forall i, j | 0 <= i < j < |ids| :: ids[i] < ids[j])
    requires forall i | 0 <= i < |ids| :: ids[i] !in s.acked
    ensures var t := LoopAt(cams, s, ids, each, k).state;
      && CountsOn(s, t, x, One(CountedBy(cams, s, ids, each, k, x))) && t.acked <= s.acked + Ids(ids[..k])
      && (Cleared(s, x) && (forall id :: ClearsCounters(each(id))) ==> Cleared(t, x))
  {
    if k == 0 {
      assert ids[..0] == [];
    } else {
      LoopCounters(cams, s, ids, each, k - 1, x);
      var l := LoopAt(cams, s, ids, each, k - 1);
      assert ids[..k] == ids[..k - 1] + [ids[k - 1]];
      LoopStep(cams, s, ids, each, k - 1);
      TurnCounters(cams, l, ids[k - 1], each(ids[k - 1]), x);
      CountedByStep(cams, s, ids, each, k, x);
      hide Turn;
      hide LoopAt;
      hide CountedBy;
      hide Attempts;
      hide Waits;
      hide Cleared;
    }
  }

  lemma CountedByStep(cams: Cameras, s: State, ids: seq<nat>, each: nat -> Faults, k: nat, x: nat)
    requires InStream(s, ids) && 0 < k <= |ids| && (forall i, j | 0 <= i < j < |ids| :: ids[i] < ids[j])
    ensures var l := LoopAt(cams, s, ids, each, k - 1);
      var id, f := ids[k - 1], each(ids[k - 1]);
      var counted := x == id && !l.thrown && !Waits(l.held, Source(l.state.stream[id])) && f.tx.EntryFault? && f.counts;
      One(CountedBy(cams, s, ids, each, k, x)) == One(CountedBy(cams, s, ids, each, k - 1, x)) + One(counted)
  {
    if CountedAt(cams, s, ids, each, k - 1) && x == ids[k - 1] {
      assert CountedBy(cams, s, ids, each, k, x);
      assert !CountedBy(cams, s, ids, each, k - 1, x);
    }
    hide LoopAt;
    hide Waits;
  }

  ghost predicate AlwaysClears(step: Step) {
    step.Pass? ==> ClearsCounters(step.batch) && forall id :: ClearsCounters(step.each(id))
  }

  ghost predicate ReadAnew(s: State, ids: seq<nat>) {
    && InStream(s, ids) && (forall i, j | 0 <= i < j < |ids| :: ids[i] < ids[j])
    && (forall i | 0 <= i < |ids| :: ids[i] !in s.acked)
  }

  lemma AllOneByOneCounters(cams: Cameras, s: State, ids: seq<nat>, each: nat -> Faults, x: nat)
    requires ReadAnew(s, ids)
    ensures var t := OneByOne(cams, s, ids, each).state;
      && CountsOn(s, t, x, One(CountedBy(cams, s, ids, each, |ids|, x)))
      && (Cleared(s, x) && (forall id :: ClearsCounters(each(id))) ==> Cleared(t, x))
  {
    LoopCounters(cams, s, ids, each, |ids|, x);
    assert ids[..|ids|] == ids;
    hide OneByOne;
    hide CountedBy;
    hide CountsOn;
    hide Cleared;
  }

  lemma ProcessedCounters(cams: Cameras, s: State, ids: seq<nat>, batch: Faults, each: nat -> Faults, x: nat)
    requires ReadAnew(s, ids)
    ensures var t := Processed(cams, s, ids, batch, each);
      var counted := batch.tx.EntryFault? && CountedBy(cams, Failed(cams, s, ids, batch), ids, each, |ids|, x);
      && CountsOn(s, t, x, One(counted))
      && (Cleared(s, x) && ClearsCounters(batch) && (forall id :: ClearsCounters(each(id))) ==> Cleared(t, x))
  {
    var failed := Failed(cams, s, ids, batch);
    FailedIs(cams, s, ids, batch, x);
    hide Failed;
    hide Attempts;
    hide Cleared;
    hide Committed;
    hide OneByOne;
    hide CountedBy;
    if ids != [] && batch.tx.Commits? {
      CommittedCounters(cams, s, ids, batch.ack, x);
    } else if ids != [] && batch.tx.EntryFault? {
      AllOneByOneCounters(cams, failed, ids, each, x);
    } else if ids == [] {
      NoneCounted(cams, failed, each, x);
    }
  }

  lemma NoneCounted(cams: Cameras, s: State, each: nat -> Faults, x: nat)
    ensures !CountedBy(cams, s, [], each, 0, x)
  {
  }

  lemma PendingAnew(s: State)
    requires s.delivered <= |s.stream|
    ensures ReadAnew(s, ReadIds(s))
  {
    PendingInStream(s.acked, s.delivered);
    PendingIs(s.acked, s.delivered);
    forall i | 0 <= i < |ReadIds(s)|
      ensures ReadIds(s)[i] !in s.acked
    {
      assert ReadIds(s)[i] in Pending(s);
    }
  }

  lemma NextCounters(cams: Cameras, s: State, step: Step, x: nat)
    requires s.delivered <= |s.stream|
    ensures var t := Next(cams, s, step);
      && CountsOn(s, t, x, One(CountsFailure(cams, s, step, x))) && (Cleared(s, x) && AlwaysClears(step) ==> Cleared(t, x))
  {
    if step.Pass? {
      var d := Delivered(s);
      assert d.acked == s.acked && d.failures == s.failures;
      PendingAnew(d);
      hide ReadIds;
      hide Delivered;
      ProcessedCounters(cams, d, ReadIds(d), step.batch, step.each, x);
      hide Processed;
      hide CountedBy;
      hide Failed;
    }
  }

  /**
   * In every run the counter of an entry that is not acknowledged is the number of its failed attempts; one that is
   * acknowledged has none, unless an acknowledgement lost its HDEL.
   */
  lemma {:induction false} CountersAreAttempts(cams: Cameras, steps: seq<Step>, id: nat)
    ensures var s := Run(cams, steps);
      && (id !in s.acked ==> Attempts(s, id) == FailedAttempts(cams, steps, id))
      && (id in s.acked && (forall n | 0 <= n < |steps| :: AlwaysClears(steps[n])) ==> id !in s.failures)
  {
    if steps != [] {
      var front, last := steps[..|steps| - 1], steps[|steps| - 1];
      CountersAreAttempts(cams, front, id);
      RunKeepsBase(cams, front);
      NextCounters(cams, Run(cams, front), last, id);
      hide Next;
      hide Base;
      hide CountsFailure;
      hide Attempts;
      hide AlwaysClears;
      assert steps[|steps| - 1] == last && forall n | 0 <= n < |front| :: steps[n] == front[n];
    }
  }

  // ---- what a read returns ----------------------------------------------------------------------------------

  lemma CommittedAcks(cams: Cameras, s: State, ids: seq<nat>, ack: AckOutcome)
    requires InStream(s, ids)
    ensures Committed(cams, s, ids, ack).acked <= s.acked + Ids(ids)
  {
    WriteAllLeaves(cams, s, ids);
    hide WriteAll;
  }

  lemma {:induction false} OneByOneAcks(cams: Cameras, s: State, ids: seq<nat>, each: nat -> Faults)
    requires InStream(s, ids)
    ensures OneByOne(cams, s, ids, each).state.acked <= s.acked + Ids(ids)
  {
    if ids != [] {
      var front, last := ids[..|ids| - 1], ids[|ids| - 1];
      OneByOneAcks(cams, s, front, each);
      TurnAcks(cams, OneByOne(cams, s, front, each), last, each(last));
      hide Turn;
      assert ids == front + [last];
    }
  }

  lemma TurnAcks(cams: Cameras, l: Loop, id: nat, f: Faults)
    requires id < |l.state.stream|
    ensures Turn(cams, l, id, f).state.acked <= l.state.acked + {id}
  {
    CommittedAcks(cams, l.state, [id], f.ack);
    WriteAllLeaves(cams, l.state, [id]);
    hide Committed;
    hide WriteAll;
    hide Waits;
  }

  lemma ProcessedAcks(cams: Cameras, s: State, ids: seq<nat>, batch: Faults, each: nat -> Faults)
    requires InStream(s, ids)
    ensures Processed(cams, s, ids, batch, each).acked <= s.acked + Ids(ids)
  {
    CommittedAcks(cams, s, ids, batch.ack);
    OneByOneAcks(cams, Failed(cams, s, ids, batch), ids, each);
    WriteAllLeaves(cams, s, ids);
    hide Committed;
    hide OneByOne;
    hide WriteAll;
  }

  /** Nothing is acknowledged before it is delivered. */
  ghost predicate AcksBelow(s: State) {
    forall x | x in s.acked :: x < s.delivered
  }

  lemma PassKeepsAcks(cams: Cameras, s: State, batch: Faults, each: nat -> Faults)
    requires AcksBelow(s) && s.delivered <= |s.stream|
    ensures AcksBelow(Passed(cams, s, batch, each))
  {
    var d := Delivered(s);
    PendingInStream(d.acked, d.delivered);
    ProcessedAcks(cams, d, ReadIds(d), batch, each);
    PassKeepsStream(cams, s, batch, each);
    hide Processed;
  }

  lemma {:induction false} RunKeepsAcks(cams: Cameras, steps: seq<Step>)
    ensures AcksBelow(Run(cams, steps))
  {
    if steps != [] {
      var front, step := steps[..|steps| - 1], steps[|steps| - 1];
      RunKeepsAcks(cams, front);
      RunKeepsBase(cams, front);
      if step.Pass? {
        PassKeepsAcks(cams, Run(cams, front), step.batch, step.each);
      }
      hide Passed;
    }
  }

  lemma {:induction false} NewOnes(acked: set<nat>, from: nat, to: nat)
    requires from <= to && PendingBelow(acked, from) == [] && forall x | x in acked :: x < from
    ensures var p := PendingBelow(acked, to);
      |p| == to - from && forall i | 0 <= i < |p| :: p[i] == from + i
  {
    if from < to {
      NewOnes(acked, from, to - 1);
    }
  }

  /** In every run a read returns all pending entries if there are any, else the next hundred, or what there is. */
  lemma ReadIsPendingOrNew(cams: Cameras, steps: seq<Step>)
    ensures var s := Run(cams, steps);
      s.delivered <= |s.stream| &&
      var d := Delivered(s);
      var left := |s.stream| - s.delivered;
      if Pending(s) != [] then d == s && ReadIds(d) == Pending(s)
      else
        && |ReadIds(d)| == (if left < 100 then left else 100)
        && (forall i | 0 <= i < |ReadIds(d)| :: ReadIds(d)[i] == s.delivered + i)
  {
    var s := Run(cams, steps);
    RunKeepsBase(cams, steps);
    RunKeepsAcks(cams, steps);
    PendingIsBounded(cams, steps);
    hide Run;
    if Pending(s) == [] {
      NewOnes(s.acked, s.delivered, Delivered(s).delivered);
    }
  }

  // ---- a concrete pass --------------------------------------------------------------------------------------

  const Fine := Faults(Commits, false, AckOk, true, true, AckOk)

  /** Camera 1's entry fails, a system entry waits behind it, and camera 2's entry does not wait behind either. */
  lemma WaitingSystemEntryIsOvertaken(cams: Cameras, s: State, each: nat -> Faults)
    requires |s.stream| == 3
    requires Source(s.stream[0]) == Some(1) && Source(s.stream[1]) == None && Source(s.stream[2]) == Some(2)
    requires s.history == [] && s.failures == map[]
    requires each(0) == Fine.(tx := EntryFault) && each(1) == Fine && each(2) == Fine
    ensures OneByOne(cams, s, [0, 1, 2], each).state.history == [Wrote(2)]
  {
    assert [0, 1, 2][..2] == [0, 1] && [0, 1][..1] == [0] && [0][..0] == [];
    var a := OneByOne(cams, s, [0], each);
    assert a == Turn(cams, OneByOne(cams, s, [], each), 0, each(0));
    assert a.held == {Some(1)} && a.state.history == [];
    var b := OneByOne(cams, s, [0, 1], each);
    assert b == a;
    var c := OneByOne(cams, s, [0, 1, 2], each);
    assert c.state == Committed(cams, b.state, [2], AckOk);
    WriteOne(cams, b.state, 2);
    CommittedKeepsStream(cams, b.state, [2], AckOk);
  }
}
