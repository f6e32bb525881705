/** What an acquire returns is decided by the one load of its model: over every interleaving of the pool's threads. */
module ModelPoolLoads {
  import opened ModelPool
  import opened Seqs

  // ---- steps that decide an entry ---------------------------------------------------------------------------

  /** The loader of entry `e` returned a model while the pool was open. */
  predicate Loads(s: State, step: Step, e: nat) {
    step.LoadEnds? && Enabled(s, step) && s.calls[step.call].entry == e && step.ok && !s.closed
  }

  /** The loader of entry `e` raised, or the pool was closed meanwhile. */
  predicate Fails(s: State, step: Step, e: nat) {
    step.LoadEnds? && Enabled(s, step) && s.calls[step.call].entry == e && (!step.ok || s.closed)
  }

  ghost predicate Loaded(steps: seq<Step>, e: nat) {
    exists n :: 0 <= n < |steps| && Loads(Run(steps[..n]), steps[n], e)
  }

  ghost predicate Failed(steps: seq<Step>, e: nat) {
    exists n :: 0 <= n < |steps| && Fails(Run(steps[..n]), steps[n], e)
  }

  // ---- what they leave behind -------------------------------------------------------------------------------

  predicate HasThread(s: State, e: nat) {
    e < |s.entries| && !s.entries[e].thread.NotStarted?
  }

  predicate GivenUp(s: State, c: nat, e: nat) {
    c < |s.calls| && s.calls[c].entry == e
    && (s.calls[c].phase.Failing? || s.calls[c].phase.Unmapped? || s.calls[c].phase.Raised?)
  }

  /** The load failed: a call on the entry has raised or is about to, or the entry is marked. */
  ghost predicate IsGivenUp(s: State, e: nat) {
    (e < |s.entries| && s.entries[e].load.Failed?) || exists c: nat :: GivenUp(s, c, e)
  }

  lemma NextThread(s: State, step: Step, e: nat)
    requires Shape(s)
    ensures HasThread(Next(s, step), e) <==> HasThread(s, e) || Loads(s, step, e)
  {
  }

  lemma NextGivesUp(s: State, step: Step, e: nat)
    requires Shape(s) && IsGivenUp(Next(s, step), e)
    ensures IsGivenUp(s, e) || Fails(s, step, e)
  {
    var t := Next(s, step);
    if e < |t.entries| && t.entries[e].load.Failed? {
      MarkedFailed(s, step, e);
    } else {
      var c: nat :| GivenUp(t, c, e);
      CallFailed(s, step, c, e);
    }
  }

  lemma MarkedFailed(s: State, step: Step, e: nat)
    requires Linked(s) && e < |Next(s, step).entries| && Next(s, step).entries[e].load.Failed?
    ensures IsGivenUp(s, e)
  {
    if step.Publish? && Enabled(s, step) && s.calls[step.call].entry == e && s.calls[step.call].phase.Unmapped? {
      assert GivenUp(s, step.call, e);
    }
  }

  lemma CallFailed(s: State, step: Step, c: nat, e: nat)
    requires Linked(s) && GivenUp(Next(s, step), c, e)
    ensures IsGivenUp(s, e) || Fails(s, step, e)
  {
    if GivenUp(s, c, e) {
    } else if step.Wake? && Enabled(s, step) && step.call == c {
      assert s.entries[e].load.Failed?;
    }
  }

  lemma MarkStays(s: State, step: Step, e: nat)
    requires Shape(s) && e < |s.entries| && s.entries[e].load.Failed?
    ensures e < |Next(s, step).entries| && Next(s, step).entries[e].load.Failed?
  {
    if step.Publish? && Enabled(s, step) {
      assert CallOk(s, s.calls[step.call]);
    }
  }

  lemma CallStays(s: State, step: Step, c: nat, e: nat)
    requires GivenUp(s, c, e)
    ensures GivenUp(Next(s, step), c, e)
  {
  }

  lemma StaysGivenUp(s: State, step: Step, e: nat)
    requires Shape(s) && (IsGivenUp(s, e) || Fails(s, step, e))
    ensures IsGivenUp(Next(s, step), e)
  {
    var t := Next(s, step);
    if Fails(s, step, e) {
      assert GivenUp(t, step.call, e);
    } else if e < |s.entries| && s.entries[e].load.Failed? {
      MarkStays(s, step, e);
    } else {
      var c: nat :| GivenUp(s, c, e);
      CallStays(s, step, c, e);
    }
  }

  // ---- every run --------------------------------------------------------------------------------------------

  lemma LoadedStep(front: seq<Step>, last: Step, e: nat)
    ensures Loaded(front + [last], e) <==> Loaded(front, e) || Loads(Run(front), last, e)
    ensures Failed(front + [last], e) <==> Failed(front, e) || Fails(Run(front), last, e)
  {
    hide Run;
    hide Loads;
    hide Fails;
    var steps := front + [last];
    assert forall n | 0 <= n < |front| :: steps[..n] == front[..n] && steps[n] == front[n];
    assert steps[..|front|] == front && steps[|front|] == last;
  }

  /** An entry has a thread exactly if its loader returned on the open pool, and is given up exactly if it did not. */
  lemma {:induction false} LoadDecidesEntry(steps: seq<Step>, e: nat)
    ensures HasThread(Run(steps), e) <==> Loaded(steps, e)
    ensures IsGivenUp(Run(steps), e) <==> Failed(steps, e)
  {
    if steps != [] {
      var front, last := steps[..|steps| - 1], steps[|steps| - 1];
      assert steps == front + [last];
      LoadDecidesEntry(front, e);
      RunKeepsInv(front);
      LoadedStep(front, last, e);
      var s := Run(front);
      assert Shape(s) && Linked(s);
      hide Loaded;
      hide Failed;
      hide Next;
      NextThread(s, last, e);
      if IsGivenUp(Next(s, last), e) {
        NextGivesUp(s, last, e);
      }
      if IsGivenUp(s, e) || Fails(s, last, e) {
        StaysGivenUp(s, last, e);
      }
      hide IsGivenUp;
      hide HasThread;
      hide Shape;
      hide Linked;
      hide Loads;
      hide Fails;
    }
  }

  lemma NeverBoth(s: State, e: nat)
    requires Shape(s)
    ensures !(HasThread(s, e) && IsGivenUp(s, e))
  {
    if e < |s.entries| {
      assert EntryOk(s, e);
      if c: nat :| GivenUp(s, c, e) {
        assert CallOk(s, s.calls[c]);
      }
    }
  }

  /**
   * In every run an acquire that has ended returned a handle if and only if the loader of its entry returned while the
   * pool was open, and raised if and only if it raised or found the pool closed; never both.
   */
  lemma LoadDecidesCall(steps: seq<Step>, c: nat)
    requires var s := Run(steps); c < |s.calls| && (s.calls[c].phase.Returned? || s.calls[c].phase.Raised?)
    ensures var call := Run(steps).calls[c];
      && (call.phase.Returned? <==> Loaded(steps, call.entry))
      && (call.phase.Raised? <==> Failed(steps, call.entry))
  {
    RunKeepsInv(steps);
    var s := Run(steps);
    var e := s.calls[c].entry;
    assert Shape(s) && CallOk(s, s.calls[c]);
    NeverBoth(s, e);
    LoadDecidesEntry(steps, e);
    hide Run;
    hide Loaded;
    hide Failed;
    assert s.calls[c].phase.Raised? ==> GivenUp(s, c, e);
  }

  /** Every handle, released or not, is for an entry whose loader returned while the pool was open. */
  lemma HandlesAreLoaded(steps: seq<Step>, h: nat)
    requires h < |Run(steps).handles|
    ensures Loaded(steps, Run(steps).handles[h].entry) && !Failed(steps, Run(steps).handles[h].entry)
  {
    RunKeepsInv(steps);
    var s := Run(steps);
    assert Shape(s) && !s.entries[s.handles[h].entry].thread.NotStarted?;
    NeverBoth(s, s.handles[h].entry);
    LoadDecidesEntry(steps, s.handles[h].entry);
    hide Run;
    hide Loaded;
    hide Failed;
  }

  // ---- calls and their keys ---------------------------------------------------------------------------------

  ghost predicate SameCalls(s: State, t: State) {
    && |s.calls| <= |t.calls| && |s.entries| <= |t.entries| && (s.closed ==> t.closed)
    && (forall c | 0 <= c < |s.calls| :: t.calls[c].entry == s.calls[c].entry)
    && (forall e | 0 <= e < |s.entries| :: t.entries[e].key == s.entries[e].key)
  }

  lemma OtherSameCalls(s: State, step: Step)
    requires !step.Acquire?
    ensures SameCalls(s, Next(s, step)) && |Next(s, step).calls| == |s.calls|
  {
  }

  lemma AcquireSameCalls(s: State, key: Key)
    requires Linked(s)
    ensures var t := Next(s, Acquire(key));
      && SameCalls(s, t) && |t.calls| == |s.calls| + One(!s.closed)
      && (!s.closed ==>
            var e := t.calls[|s.calls|].entry;
            e < |t.entries| && t.entries[e].key == key)
  {
  }

  lemma NextSameCalls(s: State, step: Step)
    requires Linked(s)
    ensures SameCalls(s, Next(s, step))
    ensures |Next(s, step).calls| == |s.calls| + One(step.Acquire? && !s.closed)
    ensures step.Acquire? && !s.closed ==>
      var t := Next(s, step);
      var e := t.calls[|s.calls|].entry;
      e < |t.entries| && t.entries[e].key == step.key
  {
    hide Next;
    hide SameCalls;
    if step.Acquire? {
      AcquireSameCalls(s, step.key);
    } else {
      OtherSameCalls(s, step);
    }
  }

  /** Call `c` is served by an entry of the key. */
  ghost predicate Serves(s: State, c: nat, key: Key) {
    c < |s.calls| && s.calls[c].entry < |s.entries| && s.entries[s.calls[c].entry].key == key
  }

  lemma ServesStays(steps: seq<Step>, step: Step, c: nat, key: Key)
    requires Serves(Run(steps), c, key)
    ensures Serves(Next(Run(steps), step), c, key)
  {
    RunKeepsInv(steps);
    assert Linked(Run(steps));
    hide Run;
    NextSameCalls(Run(steps), step);
    hide Next;
  }

  /** The call an acquire makes, if the pool is open. */
  lemma AcquireServes(before: seq<Step>, key: Key)
    ensures var s, t := Run(before), Run(before + [Acquire(key)]);
      if s.closed then |t.calls| == |s.calls| else Serves(t, |s.calls|, key)
  {
    RunKeepsInv(before);
    assert Linked(Run(before));
    NextSameCalls(Run(before), Acquire(key));
    hide Next;
    assert (before + [Acquire(key)])[..|before|] == before;
  }

  /**
   * An acquire on the open pool makes one call, whose entry is of the key asked for ever after; on a closed pool it
   * makes none.
   */
  lemma {:induction false} CallsServeTheirKey(before: seq<Step>, key: Key, later: seq<Step>)
    ensures var s, t := Run(before), Run(before + [Acquire(key)] + later);
      if s.closed then |Run(before + [Acquire(key)]).calls| == |s.calls| else Serves(t, |s.calls|, key)
  {
    var asked := before + [Acquire(key)];
    AcquireServes(before, key);
    hide Next;
    hide Serves;
    if later == [] {
      assert asked + later == asked;
    } else {
      var front := later[..|later| - 1];
      assert (asked + later)[..|asked + later| - 1] == asked + front;
      CallsServeTheirKey(before, key, front);
      if !Run(before).closed {
        ServesStays(asked + front, later[|later| - 1], |Run(before).calls|, key);
      }
    }
  }

  // ---- carrying out the stops ------------------------------------------------------------------------------

  function AllStops(n: nat): seq<Step> {
    if n == 0 then [] else AllStops(n - 1) + [Step.Stop(n - 1)]
  }

  /** The stops below `n` were carried out, and nothing else happened. */
  ghost predicate StoppedBelow(s: State, t: State, n: nat) {
    && t.mapped == s.mapped && t.calls == s.calls && t.handles == s.handles && |t.entries| == |s.entries|
    && forall e | 0 <= e < |s.entries| ::
         t.entries[e] ==
           if e < n && s.entries[e].thread.StopDue? then s.entries[e].(thread := Stopped) else s.entries[e]
  }

  lemma {:induction false} StopsAreCarriedOut(steps: seq<Step>, n: nat)
    requires n <= |Run(steps).entries|
    ensures StoppedBelow(Run(steps), Run(steps + AllStops(n)), n)
  {
    if n == 0 {
      assert steps + AllStops(0) == steps;
    } else {
      StopsAreCarriedOut(steps, n - 1);
      var before := steps + AllStops(n - 1);
      assert (steps + AllStops(n))[..|steps + AllStops(n)| - 1] == before;
      OneStop(Run(steps), Run(before), n - 1);
      hide Next;
    }
  }

  lemma OneStop(s: State, t: State, n: nat)
    requires StoppedBelow(s, t, n) && n < |s.entries|
    ensures StoppedBelow(s, Next(t, Step.Stop(n)), n + 1)
  {
  }

  /** With every handle released and no acquire open, carrying out the stops leaves no model's thread. */
  lemma ReleasedPoolRunsNothing(steps: seq<Step>)
    requires var s := Run(steps);
      && (forall h | 0 <= h < |s.handles| :: s.handles[h].released)
      && (forall c | 0 <= c < |s.calls| :: s.calls[c].phase.Returned? || s.calls[c].phase.Raised?)
    ensures var t := Run(steps + AllStops(|Run(steps).entries|));
      t.mapped == map[] && forall e | 0 <= e < |t.entries| :: t.entries[e].thread.NotStarted? || t.entries[e].thread.Stopped?
  {
    StopsAreCarriedOut(steps, |Run(steps).entries|);
    NothingStaysLoaded(steps);
    hide Run;
    hide AllStops;
  }
}
