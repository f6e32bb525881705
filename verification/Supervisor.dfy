/**
 * The supervisor: one worker per camera of the snapshot, restarts of stalled ones, and the shutdown, over any
 * interleaving of their critical sections; and the sync requests that its loop serves.
 */
module Supervisor {
  import opened Options
  import opened Seqs

  /** A camera of the snapshot; `starts` is false when making or starting its worker raises. */
  datatype Wanted = Wanted(camera: int, starts: bool)

  datatype Sync = Requested(at: int) | Fetched

  /**
   * Workers are numbered as they are started; `cameras` and `restarts` are indexed by number. `handed` are the ones
   * given to stop, `batches` the stalled ones of each check that may still be restarted.
   */
  datatype State = State(
    workers: map<int, nat>, closed: bool, cameras: seq<int>, restarts: seq<nat>, handed: seq<nat>,
    batches: seq<seq<nat>>, due: Option<int>, log: seq<Sync>)

  const NewSupervisor := State(map[], false, [], [], [], [], None, [])

  predicate InWorkers(s: State, n: nat) {
    n < |s.cameras| && s.cameras[n] in s.workers && s.workers[s.cameras[n]] == n
  }

  /** The workers in use below `n` whose camera is not kept, in the order they were started. */
  function Leaving(s: State, kept: set<int>, n: nat): seq<nat>
    requires n <= |s.cameras|
  {
    if n == 0 then []
    else Leaving(s, kept, n - 1) + if InWorkers(s, n - 1) && s.cameras[n - 1] !in kept then [n - 1] else []
  }

  /** Takes the workers whose camera is not kept out of `workers` and hands them to stop. */
  function Keep(s: State, kept: set<int>): State {
    s.(workers := map c | c in s.workers && c in kept :: s.workers[c],
       handed := s.handed + Leaving(s, kept, |s.cameras|))
  }

  function Started(s: State, camera: int, restarts: nat): State {
    s.(workers := s.workers[camera := |s.cameras|], cameras := s.cameras + [camera], restarts := s.restarts + [restarts])
  }

  function StartMissing(s: State, wanted: seq<Wanted>): State {
    if wanted == [] then s
    else
      var before, last := StartMissing(s, wanted[..|wanted| - 1]), wanted[|wanted| - 1];
      if last.camera !in before.workers && last.starts then Started(before, last.camera, 0) else before
  }

  function CamerasOf(wanted: seq<Wanted>): set<int> {
    set w | w in wanted :: w.camera
  }

  function Reconciled(s: State, wanted: seq<Wanted>, keep: set<int>): State {
    if s.closed then s else StartMissing(Keep(s, CamerasOf(wanted) + keep), wanted)
  }

  /** The stalled and dead workers leave `workers` before they are stopped. */
  function StalledTaken(s: State, stalled: set<int>): State {
    if s.closed then s
    else
      var kept := s.workers.Keys - stalled;
      Keep(s, kept).(batches := s.batches + [Leaving(s, kept, |s.cameras|)])
  }

  /** A successor of worker `n`, unless the supervisor closed or the camera has a worker again. */
  function RestartOne(s: State, n: nat, starts: bool): State {
    if s.closed || n >= |s.cameras| || n >= |s.restarts| || s.cameras[n] in s.workers || !starts then s
    else Started(s, s.cameras[n], s.restarts[n] + 1)
  }

  /** After the stops. */
  function Restarted(s: State, batch: seq<nat>, starts: nat -> bool): State {
    if batch == [] then s
    else RestartOne(Restarted(s, batch[..|batch| - 1], starts), batch[|batch| - 1], starts(batch[|batch| - 1]))
  }

  function ShutDown(s: State): State {
    Keep(s, {}).(closed := true)
  }

  /** request_sync: a deadline, unless one is set. */
  function RequestedAt(s: State, now: int, debounce: nat): State {
    s.(due := if s.due.None? then Some(now + debounce) else s.due, log := s.log + [Requested(now)])
  }

  predicate DueNow(s: State, now: int, nextSync: int) {
    now >= nextSync || (s.due.Some? && now >= s.due.value)
  }

  /** The top of a round: a due sync clears the deadline before it fetches. */
  function RoundBegun(s: State, now: int, nextSync: int): State {
    if DueNow(s, now, nextSync) then s.(due := None, log := s.log + [Fetched]) else s
  }

  datatype Step =
    | Reconcile(wanted: seq<Wanted>, keep: set<int>)
    | TakeStalled(stalled: set<int>)
    | RestartStalled(batch: nat, starts: nat -> bool)
    | Shutdown
    | RequestSync(now: int)
    | BeginRound(now: int, nextSync: int)

  function Next(debounce: nat, s: State, step: Step): State {
    match step
    case Reconcile(wanted, keep) => Reconciled(s, wanted, keep)
    case TakeStalled(stalled) => StalledTaken(s, stalled)
    case RestartStalled(b, starts) => if b < |s.batches| then Restarted(s, s.batches[b], starts) else s
    case Shutdown => ShutDown(s)
    case RequestSync(now) => RequestedAt(s, now, debounce)
    case BeginRound(now, nextSync) => RoundBegun(s, now, nextSync)
  }

  function Run(debounce: nat, steps: seq<Step>): State {
    if steps == [] then NewSupervisor else Next(debounce, Run(debounce, steps[..|steps| - 1]), steps[|steps| - 1])
  }

  // ---- every worker is in use or was handed to stop, once -------------------------------------------------

  ghost predicate OnePlaceEach(s: State) {
    forall n: nat :: Count(Is(n), s.handed) + One(InWorkers(s, n)) == One(n < |s.cameras|)
  }

  ghost predicate Shape(s: State) {
    && |s.restarts| == |s.cameras| && (s.closed ==> s.workers == map[])
    && (forall c | c in s.workers :: s.workers[c] < |s.cameras| && s.cameras[s.workers[c]] == c)
  }

  ghost predicate Inv(s: State) {
    Shape(s) && OnePlaceEach(s)
  }

  lemma {:induction false} LeavingCount(s: State, kept: set<int>, n: nat, k: nat)
    requires n <= |s.cameras|
    ensures Count(Is(k), Leaving(s, kept, n)) == One(k < n && InWorkers(s, k) && s.cameras[k] !in kept)
  {
    if n > 0 {
      LeavingCount(s, kept, n - 1, k);
      var m: nat := n - 1;
      if InWorkers(s, m) && s.cameras[m] !in kept {
        CountAppend(Is(k), Leaving(s, kept, m), m);
      } else {
        assert Leaving(s, kept, n) == Leaving(s, kept, n - 1);
      }
    }
  }

  lemma KeepKeeps(s: State, kept: set<int>)
    requires Inv(s)
    ensures Inv(Keep(s, kept))
  {
    var t := Keep(s, kept);
    forall n: nat
      ensures Count(Is(n), t.handed) + One(InWorkers(t, n)) == One(n < |t.cameras|)
    {
      CountConcat(Is(n), s.handed, Leaving(s, kept, |s.cameras|));
      LeavingCount(s, kept, |s.cameras|, n);
      assert InWorkers(t, n) <==> InWorkers(s, n) && s.cameras[n] in kept;
    }
    if s.closed {
      assert t.workers == map[];
    }
  }

  lemma StartedKeeps(s: State, camera: int, restarts: nat)
    requires Inv(s) && camera !in s.workers && !s.closed
    ensures Inv(Started(s, camera, restarts))
  {
    var t := Started(s, camera, restarts);
    forall n: nat
      ensures Count(Is(n), t.handed) + One(InWorkers(t, n)) == One(n < |t.cameras|)
    {
      assert InWorkers(t, n) <==> InWorkers(s, n) || n == |s.cameras|;
      assert Count(Is(n), s.handed) + One(InWorkers(s, n)) == One(n < |s.cameras|);
    }
  }

  lemma {:induction false} StartMissingKeeps(s: State, wanted: seq<Wanted>)
    requires Inv(s) && !s.closed
    ensures Inv(StartMissing(s, wanted)) && !StartMissing(s, wanted).closed
  {
    if wanted != [] {
      StartMissingKeeps(s, wanted[..|wanted| - 1]);
      hide Inv;
      var before, last := StartMissing(s, wanted[..|wanted| - 1]), wanted[|wanted| - 1];
      if last.camera !in before.workers && last.starts {
        StartedKeeps(before, last.camera, 0);
      }
    }
  }

  lemma {:induction false} RestartedKeeps(s: State, batch: seq<nat>, starts: nat -> bool)
    requires Inv(s)
    ensures Inv(Restarted(s, batch, starts)) && Restarted(s, batch, starts).closed == s.closed
  {
    if batch != [] {
      RestartedKeeps(s, batch[..|batch| - 1], starts);
      hide Inv;
      var before, n := Restarted(s, batch[..|batch| - 1], starts), batch[|batch| - 1];
      if !before.closed && n < |before.cameras| && n < |before.restarts|
        && before.cameras[n] !in before.workers && starts(n)
      {
        StartedKeeps(before, before.cameras[n], before.restarts[n] + 1);
      }
    }
  }

  lemma NextKeepsInv(debounce: nat, s: State, step: Step)
    requires Inv(s)
    ensures Inv(Next(debounce, s, step))
  {
    match step
    case Reconcile(wanted, keep) =>
      KeepKeeps(s, CamerasOf(wanted) + keep);
      if !s.closed {
        StartMissingKeeps(Keep(s, CamerasOf(wanted) + keep), wanted);
      }
    case TakeStalled(stalled) =>
      if !s.closed {
        KeepKeeps(s, s.workers.Keys - stalled);
        SameWorkers(Keep(s, s.workers.Keys - stalled), Next(debounce, s, step));
      }
    case RestartStalled(b, starts) =>
      if b < |s.batches| {
        RestartedKeeps(s, s.batches[b], starts);
      }
    case Shutdown =>
      KeepKeeps(s, {});
      assert Keep(s, {}).workers == map[];
      SameWorkers(Keep(s, {}), ShutDown(s));
    case _ => SameWorkers(s, Next(debounce, s, step));
  }

  lemma SameWorkers(s: State, t: State)
    requires Inv(s) && t.workers == s.workers && t.cameras == s.cameras && t.restarts == s.restarts && t.handed == s.handed
    requires t.closed ==> t.workers == map[]
    ensures Inv(t)
  {
    forall n: nat
      ensures InWorkers(t, n) == InWorkers(s, n)
    {
    }
  }

  lemma {:induction false} RunKeepsInv(debounce: nat, steps: seq<Step>)
    ensures Inv(Run(debounce, steps))
  {
    if steps != [] {
      RunKeepsInv(debounce, steps[..|steps| - 1]);
      hide Inv;
      NextKeepsInv(debounce, Run(debounce, steps[..|steps| - 1]), steps[|steps| - 1]);
      hide Next;
    }
  }

  /** Every started worker is the one in use for its camera, or was handed to stop, once and not both. */
  lemma InUseOrHandedOnce(debounce: nat, steps: seq<Step>, n: nat)
    requires n < |Run(debounce, steps).cameras|
    ensures var s := Run(debounce, steps);
      && (InWorkers(s, n) <==> n !in s.handed)
      && Count(Is(n), s.handed) <= 1
  {
    RunKeepsInv(debounce, steps);
    var s := Run(debounce, steps);
    hide Run;
    assert Count(Is(n), s.handed) + One(InWorkers(s, n)) == 1;
    if n in s.handed {
      var i :| 0 <= i < |s.handed| && s.handed[i] == n;
      CountAt(Is(n), s.handed, i);
    } else if Count(Is(n), s.handed) > 0 {
      var i := CountSome(Is(n), s.handed);
    }
  }

  // ---- closed is closed -----------------------------------------------------------------------------------

  lemma {:induction false} RestartedClosed(s: State, batch: seq<nat>, starts: nat -> bool)
    requires s.closed
    ensures Restarted(s, batch, starts) == s
  {
    if batch != [] {
      RestartedClosed(s, batch[..|batch| - 1], starts);
    }
  }

  lemma ClosedStaysClosed(debounce: nat, s: State, step: Step)
    requires Inv(s) && s.closed
    ensures var t := Next(debounce, s, step);
      t.closed && t.workers == map[] && t.cameras == s.cameras && t.handed == s.handed
  {
    NextKeepsInv(debounce, s, step);
    if step.RestartStalled? && step.batch < |s.batches| {
      RestartedClosed(s, s.batches[step.batch], step.starts);
    }
    NoneLeaves(s, {}, |s.cameras|);
  }

  lemma {:induction false} NoneLeaves(s: State, kept: set<int>, n: nat)
    requires n <= |s.cameras| && s.workers == map[]
    ensures Leaving(s, kept, n) == []
  {
    if n > 0 {
      NoneLeaves(s, kept, n - 1);
    }
  }

  /** From the shutdown on no worker is in use or started, and every worker ever started was handed to stop. */
  lemma {:induction false} NothingStartsAfterShutdown(debounce: nat, before: seq<Step>, after: seq<Step>)
    ensures var down, s := Run(debounce, before + [Shutdown]), Run(debounce, before + [Shutdown] + after);
      && s.closed && s.workers == map[] && s.cameras == down.cameras
      && (forall n: nat | n < |s.cameras| :: n in s.handed)
  {
    var all := before + [Shutdown] + after;
    var s := Run(debounce, all);
    if after == [] {
      assert all == before + [Shutdown];
      assert all[..|all| - 1] == before;
    } else {
      var front := after[..|after| - 1];
      NothingStartsAfterShutdown(debounce, before, front);
      assert all[..|all| - 1] == before + [Shutdown] + front;
      RunKeepsInv(debounce, before + [Shutdown] + front);
      ClosedStaysClosed(debounce, Run(debounce, before + [Shutdown] + front), after[|after| - 1]);
      hide Next;
    }
    RunKeepsInv(debounce, all);
    forall n: nat | n < |s.cameras|
      ensures n in s.handed
    {
      InUseOrHandedOnce(debounce, all, n);
    }
  }

  // ---- who leaves and who comes ---------------------------------------------------------------------------

  lemma {:induction false} LeavingIff(s: State, kept: set<int>, n: nat, k: nat)
    requires n <= |s.cameras|
    ensures k in Leaving(s, kept, n) <==> k < n && InWorkers(s, k) && s.cameras[k] !in kept
  {
    if n > 0 {
      LeavingIff(s, kept, n - 1, k);
    }
  }

  /** A worker was in use for a camera and is handed to stop now. */
  ghost predicate HandedNow(s: State, t: State, n: nat) {
    s.handed <= t.handed && n in t.handed[|s.handed|..]
  }

  /** The camera's worker is a new one that never restarted. */
  predicate IsNew(s: State, t: State, camera: int, restarts: nat) {
    && camera in t.workers && |s.cameras| <= t.workers[camera] < |t.cameras| == |t.restarts|
    && t.cameras[t.workers[camera]] == camera && t.restarts[t.workers[camera]] == restarts
  }

  predicate CanStart(wanted: seq<Wanted>, camera: int) {
    exists i :: 0 <= i < |wanted| && wanted[i] == Wanted(camera, true)
  }

  lemma {:induction false} MissingStarted(s: State, wanted: seq<Wanted>, camera: int)
    requires Shape(s)
    ensures var t := StartMissing(s, wanted);
      && |t.restarts| == |t.cameras| && s.cameras <= t.cameras && s.restarts <= t.restarts && t.handed == s.handed
      && (if camera in s.workers then camera in t.workers && t.workers[camera] == s.workers[camera]
          else if CanStart(wanted, camera) then IsNew(s, t, camera, 0)
          else camera !in t.workers)
  {
    if wanted != [] {
      var front, last := wanted[..|wanted| - 1], wanted[|wanted| - 1];
      MissingStarted(s, front, camera);
      assert CanStart(wanted, camera) <==> CanStart(front, camera) || last == Wanted(camera, true);
    }
  }

  lemma KeptShape(s: State, kept: set<int>)
    requires Shape(s)
    ensures Shape(Keep(s, kept))
  {
  }

  lemma HandedByKeep(s: State, kept: set<int>, n: nat)
    ensures HandedNow(s, Keep(s, kept), n) <==> InWorkers(s, n) && s.cameras[n] !in kept
  {
    LeavingIff(s, kept, |s.cameras|, n);
    var t := Keep(s, kept);
    assert t.handed[|s.handed|..] == Leaving(s, kept, |s.cameras|);
  }

  /**
   * A reconcile of an open supervisor, in any run: a camera listed or to be left alone keeps its worker, a listed one
   * without a worker gets a new one if it can start, any other camera has none; and the workers handed to stop are
   * those of the cameras that are neither listed nor to be left alone. Once closed it changes nothing.
   */
  lemma ReconcileFollowsSnapshot(debounce: nat, steps: seq<Step>, wanted: seq<Wanted>, keep: set<int>, camera: int, n: nat)
    ensures var s := Run(debounce, steps);
      var t := Next(debounce, s, Reconcile(wanted, keep));
      var listed := camera in CamerasOf(wanted) || camera in keep;
      if s.closed then t == s
      else
        && (if camera in s.workers && listed then camera in t.workers && t.workers[camera] == s.workers[camera]
            else if CanStart(wanted, camera) then IsNew(s, t, camera, 0)
            else camera !in t.workers)
        && (HandedNow(s, t, n) <==>
              InWorkers(s, n) && s.cameras[n] !in CamerasOf(wanted) && s.cameras[n] !in keep)
  {
    RunKeepsInv(debounce, steps);
    var s := Run(debounce, steps);
    hide Run;
    if !s.closed {
      var kept := CamerasOf(wanted) + keep;
      KeptShape(s, kept);
      HandedByKeep(s, kept, n);
      MissingStarted(Keep(s, kept), wanted, camera);
      if CanStart(wanted, camera) {
        assert Wanted(camera, true) in wanted;
      }
      hide StartMissing;
      hide CanStart;
      hide OnePlaceEach;
    }
  }

  /** A stall check of an open supervisor: exactly the stalled cameras' workers leave, are handed to stop and noted. */
  lemma StalledLeave(debounce: nat, steps: seq<Step>, stalled: set<int>, camera: int, n: nat)
    ensures var s := Run(debounce, steps);
      var t := Next(debounce, s, TakeStalled(stalled));
      if s.closed then t == s
      else
        && (camera in t.workers <==> camera in s.workers && camera !in stalled)
        && (camera in t.workers ==> t.workers[camera] == s.workers[camera])
        && (HandedNow(s, t, n) <==> InWorkers(s, n) && s.cameras[n] in stalled)
        && |t.batches| == |s.batches| + 1 && (n in t.batches[|s.batches|] <==> HandedNow(s, t, n))
  {
    var s := Run(debounce, steps);
    hide Run;
    if !s.closed {
      var kept := s.workers.Keys - stalled;
      HandedByKeep(s, kept, n);
      LeavingIff(s, kept, |s.cameras|, n);
      assert InWorkers(s, n) ==> s.cameras[n] in s.workers.Keys;
      hide Leaving;
    }
  }

  lemma {:induction false} RestartedGrows(s: State, batch: seq<nat>, starts: nat -> bool)
    requires Shape(s)
    ensures var t := Restarted(s, batch, starts);
      && |t.restarts| == |t.cameras| && s.cameras <= t.cameras && s.restarts <= t.restarts && t.closed == s.closed
      && (forall c | c in s.workers :: c in t.workers && t.workers[c] == s.workers[c])
  {
    if batch != [] {
      RestartedGrows(s, batch[..|batch| - 1], starts);
    }
  }

  /** The i-th of the batch is a worker of the camera, and its successor can start. */
  predicate CanRestart(s: State, batch: seq<nat>, starts: nat -> bool, camera: int, i: nat) {
    i < |batch| && batch[i] < |s.cameras| && s.cameras[batch[i]] == camera && starts(batch[i])
  }

  lemma {:induction false} RestartedIff(s: State, batch: seq<nat>, starts: nat -> bool, camera: int)
    requires Shape(s) && !s.closed && camera !in s.workers && forall i | 0 <= i < |batch| :: batch[i] < |s.cameras|
    ensures var t := Restarted(s, batch, starts);
      && (camera in t.workers <==> exists i: nat :: CanRestart(s, batch, starts, camera, i))
      && (camera in t.workers ==>
            exists i: nat :: CanRestart(s, batch, starts, camera, i) && IsNew(s, t, camera, s.restarts[batch[i]] + 1))
  {
    if batch != [] {
      var front, last := batch[..|batch| - 1], batch[|batch| - 1];
      var m := Restarted(s, front, starts);
      RestartedIff(s, front, starts, camera);
      RestartedGrows(s, front, starts);
      assert forall i: nat | i < |front| ::
          CanRestart(s, batch, starts, camera, i) == CanRestart(s, front, starts, camera, i);
      assert forall i: nat | CanRestart(s, batch, starts, camera, i) && i >= |front| :: i == |front|;
      if camera in m.workers {
        var i: nat :| CanRestart(s, front, starts, camera, i) && IsNew(s, m, camera, s.restarts[front[i]] + 1);
        assert CanRestart(s, batch, starts, camera, i);
      } else if s.cameras[last] == camera && starts(last) {
        assert CanRestart(s, batch, starts, camera, |front|);
      }
    }
  }

  ghost predicate BatchesIn(s: State) {
    forall b, i | 0 <= b < |s.batches| && 0 <= i < |s.batches[b]| :: s.batches[b][i] < |s.cameras|
  }

  lemma NextKeepsBatches(debounce: nat, s: State, step: Step)
    requires Inv(s) && BatchesIn(s)
    ensures BatchesIn(Next(debounce, s, step))
  {
    match step
    case Reconcile(wanted, keep) =>
      if !s.closed {
        StartMissingGrows(Keep(s, CamerasOf(wanted) + keep), wanted);
      }
    case TakeStalled(stalled) =>
      var leaving := Leaving(s, s.workers.Keys - stalled, |s.cameras|);
      forall i | 0 <= i < |leaving|
        ensures leaving[i] < |s.cameras|
      {
        LeavingIff(s, s.workers.Keys - stalled, |s.cameras|, leaving[i]);
      }
    case RestartStalled(b, starts) =>
      if b < |s.batches| {
        RestartedKeepsBatches(s, s.batches[b], starts);
      }
    case _ =>
  }

  lemma {:induction false} StartMissingGrows(s: State, wanted: seq<Wanted>)
    ensures var t := StartMissing(s, wanted);
      s.cameras <= t.cameras && t.batches == s.batches
  {
    if wanted != [] {
      StartMissingGrows(s, wanted[..|wanted| - 1]);
    }
  }

  lemma {:induction false} RestartedKeepsBatches(s: State, batch: seq<nat>, starts: nat -> bool)
    ensures var t := Restarted(s, batch, starts);
      s.cameras <= t.cameras && t.batches == s.batches
  {
    if batch != [] {
      RestartedKeepsBatches(s, batch[..|batch| - 1], starts);
    }
  }

  lemma {:induction false} RunKeepsBatches(debounce: nat, steps: seq<Step>)
    ensures BatchesIn(Run(debounce, steps))
  {
    if steps != [] {
      RunKeepsBatches(debounce, steps[..|steps| - 1]);
      RunKeepsInv(debounce, steps[..|steps| - 1]);
      hide Inv;
      hide BatchesIn;
      NextKeepsBatches(debounce, Run(debounce, steps[..|steps| - 1]), steps[|steps| - 1]);
      hide Next;
    }
  }

  /**
   * After the stops of a stall check, in any run of an open supervisor: a camera without a worker gets one if and only
   * if a worker of it was stalled and its successor can start, with one restart more; the others keep theirs.
   */
  lemma StalledComeBackIff(debounce: nat, steps: seq<Step>, b: nat, starts: nat -> bool, camera: int)
    requires b < |Run(debounce, steps).batches| && !Run(debounce, steps).closed
    ensures var s := Run(debounce, steps);
      var t := Next(debounce, s, RestartStalled(b, starts));
      if camera in s.workers then camera in t.workers && t.workers[camera] == s.workers[camera]
      else
        && (camera in t.workers <==> exists i: nat :: CanRestart(s, s.batches[b], starts, camera, i))
        && (camera in t.workers ==> exists i: nat ::
              CanRestart(s, s.batches[b], starts, camera, i) && s.batches[b][i] < |s.restarts|
              && IsNew(s, t, camera, s.restarts[s.batches[b][i]] + 1))
  {
    RunKeepsInv(debounce, steps);
    RunKeepsBatches(debounce, steps);
    var s := Run(debounce, steps);
    hide Run;
    assert Shape(s);
    if camera in s.workers {
      RestartedGrows(s, s.batches[b], starts);
    } else {
      RestartedIff(s, s.batches[b], starts, camera);
    }
    hide Restarted;
    hide CanRestart;
  }

  // ---- restarts -------------------------------------------------------------------------------------------

  /** Worker `k` is of the camera of an earlier one of the batch, with one restart more. */
  ghost predicate Succeeds(t: State, batch: seq<nat>, k: nat)
    requires k < |t.cameras| == |t.restarts|
  {
    exists n | 0 <= n < |batch| ::
      batch[n] < k && t.cameras[k] == t.cameras[batch[n]] && t.restarts[k] == t.restarts[batch[n]] + 1
  }

  /** A successor is one restart on from the worker it replaces, which was handed to stop. */
  lemma RestartSucceeds(debounce: nat, s: State, b: nat, starts: nat -> bool)
    requires b < |s.batches| && Inv(s)
    ensures var t := Next(debounce, s, RestartStalled(b, starts));
      && s.cameras <= t.cameras && s.restarts <= t.restarts && t.handed == s.handed && |t.restarts| == |t.cameras|
      && forall k: nat | |s.cameras| <= k < |t.cameras| :: Succeeds(t, s.batches[b], k)
  {
    RestartedSucceeds(s, s.batches[b], starts);
    hide Restarted;
    hide Succeeds;
  }

  lemma {:induction false} RestartedSucceeds(s: State, batch: seq<nat>, starts: nat -> bool)
    requires Inv(s)
    ensures var t := Restarted(s, batch, starts);
      && s.cameras <= t.cameras && s.restarts <= t.restarts && t.handed == s.handed && |t.restarts| == |t.cameras|
      && forall k: nat | |s.cameras| <= k < |t.cameras| :: Succeeds(t, batch, k)
  {
    if batch != [] {
      var front := batch[..|batch| - 1];
      RestartedSucceeds(s, front, starts);
      var m, t := Restarted(s, front, starts), Restarted(s, batch, starts);
      forall k: nat | |s.cameras| <= k < |t.cameras|
        ensures Succeeds(t, batch, k)
      {
        if k < |m.cameras| {
          assert Succeeds(m, front, k);
          var n :| 0 <= n < |front| && front[n] < k
            && m.cameras[k] == m.cameras[front[n]] && m.restarts[k] == m.restarts[front[n]] + 1;
          assert batch[n] == front[n];
        } else {
          assert batch[|batch| - 1] < k;
        }
      }
    }
  }

  // ---- sync requests --------------------------------------------------------------------------------------

  /** The first request since the last fetch began. */
  function Unserved(log: seq<Sync>): Option<int> {
    if log == [] then None
    else
      var last := log[|log| - 1];
      if last.Fetched? then None
      else
        var earlier := Unserved(log[..|log| - 1]);
        if earlier.Some? then earlier else Some(last.at)
  }

  predicate DueOk(debounce: nat, s: State) {
    match Unserved(s.log)
    case None => s.due == None
    case Some(at) => s.due == Some(at + debounce)
  }

  lemma {:induction false} StartMissingKeepsDue(s: State, wanted: seq<Wanted>)
    ensures StartMissing(s, wanted).due == s.due && StartMissing(s, wanted).log == s.log
  {
    if wanted != [] {
      StartMissingKeepsDue(s, wanted[..|wanted| - 1]);
    }
  }

  lemma {:induction false} RestartedKeepsDue(s: State, batch: seq<nat>, starts: nat -> bool)
    ensures Restarted(s, batch, starts).due == s.due && Restarted(s, batch, starts).log == s.log
  {
    if batch != [] {
      RestartedKeepsDue(s, batch[..|batch| - 1], starts);
    }
  }

  lemma NextKeepsDue(debounce: nat, s: State, step: Step)
    requires DueOk(debounce, s)
    ensures DueOk(debounce, Next(debounce, s, step))
  {
    match step
    case Reconcile(wanted, keep) => StartMissingKeepsDue(Keep(s, CamerasOf(wanted) + keep), wanted);
    case RestartStalled(b, starts) =>
      if b < |s.batches| {
        RestartedKeepsDue(s, s.batches[b], starts);
      }
    case RequestSync(now) => assert (s.log + [Requested(now)])[..|s.log|] == s.log;
    case BeginRound(_, _) => assert (s.log + [Fetched])[..|s.log|] == s.log;
    case _ =>
  }

  lemma {:induction false} RunKeepsDue(debounce: nat, steps: seq<Step>)
    ensures DueOk(debounce, Run(debounce, steps))
  {
    if steps != [] {
      RunKeepsDue(debounce, steps[..|steps| - 1]);
      hide DueOk;
      NextKeepsDue(debounce, Run(debounce, steps[..|steps| - 1]), steps[|steps| - 1]);
      hide Next;
    }
  }

  /**
   * No request is lost: a round begins a fetch exactly when the resync is due or the first request since the last
   * fetch is older than the debounce time; so a fetch begins after each request, within the first such round.
   */
  lemma RequestsAreServed(debounce: nat, steps: seq<Step>, now: int, nextSync: int)
    ensures var s := Run(debounce, steps);
      RoundBegun(s, now, nextSync).log == s.log + [Fetched] <==>
      now >= nextSync || (Unserved(s.log).Some? && now >= Unserved(s.log).value + debounce)
  {
    RunKeepsDue(debounce, steps);
    var s := Run(debounce, steps);
    hide Run;
    assert |s.log + [Fetched]| == |s.log| + 1;
  }

  // ---- every request is followed by a fetch ----------------------------------------------------------------

  /** The clock reading a step takes, if it takes one. */
  function Reading(step: Step): Option<int> {
    match step
    case RequestSync(now) => Some(now)
    case BeginRound(now, _) => Some(now)
    case _ => None
  }

  /** Readings of the monotonic clock do not decrease. */
  ghost predicate Clocked(steps: seq<Step>) {
    forall i, j | 0 <= i < j < |steps| && Reading(steps[i]).Some? && Reading(steps[j]).Some? ::
      Reading(steps[i]).value <= Reading(steps[j]).value
  }

  lemma NextLog(debounce: nat, s: State, step: Step)
    ensures var t := Next(debounce, s, step);
      t.log == s.log + if step.RequestSync? then [Requested(step.now)]
                       else if step.BeginRound? && DueNow(s, step.now, step.nextSync) then [Fetched] else []
  {
    match step
    case Reconcile(wanted, keep) => StartMissingKeepsDue(Keep(s, CamerasOf(wanted) + keep), wanted);
    case RestartStalled(b, starts) =>
      if b < |s.batches| {
        RestartedKeepsDue(s, s.batches[b], starts);
      }
    case _ =>
  }

  predicate NoLaterThan(t: int, log: seq<Sync>) {
    forall i | 0 <= i < |log| && log[i].Requested? :: log[i].at <= t
  }

  lemma {:induction false} RequestsSoFar(debounce: nat, steps: seq<Step>, t: int)
    requires forall i | 0 <= i < |steps| && Reading(steps[i]).Some? :: Reading(steps[i]).value <= t
    ensures NoLaterThan(t, Run(debounce, steps).log)
  {
    if steps != [] {
      RequestsSoFar(debounce, steps[..|steps| - 1], t);
      NextLog(debounce, Run(debounce, steps[..|steps| - 1]), steps[|steps| - 1]);
      assert Reading(steps[|steps| - 1]).Some? ==> Reading(steps[|steps| - 1]).value <= t;
      hide Next;
    }
  }

  lemma {:induction false} UnservedNoLater(log: seq<Sync>, t: int)
    requires NoLaterThan(t, log)
    ensures Unserved(log).Some? ==> Unserved(log).value <= t
  {
    if log != [] {
      UnservedNoLater(log[..|log| - 1], t);
    }
  }

  /** A request made at `t`, position `n` of the log, has been served or is waiting with a deadline set by then. */
  ghost predicate ServedOrWaiting(s: State, n: nat, t: int) {
    && n < |s.log| && s.log[n] == Requested(t)
    && (FetchedAfter(s.log, n) || (Unserved(s.log).Some? && Unserved(s.log).value <= t))
  }

  ghost predicate FetchedAfter(log: seq<Sync>, n: nat) {
    exists j :: n < j < |log| && log[j] == Fetched
  }

  lemma ServedStays(debounce: nat, s: State, step: Step, n: nat, t: int)
    requires ServedOrWaiting(s, n, t)
    ensures ServedOrWaiting(Next(debounce, s, step), n, t)
  {
    var u := Next(debounce, s, step);
    NextLog(debounce, s, step);
    hide Next;
    if FetchedAfter(s.log, n) {
      var j :| n < j < |s.log| && s.log[j] == Fetched;
      assert u.log[j] == Fetched;
    } else if u.log != s.log {
      assert u.log[..|s.log|] == s.log;
      if u.log[|s.log|] == Fetched {
        assert FetchedAfter(u.log, n);
      }
    }
  }

  lemma RunStep(debounce: nat, steps: seq<Step>, step: Step)
    ensures Run(debounce, steps + [step]) == Next(debounce, Run(debounce, steps), step)
  {
    assert (steps + [step])[..|steps|] == steps;
    hide Next;
  }

  lemma WaitingAtFirst(debounce: nat, before: seq<Step>, t: int)
    requires Clocked(before + [RequestSync(t)])
    ensures ServedOrWaiting(Run(debounce, before + [RequestSync(t)]), |Run(debounce, before).log|, t)
  {
    var asked := before + [RequestSync(t)];
    assert forall i | 0 <= i < |before| :: asked[i] == before[i];
    assert asked[|before|] == RequestSync(t);
    RequestsSoFar(debounce, before, t);
    RunStep(debounce, before, RequestSync(t));
    var s := Run(debounce, before);
    hide Run;
    NextLog(debounce, s, RequestSync(t));
    hide Next;
    assert (s.log + [Requested(t)])[..|s.log|] == s.log;
    UnservedNoLater(s.log, t);
  }

  lemma {:induction false} ServedOverRun(debounce: nat, before: seq<Step>, t: int, mid: seq<Step>)
    requires Clocked(before + [RequestSync(t)])
    ensures ServedOrWaiting(Run(debounce, before + [RequestSync(t)] + mid), |Run(debounce, before).log|, t)
  {
    var all := before + [RequestSync(t)] + mid;
    if mid == [] {
      assert all == before + [RequestSync(t)];
      hide *;
      WaitingAtFirst(debounce, before, t);
    } else {
      var front := mid[..|mid| - 1];
      ServedOverRun(debounce, before, t, front);
      assert all[..|all| - 1] == before + [RequestSync(t)] + front;
      hide ServedOrWaiting;
      ServedStays(debounce, Run(debounce, before + [RequestSync(t)] + front), mid[|mid| - 1], |Run(debounce, before).log|, t);
      hide Next;
    }
  }

  /**
   * Every request_sync is followed by a fetch that begins after it: whatever happens in between, at the latest the
   * first round that begins the debounce time after the request fetches.
   */
  lemma FetchFollowsRequest(debounce: nat, before: seq<Step>, t: int, mid: seq<Step>, now: int, nextSync: int)
    requires Clocked(before + [RequestSync(t)] + mid + [BeginRound(now, nextSync)]) && now >= t + debounce
    ensures var n := |Run(debounce, before).log|;
      var log := Run(debounce, before + [RequestSync(t)] + mid + [BeginRound(now, nextSync)]).log;
      n < |log| && log[n] == Requested(t) && FetchedAfter(log, n)
  {
    var most := before + [RequestSync(t)] + mid;
    var all := most + [BeginRound(now, nextSync)];
    var n := |Run(debounce, before).log|;
    assert all[..|most|] == most;
    var asked := before + [RequestSync(t)];
    assert forall i | 0 <= i < |asked| :: asked[i] == all[i];
    ServedOverRun(debounce, before, t, mid);
    var s := Run(debounce, most);
    NextLog(debounce, s, BeginRound(now, nextSync));
    RunKeepsDue(debounce, most);
    hide Run;
    hide Next;
    assert Run(debounce, all) == Next(debounce, s, BeginRound(now, nextSync)) by {
      RunStep(debounce, most, BeginRound(now, nextSync));
    }
    var log := Run(debounce, all).log;
    if FetchedAfter(s.log, n) {
      var j :| n < j < |s.log| && s.log[j] == Fetched;
      assert log[j] == Fetched;
    } else {
      assert log[|s.log|] == Fetched;
    }
  }

  // ---- the object -----------------------------------------------------------------------------------------

  class CameraSupervisor {
    const debounce: nat
    var workers: map<int, nat>
    var closed: bool
    var cameras: seq<int>
    var restarts: seq<nat>
    var due: Option<int>
    var batches: seq<seq<nat>>
    ghost var handed: seq<nat>
    ghost var log: seq<Sync>

    ghost function Value(): State
      reads this
    {
      State(workers, closed, cameras, restarts, handed, batches, due, log)
    }

    constructor (debounce: nat)
      ensures Value() == NewSupervisor && Inv(Value()) && DueOk(debounce, Value()) && this.debounce == debounce
    {
      this.debounce := debounce;
      workers, closed, cameras, restarts, due, batches := map[], false, [], [], None, [];
      handed, log := [], [];
      new;
      RunKeepsInv(debounce, []);
    }

    /** Under the lock: the workers of the other cameras leave `workers`, to be stopped once it is released. */
    method TakeOut(kept: set<int>) returns (taken: seq<nat>)
      requires Inv(Value())
      modifies this`workers, this`handed
      ensures Value() == Keep(old(Value()), kept) && taken == Leaving(old(Value()), kept, |cameras|)
    {
      taken := [];
      for n := 0 to |cameras|
        invariant taken == Leaving(Value(), kept, n)
      {
        var camera := cameras[n];
        if camera in workers && workers[camera] == n && camera !in kept {
          taken := taken + [n];
        }
      }
      handed := handed + taken;
      workers := map c | c in workers && c in kept :: workers[c];
    }

    method StartWorker(camera: int, count: nat)
      modifies this`workers, this`cameras, this`restarts
      ensures Value() == Started(old(Value()), camera, count)
    {
      workers := workers[camera := |cameras|];
      cameras, restarts := cameras + [camera], restarts + [count];
    }

    /** The locked part of reconcile(); a listed camera with a worker is updated, which changes nothing here. */
    method ReconcileCameras(wanted: seq<Wanted>, keep: set<int>)
      requires Inv(Value())
      modifies this`workers, this`handed, this`cameras, this`restarts
      ensures Inv(Value()) && Value() == Next(debounce, old(Value()), Reconcile(wanted, keep))
    {
      NextKeepsInv(debounce, Value(), Reconcile(wanted, keep));
      if closed {
        return;
      }
      var taken := TakeOut(CamerasOf(wanted) + keep);
      ghost var start := Value();
      hide Inv;
      hide Keep;
      for i := 0 to |wanted|
        invariant Value() == StartMissing(start, wanted[..i])
      {
        assert wanted[..i + 1][..i] == wanted[..i];
        if wanted[i].camera !in workers && wanted[i].starts {
          StartWorker(wanted[i].camera, 0);
        }
      }
      assert wanted[..|wanted|] == wanted;
    }

    /** The first locked part of check_stalls(). */
    method TakeOutStalled(stalled: set<int>)
      requires Inv(Value())
      modifies this`workers, this`handed, this`batches
      ensures Inv(Value()) && Value() == Next(debounce, old(Value()), TakeStalled(stalled))
    {
      NextKeepsInv(debounce, Value(), TakeStalled(stalled));
      if closed {
        return;
      }
      var taken := TakeOut(workers.Keys - stalled);
      batches := batches + [taken];
    }

    method RestartWorker(n: nat, starts: bool)
      modifies this`workers, this`cameras, this`restarts
      ensures Value() == RestartOne(old(Value()), n, starts)
    {
      if !closed && n < |cameras| && n < |restarts| && cameras[n] !in workers && starts {
        StartWorker(cameras[n], restarts[n] + 1);
      }
    }

    /** The second locked part, after the stops. */
    method RestartBatch(b: nat, starts: nat -> bool)
      requires Inv(Value()) && b < |batches|
      modifies this`workers, this`cameras, this`restarts
      ensures Inv(Value()) && Value() == Next(debounce, old(Value()), RestartStalled(b, starts))
    {
      NextKeepsInv(debounce, Value(), RestartStalled(b, starts));
      ghost var start := Value();
      var stalled := batches[b];
      assert Next(debounce, start, RestartStalled(b, starts)) == Restarted(start, stalled, starts);
      hide Inv;
      hide Next;
      hide RestartOne;
      for i := 0 to |stalled|
        invariant Value() == Restarted(start, stalled[..i], starts)
      {
        assert stalled[..i + 1][..i] == stalled[..i];
        RestartWorker(stalled[i], starts(stalled[i]));
      }
      assert stalled[..|stalled|] == stalled;
    }

    method Close()
      requires Inv(Value())
      modifies this`workers, this`handed, this`closed
      ensures Inv(Value()) && Value() == Next(debounce, old(Value()), Shutdown)
    {
      NextKeepsInv(debounce, Value(), Shutdown);
      var taken := TakeOut({});
      closed := true;
    }

    method AskForSync(now: int)
      requires DueOk(debounce, Value())
      modifies this`due, this`log
      ensures DueOk(debounce, Value()) && Value() == Next(debounce, old(Value()), RequestSync(now))
    {
      NextKeepsDue(debounce, Value(), RequestSync(now));
      if due.None? {
        due := Some(now + debounce);
      }
      log := log + [Requested(now)];
    }

    /** The top of a round in run(); returns whether it syncs. */
    method TakeRequest(now: int, nextSync: int) returns (syncs: bool)
      requires DueOk(debounce, Value())
      modifies this`due, this`log
      ensures DueOk(debounce, Value()) && Value() == Next(debounce, old(Value()), BeginRound(now, nextSync))
      ensures syncs == DueNow(old(Value()), now, nextSync)
    {
      NextKeepsDue(debounce, Value(), BeginRound(now, nextSync));
      syncs := now >= nextSync || (due.Some? && now >= due.value);
      if syncs {
        due := None;
        log := log + [Fetched];
      }
    }
  }
}
