/**
 * The demo's live feed: each tick sends what the day's plan has due, and closes what it left open when the camera
 * falls silent, the feed was down or the day changes.
 */
module LiveFeed {
  import opened Ints
  import opened Options
  import opened Seqs

  datatype Body = Opens(session: int) | Closes(session: int) | Other(id: int)

  /** A plan item, or a message sent: an item as it was planned, or a close made up by the feed. */
  datatype Timed = Timed(t: int, body: Body)

  /**
   * `open` holds the opens sent and not closed. `log` is everything sent; `base` numbers the items of all plans so
   * far, and `used` are the numbers of the items sent.
   */
  datatype State = State(
    last: Option<int>, date: Option<int>, items: seq<Timed>, cursor: nat, open: seq<Timed>,
    log: seq<Timed>, base: nat, used: seq<nat>)

  const NewFeed := State(None, None, [], 0, [], [], 0, [])

  const DOWNTIME := 60000

  // ---- the parts of a tick -------------------------------------------------------------------------------

  /** A close for each open, not before it. */
  function ClosesFor(open: seq<Timed>, at: int): seq<Timed>
    requires forall i | 0 <= i < |open| :: open[i].body.Opens?
  {
    if open == [] then []
    else
      var last := open[|open| - 1];
      ClosesFor(open[..|open| - 1], at) + [Timed(Max(at, last.t), Closes(last.body.session))]
  }

  predicate AllOpens(open: seq<Timed>) {
    forall i | 0 <= i < |open| :: open[i].body.Opens?
  }

  function CloseOpen(s: State, at: int): State
    requires AllOpens(s.open)
  {
    s.(open := [], log := s.log + ClosesFor(s.open, at))
  }

  function NewPlan(s: State, date: int, plan: seq<Timed>): State {
    s.(date := Some(date), items := plan, cursor := 0, base := s.base + |s.items|)
  }

  predicate Due(s: State, upTo: int) {
    s.cursor < |s.items| && s.items[s.cursor].t <= upTo
  }

  function Skip(s: State, upTo: int): State
    decreases |s.items| - s.cursor
  {
    if Due(s, upTo) then Skip(s.(cursor := s.cursor + 1), upTo) else s
  }

  predicate HasOpen(open: seq<Timed>, session: int) {
    exists i :: 0 <= i < |open| && open[i].body == Opens(session)
  }

  function Without(session: int): Timed -> bool {
    (m: Timed) => m.body != Opens(session)
  }

  /** The next item is sent, unless it closes an interval whose open was not. */
  function SendOne(s: State): State
    requires s.cursor < |s.items|
  {
    var m, next := s.items[s.cursor], s.(cursor := s.cursor + 1);
    if m.body.Closes? && !HasOpen(s.open, m.body.session) then next
    else
      next.(log := s.log + [m], used := s.used + [s.base + s.cursor],
            open := match m.body
                    case Opens(_) => s.open + [m]
                    case Closes(k) => Filter(Without(k), s.open)
                    case Other(_) => s.open)
  }

  function Send(s: State, upTo: int): State
    decreases |s.items| - s.cursor
  {
    if Due(s, upTo) then Send(SendOne(s), upTo) else s
  }

  datatype Tick = Tick(now: int, date: int, plan: seq<Timed>, silent: bool)

  function LastTick(s: State, now: int): int {
    if s.last.Some? then s.last.value else now
  }

  predicate WasDown(s: State, now: int) {
    now - LastTick(s, now) > DOWNTIME
  }

  /** Closes what a gap or a new day left open, and draws the new day's plan. */
  function Opening(s: State, tick: Tick): State
    requires AllOpens(s.open)
  {
    var last := LastTick(s, tick.now);
    var c := if WasDown(s, tick.now) || s.date != Some(tick.date) then CloseOpen(s, last) else s;
    (if s.date != Some(tick.date) then NewPlan(c, tick.date, tick.plan) else c).(last := Some(tick.now))
  }

  function Ticked(s: State, tick: Tick): State
    requires AllOpens(s.open)
  {
    var last := LastTick(s, tick.now);
    var skipped := Skip(Opening(s, tick), if WasDown(s, tick.now) then tick.now else last);
    SkipKeeps(Opening(s, tick), if WasDown(s, tick.now) then tick.now else last);
    if tick.silent then Skip(CloseOpen(skipped, last), tick.now) else Send(skipped, tick.now)
  }

  lemma {:induction false} SkipKeeps(s: State, upTo: int)
    ensures var t := Skip(s, upTo);
      t == s.(cursor := t.cursor) && s.cursor <= t.cursor && (s.cursor <= |s.items| ==> t.cursor <= |s.items|)
    ensures !Due(Skip(s, upTo), upTo)
    decreases |s.items| - s.cursor
  {
    if Due(s, upTo) {
      SkipKeeps(s.(cursor := s.cursor + 1), upTo);
    }
  }

  // ---- the log --------------------------------------------------------------------------------------------

  function OpensIt(k: int): Timed -> bool {
    (m: Timed) => m.body == Opens(k)
  }

  function ClosesIt(k: int): Timed -> bool {
    (m: Timed) => m.body == Closes(k)
  }

  /** In time order, and no session is opened twice. */
  ghost predicate WellPlanned(plan: seq<Timed>) {
    && (forall i, j | 0 <= i < j < |plan| :: plan[i].t <= plan[j].t)
    && (forall i, j | 0 <= i < j < |plan| :: plan[i].body.Opens? ==> plan[j].body != plan[i].body)
  }

  /** The plan's sessions are new ones. */
  ghost predicate FreshFor(s: State, plan: seq<Timed>) {
    forall i | 0 <= i < |plan| && plan[i].body.Opens? :: Count(OpensIt(plan[i].body.session), s.log) == 0
  }

  ghost predicate Enabled(s: State, tick: Tick) {
    WellPlanned(tick.plan) && FreshFor(s, tick.plan)
  }

  /** Every close comes after an open of its session that is not later. */
  ghost predicate CloseOk(before: seq<Timed>, m: Timed) {
    m.body.Closes? ==> exists i :: 0 <= i < |before| && before[i].body == Opens(m.body.session) && before[i].t <= m.t
  }

  ghost predicate Bracketed(log: seq<Timed>) {
    forall n | 0 <= n < |log| :: CloseOk(log[..n], log[n])
  }

  ghost predicate SessionOk(s: State, k: int) {
    && Count(OpensIt(k), s.log) <= 1
    && Count(ClosesIt(k), s.log) + Count(OpensIt(k), s.open) == Count(OpensIt(k), s.log)
  }

  ghost predicate LogOk(s: State) {
    && AllOpens(s.open) && Bracketed(s.log)
    && (forall k :: SessionOk(s, k))
    && (forall i | 0 <= i < |s.open| :: s.open[i] in s.log)
  }

  ghost predicate PlanOk(s: State) {
    && s.cursor <= |s.items| && WellPlanned(s.items)
    && (forall j | s.cursor <= j < |s.items| && s.items[j].body.Opens? :: Count(OpensIt(s.items[j].body.session), s.log) == 0)
    && (forall i, j | 0 <= i < |s.open| && s.cursor <= j < |s.items| :: s.open[i].t <= s.items[j].t)
  }

  ghost predicate UsedOk(s: State) {
    && (forall i, j | 0 <= i < j < |s.used| :: s.used[i] < s.used[j])
    && (forall i | 0 <= i < |s.used| :: s.used[i] < s.base + s.cursor)
  }

  ghost predicate Inv(s: State) {
    LogOk(s) && PlanOk(s) && UsedOk(s)
  }

  lemma BracketedAppend(log: seq<Timed>, m: Timed)
    requires Bracketed(log) && CloseOk(log, m)
    ensures Bracketed(log + [m])
  {
    var all := log + [m];
    forall n | 0 <= n < |all|
      ensures CloseOk(all[..n], all[n])
    {
      assert all[..n] == if n < |log| then log[..n] else log;
    }
  }

  // ---- closing what is open -------------------------------------------------------------------------------

  lemma {:induction false} ClosesCount(open: seq<Timed>, at: int, k: int)
    requires AllOpens(open)
    ensures Count(ClosesIt(k), ClosesFor(open, at)) == Count(OpensIt(k), open)
    ensures Count(OpensIt(k), ClosesFor(open, at)) == 0
  {
    if open != [] {
      var front, last := open[..|open| - 1], open[|open| - 1];
      ClosesCount(front, at, k);
      var m := Timed(Max(at, last.t), Closes(last.body.session));
      CountAppend(ClosesIt(k), ClosesFor(front, at), m);
      CountAppend(OpensIt(k), ClosesFor(front, at), m);
    }
  }

  lemma {:induction false} ClosesAreBracketed(log: seq<Timed>, open: seq<Timed>, at: int)
    requires Bracketed(log) && AllOpens(open) && forall i | 0 <= i < |open| :: open[i] in log
    ensures Bracketed(log + ClosesFor(open, at))
  {
    if open == [] {
      assert log + ClosesFor(open, at) == log;
    } else {
      var front, last := open[..|open| - 1], open[|open| - 1];
      ClosesAreBracketed(log, front, at);
      var before := log + ClosesFor(front, at);
      var m := Timed(Max(at, last.t), Closes(last.body.session));
      assert open[|open| - 1] in log;
      var i :| 0 <= i < |log| && log[i] == last;
      assert before[i] == last;
      BracketedAppend(before, m);
      assert log + ClosesFor(open, at) == before + [m];
    }
  }

  lemma CloseOpenKeeps(s: State, at: int)
    requires LogOk(s)
    ensures LogOk(CloseOpen(s, at))
  {
    var t := CloseOpen(s, at);
    ClosesAreBracketed(s.log, s.open, at);
    forall k
      ensures SessionOk(t, k)
    {
      assert SessionOk(s, k);
      CountConcat(OpensIt(k), s.log, ClosesFor(s.open, at));
      CountConcat(ClosesIt(k), s.log, ClosesFor(s.open, at));
      ClosesCount(s.open, at, k);
    }
  }

  lemma CloseOpenOpensNone(s: State, at: int, k: int)
    requires AllOpens(s.open)
    ensures Count(OpensIt(k), CloseOpen(s, at).log) == Count(OpensIt(k), s.log)
  {
    CountConcat(OpensIt(k), s.log, ClosesFor(s.open, at));
    ClosesCount(s.open, at, k);
  }

  lemma CloseOpenKeepsInv(s: State, at: int)
    requires Inv(s)
    ensures Inv(CloseOpen(s, at))
  {
    CloseOpenKeeps(s, at);
    hide LogOk;
    assert AllOpens(s.open) by { assert LogOk(s); OpenOnly(s); }
    forall j | s.cursor <= j < |s.items| && s.items[j].body.Opens?
      ensures Count(OpensIt(s.items[j].body.session), CloseOpen(s, at).log) == 0
    {
      CloseOpenOpensNone(s, at, s.items[j].body.session);
    }
  }

  lemma OpenOnly(s: State)
    requires LogOk(s)
    ensures AllOpens(s.open)
  {
  }

  // ---- sending one item -----------------------------------------------------------------------------------

  lemma {:induction false} WithoutCounts(open: seq<Timed>, session: int, k: int)
    ensures Count(OpensIt(k), Filter(Without(session), open)) == if k == session then 0 else Count(OpensIt(k), open)
  {
    if open != [] {
      var front, last := open[..|open| - 1], open[|open| - 1];
      WithoutCounts(front, session, k);
      if Without(session)(last) {
        CountAppend(OpensIt(k), Filter(Without(session), front), last);
      } else {
        assert Filter(Without(session), open) == Filter(Without(session), front);
      }
    }
  }

  lemma HasOpenIff(open: seq<Timed>, k: int)
    ensures HasOpen(open, k) <==> Count(OpensIt(k), open) > 0
  {
    if HasOpen(open, k) {
      var i :| 0 <= i < |open| && open[i].body == Opens(k);
      CountAt(OpensIt(k), open, i);
    }
    if Count(OpensIt(k), open) > 0 {
      var i := CountSome(OpensIt(k), open);
    }
  }

  lemma SendOneBrackets(s: State)
    requires LogOk(s) && PlanOk(s) && s.cursor < |s.items|
    ensures Bracketed(SendOne(s).log)
  {
    var m := s.items[s.cursor];
    if m.body.Closes? && HasOpen(s.open, m.body.session) {
      var i :| 0 <= i < |s.open| && s.open[i].body == Opens(m.body.session);
      assert s.open[i] in s.log;
      var n :| 0 <= n < |s.log| && s.log[n] == s.open[i];
      assert s.open[i].t <= m.t;
    }
    if SendOne(s).log != s.log {
      BracketedAppend(s.log, m);
    }
  }

  lemma SendOneCounts(s: State, k: int)
    requires LogOk(s) && PlanOk(s) && s.cursor < |s.items|
    ensures SessionOk(SendOne(s), k)
  {
    hide Bracketed;
    hide WellPlanned;
    var m := s.items[s.cursor];
    assert SessionOk(s, k);
    CountAppend(OpensIt(k), s.log, m);
    CountAppend(ClosesIt(k), s.log, m);
    CountAppend(OpensIt(k), s.open, m);
    HasOpenIff(s.open, k);
    if m.body.Closes? {
      WithoutCounts(s.open, m.body.session, k);
      hide HasOpen;
      hide Count;
      assert SessionOk(SendOne(s), k);
    } else {
      hide HasOpen;
      hide Count;
    }
  }

  lemma SendOneOpens(s: State)
    requires LogOk(s) && PlanOk(s) && s.cursor < |s.items|
    ensures var t := SendOne(s);
      && AllOpens(t.open)
      && (forall i | 0 <= i < |t.open| :: t.open[i] in t.log)
      && (forall i | 0 <= i < |t.open| :: t.open[i] in s.open || t.open[i] == s.items[s.cursor])
  {
    var t, m := SendOne(s), s.items[s.cursor];
    forall i | 0 <= i < |t.open|
      ensures t.open[i].body.Opens? && t.open[i] in t.log && (t.open[i] in s.open || t.open[i] == m)
    {
      assert t.open[i] in t.open;
      if t.open[i] in s.open {
        var n :| 0 <= n < |s.open| && s.open[n] == t.open[i];
        assert s.open[n] in s.log;
      } else {
        assert t.log[|s.log|] == m;
      }
    }
    hide Bracketed;
    hide SessionOk;
  }

  lemma SendOneKeepsPlan(s: State)
    requires LogOk(s) && PlanOk(s) && s.cursor < |s.items|
    ensures PlanOk(SendOne(s))
  {
    var t, m := SendOne(s), s.items[s.cursor];
    SendOneOpens(s);
    forall j | t.cursor <= j < |t.items| && t.items[j].body.Opens?
      ensures Count(OpensIt(t.items[j].body.session), t.log) == 0
    {
      CountAppend(OpensIt(t.items[j].body.session), s.log, m);
    }
    forall i, j | 0 <= i < |t.open| && t.cursor <= j < |t.items|
      ensures t.open[i].t <= t.items[j].t
    {
      if t.open[i] in s.open {
        var n :| 0 <= n < |s.open| && s.open[n] == t.open[i];
        assert s.open[n].t <= s.items[j].t;
      }
    }
    hide LogOk;
  }

  lemma SendOneKeeps(s: State)
    requires Inv(s) && s.cursor < |s.items|
    ensures Inv(SendOne(s))
  {
    SendOneBrackets(s);
    SendOneOpens(s);
    SendOneKeepsPlan(s);
    forall k
      ensures SessionOk(SendOne(s), k)
    {
      SendOneCounts(s, k);
    }
    hide SessionOk;
    hide Bracketed;
    hide PlanOk;
  }

  lemma {:induction false} SendKeeps(s: State, upTo: int)
    requires Inv(s)
    ensures Inv(Send(s, upTo)) && Send(s, upTo).last == s.last && Send(s, upTo).date == s.date
    decreases |s.items| - s.cursor
  {
    if Due(s, upTo) {
      SendOneKeeps(s);
      hide Inv;
      SendKeeps(SendOne(s), upTo);
    }
  }

  lemma SkipKeepsInv(s: State, upTo: int)
    requires Inv(s)
    ensures Inv(Skip(s, upTo))
  {
    SkipKeeps(s, upTo);
    var t := Skip(s, upTo);
    assert LogOk(s.(cursor := t.cursor)) by {
      assert forall k :: SessionOk(s.(cursor := t.cursor), k) == SessionOk(s, k);
    }
    hide LogOk;
    hide WellPlanned;
  }

  // ---- a tick ---------------------------------------------------------------------------------------------

  lemma NewPlanKeeps(s: State, date: int, plan: seq<Timed>)
    requires Inv(s) && s.open == [] && WellPlanned(plan) && FreshFor(s, plan)
    ensures Inv(NewPlan(s, date, plan))
  {
    var t := NewPlan(s, date, plan);
    assert forall k :: SessionOk(t, k) == SessionOk(s, k);
    hide SessionOk;
    hide Bracketed;
    hide WellPlanned;
  }

  lemma ClockKeeps(s: State, now: int)
    requires Inv(s)
    ensures Inv(s.(last := Some(now)))
  {
    var t := s.(last := Some(now));
    assert forall k :: SessionOk(t, k) == SessionOk(s, k);
    hide SessionOk;
    hide Bracketed;
    hide WellPlanned;
  }

  lemma OpeningKeeps(s: State, tick: Tick)
    requires Inv(s) && Enabled(s, tick)
    ensures Inv(Opening(s, tick))
  {
    var last := LastTick(s, tick.now);
    CloseOpenKeepsInv(s, last);
    var closes := WasDown(s, tick.now) || s.date != Some(tick.date);
    OpenOnly(s);
    var c := if closes then CloseOpen(s, last) else s;
    if s.date != Some(tick.date) {
      assert FreshFor(c, tick.plan) by {
        forall i | 0 <= i < |tick.plan| && tick.plan[i].body.Opens?
          ensures Count(OpensIt(tick.plan[i].body.session), c.log) == 0
        {
          CloseOpenOpensNone(s, last, tick.plan[i].body.session);
        }
      }
      hide Inv;
      hide FreshFor;
      hide WellPlanned;
      NewPlanKeeps(c, tick.date, tick.plan);
      ClockKeeps(NewPlan(c, tick.date, tick.plan), tick.now);
    } else {
      hide Inv;
      ClockKeeps(c, tick.now);
    }
  }

  lemma TickKeeps(s: State, tick: Tick)
    requires Inv(s) && Enabled(s, tick)
    ensures Inv(Ticked(s, tick))
  {
    var last := LastTick(s, tick.now);
    var from := if WasDown(s, tick.now) then tick.now else last;
    OpenOnly(s);
    var o := Opening(s, tick);
    OpeningKeeps(s, tick);
    SkipKeepsInv(o, from);
    var k := Skip(o, from);
    OpenOnly(k);
    hide Inv;
    if tick.silent {
      CloseOpenKeepsInv(k, last);
      SkipKeepsInv(CloseOpen(k, last), tick.now);
    } else {
      SendKeeps(k, tick.now);
    }
    hide Opening;
    hide Skip;
    hide Send;
    hide CloseOpen;
  }

  /** A tick, or what is open is closed outside one: the feed stops, or the camera leaves the group. */
  datatype Step = TickStep(tick: Tick) | StopAt(at: int)

  ghost predicate Possible(s: State, step: Step) {
    step.TickStep? ==> Enabled(s, step.tick)
  }

  function Next(s: State, step: Step): State
    requires AllOpens(s.open)
  {
    match step
    case TickStep(tick) => Ticked(s, tick)
    case StopAt(at) => CloseOpen(s, at)
  }

  lemma NextKeeps(s: State, step: Step)
    requires Inv(s) && Possible(s, step)
    ensures AllOpens(s.open) && Inv(Next(s, step))
  {
    OpenOnly(s);
    match step
    case TickStep(tick) =>
      TickKeeps(s, tick);
      hide Ticked;
    case StopAt(at) =>
      CloseOpenKeepsInv(s, at);
      hide CloseOpen;
  }

  /** The feed after the steps; each new plan brings new sessions. */
  ghost function Run(steps: seq<Step>): (s: State)
    ensures Inv(s)
  {
    if steps == [] then NewFeed
    else
      var before, step := Run(steps[..|steps| - 1]), steps[|steps| - 1];
      if Possible(before, step) then
        NextKeeps(before, step);
        Next(before, step)
      else before
  }

  // ---- what every run guarantees --------------------------------------------------------------------------

  /** Every close follows an open of its session that is not later. */
  lemma ClosesFollowOpens(steps: seq<Step>, n: nat)
    requires n < |Run(steps).log| && Run(steps).log[n].body.Closes?
    ensures var log := Run(steps).log;
      exists i :: 0 <= i < n && log[i].body == Opens(log[n].body.session) && log[i].t <= log[n].t
  {
    var log := Run(steps).log;
    assert LogOk(Run(steps));
    assert CloseOk(log[..n], log[n]);
    var i :| 0 <= i < n && log[..n][i].body == Opens(log[n].body.session) && log[..n][i].t <= log[n].t;
    assert log[i] == log[..n][i];
  }

  /** No session is opened or closed twice, and the feed holds exactly the opens it sent and did not close. */
  lemma OpenIsWhatIsOpen(steps: seq<Step>, k: int)
    ensures var s := Run(steps);
      && Count(OpensIt(k), s.log) <= 1 && Count(ClosesIt(k), s.log) <= 1
      && (HasOpen(s.open, k) <==> Count(OpensIt(k), s.log) == 1 && Count(ClosesIt(k), s.log) == 0)
  {
    var s := Run(steps);
    assert SessionOk(s, k);
    HasOpenIff(s.open, k);
  }

  /** When the feed stops, or its camera leaves, every session that was opened has its one close. */
  lemma StopClosesAll(steps: seq<Step>, at: int, k: int)
    ensures var log := Run(steps + [StopAt(at)]).log;
      Count(OpensIt(k), log) == Count(ClosesIt(k), log) <= 1
  {
    var all := steps + [StopAt(at)];
    assert all[..|steps|] == steps;
    OpenIsWhatIsOpen(all, k);
    assert SessionOk(Run(all), k);
    assert Run(all).open == [];
  }

  /** No plan item is sent twice, and they go out in plan order. */
  lemma ItemsAreSentOnce(steps: seq<Step>, i: nat, j: nat)
    requires i < j < |Run(steps).used|
    ensures Run(steps).used[i] < Run(steps).used[j]
  {
    assert UsedOk(Run(steps));
  }

  // ---- what a tick sends ----------------------------------------------------------------------------------

  /** The session was opened and not closed in what was sent so far. */
  predicate OpenIn(log: seq<Timed>, k: int) {
    Count(OpensIt(k), log) > Count(ClosesIt(k), log)
  }

  /** What goes out of the items due, after what was sent before: all but a close of a session that is not open. */
  function Kept(log: seq<Timed>, items: seq<Timed>): seq<Timed> {
    if items == [] then []
    else
      var before, last := Kept(log, items[..|items| - 1]), items[|items| - 1];
      if last.body.Closes? && !OpenIn(log + before, last.body.session) then before else before + [last]
  }

  /** The items from `a` to `b` are those due by `upTo`, of the ones from `a` on. */
  predicate DueBy(items: seq<Timed>, a: nat, b: nat, upTo: int) {
    && a <= b <= |items| && (forall j | a <= j < b :: items[j].t <= upTo)
    && (b < |items| ==> items[b].t > upTo)
  }

  lemma {:induction false} SkipDue(s: State, upTo: int)
    requires s.cursor <= |s.items|
    ensures DueBy(s.items, s.cursor, Skip(s, upTo).cursor, upTo) && Skip(s, upTo) == s.(cursor := Skip(s, upTo).cursor)
    decreases |s.items| - s.cursor
  {
    if Due(s, upTo) {
      SkipDue(s.(cursor := s.cursor + 1), upTo);
    }
  }

  lemma OpenInIff(s: State, k: int)
    requires LogOk(s)
    ensures HasOpen(s.open, k) <==> OpenIn(s.log, k)
  {
    assert SessionOk(s, k);
    HasOpenIff(s.open, k);
  }

  lemma KeptHead(log: seq<Timed>, m: Timed, items: seq<Timed>)
    ensures var first := if m.body.Closes? && !OpenIn(log, m.body.session) then [] else [m];
      Kept(log, [m] + items) == first + Kept(log + first, items)
  {
    var first := if m.body.Closes? && !OpenIn(log, m.body.session) then [] else [m];
    if items == [] {
      assert [m] + items == [m] && [m][..0] == [];
      assert log + [] == log;
      assert Kept(log, []) == [];
    } else {
      var front, last := items[..|items| - 1], items[|items| - 1];
      var all := [m] + items;
      assert all[..|all| - 1] == [m] + front;
      KeptHead(log, m, front);
      assert log + (first + Kept(log + first, front)) == (log + first) + Kept(log + first, front);
      hide OpenIn;
    }
  }

  lemma SendOneLog(s: State)
    requires Inv(s) && s.cursor < |s.items|
    ensures var m, t := s.items[s.cursor], SendOne(s);
      && t.items == s.items && t.cursor == s.cursor + 1
      && t.log == s.log + if m.body.Closes? && !OpenIn(s.log, m.body.session) then [] else [m]
  {
    var m := s.items[s.cursor];
    if m.body.Closes? {
      OpenInIff(s, m.body.session);
    }
    hide OpenIn;
    hide HasOpen;
  }

  /** From `s` to `t` the loop sent the items due by `upTo`. */
  ghost predicate SentDue(s: State, t: State, upTo: int) {
    && t.items == s.items && DueBy(s.items, s.cursor, t.cursor, upTo)
    && t.log == s.log + Kept(s.log, s.items[s.cursor..t.cursor])
  }

  lemma KeptStep(log: seq<Timed>, m: Timed, rest: seq<Timed>, next: seq<Timed>, end: seq<Timed>)
    requires next == log + if m.body.Closes? && !OpenIn(log, m.body.session) then [] else [m]
    requires end == next + Kept(next, rest)
    ensures end == log + Kept(log, [m] + rest)
  {
    KeptHead(log, m, rest);
    hide Kept;
    hide OpenIn;
  }

  lemma DueStep(items: seq<Timed>, a: nat, b: nat, upTo: int)
    requires a < |items| && items[a].t <= upTo && DueBy(items, a + 1, b, upTo)
    ensures DueBy(items, a, b, upTo) && items[a..b] == [items[a]] + items[a + 1..b]
  {
  }

  lemma SentDueStep(s: State, next: State, t: State, upTo: int)
    requires s.cursor < |s.items| && s.items[s.cursor].t <= upTo && next.items == s.items && next.cursor == s.cursor + 1
    requires var m := s.items[s.cursor];
      next.log == s.log + if m.body.Closes? && !OpenIn(s.log, m.body.session) then [] else [m]
    requires SentDue(next, t, upTo)
    ensures SentDue(s, t, upTo)
  {
    DueStep(s.items, s.cursor, t.cursor, upTo);
    hide DueBy;
    hide Kept;
    hide OpenIn;
    KeptStep(s.log, s.items[s.cursor], s.items[s.cursor + 1..t.cursor], next.log, t.log);
  }

  /** The loop over the items due sends all of them, in order, but for the closes of sessions that are not open. */
  lemma {:induction false} SendSendsDue(s: State, upTo: int)
    requires Inv(s)
    ensures SentDue(s, Send(s, upTo), upTo)
    decreases |s.items| - s.cursor
  {
    if Due(s, upTo) {
      SendOneLog(s);
      SendOneKeeps(s);
      assert Send(s, upTo) == Send(SendOne(s), upTo);
      hide Inv;
      hide SentDue;
      SendSendsDue(SendOne(s), upTo);
      hide Send;
      SentDueStep(s, SendOne(s), Send(s, upTo), upTo);
    } else {
      assert s.items[s.cursor..s.cursor] == [];
      assert PlanOk(s);
    }
  }

  /** A made-up close for each open of the list: at the time given, but not before the open. */
  lemma {:induction false} ClosesAre(open: seq<Timed>, at: int)
    requires AllOpens(open)
    ensures |ClosesFor(open, at)| == |open|
    ensures forall i | 0 <= i < |open| ::
      var m := ClosesFor(open, at)[i];
      m.body == Closes(open[i].body.session) && m.t >= at && m.t >= open[i].t && (m.t == at || m.t == open[i].t)
  {
    if open != [] {
      ClosesAre(open[..|open| - 1], at);
    }
  }

  /** What the tick adds to the log, where `a` to `b` are the items of the plan in force that are sent. */
  ghost predicate TickSends(s: State, tick: Tick, t: State, a: nat, b: nat) {
    var last := if s.last.Some? then s.last.value else tick.now;
    var down := tick.now - last > 60000;
    var ends := down || s.date != Some(tick.date);
    var plan := if s.date != Some(tick.date) then tick.plan else s.items;
    var first := if s.date != Some(tick.date) then 0 else s.cursor;
    && AllOpens(s.open)
    && var closes := ClosesFor(s.open, last);
      && DueBy(plan, first, a, if down then tick.now else last)
      && (if tick.silent then t.log == s.log + closes && t.open == []
          else
            && DueBy(plan, a, b, tick.now)
            && var before := s.log + if ends then closes else [];
               t.log == before + Kept(before, plan[a..b]))
  }

  lemma OpeningLog(s: State, tick: Tick)
    requires AllOpens(s.open) && s.cursor <= |s.items|
    ensures var o := Opening(s, tick);
      var newDay := s.date != Some(tick.date);
      var ends := WasDown(s, tick.now) || newDay;
      && o.log == s.log + (if ends then ClosesFor(s.open, LastTick(s, tick.now)) else [])
      && o.open == (if ends then [] else s.open)
      && o.items == (if newDay then tick.plan else s.items) && o.cursor == (if newDay then 0 else s.cursor)
  {
    hide ClosesFor;
    assert s.log + [] == s.log;
  }

  /**
   * In any run, a tick skips what was due before the last one (all of a gap), and sends the rest that is due by now, in
   * plan order, but for closes of sessions that are not open; before that it closes what a gap or a new day left open.
   * A silent tick only closes what is open.
   */
  lemma TickSendsWhatIsDue(steps: seq<Step>, tick: Tick) returns (a: nat, b: nat)
    requires Enabled(Run(steps), tick)
    ensures AllOpens(Run(steps).open) && TickSends(Run(steps), tick, Ticked(Run(steps), tick), a, b)
  {
    var s := Run(steps);
    hide Run;
    OpenOnly(s);
    var last := LastTick(s, tick.now);
    var from := if WasDown(s, tick.now) then tick.now else last;
    var o := Opening(s, tick);
    OpeningKeeps(s, tick);
    assert PlanOk(s) && PlanOk(o);
    OpeningLog(s, tick);
    hide Opening;
    SkipDue(o, from);
    var k := Skip(o, from);
    SkipKeepsInv(o, from);
    OpenOnly(k);
    a := k.cursor;
    var t := Ticked(s, tick);
    if tick.silent {
      b := a;
      assert t == Skip(CloseOpen(k, last), tick.now);
      SkipDue(CloseOpen(k, last), tick.now);
      hide *;
      SilentLog(s, k, last);
    } else {
      assert t == Send(k, tick.now);
      SendSendsDue(k, tick.now);
      b := t.cursor;
      hide Skip;
      hide Send;
      hide Kept;
      hide Inv;
    }
  }

  /** Closed already at the start of the tick, or now. */
  lemma SilentLog(s: State, k: State, last: int)
    requires AllOpens(s.open) && AllOpens(k.open)
    ensures k.log == s.log + ClosesFor(s.open, last) && k.open == [] ==>
      CloseOpen(k, last).log == s.log + ClosesFor(s.open, last)
    ensures k.log == s.log && k.open == s.open ==> CloseOpen(k, last).log == s.log + ClosesFor(s.open, last)
    ensures CloseOpen(k, last).open == []
  {
    assert ClosesFor([], last) == [];
    assert k.log + [] == k.log;
  }

  // ---- splitting a tick -----------------------------------------------------------------------------------

  lemma {:induction false} SendInTwo(s: State, first: int, upTo: int)
    requires first <= upTo
    ensures Send(Send(s, first), upTo) == Send(s, upTo)
    decreases |s.items| - s.cursor
  {
    if Due(s, first) {
      SendInTwo(SendOne(s), first, upTo);
    }
  }

  lemma {:induction false} SendLeavesNoneDue(s: State, upTo: int)
    ensures var t := Send(s, upTo);
      !Due(t, upTo) && t.last == s.last && t.date == s.date
    decreases |s.items| - s.cursor
  {
    if Due(s, upTo) {
      SendLeavesNoneDue(SendOne(s), upTo);
    }
  }

  lemma {:induction false} SendIgnoresClock(s: State, upTo: int, last: Option<int>)
    ensures Send(s.(last := last), upTo) == Send(s, upTo).(last := last)
    decreases |s.items| - s.cursor
  {
    if Due(s, upTo) {
      assert SendOne(s.(last := last)) == SendOne(s).(last := last);
      hide SendOne;
      SendIgnoresClock(SendOne(s), upTo, last);
    }
  }

  lemma QuietTick(s: State, tick: Tick)
    requires AllOpens(s.open) && s.last.Some? && s.date == Some(tick.date) && !tick.silent
    requires tick.now - s.last.value <= DOWNTIME
    ensures Ticked(s, tick) == Send(Skip(s, s.last.value), tick.now).(last := Some(tick.now))
  {
    SkipIgnoresClock(s, s.last.value, Some(tick.now));
    SendIgnoresClock(Skip(s, s.last.value), tick.now, Some(tick.now));
    hide Send;
    hide Skip;
  }

  lemma {:induction false} SkipIgnoresClock(s: State, upTo: int, last: Option<int>)
    ensures Skip(s.(last := last), upTo) == Skip(s, upTo).(last := last)
    decreases |s.items| - s.cursor
  {
    if Due(s, upTo) {
      SkipIgnoresClock(s.(cursor := s.cursor + 1), upTo, last);
    }
  }

  /**
   * Without silence, a new day or a gap, one tick sends what two ticks in its place send, in the same order, and
   * leaves the feed in the same state.
   */
  lemma SplittingATick(s: State, mid: Tick, tick: Tick)
    requires Inv(s) && s.last.Some? && s.last.value <= mid.now <= tick.now && tick.now - s.last.value <= DOWNTIME
    requires s.date == Some(mid.date) == Some(tick.date) && !mid.silent && !tick.silent
    ensures AllOpens(s.open) && AllOpens(Ticked(s, mid).open)
    ensures Ticked(Ticked(s, mid), tick) == Ticked(s, tick)
  {
    OpenOnly(s);
    var from := s.last.value;
    var k := Skip(s, from);
    var m := Ticked(s, mid);
    QuietTick(s, mid);
    QuietTick(s, tick);
    SkipKeepsInv(s, from);
    SendKeeps(k, mid.now);
    ClockKeeps(Send(k, mid.now), mid.now);
    OpenOnly(m);
    SkipKeeps(s, from);
    SendLeavesNoneDue(k, mid.now);
    hide Inv;
    assert m == Send(k, mid.now).(last := Some(mid.now));
    assert Skip(m, mid.now) == m;
    QuietTick(m, tick);
    SendInTwo(k, mid.now, tick.now);
    SendIgnoresClock(Send(k, mid.now), tick.now, Some(mid.now));
    hide *;
  }

  // ---- the history ----------------------------------------------------------------------------------------

  function Session(m: Timed): Option<int> {
    match m.body
    case Opens(k) => Some(k)
    case Closes(k) => Some(k)
    case Other(_) => None
  }

  function OfSession(k: int): Timed -> bool {
    (m: Timed) => Session(m) == Some(k)
  }

  function Inside(from: int, to: int): Timed -> bool {
    (m: Timed) => from <= m.t < to
  }

  /** Not of a session, or both messages of its session are there. */
  function Whole(inside: seq<Timed>): Timed -> bool {
    (m: Timed) => Session(m).None? || Count(OfSession(Session(m).value), inside) >= 2
  }

  /** The items of the window, without the sessions that are not complete in it. */
  function History(items: seq<Timed>, from: int, to: int): seq<Timed> {
    var inside := Filter(Inside(from, to), items);
    Filter(Whole(inside), inside)
  }

  lemma {:induction false} SessionCount(items: seq<Timed>, k: int)
    ensures Count(OfSession(k), items) == Count(OpensIt(k), items) + Count(ClosesIt(k), items)
  {
    if items != [] {
      SessionCount(items[..|items| - 1], k);
    }
  }

  lemma {:induction false} FilterCounts(keep: Timed -> bool, p: Timed -> bool, items: seq<Timed>)
    ensures Count(p, Filter(keep, items)) <= Count(p, items)
    ensures (forall m | m in items && p(m) :: keep(m)) ==> Count(p, Filter(keep, items)) == Count(p, items)
    ensures (forall m | m in items && p(m) :: !keep(m)) ==> Count(p, Filter(keep, items)) == 0
  {
    if items != [] {
      var front, last := items[..|items| - 1], items[|items| - 1];
      FilterCounts(keep, p, front);
      assert items == front + [last];
      if keep(last) {
        CountAppend(p, Filter(keep, front), last);
      } else {
        assert Filter(keep, items) == Filter(keep, front);
      }
    }
  }

  /** In the history every session has its open and its close, or neither. */
  lemma HistoryIsWhole(items: seq<Timed>, from: int, to: int, k: int)
    requires Count(OpensIt(k), items) <= 1 && Count(ClosesIt(k), items) <= 1
    ensures var h, inside := History(items, from, to), Filter(Inside(from, to), items);
      && Count(OpensIt(k), h) == Count(ClosesIt(k), h)
      && Count(OpensIt(k), h) == One(Count(OpensIt(k), inside) == 1 && Count(ClosesIt(k), inside) == 1)
  {
    var inside := Filter(Inside(from, to), items);
    FilterCounts(Inside(from, to), OpensIt(k), items);
    FilterCounts(Inside(from, to), ClosesIt(k), items);
    SessionCount(inside, k);
    FilterCounts(Whole(inside), OpensIt(k), inside);
    FilterCounts(Whole(inside), ClosesIt(k), inside);
    assert forall m | m in inside && (OpensIt(k)(m) || ClosesIt(k)(m)) ::
        Whole(inside)(m) == (Count(OfSession(k), inside) >= 2);
  }

  ghost predicate HasInside(items: seq<Timed>, from: int, to: int, body: Body) {
    exists i :: 0 <= i < |items| && items[i].body == body && from <= items[i].t < to
  }

  /** The window holds the open and the close of the message's session, if it is of one. */
  ghost predicate Complete(items: seq<Timed>, from: int, to: int, m: Timed) {
    match Session(m)
    case None => true
    case Some(k) => HasInside(items, from, to, Opens(k)) && HasInside(items, from, to, Closes(k))
  }

  lemma CountedInside(items: seq<Timed>, from: int, to: int, p: Timed -> bool, body: Body)
    requires (forall m :: p(m) <==> m.body == body) && Count(p, Filter(Inside(from, to), items)) > 0
    ensures HasInside(items, from, to, body)
  {
    var j := CountSome(p, Filter(Inside(from, to), items));
    hide Count;
    assert Filter(Inside(from, to), items)[j] in items;
  }

  lemma InsideCounted(items: seq<Timed>, from: int, to: int, p: Timed -> bool, body: Body)
    requires (forall m :: p(m) <==> m.body == body) && HasInside(items, from, to, body)
    ensures Count(p, Filter(Inside(from, to), items)) > 0
  {
    var inside := Filter(Inside(from, to), items);
    var i :| 0 <= i < |items| && items[i].body == body && from <= items[i].t < to;
    assert items[i] in inside;
    var j :| 0 <= j < |inside| && inside[j] == items[i];
    hide Filter;
    CountAt(p, inside, j);
    hide Count;
  }

  lemma WholeIff(items: seq<Timed>, from: int, to: int, m: Timed)
    requires forall k :: Count(OpensIt(k), items) <= 1 && Count(ClosesIt(k), items) <= 1
    ensures Whole(Filter(Inside(from, to), items))(m) <==> Complete(items, from, to, m)
  {
    if Session(m).Some? {
      var k, inside := Session(m).value, Filter(Inside(from, to), items);
      FilterCounts(Inside(from, to), OpensIt(k), items);
      FilterCounts(Inside(from, to), ClosesIt(k), items);
      SessionCount(inside, k);
      if Whole(inside)(m) {
        CountedInside(items, from, to, OpensIt(k), Opens(k));
        CountedInside(items, from, to, ClosesIt(k), Closes(k));
      }
      if Complete(items, from, to, m) {
        InsideCounted(items, from, to, OpensIt(k), Opens(k));
        InsideCounted(items, from, to, ClosesIt(k), Closes(k));
      }
    }
  }

  ghost predicate InTimeOrder(items: seq<Timed>) {
    forall i, j | 0 <= i < j < |items| :: items[i].t <= items[j].t
  }

  lemma {:induction false} FilterInOrder(keep: Timed -> bool, items: seq<Timed>)
    requires InTimeOrder(items)
    ensures InTimeOrder(Filter(keep, items))
  {
    if items != [] {
      FilterInOrder(keep, items[..|items| - 1]);
      forall m | m in Filter(keep, items[..|items| - 1])
        ensures m.t <= items[|items| - 1].t
      {
        var i :| 0 <= i < |items| - 1 && items[i] == m;
      }
    }
  }

  /**
   * A planned message is in the history, as often as it is planned, exactly when it lies in the window and so do both
   * ends of its session; the history is in time order when the plan is.
   */
  lemma HistoryIff(items: seq<Timed>, from: int, to: int, m: Timed)
    requires forall k :: Count(OpensIt(k), items) <= 1 && Count(ClosesIt(k), items) <= 1
    ensures multiset(History(items, from, to))[m] ==
      if from <= m.t < to && Complete(items, from, to, m) then multiset(items)[m] else 0
    ensures InTimeOrder(items) ==> InTimeOrder(History(items, from, to))
  {
    var inside := Filter(Inside(from, to), items);
    WholeIff(items, from, to, m);
    FilterMultiset(Inside(from, to), items, m);
    FilterMultiset(Whole(inside), inside, m);
    if InTimeOrder(items) {
      FilterInOrder(Inside(from, to), items);
      FilterInOrder(Whole(inside), inside);
    }
  }

  // ---- the object -----------------------------------------------------------------------------------------

  lemma TickFacts(s: State, tick: Tick)
    requires Inv(s) && Enabled(s, tick)
    ensures AllOpens(s.open) && AllOpens(Opening(s, tick).open) && Inv(Ticked(s, tick))
    ensures forall upTo :: AllOpens(Skip(Opening(s, tick), upTo).open)
  {
    OpenOnly(s);
    TickKeeps(s, tick);
    OpeningKeeps(s, tick);
    OpenOnly(Opening(s, tick));
    forall upTo
      ensures AllOpens(Skip(Opening(s, tick), upTo).open)
    {
      SkipKeeps(Opening(s, tick), upTo);
    }
  }

  lemma LastTickIs(s: State, now: int, before: int, down: bool)
    requires before == (if s.last.Some? then s.last.value else now) && down == (now - before > DOWNTIME)
    ensures before == LastTick(s, now) && down == WasDown(s, now)
  {
  }

  lemma TickedIs(s: State, tick: Tick, before: int, down: bool)
    requires AllOpens(s.open) && before == LastTick(s, tick.now) && down == WasDown(s, tick.now)
    ensures var k := Skip(Opening(s, tick), if down then tick.now else before);
      AllOpens(k.open) ==>
      Ticked(s, tick) == if tick.silent then Skip(CloseOpen(k, before), tick.now) else Send(k, tick.now)
  {
    hide Skip;
    hide Send;
    hide Opening;
    hide CloseOpen;
  }

  class Feed {
    var last: Option<int>
    var date: Option<int>
    var items: seq<Timed>
    var cursor: nat
    var open: seq<Timed>
    ghost var log: seq<Timed>
    ghost var base: nat
    ghost var used: seq<nat>

    ghost function Value(): State
      reads this
    {
      State(last, date, items, cursor, open, log, base, used)
    }

    constructor ()
      ensures Value() == NewFeed && Inv(Value())
    {
      last, date, items, cursor, open := None, None, [], 0, [];
      log, base, used := [], 0, [];
    }

    method CloseAll(at: int) returns (out: seq<Timed>)
      requires AllOpens(open)
      modifies this`open, this`log
      ensures Value() == CloseOpen(old(Value()), at) && log == old(log) + out
    {
      out := [];
      for i := 0 to |open|
        invariant out == ClosesFor(open[..i], at)
      {
        assert open[..i + 1][..i] == open[..i];
        out := out + [Timed(Max(at, open[i].t), Closes(open[i].body.session))];
      }
      assert open[..|open|] == open;
      log := log + out;
      open := [];
    }

    method SkipTo(upTo: int)
      modifies this`cursor
      ensures Value() == Skip(old(Value()), upTo)
    {
      while cursor < |items| && items[cursor].t <= upTo
        invariant Skip(Value(), upTo) == Skip(old(Value()), upTo)
        decreases |items| - cursor
      {
        cursor := cursor + 1;
      }
    }

    method SendNext() returns (out: seq<Timed>)
      requires cursor < |items|
      modifies this`cursor, this`open, this`log, this`used
      ensures Value() == SendOne(old(Value())) && log == old(log) + out
    {
      out := [];
      var m := items[cursor];
      used := if m.body.Closes? && !HasOpen(open, m.body.session) then used else used + [base + cursor];
      cursor := cursor + 1;
      if m.body.Closes? && !HasOpen(open, m.body.session) {
        return;
      }
      log, out := log + [m], [m];
      match m.body {
        case Opens(_) => open := open + [m];
        case Closes(k) => open := Filter(Without(k), open);
        case Other(_) =>
      }
    }

    method SendDue(upTo: int) returns (out: seq<Timed>)
      modifies this`cursor, this`open, this`log, this`used
      ensures Value() == Send(old(Value()), upTo) && log == old(log) + out
    {
      out := [];
      while cursor < |items| && items[cursor].t <= upTo
        invariant items == old(items) && log == old(log) + out
        invariant Send(Value(), upTo) == Send(old(Value()), upTo)
        decreases |items| - cursor
      {
        assert Due(Value(), upTo);
        assert SendOne(Value()).cursor == cursor + 1 && SendOne(Value()).items == items;
        hide SendOne;
        var sent := SendNext();
        out := out + sent;
      }
    }

    /** What a gap or a new day left open is closed, and a new day's plan drawn. */
    method Begin(tick: Tick, before: int, down: bool) returns (out: seq<Timed>)
      requires AllOpens(open) && before == LastTick(Value(), tick.now) && down == WasDown(Value(), tick.now)
      modifies this
      ensures Value() == Opening(old(Value()), tick) && log == old(log) + out
    {
      out := [];
      if down || date != Some(tick.date) {
        out := CloseAll(before);
      }
      if date != Some(tick.date) {
        base := base + |items|;
        date, items, cursor := Some(tick.date), tick.plan, 0;
      }
      last := Some(tick.now);
    }

    method EndSilent(before: int, now: int) returns (out: seq<Timed>)
      requires AllOpens(open)
      modifies this`open, this`log, this`cursor
      ensures Value() == Skip(CloseOpen(old(Value()), before), now) && log == old(log) + out
    {
      out := CloseAll(before);
      SkipKeeps(Value(), now);
      SkipTo(now);
    }

    /** Up to what is due now: items before the last tick, or in a gap, are skipped. */
    method Prepare(tick: Tick, before: int, down: bool) returns (out: seq<Timed>)
      requires AllOpens(open) && before == LastTick(Value(), tick.now) && down == WasDown(Value(), tick.now)
      modifies this
      ensures Value() == Skip(Opening(old(Value()), tick), if down then tick.now else before) && log == old(log) + out
    {
      hide Opening;
      hide AllOpens;
      out := Begin(tick, before, down);
      SkipKeeps(Value(), if down then tick.now else before);
      hide Skip;
      SkipTo(if down then tick.now else before);
    }

    method SendOrStop(tick: Tick, before: int) returns (out: seq<Timed>)
      requires AllOpens(open)
      modifies this
      ensures log == old(log) + out
      ensures Value() ==
        if tick.silent then Skip(CloseOpen(old(Value()), before), tick.now) else Send(old(Value()), tick.now)
    {
      hide Skip;
      hide Send;
      hide CloseOpen;
      hide AllOpens;
      if tick.silent {
        out := EndSilent(before, tick.now);
      } else {
        out := SendDue(tick.now);
      }
    }

    /** One call of the live feed; the tick's plan is what a new day's plan would be. */
    method LiveMessages(tick: Tick) returns (out: seq<Timed>)
      requires Inv(Value()) && Enabled(Value(), tick)
      modifies this
      ensures AllOpens(old(open)) && Inv(Value()) && Value() == Ticked(old(Value()), tick) && log == old(log) + out
    {
      hide Inv;
      hide Enabled;
      hide Ticked;
      hide Skip;
      hide Send;
      hide Opening;
      hide CloseOpen;
      hide AllOpens;
      TickFacts(Value(), tick);
      var before := if last.Some? then last.value else tick.now;
      var down := tick.now - before > DOWNTIME;
      LastTickIs(Value(), tick.now, before, down);
      ghost var start := Value();
      out := Prepare(tick, before, down);
      var rest := SendOrStop(tick, before);
      out := out + rest;
      TickedIs(start, tick, before, down);
    }
  }
}
