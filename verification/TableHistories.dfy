/** What each table of a camera saw since it was added, and what a frame, a config change and the shutdown send for it. */
module TableHistories {
  import opened Seqs
  import opened TableZone
  import opened TableSessions

  // ---- what a table saw ------------------------------------------------------------------------------------

  /** The frames a table saw since it was added, each with the rules of its time. */
  ghost function Seen(configs: seq<Config>, steps: seq<Step>, t: int): seq<Frame>
    requires ValidConfigs(configs)
  {
    if steps == [] then []
    else
      var front, step := steps[..|steps| - 1], steps[|steps| - 1];
      var before, seen := TableSessions.Run(configs, front), Seen(configs, front, t);
      if !Enabled(before, step) || step.Shutdown? then seen
      else if step.Video? then
        if t in before.seats then seen + [Frame(step.persons(t), step.now, before.seats[t].rules)] else []
      else if t in before.seats && Listed(step.configs, t) then seen else []
  }

  predicate Listed(configs: seq<Config>, t: int) {
    exists i :: 0 <= i < |configs| && configs[i].id == t
  }

  /** The table came with a live config change. */
  ghost predicate AddedLive(configs: seq<Config>, steps: seq<Step>, t: int)
    requires ValidConfigs(configs)
  {
    if steps == [] then false
    else
      var front, step := steps[..|steps| - 1], steps[|steps| - 1];
      var before := TableSessions.Run(configs, front);
      if Enabled(before, step) && step.Reconfigure? && t !in before.seats then Listed(step.configs, t)
      else AddedLive(configs, front, t)
  }

  /** A table added live reports nothing before its first frame's time plus the debounce time it had then. */
  predicate WarmAt(frames: seq<Frame>, now: real)
    requires frames != []
  {
    now >= frames[0].now + frames[0].rules.debounce
  }

  /** A table's seat is the occupancy machine over what it saw; the warm-up ends when the first frame said. */
  ghost predicate SeatIs(seat: Seat, seen: seq<Frame>, live: bool) {
    && seat.zone == TableZone.Run(seen)
    && (!live ==> NeverWarmed(seat))
    && (live && seen == [] ==> seat.warming)
    && (live && seen != [] ==> !seat.warming && seat.warmUntil == seen[0].now + seen[0].rules.debounce)
  }

  lemma {:induction false} UpdatedSeat(s: State, tables: seq<int>, persons: int -> nat, t: int)
    requires forall i | 0 <= i < |tables| :: tables[i] in s.seats
    requires forall i, j | 0 <= i < j < |tables| :: tables[i] != tables[j]
    requires t in s.seats
    ensures var v := TablesUpdated(s, tables, persons);
      v.now == s.now && v.seats[t] == if t in tables then Seated(s.seats[t], persons(t), s.now).0 else s.seats[t]
  {
    hide Seated;
    hide Reported;
    if tables != [] {
      var front, last := tables[..|tables| - 1], tables[|tables| - 1];
      UpdatedSeat(s, front, persons, t);
      UpdatedSeat(s, front, persons, last);
      assert tables == front + [last];
      SeatAfter(TablesUpdated(s, front, persons), last, persons(last), t);
      hide TableUpdated;
    }
  }

  lemma SeatAfter(s: State, last: int, persons: nat, t: int)
    requires last in s.seats && t in s.seats
    ensures var v := TableUpdated(s, last, persons);
      v.now == s.now && t in v.seats && v.seats[t] == if t == last then Seated(s.seats[t], persons, s.now).0 else s.seats[t]
  {
    hide Seated;
  }

  lemma SeatStep(seat: Seat, seen: seq<Frame>, live: bool, persons: nat, now: real)
    requires SeatIs(seat, seen, live)
    ensures SeatIs(Seated(seat, persons, now).0, seen + [Frame(persons, now, seat.rules)], live)
  {
    RunOn(seen, Frame(persons, now, seat.rules));
    hide Updated;
    hide TableZone.Run;
  }

  lemma RunOn(seen: seq<Frame>, frame: Frame)
    ensures TableZone.Run(seen + [frame]) == Updated(TableZone.Run(seen), frame).0
  {
    assert (seen + [frame])[..|seen|] == seen;
  }

  lemma BuiltSeat(s: State, configs: seq<Config>, t: int)
    requires ValidConfigs(configs)
    ensures var seats := Built(s.seats, configs, true);
      && (t in seats <==> Listed(configs, t))
      && (t in seats && t in s.seats ==> seats[t].(rules := s.seats[t].rules) == s.seats[t])
      && (t in seats && t !in s.seats ==> seats[t].zone == NewZone && seats[t].warming)
  {
    BuiltIs(s.seats, configs, true);
  }

  lemma RunStep(configs: seq<Config>, steps: seq<Step>)
    requires ValidConfigs(configs) && steps != []
    ensures var before, step := TableSessions.Run(configs, steps[..|steps| - 1]), steps[|steps| - 1];
      TableSessions.Run(configs, steps) == if Enabled(before, step) then Next(before, step) else before
  {
    hide Inv;
    hide Enabled;
    hide Next;
  }

  lemma VideoSeat(s: State, persons: int -> nat, now: real, t: int)
    requires SeatsOk(s) && t in Next(s, Video(persons, now)).seats
    ensures var v := Next(s, Video(persons, now));
      t in s.seats && v.now == now && v.seats[t] == Seated(s.seats[t], persons(t), now).0
  {
    UpdatedSeat(s.(now := now), s.order, persons, t);
    hide Seated;
    hide TablesUpdated;
  }

  lemma {:induction false} ClosedAllSeats(s: State, tables: seq<int>)
    ensures ClosedAll(s, tables).seats == s.seats && ClosedAll(s, tables).now == s.now
  {
    if tables != [] {
      ClosedAllSeats(s, tables[..|tables| - 1]);
    }
  }

  lemma ReconfiguredSeat(s: State, configs: seq<Config>, t: int)
    requires ValidConfigs(configs) && SeatsOk(s)
    ensures var v := Next(s, Reconfigure(configs));
      && (t in v.seats <==> Listed(configs, t))
      && (t in v.seats && t in s.seats ==> v.seats[t].(rules := s.seats[t].rules) == s.seats[t])
      && (t in v.seats && t !in s.seats ==> v.seats[t].zone == NewZone && v.seats[t].warming)
  {
    BuiltSeat(s, configs, t);
    var seats := Built(s.seats, configs, true);
    ClosedAllSeats(s.(seats := seats, order := IdsOf(configs)), Filter(Missing(seats), s.order));
    hide Built;
    hide ClosedAll;
  }

  lemma InitialSeat(configs: seq<Config>, t: int)
    requires ValidConfigs(configs) && t in Initial(configs).seats
    ensures SeatIs(Initial(configs).seats[t], [], false)
  {
    BuiltIs(map[], configs, false);
  }

  lemma KeptSeat(seat: Seat, other: Seat, seen: seq<Frame>, live: bool)
    requires SeatIs(seat, seen, live) && other.(rules := seat.rules) == seat
    ensures SeatIs(other, seen, live)
  {
  }

  /** What came of a table and its history in a step. */
  lemma SeatNext(s: State, step: Step, t: int, seen: seq<Frame>, live: bool)
    requires Inv(s) && Enabled(s, step) && t in Next(s, step).seats
    requires t in s.seats ==> SeatIs(s.seats[t], seen, live)
    ensures var seat := Next(s, step).seats[t];
      match step
      case Video(persons, now) => t in s.seats && SeatIs(seat, seen + [Frame(persons(t), now, s.seats[t].rules)], live)
      case Reconfigure(configs) =>
        Listed(configs, t) && if t in s.seats then SeatIs(seat, seen, live) else SeatIs(seat, [], true)
      case Shutdown => t in s.seats && SeatIs(seat, seen, live)
  {
    match step
    case Video(persons, now) =>
      VideoSeat(s, persons, now, t);
      SeatStep(s.seats[t], seen, live, persons(t), now);
      hide *;
    case Reconfigure(configs) =>
      ReconfiguredSeat(s, configs, t);
      hide Next;
      hide Inv;
      if t in s.seats {
        KeptSeat(s.seats[t], Next(s, step).seats[t], seen, live);
      }
    case Shutdown =>
  }

  lemma HistoryStep(configs: seq<Config>, steps: seq<Step>, t: int)
    requires ValidConfigs(configs) && steps != []
    ensures var front, step := steps[..|steps| - 1], steps[|steps| - 1];
      var before := TableSessions.Run(configs, front);
      var seen, live := Seen(configs, front, t), AddedLive(configs, front, t);
      if !Enabled(before, step) then Seen(configs, steps, t) == seen && AddedLive(configs, steps, t) == live
      else
        match step
        case Shutdown => Seen(configs, steps, t) == seen && AddedLive(configs, steps, t) == live
        case Video(persons, now) =>
          AddedLive(configs, steps, t) == live
          && Seen(configs, steps, t) ==
               if t in before.seats then seen + [Frame(persons(t), now, before.seats[t].rules)] else []
        case Reconfigure(changed) =>
          && AddedLive(configs, steps, t) == (if t !in before.seats then Listed(changed, t) else live)
          && Seen(configs, steps, t) == (if t in before.seats && Listed(changed, t) then seen else [])
  {
    hide Next;
    hide Enabled;
    hide Inv;
    hide TableSessions.Run;
    hide Listed;
  }

  /** Over every run, a seat is the occupancy machine over what the table saw since it was added. */
  lemma {:induction false} SeatIsItsHistory(configs: seq<Config>, steps: seq<Step>, t: int)
    requires ValidConfigs(configs) && t in TableSessions.Run(configs, steps).seats
    ensures SeatIs(TableSessions.Run(configs, steps).seats[t], Seen(configs, steps, t), AddedLive(configs, steps, t))
  {
    if steps == [] {
      InitialSeat(configs, t);
    } else {
      hide Next;
      hide Enabled;
      hide Inv;
      hide SeatIs;
      hide TableSessions.Run;
      var front, step := steps[..|steps| - 1], steps[|steps| - 1];
      var before := TableSessions.Run(configs, front);
      RunStep(configs, steps);
      HistoryStep(configs, steps, t);
      hide Seen;
      hide AddedLive;
      if t in before.seats {
        SeatIsItsHistory(configs, front, t);
      }
      if Enabled(before, step) {
        SeatNext(before, step, t, Seen(configs, front, t), AddedLive(configs, front, t));
      }
    }
  }

  // ---- what a frame sends ----------------------------------------------------------------------------------

  ghost predicate Tells(step: Step, m: Sent) {
    match step
    case Video(_, _) => m.Closed? ==> m.reason == Ended
    case Reconfigure(_) => m.Closed? && m.reason == ConfigChange
    case Shutdown => m.Closed? && m.reason == EngineStop
  }

  ghost predicate Adds(s: State, v: State, step: Step) {
    && s.sent <= v.sent && s.sessions <= v.sessions
    && forall i | |s.sent| <= i < |v.sent| :: Tells(step, v.sent[i])
  }

  /** What a table's change in a frame did: `v` is the state after it. */
  ghost predicate Came(s: State, v: State, t: int, change: Change)
    requires s.sent <= v.sent
  {
    match change
    case Fills => t in v.open && (t !in s.open ==> Opened(v.open[t], t) in v.sent[|s.sent|..])
    case Clears(_) => t !in v.open && (t in s.open ==> Closed(s.open[t], Ended) in v.sent[|s.sent|..])
    case Stays => (t in v.open <==> t in s.open) && (t in s.open ==> v.open[t] == s.open[t])
  }

  lemma ReportedCame(s: State, t: int, change: Change, step: Step)
    requires step.Video? && (t in s.open ==> s.open[t] in s.intervals)
    ensures Adds(s, Reported(s, t, change), step) && Came(s, Reported(s, t, change), t, change)
  {
    var v := Reported(s, t, change);
    if |v.sent| > |s.sent| {
      assert v.sent[|s.sent|..] == [v.sent[|s.sent|]];
    }
  }

  lemma OthersStay(s: State, t: int, change: Change, u: int)
    requires u != t
    ensures var v := Reported(s, t, change);
      (u in v.open <==> u in s.open) && (u in s.open ==> v.open[u] == s.open[u])
  {
  }

  lemma CameLater(s: State, v: State, w: State, t: int, change: Change, step: Step)
    requires Adds(s, v, step) && Adds(v, w, step) && Came(s, v, t, change)
    requires (t in w.open <==> t in v.open) && (t in v.open ==> w.open[t] == v.open[t])
    ensures Adds(s, w, step) && Came(s, w, t, change)
  {
    assert forall i | |s.sent| <= i < |v.sent| :: w.sent[i] == v.sent[i];
    assert w.sent[|s.sent|..] == v.sent[|s.sent|..] + w.sent[|v.sent|..];
  }

  lemma CameFirst(s: State, v: State, w: State, t: int, change: Change, step: Step)
    requires Adds(s, v, step) && Adds(v, w, step) && Came(v, w, t, change)
    requires (t in v.open <==> t in s.open) && (t in s.open ==> v.open[t] == s.open[t])
    ensures Adds(s, w, step) && Came(s, w, t, change)
  {
    assert forall i | |s.sent| <= i < |v.sent| :: w.sent[i] == v.sent[i];
    assert w.sent[|s.sent|..] == v.sent[|s.sent|..] + w.sent[|v.sent|..];
  }

  ghost function ChangeIn(s: State, tables: seq<int>, persons: int -> nat, t: int): Change
    requires t in s.seats
  {
    if t in tables then Seated(s.seats[t], persons(t), s.now).1 else Stays
  }

  lemma {:induction false} TablesCame(s: State, tables: seq<int>, persons: int -> nat, t: int, step: Step)
    requires SeatsOk(s) && TablesOk(s) && LedgerOk(s) && OpenOk(s) && s.now > 0.0 && step.Video? && t in s.seats
    requires forall i | 0 <= i < |tables| :: tables[i] in s.seats
    requires forall i, j | 0 <= i < j < |tables| :: tables[i] != tables[j]
    ensures var v := TablesUpdated(s, tables, persons);
      Adds(s, v, step) && Came(s, v, t, ChangeIn(s, tables, persons, t))
  {
    if tables != [] {
      var front, last := tables[..|tables| - 1], tables[|tables| - 1];
      assert tables == front + [last];
      TablesCame(s, front, persons, t, step);
      TablesUpdatedKeeps(s, front, persons);
      UpdatedSeat(s, front, persons, t);
      UpdatedSeat(s, front, persons, last);
      var v := TablesUpdated(s, front, persons);
      assert last !in front;
      OneTableCame(s, v, last, persons, t, step, ChangeIn(s, front, persons, t));
    }
  }

  lemma OneTableCame(s: State, v: State, last: int, persons: int -> nat, t: int, step: Step, change: Change)
    requires OpenOk(v) && step.Video? && t in s.seats && t in v.seats && last in v.seats && v.now == s.now
    requires Adds(s, v, step) && Came(s, v, t, change)
    requires last == t ==> change.Stays? && v.seats[t] == s.seats[t]
    ensures var w := TableUpdated(v, last, persons(last));
      && Adds(s, w, step)
      && Came(s, w, t, if t == last then Seated(s.seats[t], persons(t), s.now).1 else change)
  {
    var (seat, c) := Seated(v.seats[last], persons(last), v.now);
    var m := v.(seats := v.seats[last := seat]);
    var w := Reported(m, last, c);
    ReportedCame(m, last, c, step);
    if t == last {
      CameFirst(s, v, w, t, c, step);
    } else {
      OthersStay(m, last, c, t);
      CameLater(s, v, w, t, change, step);
    }
  }

  /** What the table's occupancy did in the frame, if it is told: not before the warm-up is over. */
  function ToldIn(frames: seq<Frame>, live: bool): Change
    requires frames != []
  {
    var last := |frames| - 1;
    if live && !WarmAt(frames, frames[last].now) then Stays else ChangeAt(frames, last)
  }

  lemma SeatedTells(seat: Seat, seen: seq<Frame>, live: bool, persons: nat, now: real)
    requires SeatIs(seat, seen, live) && now > 0.0
    ensures Seated(seat, persons, now).1 == ToldIn(seen + [Frame(persons, now, seat.rules)], live)
  {
    var more := seen + [Frame(persons, now, seat.rules)];
    assert more[..|more| - 1] == seen;
    hide Updated;
  }

  /**
   * In a frame a session opens for a table exactly when its occupancy, from the frames seen since it was added, fills,
   * and closes as ended exactly when it clears; nothing is told of a table added live until it is warm.
   */
  lemma FrameTells(configs: seq<Config>, steps: seq<Step>, persons: int -> nat, now: real, t: int)
    requires ValidConfigs(configs) && Enabled(TableSessions.Run(configs, steps), Video(persons, now))
    requires t in TableSessions.Run(configs, steps).seats
    ensures
      var s := TableSessions.Run(configs, steps);
      var v := Next(s, Video(persons, now));
      var frames := Seen(configs, steps, t) + [Frame(persons(t), now, s.seats[t].rules)];
      var change := ToldIn(frames, AddedLive(configs, steps, t));
      && Adds(s, v, Video(persons, now))
      && (t in v.open <==> if t in s.open then !change.Clears? else change.Fills?)
      && (t !in s.open && t in v.open ==> Opened(v.open[t], t) in v.sent[|s.sent|..])
      && (t in s.open && t !in v.open ==> Closed(s.open[t], Ended) in v.sent[|s.sent|..])
      && (t in s.open && t in v.open ==> v.open[t] == s.open[t])
  {
    var s := TableSessions.Run(configs, steps);
    SeatIsItsHistory(configs, steps, t);
    SeatedTells(s.seats[t], Seen(configs, steps, t), AddedLive(configs, steps, t), persons(t), now);
    FrameCame(s, persons, now, t);
    OpenNeverFills(s, persons(t), now, t);
    hide *;
    hide ToldIn;
  }

  lemma FrameCame(s: State, persons: int -> nat, now: real, t: int)
    requires Inv(s) && Enabled(s, Video(persons, now)) && t in s.seats
    ensures var v := Next(s, Video(persons, now));
      Adds(s, v, Video(persons, now)) && Came(s, v, t, Seated(s.seats[t], persons(t), now).1)
  {
    var m := s.(now := now);
    TimePasses(s, now);
    assert SeatsOk(m) && LedgerOk(m) && OpenOk(m);
    hide TablesOk;
    hide LedgerOk;
    hide OpenOk;
    TablesCame(m, s.order, persons, t, Video(persons, now));
    hide Seated;
    hide TablesUpdated;
  }

  /** A table with an open session is occupied, and so does not fill. */
  lemma OpenNeverFills(s: State, persons: nat, now: real, t: int)
    requires Inv(s) && !s.down && t in s.seats && now > 0.0
    ensures t in s.open ==> !Seated(s.seats[t], persons, now).1.Fills?
  {
    if t in s.open {
      assert TableOk(s, t) && s.seats[t].rules.debounce >= 0.0;
      SeatedFacts(s.seats[t], persons, now);
    }
  }

  // ---- what a config change and the shutdown send -----------------------------------------------------------

  /** Sessions of the listed tables are closed because of the config change, the others stay. */
  lemma {:induction false} ClosedAllTell(s: State, tables: seq<int>, step: Step, t: int)
    requires OpenOk(s) && LedgerOk(s) && step.Reconfigure?
    ensures var v := ClosedAll(s, tables);
      && Adds(s, v, step)
      && (t in v.open <==> t in s.open && t !in tables)
      && (t in v.open ==> v.open[t] == s.open[t])
      && (t in s.open && t in tables ==> Closed(s.open[t], ConfigChange) in v.sent[|s.sent|..])
  {
    if tables != [] {
      var front, last := tables[..|tables| - 1], tables[|tables| - 1];
      assert tables == front + [last];
      ClosedAllTell(s, front, step, t);
      ClosedAllTell(s, front, step, last);
      ClosedAllKeeps(s, front);
      OneCloseTells(s, ClosedAll(s, front), last, step, t);
    }
  }

  lemma OneCloseTells(s: State, v: State, last: int, step: Step, t: int)
    requires OpenOk(v) && step.Reconfigure? && Adds(s, v, step)
    requires (t in v.open ==> t in s.open && v.open[t] == s.open[t])
    ensures var w := CloseSession(v, last, ConfigChange);
      && Adds(s, w, step)
      && (t in w.open <==> t in v.open && t != last)
      && (t in w.open ==> w.open[t] == v.open[t])
      && (t in v.open && t == last ==> Closed(v.open[t], ConfigChange) in w.sent[|s.sent|..])
      && (forall m | m in v.sent[|s.sent|..] :: m in w.sent[|s.sent|..])
  {
    var w := CloseSession(v, last, ConfigChange);
    assert forall i | |s.sent| <= i < |v.sent| :: w.sent[i] == v.sent[i];
    assert w.sent[|s.sent|..] == v.sent[|s.sent|..] + w.sent[|v.sent|..];
  }

  lemma {:induction false} ClosesBelowAre(intervals: set<nat>, n: nat)
    ensures forall m :: m in ClosesBelow(intervals, n) <==>
      m.Closed? && m.reason == EngineStop && m.session < n && m.session in intervals
  {
    if n > 0 {
      ClosesBelowAre(intervals, n - 1);
    }
  }

  /** What a step says of the session a table has open: closed for the step's reason, or still the table's. */
  ghost predicate Answered(s: State, v: State, step: Step, t: int)
    requires t in s.open && s.sent <= v.sent
  {
    match step
    case Video(_, _) => (t in v.open && v.open[t] == s.open[t]) || Closed(s.open[t], Ended) in v.sent[|s.sent|..]
    case Reconfigure(configs) =>
      if Listed(configs, t) then t in v.open && v.open[t] == s.open[t]
      else t !in v.open && Closed(s.open[t], ConfigChange) in v.sent[|s.sent|..]
    case Shutdown => Closed(s.open[t], EngineStop) in v.sent[|s.sent|..]
  }

  lemma ReconfigureTells(s: State, configs: seq<Config>, t: int)
    requires Inv(s) && Enabled(s, Reconfigure(configs))
    ensures var step := Reconfigure(configs);
      Adds(s, Next(s, step), step) && (t in s.open ==> Answered(s, Next(s, step), step, t))
  {
    var seats := Built(s.seats, configs, true);
    var m := s.(seats := seats, order := IdsOf(configs));
    BuiltSeat(s, configs, t);
    hide Built;
    assert OpenOk(m) && LedgerOk(m) && TablesOk(s) && SeatsOk(s);
    hide OpenOk;
    hide LedgerOk;
    ClosedAllTell(m, Filter(Missing(seats), s.order), Reconfigure(configs), t);
    hide ClosedAll;
  }

  lemma ShutdownTells(s: State, t: int)
    requires Inv(s) && !s.down
    ensures Adds(s, Next(s, Shutdown), Shutdown) && (t in s.open ==> Answered(s, Next(s, Shutdown), Shutdown, t))
  {
    ClosesBelowAre(s.intervals, s.sessions);
    var v := ShutDown(s);
    assert v.sent[|s.sent|..] == ClosesBelow(s.intervals, s.sessions);
    forall i | |s.sent| <= i < |v.sent|
      ensures Tells(Shutdown, v.sent[i])
    {
      assert v.sent[i] in v.sent[|s.sent|..];
    }
  }

  /**
   * Over every run: a frame's closes say ended, those of a config change name it and are for the tables it drops, and
   * the shutdown closes what is left as the engine's stop. Only a frame opens a session.
   */
  lemma ClosesTellWhy(configs: seq<Config>, steps: seq<Step>, step: Step, t: int)
    requires ValidConfigs(configs) && Enabled(TableSessions.Run(configs, steps), step)
    ensures var s := TableSessions.Run(configs, steps);
      Adds(s, Next(s, step), step) && (t in s.open ==> Answered(s, Next(s, step), step, t))
  {
    var s := TableSessions.Run(configs, steps);
    match step
    case Video(persons, now) => VideoTells(s, persons, now, t);
    case Reconfigure(changed) => ReconfigureTells(s, changed, t);
    case Shutdown => ShutdownTells(s, t);
  }

  lemma VideoTells(s: State, persons: int -> nat, now: real, t: int)
    requires Inv(s) && Enabled(s, Video(persons, now))
    ensures var step := Video(persons, now);
      Adds(s, Next(s, step), step) && (t in s.open ==> Answered(s, Next(s, step), step, t))
  {
    if t in s.open {
      assert t in s.seats;
      FrameCame(s, persons, now, t);
      OpenNeverFills(s, persons(t), now, t);
    } else {
      assert |s.order| > 0 ==> s.order[0] in s.seats;
      if |s.order| > 0 {
        FrameCame(s, persons, now, s.order[0]);
      }
    }
    hide Seated;
    hide Inv;
  }
}
