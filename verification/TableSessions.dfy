/**
 * The tables of one camera, their session intervals and the pipeline's interval ledger, over frames, live config
 * changes and the shutdown.
 */
module TableSessions {
  import opened Seqs
  import opened TableZone

  datatype Config = Config(id: int, rules: Rules)

  /** A table added by a live change reports nothing until it has warmed up. */
  datatype Seat = Seat(zone: Zone, rules: Rules, warming: bool, warmUntil: real)

  datatype Reason = Ended | ConfigChange | EngineStop

  datatype Sent = Opened(session: nat, table: int) | Closed(session: nat, reason: Reason)

  /** `open` is the session of each table with one, `intervals` the pipeline's ledger of open intervals. */
  datatype State = State(
    order: seq<int>, seats: map<int, Seat>, open: map<int, nat>, intervals: set<nat>, sent: seq<Sent>,
    sessions: nat, now: real, down: bool)

  // ---- sessions ------------------------------------------------------------------------------------------

  function OpenSession(s: State, table: int): State {
    if table in s.open then s
    else s.(open := s.open[table := s.sessions], intervals := s.intervals + {s.sessions},
            sent := s.sent + [Opened(s.sessions, table)], sessions := s.sessions + 1)
  }

  function CloseSession(s: State, table: int, reason: Reason): State {
    if table !in s.open then s
    else
      var session := s.open[table];
      var c := s.(open := s.open - {table});
      if session !in s.intervals then c
      else c.(intervals := s.intervals - {session}, sent := s.sent + [Closed(session, reason)])
  }

  function Reported(s: State, table: int, change: Change): State {
    match change
    case Stays => s
    case Fills => OpenSession(s, table)
    case Clears(_) => CloseSession(s, table, Ended)
  }

  // ---- one table in one frame -----------------------------------------------------------------------------

  /** The warm-up starts with the first frame; until it ends no change is reported. */
  function Seated(seat: Seat, persons: nat, now: real): (Seat, Change) {
    var (zone, change) := Updated(seat.zone, Frame(persons, now, seat.rules));
    var next := if seat.warming then Seat(zone, seat.rules, false, now + seat.rules.debounce) else seat.(zone := zone);
    (next, if now < next.warmUntil then Stays else change)
  }

  function TableUpdated(s: State, table: int, persons: nat): State
    requires table in s.seats
  {
    var (seat, change) := Seated(s.seats[table], persons, s.now);
    Reported(s.(seats := s.seats[table := seat]), table, change)
  }

  function TablesUpdated(s: State, tables: seq<int>, persons: int -> nat): (t: State)
    requires forall i | 0 <= i < |tables| :: tables[i] in s.seats
    ensures t.seats.Keys == s.seats.Keys
  {
    if tables == [] then s
    else
      var last := tables[|tables| - 1];
      TableUpdated(TablesUpdated(s, tables[..|tables| - 1], persons), last, persons(last))
  }

  // ---- live config changes --------------------------------------------------------------------------------

  function SeatFor(seats: map<int, Seat>, c: Config, warm: bool): Seat {
    if c.id in seats then seats[c.id].(rules := c.rules) else Seat(NewZone, c.rules, warm, 0.0)
  }

  function Built(seats: map<int, Seat>, configs: seq<Config>, warm: bool): map<int, Seat> {
    if configs == [] then map[]
    else
      var last := configs[|configs| - 1];
      Built(seats, configs[..|configs| - 1], warm)[last.id := SeatFor(seats, last, warm)]
  }

  function IdsOf(configs: seq<Config>): seq<int> {
    seq(|configs|, i requires 0 <= i < |configs| => configs[i].id)
  }

  function ClosedAll(s: State, tables: seq<int>): State {
    if tables == [] then s
    else CloseSession(ClosedAll(s, tables[..|tables| - 1]), tables[|tables| - 1], ConfigChange)
  }

  function Missing(seats: map<int, Seat>): int -> bool {
    (table: int) => table !in seats
  }

  /** The sessions of the tables that are gone are closed. */
  function Reconfigured(s: State, configs: seq<Config>): State {
    var seats := Built(s.seats, configs, true);
    ClosedAll(s.(seats := seats, order := IdsOf(configs)), Filter(Missing(seats), s.order))
  }

  // ---- shutdown -------------------------------------------------------------------------------------------

  function ClosesBelow(intervals: set<nat>, n: nat): seq<Sent> {
    if n == 0 then []
    else ClosesBelow(intervals, n - 1) + if n - 1 in intervals then [Closed(n - 1, EngineStop)] else []
  }

  /** Every interval of the ledger is closed, oldest first. */
  function ShutDown(s: State): State {
    s.(intervals := {}, sent := s.sent + ClosesBelow(s.intervals, s.sessions), down := true)
  }

  datatype Step = Video(persons: int -> nat, now: real) | Reconfigure(configs: seq<Config>) | Shutdown

  /** What the settings are checked for: unique ids and no negative debounce. */
  ghost predicate ValidConfigs(configs: seq<Config>) {
    && (forall i, j | 0 <= i < j < |configs| :: configs[i].id != configs[j].id)
    && (forall i | 0 <= i < |configs| :: configs[i].rules.debounce >= 0.0)
  }

  /** Frames come with positive timestamps that do not decrease. */
  ghost predicate Enabled(s: State, step: Step) {
    && !s.down
    && match step
       case Video(_, now) => now > 0.0 && now >= s.now
       case Reconfigure(configs) => ValidConfigs(configs)
       case Shutdown => true
  }

  function Initial(configs: seq<Config>): State {
    State(IdsOf(configs), Built(map[], configs, false), map[], {}, [], 0, 0.0, false)
  }

  predicate Seatings(s: State) {
    forall i | 0 <= i < |s.order| :: s.order[i] in s.seats
  }

  function Next(s: State, step: Step): State
    requires Seatings(s)
  {
    match step
    case Video(persons, now) => TablesUpdated(s.(now := now), s.order, persons)
    case Reconfigure(configs) => Reconfigured(s, configs)
    case Shutdown => ShutDown(s)
  }

  // ---- the ledger -----------------------------------------------------------------------------------------

  function OpensIt(k: nat): Sent -> bool {
    (m: Sent) => m.Opened? && m.session == k
  }

  function ClosesIt(k: nat): Sent -> bool {
    (m: Sent) => m.Closed? && m.session == k
  }

  /** A close is only sent for a session opened before. */
  predicate Bracketed(sent: seq<Sent>) {
    sent != [] ==>
      var front, last := sent[..|sent| - 1], sent[|sent| - 1];
      Bracketed(front) && (last.Closed? ==> Count(OpensIt(last.session), front) == 1)
  }

  /** Each session is opened once; it has one close unless it is still in the ledger. */
  ghost predicate LedgerOk(s: State) {
    && (forall k: nat :: Count(OpensIt(k), s.sent) == One(k < s.sessions))
    && (forall k: nat :: Count(ClosesIt(k), s.sent) == One(k < s.sessions && k !in s.intervals))
    && Bracketed(s.sent)
    && (forall k: nat | k in s.intervals :: k < s.sessions)
  }

  /** The open sessions of the tables are the ledger's open intervals, one each. */
  ghost predicate OpenOk(s: State) {
    && (forall t | t in s.open :: s.open[t] in s.intervals)
    && (forall t, u | t in s.open && u in s.open && t != u :: s.open[t] != s.open[u])
    && (forall k: nat | k in s.intervals :: exists t :: t in s.open && s.open[t] == k)
  }

  ghost predicate SeatsOk(s: State) {
    && Seatings(s) && (forall t | t in s.seats :: t in s.order)
    && (forall i, j | 0 <= i < j < |s.order| :: s.order[i] != s.order[j])
    && (forall t | t in s.seats :: s.seats[t].rules.debounce >= 0.0)
  }

  predicate NeverWarmed(seat: Seat) {
    !seat.warming && seat.warmUntil == 0.0
  }

  function OpensFor(table: int): Sent -> bool {
    (m: Sent) => m.Opened? && m.table == table
  }

  /** An open session means the table is occupied; a table there from the start has one exactly while it is. */
  ghost predicate TableOk(s: State, t: int)
    requires t in s.seats
  {
    var seat := s.seats[t];
    && (t in s.open ==> seat.zone.status.Occupied? && !seat.warming && seat.warmUntil <= s.now)
    && (NeverWarmed(seat) && seat.zone.status.Occupied? ==> t in s.open)
    && (NeverWarmed(seat) ==> Count(OpensFor(t), s.sent) == seat.zone.sessions)
  }

  ghost predicate TablesOk(s: State) {
    && (forall t | t in s.seats :: TableOk(s, t))
    && (forall t | t in s.open :: t in s.seats)
  }

  ghost predicate Inv(s: State) {
    && SeatsOk(s) && LedgerOk(s) && s.now >= 0.0
    && (!s.down ==> OpenOk(s) && TablesOk(s))
    && (s.down ==> s.intervals == {})
  }

  // ---- opening and closing --------------------------------------------------------------------------------

  lemma OpenKeepsLedger(s: State, t: int)
    requires LedgerOk(s)
    ensures LedgerOk(OpenSession(s, t))
  {
    var m := Opened(s.sessions, t);
    var u := OpenSession(s, t);
    if t !in s.open {
      forall k: nat
        ensures Count(OpensIt(k), u.sent) == One(k < u.sessions)
        ensures Count(ClosesIt(k), u.sent) == One(k < u.sessions && k !in u.intervals)
      {
        CountAppend(OpensIt(k), s.sent, m);
        CountAppend(ClosesIt(k), s.sent, m);
      }
      assert u.sent[..|u.sent| - 1] == s.sent;
    }
  }

  lemma CloseKeepsLedger(s: State, t: int, reason: Reason)
    requires LedgerOk(s)
    ensures LedgerOk(CloseSession(s, t, reason))
  {
    var u := CloseSession(s, t, reason);
    if t in s.open && s.open[t] in s.intervals {
      var m := Closed(s.open[t], reason);
      forall k: nat
        ensures Count(OpensIt(k), u.sent) == One(k < u.sessions)
        ensures Count(ClosesIt(k), u.sent) == One(k < u.sessions && k !in u.intervals)
      {
        CountAppend(OpensIt(k), s.sent, m);
        CountAppend(ClosesIt(k), s.sent, m);
      }
      assert u.sent[..|u.sent| - 1] == s.sent;
    }
  }

  lemma OpenKeepsOpen(s: State, t: int)
    requires OpenOk(s) && LedgerOk(s)
    ensures OpenOk(OpenSession(s, t))
  {
    var u := OpenSession(s, t);
    if t !in s.open {
      forall k: nat | k in u.intervals
        ensures exists x :: x in u.open && u.open[x] == k
      {
        if k == s.sessions {
          assert u.open[t] == k;
        } else {
          var x :| x in s.open && s.open[x] == k;
          assert u.open[x] == k;
        }
      }
    }
  }

  lemma CloseKeepsOpen(s: State, t: int, reason: Reason)
    requires OpenOk(s)
    ensures OpenOk(CloseSession(s, t, reason))
  {
    var u := CloseSession(s, t, reason);
    if t in s.open {
      forall k: nat | k in u.intervals
        ensures exists x :: x in u.open && u.open[x] == k
      {
        var x :| x in s.open && s.open[x] == k;
        assert u.open[x] == k;
      }
    }
  }

  // ---- a frame --------------------------------------------------------------------------------------------

  lemma SeatedFacts(seat: Seat, persons: nat, now: real)
    requires now > 0.0 && seat.rules.debounce >= 0.0
    ensures var (next, change) := Seated(seat, persons, now);
      && !next.warming
      && (NeverWarmed(next) ==> NeverWarmed(seat))
      && (NeverWarmed(seat) ==> NeverWarmed(next) && change == Updated(seat.zone, Frame(persons, now, seat.rules)).1)
      && (!seat.warming ==> next.warmUntil == seat.warmUntil)
      && (change.Fills? ==> next.warmUntil <= now && next.zone.status.Occupied? && seat.zone.status.Empty?)
      && (change.Clears? ==> next.zone.status.Empty? && seat.zone.status.Occupied?)
      && (change.Stays? && !seat.warming && seat.warmUntil <= now ==> next.zone.status == seat.zone.status)
      && (NeverWarmed(seat) ==> next.zone.sessions == seat.zone.sessions + One(change.Fills?))
  {
  }

  lemma OpenSends(s: State, t: int, u: int)
    ensures Count(OpensFor(u), OpenSession(s, t).sent) == Count(OpensFor(u), s.sent) + One(u == t && t !in s.open)
  {
    CountAppend(OpensFor(u), s.sent, Opened(s.sessions, t));
  }

  lemma CloseSends(s: State, t: int, reason: Reason, u: int)
    ensures Count(OpensFor(u), CloseSession(s, t, reason).sent) == Count(OpensFor(u), s.sent)
  {
    if t in s.open {
      CountAppend(OpensFor(u), s.sent, Closed(s.open[t], reason));
    }
  }

  lemma ReportedKeeps(s: State, t: int, change: Change)
    requires LedgerOk(s) && OpenOk(s)
    ensures LedgerOk(Reported(s, t, change)) && OpenOk(Reported(s, t, change))
  {
    hide LedgerOk;
    hide OpenOk;
    OpenKeepsLedger(s, t);
    OpenKeepsOpen(s, t);
    CloseKeepsLedger(s, t, Ended);
    CloseKeepsOpen(s, t, Ended);
    hide OpenSession;
    hide CloseSession;
  }

  lemma ReportedSends(s: State, t: int, change: Change, u: int)
    ensures var r := Reported(s, t, change);
      && r.seats == s.seats && r.order == s.order && r.now == s.now && r.down == s.down
      && Count(OpensFor(u), r.sent) == Count(OpensFor(u), s.sent) + One(u == t && change.Fills? && t !in s.open)
      && (u in r.open <==> if u == t && change.Fills? then true else if u == t && change.Clears? then false else u in s.open)
  {
    OpenSends(s, t, u);
    CloseSends(s, t, Ended, u);
    hide Count;
  }

  lemma UpdatedTableOk(s: State, t: int, persons: nat)
    requires SeatsOk(s) && TablesOk(s) && t in s.seats && s.now > 0.0
    ensures TableOk(TableUpdated(s, t, persons), t)
  {
    var (seat, change) := Seated(s.seats[t], persons, s.now);
    var v := s.(seats := s.seats[t := seat]);
    assert TableOk(s, t);
    SeatedFacts(s.seats[t], persons, s.now);
    ReportedSends(v, t, change, t);
    hide Seated;
    hide Reported;
  }

  lemma OtherTableOk(s: State, t: int, persons: nat, u: int)
    requires TablesOk(s) && t in s.seats && u in s.seats && u != t
    ensures TableOk(TableUpdated(s, t, persons), u)
  {
    var (seat, change) := Seated(s.seats[t], persons, s.now);
    assert TableOk(s, u);
    ReportedSends(s.(seats := s.seats[t := seat]), t, change, u);
    hide Seated;
    hide Reported;
  }

  lemma SeatedRules(seat: Seat, persons: nat, now: real)
    ensures Seated(seat, persons, now).0.rules == seat.rules
  {
  }

  lemma TableUpdatedKeeps(s: State, t: int, persons: nat)
    requires SeatsOk(s) && TablesOk(s) && LedgerOk(s) && OpenOk(s) && t in s.seats && s.now > 0.0
    ensures var v := TableUpdated(s, t, persons);
      && SeatsOk(v) && TablesOk(v) && LedgerOk(v) && OpenOk(v) && v.now == s.now && v.down == s.down && v.order == s.order
  {
    var (seat, change) := Seated(s.seats[t], persons, s.now);
    var m := s.(seats := s.seats[t := seat]);
    var v := TableUpdated(s, t, persons);
    assert LedgerOk(m) && OpenOk(m);
    ReportedKeeps(m, t, change);
    SeatedRules(s.seats[t], persons, s.now);
    hide LedgerOk;
    hide OpenOk;
    hide Reported;
    forall u | u in v.seats
      ensures TableOk(v, u)
    {
      if u == t {
        UpdatedTableOk(s, t, persons);
      } else {
        ReportedSends(m, t, change, u);
        OtherTableOk(s, t, persons, u);
      }
    }
    forall u | u in v.open
      ensures u in v.seats
    {
      ReportedSends(m, t, change, u);
    }
    ReportedSends(m, t, change, t);
    hide Seated;
    hide TableOk;
  }

  lemma {:induction false} TablesUpdatedKeeps(s: State, tables: seq<int>, persons: int -> nat)
    requires SeatsOk(s) && TablesOk(s) && LedgerOk(s) && OpenOk(s) && s.now > 0.0
    requires forall i | 0 <= i < |tables| :: tables[i] in s.seats
    ensures var v := TablesUpdated(s, tables, persons);
      && SeatsOk(v) && TablesOk(v) && LedgerOk(v) && OpenOk(v) && v.now == s.now && v.down == s.down
  {
    if tables != [] {
      TablesUpdatedKeeps(s, tables[..|tables| - 1], persons);
      hide SeatsOk;
      hide TablesOk;
      hide LedgerOk;
      hide OpenOk;
      hide TableUpdated;
      var last := tables[|tables| - 1];
      TableUpdatedKeeps(TablesUpdated(s, tables[..|tables| - 1], persons), last, persons(last));
    }
  }

  lemma TimePasses(s: State, now: real)
    requires TablesOk(s) && now >= s.now
    ensures TablesOk(s.(now := now))
  {
    forall t | t in s.seats
      ensures TableOk(s.(now := now), t)
    {
      assert TableOk(s, t);
    }
  }

  lemma VideoKeepsInv(s: State, persons: int -> nat, now: real)
    requires Inv(s) && Enabled(s, Video(persons, now))
    ensures Inv(Next(s, Video(persons, now)))
  {
    var t := s.(now := now);
    TimePasses(s, now);
    assert SeatsOk(t) && LedgerOk(t) && OpenOk(t);
    hide TablesOk;
    hide LedgerOk;
    hide OpenOk;
    TablesUpdatedKeeps(t, t.order, persons);
    hide TablesUpdated;
  }

  // ---- a live config change -------------------------------------------------------------------------------

  lemma {:induction false} BuiltIs(seats: map<int, Seat>, configs: seq<Config>, warm: bool)
    requires ValidConfigs(configs)
    ensures forall i | 0 <= i < |configs| ::
      configs[i].id in Built(seats, configs, warm)
      && Built(seats, configs, warm)[configs[i].id] == SeatFor(seats, configs[i], warm)
    ensures forall t | t in Built(seats, configs, warm) :: exists i :: 0 <= i < |configs| && configs[i].id == t
  {
    if configs != [] {
      var front := configs[..|configs| - 1];
      BuiltIs(seats, front, warm);
      forall t | t in Built(seats, configs, warm)
        ensures exists i :: 0 <= i < |configs| && configs[i].id == t
      {
        if t == configs[|configs| - 1].id {
          assert configs[|configs| - 1].id == t;
        } else {
          var i :| 0 <= i < |front| && front[i].id == t;
          assert configs[i].id == t;
        }
      }
    }
  }

  lemma BuiltSeatsOk(s: State, configs: seq<Config>, warm: bool, t: State)
    requires ValidConfigs(configs) && t.seats == Built(s.seats, configs, warm) && t.order == IdsOf(configs)
    ensures SeatsOk(t)
  {
    BuiltIs(s.seats, configs, warm);
    forall x | x in t.seats
      ensures x in t.order
    {
      var i :| 0 <= i < |configs| && configs[i].id == x;
      assert t.order[i] == x;
    }
  }

  lemma {:induction false} ClosedAllKeeps(s: State, tables: seq<int>)
    requires LedgerOk(s) && OpenOk(s)
    ensures var v := ClosedAll(s, tables);
      && LedgerOk(v) && OpenOk(v) && v.seats == s.seats && v.order == s.order && v.now == s.now && v.down == s.down
      && (forall t :: t in v.open <==> t in s.open && t !in tables)
      && (forall u :: Count(OpensFor(u), v.sent) == Count(OpensFor(u), s.sent))
  {
    if tables != [] {
      var front, last := tables[..|tables| - 1], tables[|tables| - 1];
      ClosedAllKeeps(s, front);
      var m := ClosedAll(s, front);
      CloseKeepsLedger(m, last, ConfigChange);
      CloseKeepsOpen(m, last, ConfigChange);
      forall u
        ensures Count(OpensFor(u), ClosedAll(s, tables).sent) == Count(OpensFor(u), s.sent)
      {
        CloseSends(m, last, ConfigChange, u);
      }
      assert tables == front + [last];
      hide LedgerOk;
      hide OpenOk;
    }
  }

  lemma BuiltTableOk(s: State, configs: seq<Config>, v: State, t: int)
    requires SeatsOk(s) && TablesOk(s) && ValidConfigs(configs) && v.seats == Built(s.seats, configs, true) && v.now == s.now
    requires t in v.seats && (t in v.open <==> t in s.open) && Count(OpensFor(t), v.sent) == Count(OpensFor(t), s.sent)
    ensures TableOk(v, t)
  {
    BuiltIs(s.seats, configs, true);
    if t in s.seats {
      assert TableOk(s, t);
    }
  }

  /** Tables that stay keep their session; the sessions of the others are closed. */
  lemma ReconfiguredTablesOk(s: State, configs: seq<Config>, v: State)
    requires SeatsOk(s) && TablesOk(s) && ValidConfigs(configs) && v.seats == Built(s.seats, configs, true) && v.now == s.now
    requires forall t :: t in v.open <==> t in s.open && t !in Filter(Missing(v.seats), s.order)
    requires forall t :: Count(OpensFor(t), v.sent) == Count(OpensFor(t), s.sent)
    ensures TablesOk(v)
  {
    hide Built;
    forall t | t in v.seats
      ensures TableOk(v, t)
    {
      assert t !in Filter(Missing(v.seats), s.order);
      BuiltTableOk(s, configs, v, t);
    }
    forall t | t in v.open
      ensures t in v.seats
    {
      assert t in s.seats && t in s.order && t !in Filter(Missing(v.seats), s.order);
    }
    hide TableOk;
  }

  lemma SeatsStay(s: State, t: State)
    requires SeatsOk(s) && t.seats == s.seats && t.order == s.order
    ensures SeatsOk(t)
  {
  }

  lemma ReconfiguredKeepsInv(s: State, configs: seq<Config>)
    requires Inv(s) && Enabled(s, Reconfigure(configs))
    ensures Inv(Next(s, Reconfigure(configs)))
  {
    var seats := Built(s.seats, configs, true);
    var m := s.(seats := seats, order := IdsOf(configs));
    assert LedgerOk(m) && OpenOk(m);
    hide LedgerOk;
    hide OpenOk;
    hide TablesOk;
    BuiltSeatsOk(s, configs, true, m);
    ClosedAllKeeps(m, Filter(Missing(seats), s.order));
    var v := Reconfigured(s, configs);
    assert v == ClosedAll(m, Filter(Missing(seats), s.order));
    hide ClosedAll;
    hide Reconfigured;
    ReconfiguredTablesOk(s, configs, v);
    SeatsStay(m, v);
    hide SeatsOk;
    hide Built;
  }

  // ---- the shutdown ---------------------------------------------------------------------------------------

  lemma {:induction false} ClosesBelowCount(intervals: set<nat>, n: nat, k: nat)
    ensures Count(ClosesIt(k), ClosesBelow(intervals, n)) == One(k < n && k in intervals)
    ensures Count(OpensIt(k), ClosesBelow(intervals, n)) == 0
  {
    if n > 0 {
      ClosesBelowCount(intervals, n - 1, k);
      CountAppend(ClosesIt(k), ClosesBelow(intervals, n - 1), Closed(n - 1, EngineStop));
      CountAppend(OpensIt(k), ClosesBelow(intervals, n - 1), Closed(n - 1, EngineStop));
      if n - 1 !in intervals {
        assert ClosesBelow(intervals, n) == ClosesBelow(intervals, n - 1);
      }
    }
  }

  lemma BracketedAppend(sent: seq<Sent>, m: Sent)
    ensures Bracketed(sent + [m]) <==> Bracketed(sent) && (m.Closed? ==> Count(OpensIt(m.session), sent) == 1)
  {
    assert (sent + [m])[..|sent|] == sent;
  }

  lemma {:induction false} BracketedCloses(sent: seq<Sent>, intervals: set<nat>, n: nat)
    requires Bracketed(sent) && forall k: nat | k in intervals :: Count(OpensIt(k), sent) == 1
    ensures Bracketed(sent + ClosesBelow(intervals, n))
  {
    hide Bracketed;
    hide Count;
    if n == 0 {
      assert sent + ClosesBelow(intervals, n) == sent;
    } else {
      BracketedCloses(sent, intervals, n - 1);
      var front := sent + ClosesBelow(intervals, n - 1);
      if n - 1 in intervals {
        var m := Closed(n - 1, EngineStop);
        assert sent + ClosesBelow(intervals, n) == front + [m];
        BracketedAppend(front, m);
        StillOpenedOnce(sent, intervals, n - 1);
      } else {
        assert sent + ClosesBelow(intervals, n) == front;
      }
    }
  }

  lemma StillOpenedOnce(sent: seq<Sent>, intervals: set<nat>, n: nat)
    requires Count(OpensIt(n), sent) == 1
    ensures Count(OpensIt(n), sent + ClosesBelow(intervals, n)) == 1
  {
    CountConcat(OpensIt(n), sent, ClosesBelow(intervals, n));
    ClosesBelowCount(intervals, n, n);
  }

  lemma ShutDownKeepsInv(s: State)
    requires Inv(s) && !s.down
    ensures Inv(Next(s, Shutdown))
  {
    var t := ShutDown(s);
    forall k: nat
      ensures Count(OpensIt(k), t.sent) == One(k < t.sessions)
      ensures Count(ClosesIt(k), t.sent) == One(k < t.sessions && k !in t.intervals)
    {
      CountConcat(OpensIt(k), s.sent, ClosesBelow(s.intervals, s.sessions));
      CountConcat(ClosesIt(k), s.sent, ClosesBelow(s.intervals, s.sessions));
      ClosesBelowCount(s.intervals, s.sessions, k);
    }
    BracketedCloses(s.sent, s.intervals, s.sessions);
    assert SeatsOk(t);
  }

  // ---- every run ------------------------------------------------------------------------------------------

  lemma InitialInv(configs: seq<Config>)
    requires ValidConfigs(configs)
    ensures Inv(Initial(configs))
  {
    var s := Initial(configs);
    BuiltSeatsOk(s.(seats := map[]), configs, false, s);
    BuiltIs(map[], configs, false);
  }

  lemma NextKeepsInv(s: State, step: Step)
    requires Inv(s) && Enabled(s, step)
    ensures Inv(Next(s, step))
  {
    match step
    case Video(persons, now) => VideoKeepsInv(s, persons, now);
    case Reconfigure(configs) => ReconfiguredKeepsInv(s, configs);
    case Shutdown => ShutDownKeepsInv(s);
  }

  /** The state after the steps, each taken only when it can be. */
  ghost function Run(configs: seq<Config>, steps: seq<Step>): (s: State)
    requires ValidConfigs(configs)
    ensures Inv(s)
  {
    if steps == [] then InitialInv(configs); Initial(configs)
    else
      var before, step := Run(configs, steps[..|steps| - 1]), steps[|steps| - 1];
      if Enabled(before, step) then NextKeepsInv(before, step); Next(before, step) else before
  }

  /**
   * While the pipeline runs, a table has at most one open session, an open session means it is occupied, and a table
   * that was there from the start has one exactly while it is occupied, one per spell.
   */
  lemma SessionsFollowOccupancy(configs: seq<Config>, steps: seq<Step>, t: int)
    requires ValidConfigs(configs) && !Run(configs, steps).down && t in Run(configs, steps).seats
    ensures var s := Run(configs, steps);
      && (t in s.open ==>
            && s.seats[t].zone.status.Occupied? && s.open[t] in s.intervals
            && forall u | u in s.open && u != t :: s.open[u] != s.open[t])
      && (NeverWarmed(s.seats[t]) ==>
            (t in s.open <==> s.seats[t].zone.status.Occupied?) && Count(OpensFor(t), s.sent) == s.seats[t].zone.sessions)
  {
    var s := Run(configs, steps);
    assert TableOk(s, t);
  }

  /** At any time every session has been opened once and closed at most once, after its open. */
  lemma SessionsAreBracketed(configs: seq<Config>, steps: seq<Step>, k: nat)
    requires ValidConfigs(configs)
    ensures var s := Run(configs, steps);
      && Bracketed(s.sent)
      && Count(OpensIt(k), s.sent) == One(k < s.sessions)
      && Count(ClosesIt(k), s.sent) == One(k < s.sessions && k !in s.intervals)
  {
    assert LedgerOk(Run(configs, steps));
  }

  /** After the pipeline's shutdown every session that was opened has exactly one close. */
  lemma ShutdownClosesAll(configs: seq<Config>, steps: seq<Step>, k: nat)
    requires ValidConfigs(configs) && Run(configs, steps).down
    ensures var s := Run(configs, steps);
      Count(OpensIt(k), s.sent) == Count(ClosesIt(k), s.sent) == One(k < s.sessions)
  {
    assert LedgerOk(Run(configs, steps));
  }

  // ---- the object -----------------------------------------------------------------------------------------

  lemma OneMoreTable(s: State, tables: seq<int>, n: nat, persons: int -> nat)
    requires n < |tables| && forall i | 0 <= i < |tables| :: tables[i] in s.seats
    ensures TablesUpdated(s, tables[..n + 1], persons) ==
      TableUpdated(TablesUpdated(s, tables[..n], persons), tables[n], persons(tables[n]))
  {
    assert tables[..n + 1][..n] == tables[..n];
  }

  class Occupancy {
    var order: seq<int>
    var seats: map<int, Seat>
    var open: map<int, nat>
    var intervals: set<nat>
    var sent: seq<Sent>
    var sessions: nat
    var now: real
    var down: bool

    ghost function Value(): State
      reads this
    {
      State(order, seats, open, intervals, sent, sessions, now, down)
    }

    /** Tables of the first config do not warm up. */
    constructor (configs: seq<Config>)
      requires ValidConfigs(configs)
      ensures Value() == Initial(configs) && Inv(Value())
    {
      order, seats := IdsOf(configs), Built(map[], configs, false);
      open, intervals, sent, sessions, now, down := map[], {}, [], 0, 0.0, false;
      new;
      InitialInv(configs);
      hide Inv;
    }

    method OpenInterval(table: int) returns (session: nat)
      modifies this`intervals, this`sent, this`sessions
      ensures session == old(sessions) && sessions == session + 1
      ensures intervals == old(intervals) + {session} && sent == old(sent) + [Opened(session, table)]
    {
      session := sessions;
      intervals, sent, sessions := intervals + {session}, sent + [Opened(session, table)], sessions + 1;
    }

    method CloseInterval(session: nat, reason: Reason)
      modifies this`intervals, this`sent
      ensures intervals == old(intervals) - {session}
      ensures sent == if session in old(intervals) then old(sent) + [Closed(session, reason)] else old(sent)
    {
      if session in intervals {
        intervals, sent := intervals - {session}, sent + [Closed(session, reason)];
      }
    }

    method Close(table: int, reason: Reason)
      modifies this`open, this`intervals, this`sent
      ensures Value() == CloseSession(old(Value()), table, reason)
    {
      if table in open {
        var session := open[table];
        open := open - {table};
        CloseInterval(session, reason);
      }
    }

    method OnChange(table: int, change: Change)
      modifies this`open, this`intervals, this`sent, this`sessions
      ensures Value() == Reported(old(Value()), table, change)
    {
      match change
      case Stays =>
      case Fills =>
        if table !in open {
          var session := OpenInterval(table);
          open := open[table := session];
        }
      case Clears(_) => Close(table, Ended);
    }

    method UpdateTable(table: int, persons: nat)
      requires table in seats
      modifies this`seats, this`open, this`intervals, this`sent, this`sessions
      ensures Value() == TableUpdated(old(Value()), table, persons)
    {
      var (seat, change) := Seated(seats[table], persons, now);
      seats := seats[table := seat];
      hide Seated;
      hide Reported;
      OnChange(table, change);
    }

    /** One frame: every table in order. */
    method Update(persons: int -> nat, time: real)
      requires Inv(Value()) && Enabled(Value(), Video(persons, time))
      modifies this
      ensures Inv(Value()) && Value() == Next(old(Value()), Video(persons, time))
    {
      NextKeepsInv(Value(), Video(persons, time));
      assert Seatings(Value());
      now := time;
      ghost var start := Value();
      hide Inv;
      hide Enabled;
      hide TableUpdated;
      for n := 0 to |order|
        invariant order == start.order && seats.Keys == start.seats.Keys
        invariant Value() == TablesUpdated(start, order[..n], persons)
      {
        OneMoreTable(start, order, n, persons);
        UpdateTable(order[n], persons(order[n]));
      }
      assert order[..|order|] == order;
    }

    /** _build_tables, then the sessions of the removed tables are closed. */
    method ApplyConfig(configs: seq<Config>)
      requires Inv(Value()) && Enabled(Value(), Reconfigure(configs))
      modifies this
      ensures Inv(Value()) && Value() == Next(old(Value()), Reconfigure(configs))
    {
      NextKeepsInv(Value(), Reconfigure(configs));
      hide Inv;
      hide Enabled;
      hide CloseSession;
      var previous := order;
      seats := Built(seats, configs, true);
      order := IdsOf(configs);
      ghost var start := Value();
      var removed := Filter(Missing(seats), previous);
      for n := 0 to |removed|
        invariant Value() == ClosedAll(start, removed[..n])
      {
        assert removed[..n + 1][..n] == removed[..n];
        Close(removed[n], ConfigChange);
      }
      assert removed[..|removed|] == removed;
    }

    /** Closes the intervals of the ledger, oldest first. */
    method CloseIntervals()
      requires forall k | k in intervals :: k < sessions
      modifies this`intervals, this`sent
      ensures intervals == {} && sent == old(sent) + ClosesBelow(old(intervals), sessions)
    {
      var listed := intervals;
      for k := 0 to sessions
        invariant sent == old(sent) + ClosesBelow(listed, k)
        invariant forall x :: x in intervals <==> x in listed && x >= k
      {
        if k in listed {
          CloseInterval(k, EngineStop);
        }
      }
      assert intervals == {};
    }

    method EndPipeline()
      requires Inv(Value()) && !down
      modifies this
      ensures Inv(Value()) && Value() == Next(old(Value()), Shutdown)
    {
      NextKeepsInv(Value(), Shutdown);
      assert LedgerOk(Value());
      hide Inv;
      hide Bracketed;
      CloseIntervals();
      down := true;
    }
  }
}
