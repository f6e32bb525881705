/**
 * The data rows the ingest service writes: events by id, intervals by session, metrics by camera, name and minute,
 * and the evidence of important events. Redelivered messages find what they wrote.
 */
module IngestTables {
  import opened Options

  datatype UseCase = SystemUse | Named(name: int)

  datatype EventType = EngineStarted(engineGroup: int) | OtherType(name: int)

  datatype Camera = Camera(audit: bool, clipAfter: int, engineGroup: int)

  type Cameras = map<int, Camera>

  datatype Message =
    | Event(id: int, time: int, source: Option<int>, useCase: UseCase, kind: EventType, info: bool, body: int)
    | Open(session: int, camera: int, useCase: UseCase, time: int, body: int, data: map<int, int>)
    | Close(session: int, camera: int, useCase: UseCase, time: int, reason: int, data: map<int, int>)
    | Metric(camera: int, useCase: UseCase, name: int, minute: int, value: real)

  function CameraOf(m: Message): Option<int> {
    if m.Event? then m.source else Some(m.camera)
  }

  datatype EndReason = EngineRestart | Given(reason: int)

  datatype End = End(time: int, reason: EndReason)

  datatype IntervalRow = IntervalRow(
    camera: int, useCase: UseCase, start: int, body: int, end: Option<End>, data: map<int, int>)

  datatype MetricKey = MetricKey(camera: int, name: int, minute: int)

  datatype MetricRow = MetricRow(useCase: UseCase, value: real)

  datatype Evidence = Evidence(camera: int, eventTime: int, audit: bool, runAt: int)

  datatype Tables = Tables(
    events: map<int, Message>, intervals: map<int, IntervalRow>, metrics: map<MetricKey, MetricRow>,
    evidence: map<int, Evidence>)

  // ---- one message -------------------------------------------------------------------------------------

  predicate Known(cams: Cameras, m: Message) {
    CameraOf(m).None? || CameraOf(m).value in cams
  }

  predicate IsOpen(t: Tables, session: int) {
    session in t.intervals && t.intervals[session].end.None?
  }

  /** An open interval of the restarted engine's group that started before the restart. */
  predicate EndsAtRestart(cams: Cameras, row: IntervalRow, engineGroup: int, time: int) {
    && row.end.None? && row.useCase != SystemUse && row.start <= time
    && row.camera in cams && cams[row.camera].engineGroup == engineGroup
  }

  function Restarted(cams: Cameras, intervals: map<int, IntervalRow>, engineGroup: int, time: int): map<int, IntervalRow> {
    map s | s in intervals ::
      if EndsAtRestart(cams, intervals[s], engineGroup, time)
      then intervals[s].(end := Some(End(time, EngineRestart))) else intervals[s]
  }

  predicate IsRestart(m: Message) {
    m.Event? && m.useCase.SystemUse? && m.kind.EngineStarted?
  }

  function WithEvidence(cams: Cameras, t: Tables, m: Message): Tables
    requires m.Event? && Known(cams, m)
  {
    if m.source.Some? && (!m.info || cams[m.source.value].audit) && m.id !in t.evidence then
      var c := cams[m.source.value];
      t.(evidence := t.evidence[m.id := Evidence(m.source.value, m.time, c.audit, m.time + c.clipAfter + 60)])
    else t
  }

  /** Only the first delivery of an event writes anything; one of engine_started also ends the earlier intervals. */
  function ApplyEvent(cams: Cameras, t: Tables, m: Message): Tables
    requires m.Event? && Known(cams, m)
  {
    if m.id in t.events then t
    else
      var e := WithEvidence(cams, t.(events := t.events[m.id := m]), m);
      if IsRestart(m) then e.(intervals := Restarted(cams, e.intervals, m.kind.engineGroup, m.time)) else e
  }

  function ApplyOpen(t: Tables, m: Message): Tables
    requires m.Open?
  {
    if m.session in t.intervals then t
    else t.(intervals := t.intervals[m.session := IntervalRow(m.camera, m.useCase, m.time, m.body, None, m.data)])
  }

  function ApplyClose(t: Tables, m: Message): Tables
    requires m.Close?
  {
    if !IsOpen(t, m.session) then t
    else
      var row := t.intervals[m.session];
      t.(intervals := t.intervals[m.session := row.(end := Some(End(m.time, Given(m.reason))), data := row.data + m.data)])
  }

  function KeyOf(m: Message): MetricKey
    requires m.Metric?
  {
    MetricKey(m.camera, m.name, m.minute)
  }

  function WriteMetric(metrics: map<MetricKey, MetricRow>, m: Message): map<MetricKey, MetricRow>
    requires m.Metric?
  {
    var k := KeyOf(m);
    metrics[k := if k in metrics then metrics[k].(value := m.value) else MetricRow(m.useCase, m.value)]
  }

  /** What a message does to the rows; one for an unknown camera, or a close of an unknown interval, does nothing. */
  function Apply(cams: Cameras, t: Tables, m: Message): Tables {
    if !Known(cams, m) then t
    else
      match m
      case Event(_, _, _, _, _, _, _) => ApplyEvent(cams, t, m)
      case Open(_, _, _, _, _, _) => ApplyOpen(t, m)
      case Close(_, _, _, _, _, _) => ApplyClose(t, m)
      case Metric(_, _, _, _, _) => t.(metrics := WriteMetric(t.metrics, m))
  }

  /** Whether a valid message becomes a dead letter. */
  predicate IsDead(cams: Cameras, t: Tables, m: Message) {
    !Known(cams, m) || (m.Close? && m.session !in t.intervals)
  }

  function ApplyAll(cams: Cameras, t: Tables, ms: seq<Message>): Tables {
    if ms == [] then t else Apply(cams, ApplyAll(cams, t, ms[..|ms| - 1]), ms[|ms| - 1])
  }

  lemma {:induction false} ApplyConcat(cams: Cameras, t: Tables, a: seq<Message>, b: seq<Message>)
    ensures ApplyAll(cams, t, a + b) == ApplyAll(cams, ApplyAll(cams, t, a), b)
  {
    hide Apply;
    if b == [] {
      assert a + b == a;
    } else {
      ApplyConcat(cams, t, a, b[..|b| - 1]);
      assert (a + b)[..|a + b| - 1] == a + b[..|b| - 1];
    }
  }

  // ---- rows are never removed, and a closed interval stays closed -----------------------------------------

  ghost predicate Grows(t: Tables, u: Tables) {
    && t.events.Keys <= u.events.Keys && t.intervals.Keys <= u.intervals.Keys && t.metrics.Keys <= u.metrics.Keys
    && t.evidence.Keys <= u.evidence.Keys
    && (forall id | id in t.events :: u.events[id] == t.events[id])
    && (forall s | s in t.intervals && t.intervals[s].end.Some? :: u.intervals[s] == t.intervals[s])
    && (forall id | id in t.evidence :: u.evidence[id] == t.evidence[id])
  }

  lemma ApplyGrows(cams: Cameras, t: Tables, m: Message)
    ensures Grows(t, Apply(cams, t, m))
  {
  }

  /** Over any run, no row goes away, no event or evidence row changes and no closed interval changes. */
  lemma {:induction false} RunGrows(cams: Cameras, t: Tables, ms: seq<Message>)
    ensures Grows(t, ApplyAll(cams, t, ms))
  {
    if ms != [] {
      RunGrows(cams, t, ms[..|ms| - 1]);
      ApplyGrows(cams, ApplyAll(cams, t, ms[..|ms| - 1]), ms[|ms| - 1]);
      hide Apply;
    }
  }

  // ---- a message applied again ----------------------------------------------------------------------------

  /** The rows the message writes are there. */
  predicate Seen(cams: Cameras, t: Tables, m: Message) {
    Known(cams, m) ==>
      match m
      case Event(id, _, _, _, _, _, _) => id in t.events
      case Open(s, _, _, _, _, _) => s in t.intervals
      case Close(_, _, _, _, _, _) => true
      case Metric(_, _, _, _, _) => KeyOf(m) in t.metrics
  }

  lemma AppliedIsSeen(cams: Cameras, t: Tables, m: Message)
    ensures Seen(cams, Apply(cams, t, m), m)
  {
  }

  lemma SeenStays(cams: Cameras, t: Tables, u: Tables, m: Message)
    requires Seen(cams, t, m) && Grows(t, u)
    ensures Seen(cams, u, m)
  {
  }

  /** A close that an open interval still waits for. */
  predicate StillCloses(cams: Cameras, t: Tables, m: Message) {
    m.Close? && Known(cams, m) && IsOpen(t, m.session)
  }

  /**
   * A message applied once, whatever was applied after it, changes nothing when it comes again, if and only if
   * it is not a close of an interval that is still open and not a metric that a later one overwrote.
   */
  lemma AppliedAgain(cams: Cameras, t: Tables, m: Message, later: seq<Message>)
    ensures var u := ApplyAll(cams, Apply(cams, t, m), later);
      Apply(cams, u, m) == u <==>
      !StillCloses(cams, u, m)
      && (m.Metric? && Known(cams, m) ==> KeyOf(m) in u.metrics && u.metrics[KeyOf(m)].value == m.value)
  {
    var a := Apply(cams, t, m);
    var u := ApplyAll(cams, a, later);
    AppliedIsSeen(cams, t, m);
    RunGrows(cams, a, later);
    SeenStays(cams, a, u, m);
    hide ApplyAll;
    hide Grows;
    AgainIff(cams, u, m);
  }

  lemma AgainIff(cams: Cameras, u: Tables, m: Message)
    requires Seen(cams, u, m)
    ensures Apply(cams, u, m) == u <==>
      !StillCloses(cams, u, m) && (m.Metric? && Known(cams, m) ==> u.metrics[KeyOf(m)].value == m.value)
  {
    if m.Metric? && Known(cams, m) {
      var k := KeyOf(m);
      var v := Apply(cams, u, m);
      assert v.metrics[k] == u.metrics[k].(value := m.value);
      if u.metrics[k].value == m.value {
        assert v.metrics == u.metrics;
      }
    } else if StillCloses(cams, u, m) {
      assert Apply(cams, u, m).intervals[m.session].end.Some?;
    }
  }

  // ---- a suffix of the log applied again ------------------------------------------------------------------

  lemma {:induction false} AllSeen(cams: Cameras, t: Tables, ms: seq<Message>, i: nat)
    requires i < |ms|
    ensures Seen(cams, ApplyAll(cams, t, ms), ms[i])
  {
    var front := ApplyAll(cams, t, ms[..|ms| - 1]);
    if i == |ms| - 1 {
      AppliedIsSeen(cams, front, ms[i]);
    } else {
      AllSeen(cams, t, ms[..|ms| - 1], i);
      ApplyGrows(cams, front, ms[|ms| - 1]);
      SeenStays(cams, front, ApplyAll(cams, t, ms), ms[i]);
    }
    hide Apply;
  }

  predicate Writes(cams: Cameras, m: Message, k: MetricKey) {
    m.Metric? && Known(cams, m) && k == MetricKey(m.camera, m.name, m.minute)
  }

  /** The value the last of `ms` writes for the key. */
  function LastWrite(cams: Cameras, ms: seq<Message>, k: MetricKey): Option<real> {
    if ms == [] then None
    else if Writes(cams, ms[|ms| - 1], k) then Some(ms[|ms| - 1].value)
    else LastWrite(cams, ms[..|ms| - 1], k)
  }

  lemma {:induction false} LastWriteConcat(cams: Cameras, a: seq<Message>, b: seq<Message>, k: MetricKey)
    ensures LastWrite(cams, a + b, k) == if LastWrite(cams, b, k).Some? then LastWrite(cams, b, k) else LastWrite(cams, a, k)
  {
    if b == [] {
      assert a + b == a;
    } else {
      LastWriteConcat(cams, a, b[..|b| - 1], k);
      assert (a + b)[..|a + b| - 1] == a + b[..|b| - 1];
    }
  }

  lemma ApplyMetric(cams: Cameras, t: Tables, m: Message, k: MetricKey)
    ensures var u := Apply(cams, t, m);
      && (k in u.metrics <==> k in t.metrics || Writes(cams, m, k))
      && (Writes(cams, m, k) ==> u.metrics[k].value == m.value)
      && (!Writes(cams, m, k) && k in t.metrics ==> u.metrics[k] == t.metrics[k])
      && (k in t.metrics ==> u.metrics[k].useCase == t.metrics[k].useCase)
  {
  }

  /** The last write of a metric wins; its row keeps the use case of the first one. */
  lemma {:induction false} LastMetricWins(cams: Cameras, t: Tables, ms: seq<Message>, k: MetricKey)
    ensures var u := ApplyAll(cams, t, ms);
      var last := LastWrite(cams, ms, k);
      && (k in u.metrics <==> k in t.metrics || last.Some?)
      && (last.Some? ==> u.metrics[k].value == last.value)
      && (last.None? && k in t.metrics ==> u.metrics[k] == t.metrics[k])
      && (k in t.metrics ==> u.metrics[k].useCase == t.metrics[k].useCase)
  {
    if ms != [] {
      LastMetricWins(cams, t, ms[..|ms| - 1], k);
      ApplyMetric(cams, ApplyAll(cams, t, ms[..|ms| - 1]), ms[|ms| - 1], k);
      hide Apply;
    }
  }

  /** The use case the first of `ms` to write the key gives its row. */
  function FirstUse(cams: Cameras, ms: seq<Message>, k: MetricKey): Option<UseCase> {
    if ms == [] then None
    else
      var before := FirstUse(cams, ms[..|ms| - 1], k);
      if before.None? && Writes(cams, ms[|ms| - 1], k) then Some(ms[|ms| - 1].useCase) else before
  }

  lemma FirstMetric(cams: Cameras, t: Tables, m: Message, k: MetricKey)
    requires Writes(cams, m, k) && k !in t.metrics
    ensures Apply(cams, t, m).metrics[k].useCase == m.useCase
  {
  }

  lemma {:induction false} FirstUseWins(cams: Cameras, t: Tables, ms: seq<Message>, k: MetricKey)
    requires k !in t.metrics
    ensures var u := ApplyAll(cams, t, ms);
      && (k in u.metrics <==> FirstUse(cams, ms, k).Some?)
      && (k in u.metrics ==> u.metrics[k].useCase == FirstUse(cams, ms, k).value)
  {
    if ms != [] {
      var front, last := ms[..|ms| - 1], ms[|ms| - 1];
      FirstUseWins(cams, t, front, k);
      ApplyMetric(cams, ApplyAll(cams, t, front), last, k);
      if Writes(cams, last, k) && k !in ApplyAll(cams, t, front).metrics {
        FirstMetric(cams, ApplyAll(cams, t, front), last, k);
      }
      hide Apply;
    }
  }

  lemma MetricsAgain(cams: Cameras, t: Tables, all: seq<Message>, from: nat)
    requires from <= |all|
    ensures var u := ApplyAll(cams, t, all);
      ApplyAll(cams, u, all[from..]).metrics == u.metrics
  {
    var u := ApplyAll(cams, t, all);
    var v := ApplyAll(cams, u, all[from..]);
    forall k: MetricKey
      ensures k in v.metrics <==> k in u.metrics
      ensures k in u.metrics ==> v.metrics[k] == u.metrics[k]
    {
      LastMetricWins(cams, t, all, k);
      LastMetricWins(cams, u, all[from..], k);
      LastWriteConcat(cams, all[..from], all[from..], k);
      assert all[..from] + all[from..] == all;
    }
  }

  predicate NoMetric(cams: Cameras, m: Message) {
    !m.Metric? || !Known(cams, m)
  }

  /** Everything but the metrics. */
  predicate SameRows(t: Tables, u: Tables) {
    u == t.(metrics := u.metrics)
  }

  lemma SeenChangesNoRow(cams: Cameras, t: Tables, m: Message)
    requires Seen(cams, t, m) && !StillCloses(cams, t, m)
    ensures SameRows(t, Apply(cams, t, m))
  {
  }

  /** The rows but for the metrics do not depend on the metrics. */
  lemma ApplySameRows(cams: Cameras, t: Tables, u: Tables, m: Message)
    requires SameRows(t, u)
    ensures SameRows(Apply(cams, t, m), Apply(cams, u, m))
  {
    hide Restarted;
  }

  lemma RowsDecide(cams: Cameras, t: Tables, u: Tables, m: Message)
    requires SameRows(t, u) && t.metrics.Keys <= u.metrics.Keys
    ensures Seen(cams, t, m) ==> Seen(cams, u, m)
    ensures StillCloses(cams, u, m) <==> StillCloses(cams, t, m)
  {
  }

  lemma {:induction false} RowsAgain(cams: Cameras, u: Tables, ms: seq<Message>)
    requires forall i | 0 <= i < |ms| :: Seen(cams, u, ms[i]) && !StillCloses(cams, u, ms[i])
    ensures SameRows(u, ApplyAll(cams, u, ms))
  {
    if ms != [] {
      var front, last := ms[..|ms| - 1], ms[|ms| - 1];
      RowsAgain(cams, u, front);
      RunGrows(cams, u, front);
      RowsDecide(cams, u, ApplyAll(cams, u, front), last);
      hide Apply;
      SeenChangesNoRow(cams, ApplyAll(cams, u, front), last);
    }
  }

  lemma {:induction false} ClosedAtTheEnd(cams: Cameras, u: Tables, ms: seq<Message>, i: nat)
    requires i < |ms| && ms[i].Close? && Known(cams, ms[i]) && ms[i].session in u.intervals
    ensures var v := ApplyAll(cams, u, ms);
      ms[i].session in v.intervals && v.intervals[ms[i].session].end.Some?
  {
    var front, last := ms[..|ms| - 1], ms[|ms| - 1];
    var before := ApplyAll(cams, u, front);
    RunGrows(cams, u, front);
    if i < |ms| - 1 {
      ClosedAtTheEnd(cams, u, front, i);
      ApplyGrows(cams, before, last);
      hide Apply;
    }
  }

  /**
   * Redelivery: applying any suffix of the log again changes no row, if and only if no close in it names an
   * interval that is still open.
   */
  lemma SuffixAgain(cams: Cameras, t: Tables, all: seq<Message>, from: nat)
    requires from <= |all|
    ensures var u := ApplyAll(cams, t, all);
      ApplyAll(cams, u, all[from..]) == u <==> (forall i | from <= i < |all| :: !StillCloses(cams, u, all[i]))
  {
    var u := ApplyAll(cams, t, all);
    var suffix := all[from..];
    var v := ApplyAll(cams, u, suffix);
    if i :| from <= i < |all| && StillCloses(cams, u, all[i]) {
      assert suffix[i - from] == all[i];
      ClosedAtTheEnd(cams, u, suffix, i - from);
      assert v.intervals[all[i].session] != u.intervals[all[i].session];
    } else {
      forall i | 0 <= i < |suffix|
        ensures Seen(cams, u, suffix[i]) && !StillCloses(cams, u, suffix[i])
      {
        AllSeen(cams, t, all, from + i);
        assert suffix[i] == all[from + i];
      }
      RowsAgain(cams, u, suffix);
      MetricsAgain(cams, t, all, from);
    }
  }

  predicate Opens(cams: Cameras, m: Message, session: int) {
    m.Open? && Known(cams, m) && m.session == session
  }

  /** An open of the session is among the first `n` messages. */
  ghost predicate OpenedBy(cams: Cameras, ms: seq<Message>, n: nat, session: int)
    requires n <= |ms|
  {
    exists j :: 0 <= j < n && Opens(cams, ms[j], session)
  }

  /** A close whose session the log opens at all comes after an open of it. */
  ghost predicate OpensFirst(cams: Cameras, ms: seq<Message>) {
    forall i | 0 <= i < |ms| && ms[i].Close? && Known(cams, ms[i]) && OpenedBy(cams, ms, |ms|, ms[i].session) ::
      OpenedBy(cams, ms, i, ms[i].session)
  }

  lemma {:induction false} NeverOpened(cams: Cameras, t: Tables, ms: seq<Message>, session: int)
    requires session !in t.intervals && !OpenedBy(cams, ms, |ms|, session)
    ensures session !in ApplyAll(cams, t, ms).intervals
  {
    if ms != [] {
      var front, last := ms[..|ms| - 1], ms[|ms| - 1];
      assert forall j | 0 <= j < |front| :: front[j] == ms[j];
      NeverOpened(cams, t, front, session);
      assert !Opens(cams, last, session);
      NoNewInterval(cams, ApplyAll(cams, t, front), last, session);
      hide Apply;
    }
  }

  lemma NoNewInterval(cams: Cameras, t: Tables, m: Message, session: int)
    requires session !in t.intervals && !Opens(cams, m, session)
    ensures session !in Apply(cams, t, m).intervals
  {
  }

  lemma OpenedIsThere(cams: Cameras, t: Tables, all: seq<Message>, i: nat, session: int)
    requires i <= |all|
    ensures OpenedBy(cams, all, i, session) ==> session in ApplyAll(cams, t, all[..i]).intervals
  {
    if j :| 0 <= j < i && Opens(cams, all[j], session) {
      AllSeen(cams, t, all[..i], j);
      assert all[..i][j] == all[j];
    }
  }

  /** An interval has a row exactly if an open of its session is in the log. */
  lemma OpenedIff(cams: Cameras, ms: seq<Message>, session: int)
    ensures var t := ApplyAll(cams, Tables(map[], map[], map[], map[]), ms);
      session in t.intervals <==> OpenedBy(cams, ms, |ms|, session)
  {
    var none := Tables(map[], map[], map[], map[]);
    assert ms[..|ms|] == ms;
    OpenedIsThere(cams, none, ms, |ms|, session);
    if !OpenedBy(cams, ms, |ms|, session) {
      NeverOpened(cams, none, ms, session);
    }
    hide ApplyAll;
  }

  /** In a log where opens come first, no close waits for an interval any more. */
  lemma NoneStillCloses(cams: Cameras, t: Tables, all: seq<Message>, i: nat)
    requires i < |all| && OpensFirst(cams, all)
    ensures !StillCloses(cams, ApplyAll(cams, t, all), all[i])
  {
    if all[i].Close? && Known(cams, all[i]) {
      var session := all[i].session;
      var before, rest := ApplyAll(cams, t, all[..i]), all[i..];
      assert rest[0] == all[i];
      assert all[..i] + rest == all;
      ApplyConcat(cams, t, all[..i], rest);
      if session in before.intervals {
        ClosedAtTheEnd(cams, before, rest, 0);
      } else {
        OpenedIsThere(cams, t, all, i, session);
        assert forall j | 0 <= j < |rest| :: rest[j] == all[i + j];
        NeverOpened(cams, before, rest, session);
      }
    }
  }

  /** In a log where each session's open precedes its close, a redelivered suffix changes nothing. */
  lemma RedeliveryChangesNothing(cams: Cameras, t: Tables, all: seq<Message>, from: nat)
    requires from <= |all| && OpensFirst(cams, all)
    ensures ApplyAll(cams, ApplyAll(cams, t, all), all[from..]) == ApplyAll(cams, t, all)
  {
    forall i | from <= i < |all|
      ensures !StillCloses(cams, ApplyAll(cams, t, all), all[i])
    {
      NoneStillCloses(cams, t, all, i);
    }
    SuffixAgain(cams, t, all, from);
  }

  /** A close delivered before its open is the case that fails: redelivered, it closes the interval. */
  lemma CloseBeforeOpenMatters(cams: Cameras, opening: Message, closed: Message)
    requires opening.Open? && closed.Close? && opening.session == closed.session
    requires Known(cams, opening) && Known(cams, closed)
    ensures var none := Tables(map[], map[], map[], map[]);
      var once := ApplyAll(cams, none, [closed, opening]);
      IsOpen(once, opening.session) && !IsOpen(ApplyAll(cams, once, [closed, opening]), opening.session)
  {
    var none := Tables(map[], map[], map[], map[]);
    var pair := [closed, opening];
    assert pair[..1] == [closed];
    assert ApplyAll(cams, none, pair[..1]) == none by {
      assert pair[..1][..0] == [];
    }
    var once := ApplyAll(cams, none, pair);
    ClosedAtTheEnd(cams, once, pair, 0);
  }

  // ---- announcements --------------------------------------------------------------------------------------

  /** The message inserts an event row. */
  predicate Inserts(cams: Cameras, t: Tables, m: Message) {
    m.Event? && Known(cams, m) && m.id !in t.events
  }

  /** The events a log inserts, in order: what its commits announce. */
  function Announced(cams: Cameras, t: Tables, ms: seq<Message>): seq<Message> {
    if ms == [] then []
    else
      var front, last := ms[..|ms| - 1], ms[|ms| - 1];
      Announced(cams, t, front) + if Inserts(cams, ApplyAll(cams, t, front), last) then [last] else []
  }

  lemma EventRows(cams: Cameras, t: Tables, m: Message)
    ensures Apply(cams, t, m).events == if Inserts(cams, t, m) then t.events[m.id := m] else t.events
  {
  }

  /** `said` announces each event row that `u` has and `t` has not, once, with what the row holds, and nothing else. */
  ghost predicate Announces(t: Tables, u: Tables, said: seq<Message>) {
    && (forall i | 0 <= i < |said| ::
          said[i].Event? && said[i].id !in t.events && said[i].id in u.events && u.events[said[i].id] == said[i])
    && (forall i, j | 0 <= i < j < |said| :: said[i].Event? && said[j].Event? && said[i].id != said[j].id)
    && (forall id | id in u.events && id !in t.events :: u.events[id] in said)
  }

  lemma OneMoreAnnounced(t: Tables, u: Tables, v: Tables, said: seq<Message>, m: Message)
    requires Announces(t, u, said) && t.events.Keys <= u.events.Keys
    requires m.Event? && m.id !in u.events && v.events == u.events[m.id := m]
    ensures Announces(t, v, said + [m])
  {
    var all := said + [m];
    forall id | id in v.events && id !in t.events
      ensures v.events[id] in all
    {
      if id == m.id {
        assert all[|said|] == v.events[id];
      } else {
        var i :| 0 <= i < |said| && said[i] == u.events[id];
        assert all[i] == v.events[id];
      }
    }
  }

  lemma {:induction false} EachRowIsAnnouncedOnce(cams: Cameras, t: Tables, ms: seq<Message>)
    ensures Announces(t, ApplyAll(cams, t, ms), Announced(cams, t, ms))
  {
    if ms != [] {
      var front, last := ms[..|ms| - 1], ms[|ms| - 1];
      var u := ApplyAll(cams, t, front);
      EachRowIsAnnouncedOnce(cams, t, front);
      EventRows(cams, u, last);
      RunGrows(cams, t, front);
      if Inserts(cams, u, last) {
        hide Announces;
        OneMoreAnnounced(t, u, Apply(cams, u, last), Announced(cams, t, front), last);
      }
      hide Apply;
    }
  }

  // ---- evidence and restarts ---------------------------------------------------------------------------------

  /** An event whose clip is kept: of a camera under audit, or not just informational. */
  predicate IsImportant(cams: Cameras, m: Message) {
    m.Event? && m.source.Some? && m.source.value in cams && (!m.info || cams[m.source.value].audit)
  }

  /** An evidence row for each important event, of its camera, time and reason; and no other. */
  ghost predicate EvidenceOk(cams: Cameras, t: Tables) {
    && (forall id | id in t.events :: t.events[id].Event? && (id in t.evidence <==> IsImportant(cams, t.events[id])))
    && (forall id | id in t.evidence ::
          && id in t.events && t.events[id].Event? && t.events[id].source == Some(t.evidence[id].camera)
          && t.evidence[id].eventTime == t.events[id].time && t.evidence[id].camera in cams
          && t.evidence[id].audit == cams[t.evidence[id].camera].audit
          && t.evidence[id].runAt == t.events[id].time + cams[t.evidence[id].camera].clipAfter + 60)
  }

  /** The events and evidence of a first delivery; anything else leaves both alone. */
  lemma ApplyEvidence(cams: Cameras, t: Tables, m: Message)
    ensures var u := Apply(cams, t, m);
      if Inserts(cams, t, m)
      then var w := WithEvidence(cams, t.(events := t.events[m.id := m]), m); u.events == w.events && u.evidence == w.evidence
      else u.events == t.events && u.evidence == t.evidence
  {
    hide Restarted;
  }

  lemma InsertKeepsEvidence(cams: Cameras, t: Tables, m: Message)
    requires EvidenceOk(cams, t) && Inserts(cams, t, m)
    ensures EvidenceOk(cams, WithEvidence(cams, t.(events := t.events[m.id := m]), m))
  {
    assert m.id !in t.evidence;
  }

  lemma ApplyKeepsEvidence(cams: Cameras, t: Tables, m: Message)
    requires EvidenceOk(cams, t)
    ensures EvidenceOk(cams, Apply(cams, t, m))
  {
    ApplyEvidence(cams, t, m);
    if Inserts(cams, t, m) {
      InsertKeepsEvidence(cams, t, m);
    }
    hide Apply;
    hide WithEvidence;
  }

  /** Over any log, an event and its evidence are written together or not at all. */
  lemma {:induction false} EvidenceGoesWithItsEvent(cams: Cameras, ms: seq<Message>)
    ensures EvidenceOk(cams, ApplyAll(cams, Tables(map[], map[], map[], map[]), ms))
  {
    if ms != [] {
      EvidenceGoesWithItsEvent(cams, ms[..|ms| - 1]);
      hide EvidenceOk;
      hide Apply;
      ApplyKeepsEvidence(cams, ApplyAll(cams, Tables(map[], map[], map[], map[]), ms[..|ms| - 1]), ms[|ms| - 1]);
    }
  }

  /** An interval the restarted engine group left open: of one of its cameras, not a system one, started by then. */
  predicate LeftOpen(cams: Cameras, t: Tables, s: int, engineGroup: int, time: int) {
    && IsOpen(t, s) && t.intervals[s].useCase != SystemUse && t.intervals[s].start <= time
    && t.intervals[s].camera in cams && cams[t.intervals[s].camera].engineGroup == engineGroup
  }

  /**
   * The first delivery of engine_started ends exactly the intervals its group left open; a second one, after anything
   * else, touches no interval, also none the restarted engine opened since.
   */
  lemma RestartEndsWhatWasLeftOpen(cams: Cameras, t: Tables, m: Message, later: seq<Message>, s: int)
    requires IsRestart(m) && Inserts(cams, t, m)
    ensures var u := Apply(cams, t, m);
      && u.intervals.Keys == t.intervals.Keys
      && !LeftOpen(cams, u, s, m.kind.engineGroup, m.time)
      && (s in t.intervals && !LeftOpen(cams, t, s, m.kind.engineGroup, m.time) ==> u.intervals[s] == t.intervals[s])
      && (LeftOpen(cams, t, s, m.kind.engineGroup, m.time) ==> u.intervals[s].end == Some(End(m.time, EngineRestart)))
    ensures var u := ApplyAll(cams, Apply(cams, t, m), later);
      Apply(cams, u, m) == u
  {
    AppliedAgain(cams, t, m, later);
    hide ApplyAll;
  }
}
