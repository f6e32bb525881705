/** What the rows hold, in the terms of the messages that wrote them: for every log, redeliveries and restarts included. */
module IngestIntervals {
  import opened IngestConsumer
  import opened IngestTables
  import opened Options

  // ---- events -----------------------------------------------------------------------------------------------

  predicate Reports(cams: Cameras, m: Message, id: int) {
    m.Event? && Known(cams, m) && m.id == id
  }

  /** The n-th message is the first delivery of its event. */
  ghost predicate FirstDelivery(cams: Cameras, ms: seq<Message>, n: nat, id: int) {
    n < |ms| && Reports(cams, ms[n], id) && forall j | 0 <= j < n :: !Reports(cams, ms[j], id)
  }

  lemma FirstDeliveryFront(cams: Cameras, ms: seq<Message>, n: nat, id: int)
    requires ms != [] && n < |ms| - 1
    ensures FirstDelivery(cams, ms, n, id) <==> FirstDelivery(cams, ms[..|ms| - 1], n, id)
  {
    var front := ms[..|ms| - 1];
    assert forall j | 0 <= j < |front| :: front[j] == ms[j];
  }

  /** An event's row is what its first delivery held. */
  lemma {:induction false} EventIsItsFirstDelivery(cams: Cameras, ms: seq<Message>, id: int)
    ensures var events := ApplyAll(cams, NoRows, ms).events;
      && (id in events <==> exists n: nat :: FirstDelivery(cams, ms, n, id))
      && (forall n: nat | FirstDelivery(cams, ms, n, id) :: id in events && events[id] == ms[n])
  {
    if ms != [] {
      var front, last := ms[..|ms| - 1], ms[|ms| - 1];
      EventIsItsFirstDelivery(cams, front, id);
      EventRows(cams, ApplyAll(cams, NoRows, front), last);
      forall n: nat | n < |front|
        ensures FirstDelivery(cams, ms, n, id) <==> FirstDelivery(cams, front, n, id)
      {
        FirstDeliveryFront(cams, ms, n, id);
      }
      hide Apply;
      NewDelivery(cams, ms, id);
      if n: nat :| FirstDelivery(cams, front, n, id) {
        assert FirstDelivery(cams, ms, n, id);
        OneDelivery(cams, ms, n, |front|, id);
      }
    }
  }

  lemma OneDelivery(cams: Cameras, ms: seq<Message>, n: nat, m: nat, id: int)
    requires FirstDelivery(cams, ms, n, id) && n < m
    ensures !FirstDelivery(cams, ms, m, id)
  {
  }

  /** The last message is a first delivery exactly if it inserts its row. */
  lemma {:induction false} NewDelivery(cams: Cameras, ms: seq<Message>, id: int)
    requires ms != []
    ensures var front, last := ms[..|ms| - 1], ms[|ms| - 1];
      FirstDelivery(cams, ms, |front|, id) <==>
      Reports(cams, last, id) && id !in ApplyAll(cams, NoRows, front).events
  {
    DeliveredIff(cams, ms[..|ms| - 1], id);
  }

  lemma {:induction false} DeliveredIff(cams: Cameras, ms: seq<Message>, id: int)
    ensures id in ApplyAll(cams, NoRows, ms).events <==> exists j :: 0 <= j < |ms| && Reports(cams, ms[j], id)
  {
    if ms != [] {
      var front, last := ms[..|ms| - 1], ms[|ms| - 1];
      DeliveredIff(cams, front, id);
      EventRows(cams, ApplyAll(cams, NoRows, front), last);
      hide Apply;
      if j :| 0 <= j < |front| && Reports(cams, front[j], id) {
        assert Reports(cams, ms[j], id);
      }
      if Reports(cams, last, id) {
        assert Reports(cams, ms[|ms| - 1], id);
      }
    }
  }

  // ---- intervals --------------------------------------------------------------------------------------------

  ghost predicate FirstOpen(cams: Cameras, ms: seq<Message>, o: nat, session: int) {
    o < |ms| && Opens(cams, ms[o], session) && forall j | 0 <= j < o :: !Opens(cams, ms[j], session)
  }

  /** A restart that is not earlier than the open, of the engine group of its camera. */
  predicate RestartEnds(cams: Cameras, open: Message, m: Message)
    requires open.Open?
  {
    && IsRestart(m) && Known(cams, m) && open.useCase != SystemUse && open.time <= m.time
    && open.camera in cams && cams[open.camera].engineGroup == m.kind.engineGroup
  }

  /** The n-th message ends the interval: a close of its session, or the first delivery of a restart. */
  ghost predicate EndsIt(cams: Cameras, ms: seq<Message>, open: Message, n: nat)
    requires open.Open? && n < |ms|
  {
    || (ms[n].Close? && Known(cams, ms[n]) && ms[n].session == open.session)
    || (RestartEnds(cams, open, ms[n]) && FirstDelivery(cams, ms, n, ms[n].id))
  }

  ghost predicate NoneEnds(cams: Cameras, ms: seq<Message>, open: Message, from: nat, to: nat)
    requires open.Open? && to <= |ms|
  {
    forall n | from < n < to :: !EndsIt(cams, ms, open, n)
  }

  /** The row of an interval that was opened by `open` and ended by nothing, a close or a restart. */
  function RowOf(open: Message, end: Option<Message>): IntervalRow
    requires open.Open? && (end.Some? ==> end.value.Close? || end.value.Event?)
  {
    IntervalRow(open.camera, open.useCase, open.time, open.body,
                match end
                case None => None
                case Some(m) => Some(End(m.time, if m.Close? then Given(m.reason) else EngineRestart)),
                if end.Some? && end.value.Close? then open.data + end.value.data else open.data)
  }

  ghost predicate EndedAt(cams: Cameras, ms: seq<Message>, o: nat, n: nat) {
    o < n < |ms| && ms[o].Open? && EndsIt(cams, ms, ms[o], n) && NoneEnds(cams, ms, ms[o], o, n)
  }

  /** The row is that of the open, and of the first message after it that ends the interval, if there is one. */
  ghost predicate IsItsRow(cams: Cameras, ms: seq<Message>, o: nat, row: IntervalRow)
    requires o < |ms| && ms[o].Open?
  {
    || (NoneEnds(cams, ms, ms[o], o, |ms|) && row == RowOf(ms[o], None))
    || (exists n: nat :: EndedAt(cams, ms, o, n) && row == RowOf(ms[o], Some(ms[n])))
  }

  lemma EndsItFront(cams: Cameras, ms: seq<Message>, open: Message, n: nat)
    requires ms != [] && open.Open? && n < |ms| - 1
    ensures EndsIt(cams, ms, open, n) <==> EndsIt(cams, ms[..|ms| - 1], open, n)
  {
    if ms[n].Event? {
      FirstDeliveryFront(cams, ms, n, ms[n].id);
    }
  }

  lemma NoneEndsFront(cams: Cameras, ms: seq<Message>, open: Message, from: nat, to: nat)
    requires ms != [] && open.Open? && to <= |ms| - 1
    ensures NoneEnds(cams, ms, open, from, to) <==> NoneEnds(cams, ms[..|ms| - 1], open, from, to)
  {
    var front := ms[..|ms| - 1];
    forall n: nat | n < |front|
      ensures EndsIt(cams, ms, open, n) <==> EndsIt(cams, front, open, n)
    {
      EndsItFront(cams, ms, open, n);
    }
    hide EndsIt;
    if NoneEnds(cams, ms, open, from, to) {
      forall n | from < n < to
        ensures !EndsIt(cams, front, open, n)
      {
        assert !EndsIt(cams, ms, open, n);
      }
    } else {
      var n :| from < n < to && EndsIt(cams, ms, open, n);
      assert EndsIt(cams, front, open, n);
    }
  }

  /** What the last message does to an interval that is still open. */
  lemma OpenRowStep(cams: Cameras, t: Tables, m: Message, open: Message, session: int)
    requires open.Open? && open.session == session && session in t.intervals && t.intervals[session] == RowOf(open, None)
    ensures var u := Apply(cams, t, m);
      var ends := (m.Close? && Known(cams, m) && m.session == session)
        || (RestartEnds(cams, open, m) && m.id !in t.events);
      session in u.intervals && u.intervals[session] == if ends then RowOf(open, Some(m)) else RowOf(open, None)
  {
    hide WithEvidence;
    if m.Event? {
      EventEvidence(cams, t, m);
    }
  }

  lemma EventEvidence(cams: Cameras, t: Tables, m: Message)
    ensures m.Event? && Known(cams, m) ==> WithEvidence(cams, t.(events := t.events[m.id := m]), m).intervals == t.intervals
  {
  }

  lemma LastEnds(cams: Cameras, ms: seq<Message>, open: Message)
    requires ms != [] && open.Open?
    ensures var front, last := ms[..|ms| - 1], ms[|ms| - 1];
      EndsIt(cams, ms, open, |front|) <==>
      || (last.Close? && Known(cams, last) && last.session == open.session)
      || (RestartEnds(cams, open, last) && last.id !in ApplyAll(cams, NoRows, front).events)
  {
    var last := ms[|ms| - 1];
    if last.Event? {
      NewDelivery(cams, ms, last.id);
    }
    hide ApplyAll;
  }

  /** The row of an interval that was open before the last message. */
  lemma StillOpenStep(cams: Cameras, ms: seq<Message>, o: nat, session: int)
    requires ms != [] && o < |ms| - 1 && Opens(cams, ms[o], session)
    requires var front := ms[..|ms| - 1];
      var t := ApplyAll(cams, NoRows, front);
      NoneEnds(cams, front, ms[o], o, |front|) && session in t.intervals && t.intervals[session] == RowOf(ms[o], None)
    ensures var u := ApplyAll(cams, NoRows, ms);
      session in u.intervals && IsItsRow(cams, ms, o, u.intervals[session])
  {
    var front, last := ms[..|ms| - 1], ms[|ms| - 1];
    OpenRowStep(cams, ApplyAll(cams, NoRows, front), last, ms[o], session);
    LastEnds(cams, ms, ms[o]);
    NoneEndsFront(cams, ms, ms[o], o, |front|);
    hide Apply;
    hide EndsIt;
    hide RowOf;
    if EndsIt(cams, ms, ms[o], |front|) {
      assert EndedAt(cams, ms, o, |front|);
    } else {
      assert NoneEnds(cams, ms, ms[o], o, |ms|);
    }
  }

  /** The row of an interval that had ended before the last message. */
  lemma EndedStep(cams: Cameras, ms: seq<Message>, o: nat, n: nat, session: int)
    requires ms != [] && o < |ms| - 1 && Opens(cams, ms[o], session) && EndedAt(cams, ms[..|ms| - 1], o, n)
    requires var t := ApplyAll(cams, NoRows, ms[..|ms| - 1]);
      session in t.intervals && t.intervals[session] == RowOf(ms[o], Some(ms[n]))
    ensures var u := ApplyAll(cams, NoRows, ms);
      session in u.intervals && IsItsRow(cams, ms, o, u.intervals[session])
  {
    ApplyGrows(cams, ApplyAll(cams, NoRows, ms[..|ms| - 1]), ms[|ms| - 1]);
    EndsItFront(cams, ms, ms[o], n);
    NoneEndsFront(cams, ms, ms[o], o, n);
    hide Apply;
    hide EndsIt;
    hide NoneEnds;
    assert EndedAt(cams, ms, o, n);
  }

  lemma FirstOpenStep(cams: Cameras, ms: seq<Message>, o: nat, session: int)
    requires ms != [] && o < |ms| - 1
    ensures FirstOpen(cams, ms, o, session) <==> FirstOpen(cams, ms[..|ms| - 1], o, session)
  {
    var front := ms[..|ms| - 1];
    assert forall j | 0 <= j < |front| :: front[j] == ms[j];
  }

  lemma NewlyOpened(cams: Cameras, t: Tables, m: Message, session: int)
    requires session !in t.intervals && Opens(cams, m, session)
    ensures var u := Apply(cams, t, m);
      session in u.intervals && u.intervals[session] == RowOf(m, None)
  {
  }

  /** An interval of the log: its first open, and its row. */
  ghost predicate HasItsRow(cams: Cameras, ms: seq<Message>, session: int) {
    var t := ApplyAll(cams, NoRows, ms);
    exists o: nat :: FirstOpen(cams, ms, o, session) && session in t.intervals && IsItsRow(cams, ms, o, t.intervals[session])
  }

  /**
   * For every log: an interval has a row if and only if an open of its session, of a known camera, is in the log, and
   * the row has camera, use case, start, body and data of the first such open, and the end of the first message after
   * it that ends it: a close of the session, which also overlays its data, or a restart of its engine group.
   */
  lemma {:induction false} IntervalIsItsMessages(cams: Cameras, ms: seq<Message>, session: int)
    ensures var t := ApplyAll(cams, NoRows, ms);
      && (session in t.intervals <==> OpenedBy(cams, ms, |ms|, session))
      && (session in t.intervals ==> HasItsRow(cams, ms, session))
  {
    if ms != [] {
      var front, last := ms[..|ms| - 1], ms[|ms| - 1];
      var t := ApplyAll(cams, NoRows, front);
      IntervalIsItsMessages(cams, front, session);
      assert forall j | 0 <= j < |front| :: front[j] == ms[j];
      if session in t.intervals {
        var o: nat :| FirstOpen(cams, front, o, session) && IsItsRow(cams, front, o, t.intervals[session]);
        FirstOpenStep(cams, ms, o, session);
        if NoneEnds(cams, front, ms[o], o, |front|) && t.intervals[session] == RowOf(ms[o], None) {
          hide *;
          StillOpenStep(cams, ms, o, session);
        } else {
          var n: nat :| EndedAt(cams, front, o, n) && t.intervals[session] == RowOf(ms[o], Some(front[n]));
          hide *;
          EndedStep(cams, ms, o, n, session);
        }
      } else if Opens(cams, last, session) {
        NewlyOpened(cams, t, last, session);
        hide Apply;
        assert FirstOpen(cams, ms, |front|, session);
        assert NoneEnds(cams, ms, last, |front|, |ms|);
        hide EndsIt;
      } else {
        NoNewInterval(cams, t, last, session);
        hide Apply;
      }
    }
  }
}
