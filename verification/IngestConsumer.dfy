/**
 * Moving the stream into the tables: the consumer reads its pending entries first, processes them as one
 * transaction or one by one, acknowledges, counts failures and dead-letters. The database, Redis and the process
 * itself may fail between any two of these actions.
 */
module IngestConsumer {
  import opened IngestTables
  import opened Ints
  import opened Options
  import opened Seqs

  const MAX_ATTEMPTS := 5
  const COUNT := 100

  /** A stream entry after parsing and validation. Its stream id is its position. */
  datatype Parsed = Valid(message: Message) | Invalid

  function Source(p: Parsed): Option<int> {
    if p.Valid? then CameraOf(p.message) else None
  }

  /** What was done about an entry: its transaction committed, or it was dead-lettered after its last attempt. */
  datatype Done = Wrote(id: nat) | Buried(id: nat)

  /**
   * Ids acknowledged, attempts counted, dead letters written, and events announced, in the order of `history`;
   * `unsaid` once a commit went without its announcement.
   */
  datatype State = State(
    stream: seq<Parsed>, delivered: nat, acked: set<nat>, failures: map<nat, nat>,
    tables: Tables, letters: seq<nat>, history: seq<Done>, said: seq<Message>, unsaid: bool)

  const NoRows := Tables(map[], map[], map[], map[])

  const Fresh := State([], 0, {}, map[], NoRows, [], [], [], false)

  // ---- what can fail --------------------------------------------------------------------------------------

  /** An entry fault is an error that is not transient while `SELECT 1` still answers. */
  datatype TxOutcome = Commits | Transient | DatabaseGone | EntryFault

  /** XACK and HDEL both done, XACK failed, only HDEL failed, or the process ended right after the commit. */
  datatype AckOutcome = AckOk | AckLost | HdelLost | Crashed

  /** `kept`: the transaction took effect although its commit was reported as an error. */
  datatype Faults = Faults(tx: TxOutcome, kept: bool, ack: AckOutcome, counts: bool, buries: bool, buryAck: AckOutcome)

  // ---- reading --------------------------------------------------------------------------------------------

  /** The ids below `n` that are delivered and not acknowledged, oldest first. */
  function PendingBelow(acked: set<nat>, n: nat): seq<nat> {
    if n == 0 then []
    else PendingBelow(acked, n - 1) + if n - 1 in acked then [] else [n - 1]
  }

  function Pending(s: State): seq<nat> {
    PendingBelow(s.acked, s.delivered)
  }

  /** New entries are delivered only when none is pending. */
  function Delivered(s: State): State
    requires s.delivered <= |s.stream|
  {
    if Pending(s) != [] then s else s.(delivered := s.delivered + Min(COUNT, |s.stream| - s.delivered))
  }

  /** What the read returns: the first pending entries, new ones included. */
  function ReadIds(s: State): seq<nat> {
    Pending(s)[..Min(COUNT, |Pending(s)|)]
  }

  // ---- one transaction ------------------------------------------------------------------------------------

  predicate BecomesLetter(cams: Cameras, tables: Tables, p: Parsed) {
    p.Invalid? || IsDead(cams, tables, p.message)
  }

  function Says(cams: Cameras, tables: Tables, p: Parsed): seq<Message> {
    if p.Valid? && Inserts(cams, tables, p.message) then [p.message] else []
  }

  function Write(cams: Cameras, s: State, id: nat): State
    requires id < |s.stream|
  {
    var p := s.stream[id];
    s.(tables := if p.Valid? then Apply(cams, s.tables, p.message) else s.tables,
       letters := if BecomesLetter(cams, s.tables, p) then s.letters + [id] else s.letters,
       history := s.history + [Wrote(id)],
       said := s.said + Says(cams, s.tables, p))
  }

  ghost predicate InStream(s: State, ids: seq<nat>) {
    forall i | 0 <= i < |ids| :: ids[i] < |s.stream|
  }

  function WriteAll(cams: Cameras, s: State, ids: seq<nat>): (t: State)
    requires InStream(s, ids)
    ensures t.stream == s.stream
  {
    if ids == [] then s else Write(cams, WriteAll(cams, s, ids[..|ids| - 1]), ids[|ids| - 1])
  }

  function Ids(ids: seq<nat>): set<nat> {
    set i | i in ids
  }

  function Acked(s: State, ids: seq<nat>, ack: AckOutcome): State {
    match ack
    case AckOk => s.(acked := s.acked + Ids(ids), failures := s.failures - Ids(ids))
    case HdelLost => s.(acked := s.acked + Ids(ids))
    case AckLost | Crashed => s
  }

  /** The transaction commits, the ids are acknowledged and what it wrote is announced, even if the XACK fails. */
  function Committed(cams: Cameras, s: State, ids: seq<nat>, ack: AckOutcome): State
    requires InStream(s, ids)
  {
    var w := WriteAll(cams, s, ids);
    Acked(if ack.Crashed? then w.(said := s.said, unsaid := true) else w, ids, ack)
  }

  /** What a transaction that was reported as failed leaves behind. */
  function Failed(cams: Cameras, s: State, ids: seq<nat>, f: Faults): (t: State)
    requires InStream(s, ids)
    ensures t.stream == s.stream
  {
    if f.kept then WriteAll(cams, s, ids).(said := s.said, unsaid := true) else s
  }

  // ---- one by one -----------------------------------------------------------------------------------------

  /** `held` are the cameras of the entries that failed in this pass; `thrown` when an error ended it. */
  datatype Loop = Loop(state: State, held: set<Option<int>>, thrown: bool)

  predicate Waits(held: set<Option<int>>, camera: Option<int>) {
    None in held || if camera.None? then held != {} else camera in held
  }

  function Attempts(s: State, id: nat): nat {
    if id in s.failures then s.failures[id] else 0
  }

  function Counted(s: State, id: nat): State {
    s.(failures := s.failures[id := Attempts(s, id) + 1])
  }

  function Bury(s: State, id: nat): State {
    s.(letters := s.letters + [id], history := s.history + [Buried(id)])
  }

  /** An attempt failed through the entry's own fault. */
  function CountFailure(l: Loop, id: nat, camera: Option<int>, f: Faults): Loop {
    if !f.counts then l.(thrown := true)
    else
      var c := Counted(l.state, id);
      if Attempts(c, id) < MAX_ATTEMPTS then l.(state := c, held := l.held + {camera})
      else if !f.buries then l.(state := c, thrown := true)
      else l.(state := Acked(Bury(c, id), [id], f.buryAck), thrown := !f.buryAck.AckOk?)
  }

  /** One turn of the loop. */
  function Turn(cams: Cameras, l: Loop, id: nat, f: Faults): Loop
    requires id < |l.state.stream|
  {
    var camera := Source(l.state.stream[id]);
    if l.thrown || Waits(l.held, camera) then l
    else
      match f.tx
      case Commits => l.(state := Committed(cams, l.state, [id], f.ack), thrown := !f.ack.AckOk?)
      case EntryFault => CountFailure(l.(state := Failed(cams, l.state, [id], f)), id, camera, f)
      case _ => l.(state := Failed(cams, l.state, [id], f), thrown := true)
  }

  function OneByOne(cams: Cameras, s: State, ids: seq<nat>, each: nat -> Faults): (l: Loop)
    requires InStream(s, ids)
    ensures l.state.stream == s.stream
  {
    if ids == [] then Loop(s, {}, false)
    else Turn(cams, OneByOne(cams, s, ids[..|ids| - 1], each), ids[|ids| - 1], each(ids[|ids| - 1]))
  }

  // ---- one pass -------------------------------------------------------------------------------------------

  function Processed(cams: Cameras, s: State, ids: seq<nat>, batch: Faults, each: nat -> Faults): State
    requires InStream(s, ids)
  {
    if ids == [] then s
    else
      match batch.tx
      case Commits => Committed(cams, s, ids, batch.ack)
      case EntryFault => OneByOne(cams, Failed(cams, s, ids, batch), ids, each).state
      case _ => Failed(cams, s, ids, batch)
  }

  datatype Step = Produce(entry: Parsed) | Pass(batch: Faults, each: nat -> Faults)

  /** Every id read is in the stream. */
  lemma PendingInStream(acked: set<nat>, n: nat)
    ensures forall i | 0 <= i < |PendingBelow(acked, n)| :: PendingBelow(acked, n)[i] < n
  {
  }

  function Passed(cams: Cameras, s: State, batch: Faults, each: nat -> Faults): State
    requires s.delivered <= |s.stream|
  {
    var d := Delivered(s);
    PendingInStream(d.acked, d.delivered);
    Processed(cams, d, ReadIds(d), batch, each)
  }

  function Next(cams: Cameras, s: State, step: Step): State
    requires s.delivered <= |s.stream|
  {
    match step
    case Produce(p) => s.(stream := s.stream + [p])
    case Pass(batch, each) => Passed(cams, s, batch, each)
  }
}
