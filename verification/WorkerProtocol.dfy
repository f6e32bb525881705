/**
 * The camera worker's protocol: a caller thread (update, start, stop), the worker thread and helper
 * threads that load detectors and start streams. Each step is one critical section of `_lock` or one
 * private action of a thread between two of them, so a run is any interleaving of the threads.
 *
 * Detectors and streams are numbered as they are acquired and started. The ledger fields at the end
 * of `State` record what became of each.
 */
module WorkerProtocol {
  import opened Options

  /** The fields whose change needs a settings change. */
  datatype SettingsFields = SettingsFields(useCase: int, version: int, document: int, modelPath: int, imgsz: int)

  /** `stream` stands for source and frame rate, `identity` for name and Nx camera id. */
  datatype Config = Config(settings: SettingsFields, stream: int, identity: int)

  function ModelKey(c: Config): (int, int) {
    (c.settings.modelPath, c.settings.imgsz)
  }

  /** A settings change; `parsed` is false only for the first one, which its thread still has to parse. */
  datatype Change = Change(gen: nat, config: Config, parsed: bool, detector: Option<nat>)

  datatype Item =
    | Settings(change: Change)
    | Stream(gen: nat, id: nat)
    | Identity

  datatype LoadPhase = Starting | Loading | Loaded | LoadError

  datatype StreamPhase = Trying | Retrying | Up(id: nat)

  datatype Helper =
    | Load(change: Change, phase: LoadPhase)
    | StreamUp(gen: nat, phaseS: StreamPhase)
    | Ended

  /** Where update() is; the update lock admits one call at a time. */
  datatype Caller =
    | NoCall
    | Entering(config: Config)
    | StreamDue(gen: nat, settingsToo: bool)
    | SettingsDue
    | LoadDue(change: Change)

  /** Where the worker thread is. */
  datatype Worker =
    | NotStarted
    | Preparing(helper: nat)
    | Running
    | Checked(change: Change)
    | Building(change: Change, identity: int)
    | StartingStream(gen: nat)
    | Exited

  datatype Pipeline = Pipeline(useCase: int, identity: int, model: nat)

  datatype Installed = Installed(id: nat, gen: nat)

  /** What became of a settings generation. */
  datatype Fate = Applied | Rejected | Dropped | Crashed

  datatype Retired = Retired(gen: nat, fate: Fate)

  /** The generations, and what was asked for in each and became of it. */
  datatype Gens = Gens(
    settings: nat, settled: nat, stream: nat,
    configs: seq<Config>, sources: seq<int>, retired: seq<Retired>)

  /** `seeded` are the versions a watchdog restart knows were reported before; `sent` the config_rejected events. */
  datatype Versions = Versions(loadFailed: set<int>, rejected: set<int>, seeded: set<int>, sent: seq<int>)

  /** What the worker thread runs. */
  datatype Setup = Setup(
    pipeline: Option<Pipeline>, detector: Option<nat>, key: Option<(int, int)>, applied: Option<Config>,
    stream: Option<Installed>, streamWanted: bool)

  /** The model keys of the detectors acquired, the ones given back and lost; the streams created and stopped. */
  datatype Ledger = Ledger(
    acquired: seq<(int, int)>, released: seq<nat>, lost: seq<nat>, hookRaises: nat, streams: nat, stopped: seq<nat>)

  datatype State = State(
    config: Config, queue: seq<Item>, stopping: bool, gens: Gens, versions: Versions, setup: Setup,
    caller: Caller, worker: Worker, local: seq<Item>, helpers: seq<Helper>, ledger: Ledger)

  const NewSetup := Setup(None, None, None, None, None, false)

  function NewWorker(config: Config, seeded: set<int>): State {
    State(config, [], false, Gens(0, 0, 0, [], [], []), Versions({}, seeded, seeded, []),
          NewSetup,
          NoCall, NotStarted, [], [], Ledger([], [], [], 0, 0, []))
  }

  datatype StreamAttempt = StreamOk | FactoryFailed | StartFailed

  datatype Step =
    | Start
    | Stop
    | CleanUpUnstarted
    | UpdateEnter(config: Config)
    | UpdateApply
    | UpdateSpawnStream
    | UpdateRequest(parses: bool)
    | UpdateSpawnLoad
    | ParseFirst(helper: nat, ok: bool)
    | CheckCurrent(helper: nat)
    | AcquireDone(helper: nat, ok: bool)
    | QueueLoaded(helper: nat)
    | RejectLoad(helper: nat)
    | TryStream(helper: nat, attempt: StreamAttempt)
    | RetryStream(helper: nat)
    | QueueStream(helper: nat)
    | FirstPrepared
    | TakeQueue
    | ApplyHead
    | SpawnLoad
    | ReadIdentity
    | BuildFailed
    | BuildDone
    | SpawnStream
    | ApplyFailed
    | ApplyDone(hookRaises: bool)
    | Exit

  // ---- primitive updates ---------------------------------------------------------------------------

  function SetHelper(s: State, h: nat, helper: Helper): State
    requires h < |s.helpers|
  {
    s.(helpers := s.helpers[h := helper])
  }

  function AddHelper(s: State, helper: Helper): State {
    s.(helpers := s.helpers + [helper])
  }

  function Enqueue(s: State, item: Item): State {
    s.(queue := s.queue + [item])
  }

  function DropHead(s: State): State
    requires s.local != []
  {
    s.(local := s.local[1..])
  }

  function Release(s: State, detector: Option<nat>): State {
    s.(ledger := s.ledger.(released := s.ledger.released + Opt(detector)))
  }

  function Lost(s: State, detector: nat): State {
    s.(ledger := s.ledger.(lost := s.ledger.lost + [detector]))
  }

  function StopStream(s: State, id: nat): State {
    s.(ledger := s.ledger.(stopped := s.ledger.stopped + [id]))
  }

  function Retire(s: State, gen: nat, fate: Fate): State {
    s.(gens := s.gens.(retired := s.gens.retired + [Retired(gen, fate)]))
  }

  predicate IsCurrent(s: State, change: Change) {
    !s.stopping && change.gen == s.gens.settings
  }

  predicate NeedsDetector(s: State, change: Change) {
    Rebuilds(s, change) || s.setup.key != Some(ModelKey(change.config))
  }

  predicate Rebuilds(s: State, change: Change) {
    s.setup.pipeline.None? || change.config.settings.useCase != s.setup.pipeline.value.useCase
  }

  /** Takes the next settings generation for `config`. */
  function NextGen(s: State, config: Config): State {
    s.(gens := s.gens.(settings := s.gens.settings + 1, configs := s.gens.configs + [config]))
  }

  function NextStreamGen(s: State, source: int): State {
    s.(gens := s.gens.(stream := s.gens.stream + 1, sources := s.gens.sources + [source]))
  }

  predicate Superseded(s: State, gen: Option<nat>) {
    s.stopping || (gen.Some? && gen.value != s.gens.settings)
  }

  function VersionRejected(v: Versions, version: int, loadError: bool): Versions {
    v.(rejected := v.rejected + {version},
       sent := if version in v.rejected then v.sent else v.sent + [version],
       loadFailed := if loadError then v.loadFailed + {version} else v.loadFailed)
  }

  /** Records a rejected version; a superseded change is not reported. `gen` is None when none was taken. */
  function Reject(s: State, config: Config, gen: Option<nat>, loadError: bool): State {
    if Superseded(s, gen) then if gen.Some? then Retire(s, gen.value, Dropped) else s
    else
      var r := s.(versions := VersionRejected(s.versions, config.settings.version, loadError));
      if gen.Some? then Retire(r.(gens := r.gens.(settled := gen.value)), gen.value, Rejected) else r
  }

  /** The bookkeeping of a change that was just installed. */
  function MarkApplied(s: State, change: Change): State {
    Retire(s.(gens := s.gens.(settled := if s.gens.settled > change.gen then s.gens.settled else change.gen),
              setup := s.setup.(key := Some(ModelKey(change.config)), applied := Some(change.config))),
           change.gen, Applied)
  }

  function Opt<T>(o: Option<T>): seq<T> {
    if o.Some? then [o.value] else []
  }

  // ---- the caller's thread -------------------------------------------------------------------------

  function Started(s: State): State {
    if s.worker.NotStarted? && !s.stopping && s.caller.NoCall? then
      var g := NextGen(s, s.config);
      AddHelper(g, Load(Change(g.gens.settings, g.config, false, None), Starting)).(worker := Preparing(|s.helpers|))
    else s
  }

  /** Whether update() was given again the version whose model did not load, with nothing in flight. */
  predicate RetriesLoad(s: State, config: Config) {
    && !s.stopping && config == s.config && config.settings.version in s.versions.loadFailed
    && s.gens.settled == s.gens.settings
  }

  function UpdateEntered(s: State, config: Config): State {
    if !s.caller.NoCall? then s
    else if RetriesLoad(s, config)
    then s.(versions := s.versions.(loadFailed := s.versions.loadFailed - {config.settings.version}), caller := SettingsDue)
    else s.(caller := Entering(config))
  }

  function UpdateApplied(s: State): State
    requires s.caller.Entering?
  {
    var config, last := s.caller.config, s.config;
    if s.stopping || config == last then s.(caller := NoCall)
    else
      var needs := config.settings != last.settings;
      var c := s.(config := config, caller := if needs then SettingsDue else NoCall);
      var t := if config.stream != last.stream && s.setup.streamWanted
               then var n := NextStreamGen(c, config.stream); n.(caller := StreamDue(n.gens.stream, needs)) else c;
      if config.identity != last.identity then Enqueue(t, Identity) else t
  }

  function UpdateStreamSpawned(s: State): State
    requires s.caller.StreamDue?
  {
    var next := s.(caller := if s.caller.settingsToo then SettingsDue else NoCall);
    if s.stopping then next else AddHelper(next, StreamUp(s.caller.gen, Trying))
  }

  /** Invalid settings are rejected without a generation; a change that needs no detector is queued at once. */
  function UpdateRequested(s: State, parses: bool): State
    requires s.caller.SettingsDue?
  {
    if !parses then Reject(s.(caller := NoCall), s.config, None, false)
    else
      var g := NextGen(s, s.config);
      var change := Change(g.gens.settings, s.config, true, None);
      if NeedsDetector(g, change) then g.(caller := LoadDue(change))
      else Enqueue(g.(caller := NoCall), Settings(change))
  }

  function LoadSpawned(s: State, change: Change): State {
    if s.stopping then Retire(s, change.gen, Dropped) else AddHelper(s, Load(change, Starting))
  }

  // ---- helper threads ------------------------------------------------------------------------------

  function FirstParsed(s: State, h: nat, ok: bool): State
    requires h < |s.helpers| && s.helpers[h].Load?
  {
    var change := s.helpers[h].change;
    if ok then SetHelper(s, h, Load(change.(parsed := true), Starting))
    else Reject(SetHelper(s, h, Ended), change.config, Some(change.gen), false)
  }

  function CurrentChecked(s: State, h: nat): State
    requires h < |s.helpers| && s.helpers[h].Load?
  {
    var change := s.helpers[h].change;
    if IsCurrent(s, change) then SetHelper(s, h, Load(change, Loading))
    else Retire(SetHelper(s, h, Ended), change.gen, Dropped)
  }

  function Acquired(s: State, h: nat, ok: bool): State
    requires h < |s.helpers| && s.helpers[h].Load?
  {
    var change := s.helpers[h].change;
    if ok then
      var loaded := SetHelper(s, h, Load(change.(detector := Some(|s.ledger.acquired|)), Loaded));
      loaded.(ledger := s.ledger.(acquired := s.ledger.acquired + [ModelKey(change.config)]))
    else SetHelper(s, h, Load(change, LoadError))
  }

  function LoadedQueued(s: State, h: nat): State
    requires h < |s.helpers| && s.helpers[h].Load?
  {
    var change := s.helpers[h].change;
    var e := SetHelper(s, h, Ended);
    if IsCurrent(s, change) then Enqueue(e, Settings(change))
    else Retire(Release(e, change.detector), change.gen, Dropped)
  }

  function StreamTried(s: State, h: nat, attempt: StreamAttempt): State
    requires h < |s.helpers| && s.helpers[h].StreamUp?
  {
    var gen, id := s.helpers[h].gen, s.ledger.streams;
    var counted := s.ledger.(streams := s.ledger.streams + 1);
    match attempt
    case StreamOk => SetHelper(s, h, StreamUp(gen, Up(id))).(ledger := counted)
    case FactoryFailed => SetHelper(s, h, StreamUp(gen, Retrying))
    case StartFailed => StopStream(SetHelper(s, h, StreamUp(gen, Retrying)).(ledger := counted), id)
  }

  function StreamRetried(s: State, h: nat): State
    requires h < |s.helpers| && s.helpers[h].StreamUp?
  {
    var gen := s.helpers[h].gen;
    SetHelper(s, h, if !s.stopping && gen == s.gens.stream then StreamUp(gen, Trying) else Ended)
  }

  function StreamQueued(s: State, h: nat): State
    requires h < |s.helpers| && s.helpers[h].StreamUp? && s.helpers[h].phaseS.Up?
  {
    var gen, id := s.helpers[h].gen, s.helpers[h].phaseS.id;
    var e := SetHelper(s, h, Ended);
    if !s.stopping && gen == s.gens.stream then Enqueue(e, Item.Stream(gen, id)) else StopStream(e, id)
  }

  // ---- the worker thread ---------------------------------------------------------------------------

  function InstallStream(s: State, gen: nat, id: nat): State {
    s.(setup := s.setup.(stream := Some(Installed(id, gen))))
  }

  function StreamApplied(s: State, gen: nat, id: nat): State {
    if s.stopping || gen != s.gens.stream then StopStream(s, id)
    else if s.setup.stream.None? then InstallStream(s, gen, id)
    else StopStream(InstallStream(s, gen, id), s.setup.stream.value.id)
  }

  function IdentityApplied(s: State): State {
    if s.setup.pipeline.None? then s
    else s.(setup := s.setup.(pipeline := Some(s.setup.pipeline.value.(identity := s.config.identity))))
  }

  /** A change that is no longer the newest gives its detector back. */
  function ChangeTaken(s: State, change: Change): State {
    if IsCurrent(s, change) then s.(worker := Checked(change))
    else Retire(Release(s, change.detector), change.gen, Dropped)
  }

  function HeadApplied(s: State): State
    requires s.local != []
  {
    var rest := DropHead(s);
    match s.local[0]
    case Identity => IdentityApplied(rest)
    case Stream(gen, id) => StreamApplied(rest, gen, id)
    case Settings(change) => ChangeTaken(rest, change)
  }

  predicate MustLoadFirst(s: State, change: Change) {
    change.detector.None? && NeedsDetector(s, change)
  }

  /** The change could not be installed: its detector goes back and its version is rejected. */
  function InstallFailed(s: State, change: Change): State {
    Reject(Release(s.(worker := Running), change.detector), change.config, Some(change.gen), false)
  }

  /** The pipeline runs another detector than the one the worker would give back. */
  predicate Diverged(s: State) {
    s.setup.pipeline.Some? && s.setup.detector != Some(s.setup.pipeline.value.model)
  }

  /** What the worker gives back is its own detector; another one the pipeline runs is lost. */
  function GiveBack(s: State): State {
    var lost := if Diverged(s) then Lost(s, s.setup.pipeline.value.model) else s;
    Release(lost, s.setup.detector)
  }

  function Install(s: State, change: Change, identity: int): State
    requires change.detector.Some?
  {
    MarkApplied(
      s.(worker := Running,
         setup := s.setup.(pipeline := Some(Pipeline(change.config.settings.useCase, identity, change.detector.value)),
                           detector := change.detector)),
      change)
  }

  /** The first pipeline asks for the stream. */
  function WantStream(s: State): State {
    if s.setup.streamWanted then s
    else
      var n := NextStreamGen(s, s.config.stream);
      n.(setup := n.setup.(streamWanted := true), worker := StartingStream(n.gens.stream))
  }

  /** A new pipeline replaces the old one, whose detector is given back. */
  function Built(s: State, change: Change, identity: int): State
    requires change.detector.Some?
  {
    WantStream(Install(GiveBack(s), change, identity))
  }

  function SwapModel(s: State, model: nat): State
    requires s.setup.pipeline.Some?
  {
    s.(setup := s.setup.(pipeline := Some(s.setup.pipeline.value.(model := model))))
  }

  /** set_model raised after its swap: the change is given up and the previous detector is not returned. */
  function HookRaised(s: State, change: Change): State
    requires s.setup.pipeline.Some? && change.detector.Some?
  {
    var previous := s.setup.pipeline.value.model;
    var kept := if Diverged(s) then Lost(s, previous) else s;
    var swapped := SwapModel(kept, change.detector.value);
    Retire(swapped.(worker := Running, ledger := swapped.ledger.(hookRaises := s.ledger.hookRaises + 1)),
           change.gen, Crashed)
  }

  /** The pipeline returns the detector it ran, which is given back; another one the worker held is lost. */
  function ModelSwapped(s: State, change: Change): State
    requires s.setup.pipeline.Some? && change.detector.Some?
  {
    var previous := s.setup.pipeline.value.model;
    var kept := if Diverged(s) && s.setup.detector.Some? then Lost(s, s.setup.detector.value) else s;
    var swapped := SwapModel(kept, change.detector.value);
    MarkApplied(Release(swapped.(worker := Running, setup := swapped.setup.(detector := change.detector)), Some(previous)),
                change)
  }

  /** New settings for the same pipeline and, when the change brings a detector, a new model. */
  function Reconfigured(s: State, change: Change, hookRaises: bool): State
    requires s.setup.pipeline.Some?
  {
    if change.detector.None? then MarkApplied(s.(worker := Running), change)
    else if hookRaises then HookRaised(s, change)
    else ModelSwapped(s, change)
  }

  function ItemDetector(item: Item): Option<nat> {
    if item.Settings? then item.change.detector else None
  }

  function ItemStream(item: Item): Option<nat> {
    if item.Stream? then Some(item.id) else None
  }

  function ItemGen(item: Item): Option<nat> {
    if item.Settings? then Some(item.change.gen) else None
  }

  function DetectorsOf(items: seq<Item>): seq<nat> {
    if items == [] then []
    else DetectorsOf(items[..|items| - 1]) + Opt(ItemDetector(items[|items| - 1]))
  }

  function StreamsOf(items: seq<Item>): seq<nat> {
    if items == [] then []
    else StreamsOf(items[..|items| - 1]) + Opt(ItemStream(items[|items| - 1]))
  }

  function DropsOf(items: seq<Item>): seq<Retired> {
    if items == [] then []
    else
      var last := ItemGen(items[|items| - 1]);
      DropsOf(items[..|items| - 1]) + if last.Some? then [Retired(last.value, Dropped)] else []
  }

  /** Stops the stream, gives the detector back and gives back what the queue brought. */
  function CleanedUp(s: State): State {
    var c := GiveBack(s);
    c.(stopping := true, worker := Exited, queue := [],
       ledger := c.ledger.(
         released := c.ledger.released + DetectorsOf(s.queue),
         stopped := c.ledger.stopped + Opt(InstalledStream(s)) + StreamsOf(s.queue)),
       gens := c.gens.(retired := c.gens.retired + DropsOf(s.queue)))
  }

  function InstalledStream(s: State): Option<nat> {
    if s.setup.stream.Some? then Some(s.setup.stream.value.id) else None
  }

  // ---- one step ------------------------------------------------------------------------------------

  predicate HelperIn(s: State, h: nat, phase: LoadPhase) {
    h < |s.helpers| && s.helpers[h].Load? && s.helpers[h].phase == phase
  }

  predicate Enabled(s: State, step: Step) {
    match step
    case Start => true
    case Stop => true
    case CleanUpUnstarted => s.worker.NotStarted? && s.stopping
    case UpdateEnter(_) => s.caller.NoCall?
    case UpdateApply => s.caller.Entering?
    case UpdateSpawnStream => s.caller.StreamDue?
    case UpdateRequest(_) => s.caller.SettingsDue?
    case UpdateSpawnLoad => s.caller.LoadDue?
    case ParseFirst(h, _) => HelperIn(s, h, Starting) && !s.helpers[h].change.parsed
    case CheckCurrent(h) => HelperIn(s, h, Starting) && s.helpers[h].change.parsed
    case AcquireDone(h, _) => HelperIn(s, h, Loading)
    case QueueLoaded(h) => HelperIn(s, h, Loaded)
    case RejectLoad(h) => HelperIn(s, h, LoadError)
    case TryStream(h, _) => h < |s.helpers| && s.helpers[h].StreamUp? && s.helpers[h].phaseS.Trying?
    case RetryStream(h) => h < |s.helpers| && s.helpers[h].StreamUp? && s.helpers[h].phaseS.Retrying?
    case QueueStream(h) => h < |s.helpers| && s.helpers[h].StreamUp? && s.helpers[h].phaseS.Up?
    case FirstPrepared => s.worker.Preparing? && s.worker.helper < |s.helpers| && s.helpers[s.worker.helper].Ended?
    case TakeQueue => s.worker.Running? && s.local == []
    case ApplyHead => s.worker.Running? && s.local != []
    case SpawnLoad => s.worker.Checked? && MustLoadFirst(s, s.worker.change)
    case ReadIdentity => s.worker.Checked? && !MustLoadFirst(s, s.worker.change) && Rebuilds(s, s.worker.change)
    case BuildFailed => s.worker.Building?
    case BuildDone => s.worker.Building? && s.worker.change.detector.Some?
    case SpawnStream => s.worker.StartingStream?
    case ApplyFailed => s.worker.Checked? && !MustLoadFirst(s, s.worker.change) && !Rebuilds(s, s.worker.change)
    case ApplyDone(_) => s.worker.Checked? && !MustLoadFirst(s, s.worker.change) && !Rebuilds(s, s.worker.change)
    case Exit => s.worker.Running? && s.local == []
  }

  /** A step that is not enabled changes nothing. */
  function Next(s: State, step: Step): State {
    if !Enabled(s, step) then s
    else
      match step
      case Start => Started(s)
      case Stop => s.(stopping := true)
      case CleanUpUnstarted => CleanedUp(s)
      case UpdateEnter(config) => UpdateEntered(s, config)
      case UpdateApply => UpdateApplied(s)
      case UpdateSpawnStream => UpdateStreamSpawned(s)
      case UpdateRequest(parses) => UpdateRequested(s, parses)
      case UpdateSpawnLoad => LoadSpawned(s.(caller := NoCall), s.caller.change)
      case ParseFirst(h, ok) => FirstParsed(s, h, ok)
      case CheckCurrent(h) => CurrentChecked(s, h)
      case AcquireDone(h, ok) => Acquired(s, h, ok)
      case QueueLoaded(h) => LoadedQueued(s, h)
      case RejectLoad(h) =>
        Reject(SetHelper(s, h, Ended), s.helpers[h].change.config, Some(s.helpers[h].change.gen), true)
      case TryStream(h, attempt) => StreamTried(s, h, attempt)
      case RetryStream(h) => StreamRetried(s, h)
      case QueueStream(h) => StreamQueued(s, h)
      case FirstPrepared => s.(worker := Running)
      case TakeQueue => s.(local := s.queue, queue := [])
      case ApplyHead => HeadApplied(s)
      case SpawnLoad => LoadSpawned(s.(worker := Running), s.worker.change)
      case ReadIdentity => s.(worker := Building(s.worker.change, s.config.identity))
      case BuildFailed => InstallFailed(s, s.worker.change)
      case BuildDone => Built(s, s.worker.change, s.worker.identity)
      case SpawnStream =>
        if s.stopping then s.(worker := Running)
        else AddHelper(s.(worker := Running), StreamUp(s.worker.gen, Trying))
      case ApplyFailed => InstallFailed(s, s.worker.change)
      case ApplyDone(hookRaises) => Reconfigured(s, s.worker.change, hookRaises)
      case Exit => CleanedUp(s)
  }

  function Run(config: Config, seeded: set<int>, steps: seq<Step>): State {
    if steps == [] then NewWorker(config, seeded)
    else Next(Run(config, seeded, steps[..|steps| - 1]), steps[|steps| - 1])
  }

  function After(s: State, steps: seq<Step>): State {
    if steps == [] then s else Next(After(s, steps[..|steps| - 1]), steps[|steps| - 1])
  }

  lemma AfterStep(s: State, steps: seq<Step>, step: Step)
    ensures After(s, steps + [step]) == Next(After(s, steps), step)
  {
    hide Next;
    assert (steps + [step])[..|steps|] == steps;
  }

  lemma {:induction false} AfterConcat(s: State, a: seq<Step>, b: seq<Step>)
    ensures After(s, a + b) == After(After(s, a), b)
  {
    hide Next;
    if b == [] {
      assert a + b == a;
    } else {
      AfterConcat(s, a, b[..|b| - 1]);
      assert (a + b)[..|a + b| - 1] == a + b[..|b| - 1];
    }
  }
}
