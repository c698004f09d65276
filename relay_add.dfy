/**
 * `POST /api/relay/add`: creates a torrent-stream engine for a magnet URI,
 * answers once with the engine's file list when it is ready (or with its
 * error), registers the engine in the process-wide `activeTorrents` map,
 * selects every file for download, and throttles progress logging.
 *
 * The engine is opaque: its `ready` and `error` events are method calls made
 * in the order they fire, with the metadata the engine reports at `ready`
 * passed in. Timers become explicit `Tick` calls.
 */
module RelayAdd {
  import opened Wrappers

  /** A JSON value as JavaScript sees it, for the `typeof magnetURI !== 'string'` test. */
  datatype JsValue = Undefined | Null | Str(s: string) | Num(n: real) | Bool(b: bool) | Obj

  /** The body's `magnetURI` field, or the message `request.json()` threw. */
  datatype AddBody = AddBody(magnetURI: JsValue) | UnreadableBody(message: string)

  /** One entry of the returned file list. */
  datatype ListedFile = ListedFile(name: string, length: nat, index: nat)

  /** The answer: 200 `{ success: true, infoHash, name, files }`, or an error status with `{ error }`. */
  datatype AddReply =
    | Added(infoHash: string, name: string, files: seq<ListedFile>)
    | AddFailed(status: int, error: string)

  const InvalidMagnet: string := "Invalid magnet URI"
  const AddFailedDefault: string := "Failed to add torrent"

  /** The request passes the input check: a non-empty string. */
  predicate IsUsableMagnet(v: JsValue) {
    v.Str? && v.s != []
  }

  /** A file of an engine; `select()` sets `selected`. */
  class EngineFile {
    const name: string
    const length: nat
    var selected: bool

    constructor (name: string, length: nat)
      ensures this.name == name && this.length == length && !selected
    {
      this.name := name;
      this.length := length;
      selected := false;
    }
  }

  /** A torrent-stream engine, created with the route's fixed options. */
  class Engine {
    const magnetURI: string
    const connections: nat
    const uploads: nat
    const path: string

    constructor (magnetURI: string)
      ensures this.magnetURI == magnetURI
      ensures connections == 100 && uploads == 10 && path == "/tmp/torrents"
    {
      this.magnetURI := magnetURI;
      connections := 100;
      uploads := 10;
      path := "/tmp/torrents";
    }
  }

  /** The module-level `activeTorrents` map, shared by every request of the process. */
  class Registry {
    var activeTorrents: map<string, Engine>

    constructor ()
      ensures activeTorrents == map[]
    {
      activeTorrents := map[];
    }
  }

  /** `engine.files.map((file, index) => ({ name, length, index }))`, numbering from `start`. */
  function ListFrom(files: seq<EngineFile>, start: nat): (r: seq<ListedFile>)
    ensures |r| == |files|
    ensures forall i :: 0 <= i < |files| ==> r[i] == ListedFile(files[i].name, files[i].length, start + i)
  {
    if files == [] then []
    else [ListedFile(files[0].name, files[0].length, start)] + ListFrom(files[1..], start + 1)
  }

  /** The returned file list keeps the engine's order, and entry i carries index i. */
  function FileList(files: seq<EngineFile>): (r: seq<ListedFile>)
    ensures |r| == |files|
    ensures forall i :: 0 <= i < |r| ==> r[i].index == i && r[i].name == files[i].name && r[i].length == files[i].length
  {
    ListFrom(files, 0)
  }

  /** `engine.files.forEach(file => file.select())`. */
  method SelectAll(files: seq<EngineFile>)
    modifies set f | f in files
    ensures forall f :: f in files ==> f.selected
  {
    var i := 0;
    while i < |files|
      invariant 0 <= i <= |files|
      invariant forall j :: 0 <= j < i ==> files[j].selected
    {
      files[i].selected := true;
      i := i + 1;
    }
  }

  // ---------------------------------------------------------------------------
  // Progress-log throttle.

  const MinLogInterval: int := 2000
  const MinProgressStep: int := 5

  /** The interval's two variables, `lastLoggedProgress` and `lastLogTime`. */
  datatype ThrottleState = ThrottleState(lastLoggedProgress: int, lastLogTime: int)

  /** What a tick logged: a progress line, the completion line. */
  datatype TickEvents = TickEvents(logged: bool, completed: bool)

  /** One sample: the progress percentage and `Date.now()`. */
  datatype Sample = Sample(progress: int, now: int)

  /**
   * `Math.floor(downloaded / total * 100)`, in exact integer arithmetic; the
   * double-precision product can land just below an integer and floor one lower.
   */
  function Progress(downloaded: nat, total: nat): (p: nat)
    requires total > 0
    ensures p * total <= downloaded * 100 < (p + 1) * total
  {
    downloaded * 100 / total
  }

  /** One tick of the interval. */
  function TickStep(st: ThrottleState, progress: int, now: int): (r: (ThrottleState, TickEvents))
    ensures r.0.lastLoggedProgress >= st.lastLoggedProgress
    ensures r.1.logged <==> progress - st.lastLoggedProgress >= MinProgressStep && now - st.lastLogTime >= MinLogInterval
    ensures r.0.lastLogTime == if r.1.logged then now else st.lastLogTime
    ensures r.1.logged ==> r.0.lastLoggedProgress == progress
    ensures r.1.completed <==> progress == 100 && st.lastLoggedProgress < 100 && !r.1.logged
    ensures r.1.completed ==> r.0.lastLoggedProgress == 100
    ensures !r.1.logged && !r.1.completed ==> r.0 == st
  {
    var logged := progress > st.lastLoggedProgress
      && progress - st.lastLoggedProgress >= MinProgressStep
      && now - st.lastLogTime >= MinLogInterval;
    var afterLog := if logged then ThrottleState(progress, now) else st;
    var completed := progress == 100 && afterLog.lastLoggedProgress < 100;
    var afterDone := if completed then afterLog.(lastLoggedProgress := 100) else afterLog;
    (afterDone, TickEvents(logged, completed))
  }

  /** A run of ticks: the final state and how many ticks logged completion. */
  function Run(st: ThrottleState, samples: seq<Sample>): (ThrottleState, nat)
    decreases |samples|
  {
    if samples == [] then (st, 0)
    else
      var (next, events) := TickStep(st, samples[0].progress, samples[0].now);
      var (final, completions) := Run(next, samples[1..]);
      (final, completions + if events.completed then 1 else 0)
  }

  /** `lastLoggedProgress` never decreases over a run. */
  lemma {:induction false} RunMonotone(st: ThrottleState, samples: seq<Sample>)
    ensures Run(st, samples).0.lastLoggedProgress >= st.lastLoggedProgress
    decreases |samples|
  {
    if samples != [] {
      RunMonotone(TickStep(st, samples[0].progress, samples[0].now).0, samples[1..]);
    }
  }

  /** Once 100 has been logged, completion is never logged again. */
  lemma {:induction false} NoCompletionAfterHundred(st: ThrottleState, samples: seq<Sample>)
    requires st.lastLoggedProgress >= 100
    ensures Run(st, samples).1 == 0
    decreases |samples|
  {
    if samples != [] {
      NoCompletionAfterHundred(TickStep(st, samples[0].progress, samples[0].now).0, samples[1..]);
    }
  }

  /** The completion line is logged at most once per engine. */
  lemma {:induction false} CompletionAtMostOnce(st: ThrottleState, samples: seq<Sample>)
    ensures Run(st, samples).1 <= 1
    decreases |samples|
  {
    if samples != [] {
      var (next, events) := TickStep(st, samples[0].progress, samples[0].now);
      if events.completed {
        NoCompletionAfterHundred(next, samples[1..]);
      } else {
        CompletionAtMostOnce(next, samples[1..]);
      }
    }
  }

  /** The state of one engine's progress interval. */
  class ProgressLog {
    var lastLoggedProgress: int
    var lastLogTime: int

    constructor ()
      ensures lastLoggedProgress == 0 && lastLogTime == 0
    {
      lastLoggedProgress := 0;
      lastLogTime := 0;
    }

    function State(): ThrottleState
      reads this
    {
      ThrottleState(lastLoggedProgress, lastLogTime)
    }

    /** One interval tick with the swarm's downloaded bytes, the torrent length and `Date.now()`. */
    method Tick(downloaded: nat, total: nat, now: int) returns (events: TickEvents)
      requires total > 0
      modifies this
      ensures (State(), events) == TickStep(old(State()), Progress(downloaded, total), now)
    {
      var progress := Progress(downloaded, total);
      var logged := false;
      var completed := false;
      if progress > lastLoggedProgress && progress - lastLoggedProgress >= MinProgressStep
         && now - lastLogTime >= MinLogInterval {
        lastLoggedProgress := progress;
        lastLogTime := now;
        logged := true;
      }
      if progress == 100 && lastLoggedProgress < 100 {
        lastLoggedProgress := 100;
        completed := true;
      }
      events := TickEvents(logged, completed);
    }
  }

  // ---------------------------------------------------------------------------
  // One request.

  /** A request waiting for its engine: the `resolved` latch and what the promise resolved with. */
  class AddRequest {
    const engine: Engine
    const registry: Registry
    var resolved: bool
    var reply: Option<AddReply>
    var progressLog: ProgressLog?

    constructor (registry: Registry, magnetURI: string)
      ensures this.registry == registry && fresh(engine) && engine.magnetURI == magnetURI
      ensures !resolved && reply.None? && progressLog == null
    {
      this.registry := registry;
      engine := new Engine(magnetURI);
      resolved := false;
      reply := None;
      progressLog := null;
    }

    /** The engine's `ready` event, with the info-hash, torrent name and files it reports. */
    method OnReady(infoHash: string, name: string, files: seq<EngineFile>)
      modifies this, registry, set f | f in files
      ensures resolved
      ensures old(resolved) ==>
        && reply == old(reply) && progressLog == old(progressLog)
        && registry.activeTorrents == old(registry.activeTorrents)
        && (forall f :: f in files ==> f.selected == old(f.selected))
      ensures !old(resolved) ==>
        && registry.activeTorrents == old(registry.activeTorrents)[infoHash := engine]
        && (forall f :: f in files ==> f.selected)
        && reply == Some(Added(infoHash, name, FileList(files)))
        && progressLog != null && fresh(progressLog)
        && progressLog.lastLoggedProgress == 0 && progressLog.lastLogTime == 0
    {
      if resolved {
        return;
      }
      resolved := true;
      registry.activeTorrents := registry.activeTorrents[infoHash := engine];
      SelectAll(files);
      var listed := FileList(files);
      progressLog := new ProgressLog();
      reply := Some(Added(infoHash, name, listed));
    }

    /** The engine's `error` event. */
    method OnError(message: string)
      modifies this
      ensures resolved && progressLog == old(progressLog)
      ensures old(resolved) ==> reply == old(reply)
      ensures !old(resolved) ==> reply == Some(AddFailed(500, if message != [] then message else AddFailedDefault))
    {
      if resolved {
        return;
      }
      resolved := true;
      reply := Some(AddFailed(500, if message != [] then message else AddFailedDefault));
    }
  }

  /**
   * The route up to the wait for the engine: a bad body is answered at once and
   * creates no engine; otherwise a fresh engine and an unresolved request.
   */
  method Post(registry: Registry, body: AddBody) returns (immediate: Option<AddReply>, request: AddRequest?)
    ensures immediate.Some? <==> request == null
    ensures body.UnreadableBody? ==> immediate == Some(AddFailed(500, body.message))
    ensures body.AddBody? && !IsUsableMagnet(body.magnetURI) ==> immediate == Some(AddFailed(400, InvalidMagnet))
    ensures body.AddBody? && IsUsableMagnet(body.magnetURI) ==> immediate.None?
    ensures request != null ==>
      && body.AddBody? && IsUsableMagnet(body.magnetURI)
      && fresh(request) && fresh(request.engine)
      && request.registry == registry && request.engine.magnetURI == body.magnetURI.s
      && !request.resolved && request.reply.None?
  {
    match body
    case UnreadableBody(message) =>
      immediate, request := Some(AddFailed(500, message)), null;
    case AddBody(magnetURI) =>
      if !IsUsableMagnet(magnetURI) {
        immediate, request := Some(AddFailed(400, InvalidMagnet)), null;
      } else {
        immediate := None;
        request := new AddRequest(registry, magnetURI.s);
      }
  }

  /**
   * Two requests for the same torrent create two engines; the second `ready`
   * replaces the first engine in the map, which then no longer holds it.
   */
  method RepeatedAddReplacesEngine(magnetURI: string, infoHash: string, name: string)
    returns (registry: Registry, first: AddRequest, second: AddRequest)
    requires magnetURI != []
    ensures first.engine != second.engine
    ensures registry.activeTorrents == map[infoHash := second.engine]
    ensures first.engine !in registry.activeTorrents.Values
  {
    registry := new Registry();
    var _, req1 := Post(registry, AddBody(Str(magnetURI)));
    var _, req2 := Post(registry, AddBody(Str(magnetURI)));
    first, second := req1, req2;
    first.OnReady(infoHash, name, []);
    second.OnReady(infoHash, name, []);
  }
}
