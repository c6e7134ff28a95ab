// The config writer with everything that can happen at the same time: Upsert and Remove calls,
// their Notify, the debounce timer, and Run with its flushes, step by step. Run is the only
// flusher, and nothing else writes the file.
module ConfigRuns {
  import opened Wrappers
  import opened Events
  import opened ProbeTargets
  import opened Fold
  import opened LatestState
  import opened Registries

  datatype Timer = Off | Armed | Fired

  // Where Run is. `last` marks the flush on cancellation.
  datatype Pc =
    | NotStarted
    | Entering(last: bool)                                    // Flush is about to lock
    | Rendering(canonical: seq<ProbeTarget>, last: bool)      // unlocked, dirty cleared
    | Comparing(raw: string, last: bool)
    | Writing(raw: string, last: bool)
    | Failed(last: bool)                                      // about to set dirty again
    | Selecting
    | Done

  datatype State = State(
    targets: Registry,
    dirty: bool,
    trigger: bool,
    timer: Timer,
    file: Option<string>,
    pc: Pc,
    mutators: nat,        // calls that have unlocked and are about to Notify
    lastFailed: bool,     // history: the last flush that found the registry dirty failed
    tokens: nat,          // history: how often Run has taken the token
    timeouts: nat)        // history: how often it has taken the timer

  datatype Action =
    | Upsert(t: ProbeTarget)
    | Remove(id: Uuid)
    | Notify
    | Start
    | Lock(canonical: seq<ProbeTarget>)
    | Render
    | Compare(readable: bool)
    | Write(ok: bool)
    | Restore
    | TakeTrigger
    | Expire
    | TakeTimer
    | Cancel

  function Init(file: Option<string>): State {
    State(map[], true, false, Off, file, NotStarted, 0, false, 0, 0)
  }

  function After(last: bool): Pc { if last then Done else Selecting }

  ghost predicate Enabled(s: State, a: Action) {
    match a
    case Upsert(_) => true
    case Remove(_) => true
    case Notify => s.mutators > 0
    case Start => s.pc.NotStarted?
    case Lock(c) => s.pc.Entering? && (s.dirty ==> Canonical(s.targets.Values, c))
    case Render => s.pc.Rendering?
    case Compare(_) => s.pc.Comparing?
    case Write(_) => s.pc.Writing?
    case Restore => s.pc.Failed?
    case TakeTrigger => s.pc.Selecting? && s.trigger
    case Expire => s.timer.Armed?
    case TakeTimer => s.pc.Selecting? && s.timer.Fired?
    case Cancel => s.pc.Selecting?
  }

  ghost function Next(render: Renderer, s: State, a: Action): State
    requires Enabled(s, a)
  {
    match a
    case Upsert(t) => s.(targets := s.targets[t.apiInstanceId := t], dirty := true, mutators := s.mutators + 1)
    case Remove(id) =>
      if id in s.targets then s.(targets := s.targets - {id}, dirty := true, mutators := s.mutators + 1) else s
    case Notify => s.(trigger := true, mutators := s.mutators - 1)
    case Start => s.(pc := Entering(false))
    case Lock(c) =>
      if !s.dirty then s.(pc := After(s.pc.last))
      else s.(dirty := false, lastFailed := false, pc := Rendering(c, s.pc.last))
    case Render =>
      var r := render(s.pc.canonical);
      if r.None? then s.(pc := Failed(s.pc.last)) else s.(pc := Comparing(r.value, s.pc.last))
    case Compare(readable) =>
      if readable && s.file == Some(s.pc.raw) then s.(pc := After(s.pc.last)) else s.(pc := Writing(s.pc.raw, s.pc.last))
    case Write(ok) =>
      if ok then s.(file := Some(s.pc.raw), pc := After(s.pc.last)) else s.(pc := Failed(s.pc.last))
    case Restore => s.(dirty := true, lastFailed := true, pc := After(s.pc.last))
    case TakeTrigger => s.(trigger := false, timer := Armed, tokens := s.tokens + 1)
    case Expire => s.(timer := Fired)
    case TakeTimer => s.(timer := Off, pc := Entering(false), timeouts := s.timeouts + 1)
    case Cancel => s.(timer := Off, pc := Entering(true))
  }

  ghost predicate Runnable(render: Renderer, s: State, actions: seq<Action>)
    decreases |actions|
  {
    actions == [] || (Enabled(s, actions[0]) && Runnable(render, Next(render, s, actions[0]), actions[1..]))
  }

  ghost function Run(render: Renderer, s: State, actions: seq<Action>): State
    requires Runnable(render, s, actions)
    decreases |actions|
  {
    if actions == [] then s else Run(render, Next(render, s, actions[0]), actions[1..])
  }

  predicate Flushing(pc: Pc) { pc.Rendering? || pc.Comparing? || pc.Writing? || pc.Failed? }

  // While the registry stays clean, what is being rendered or written is what it holds.
  ghost predicate FileInv(render: Renderer, s: State) {
    && WellKeyed(s.targets)
    && (s.pc.NotStarted? ==> s.dirty)
    && (!s.dirty && !Flushing(s.pc) ==> FileMatches(render, s.targets, s.file))
    && (!s.dirty && s.pc.Rendering? ==> Canonical(s.targets.Values, s.pc.canonical))
    && (!s.dirty && (s.pc.Comparing? || s.pc.Writing?) ==> FileMatches(render, s.targets, Some(s.pc.raw)))
    && (s.lastFailed ==> s.dirty && !Flushing(s.pc))
  }

  lemma FileStep(render: Renderer, s: State, a: Action)
    requires FileInv(render, s) && Enabled(s, a)
    ensures FileInv(render, Next(render, s, a))
  {
  }

  // A change, once made, is on its way to the file: its Notify is pending, a token or the timer
  // will start a flush, a flush is about to look, or the last flush failed.
  predicate Pursued(s: State) {
    s.mutators > 0 || s.trigger || !s.timer.Off? || s.pc.Entering? || s.pc.Failed? || s.lastFailed
  }

  predicate Winding(pc: Pc) {
    pc.Done? || ((pc.Entering? || Flushing(pc)) && pc.last)
  }

  predicate UpdateInv(s: State) {
    !s.pc.NotStarted? && !Winding(s.pc) && s.dirty ==> Pursued(s)
  }

  lemma UpdateStep(render: Renderer, s: State, a: Action)
    requires UpdateInv(s) && Enabled(s, a)
    ensures UpdateInv(Next(render, s, a))
  {
  }

  lemma {:induction false} RunKeeps(render: Renderer, s: State, actions: seq<Action>)
    requires FileInv(render, s) && UpdateInv(s) && Runnable(render, s, actions)
    ensures FileInv(render, Run(render, s, actions)) && UpdateInv(Run(render, s, actions))
    decreases |actions|
  {
    if actions == [] {
    } else {
      FileStep(render, s, actions[0]);
      UpdateStep(render, s, actions[0]);
      RunKeeps(render, Next(render, s, actions[0]), actions[1..]);
    }
  }

  // In every reachable state in which the registry is clean and no flush is under way, the file is
  // the rendering of the canonical targets, even if the registry changed while a flush was
  // writing; and after a failed flush the registry is dirty.
  lemma FileAgreement(render: Renderer, file: Option<string>, actions: seq<Action>)
    requires Runnable(render, Init(file), actions)
    ensures var s := Run(render, Init(file), actions);
            && (!s.dirty && !Flushing(s.pc) ==> FileMatches(render, s.targets, s.file))
            && (s.lastFailed ==> s.dirty)
  {
    RunKeeps(render, Init(file), actions);
  }

  // From the start of Run until it is cancelled, no update is forgotten.
  lemma NoLostUpdate(render: Renderer, file: Option<string>, actions: seq<Action>)
    requires Runnable(render, Init(file), actions)
    ensures var s := Run(render, Init(file), actions);
            !s.pc.NotStarted? && !Winding(s.pc) && s.dirty ==> Pursued(s)
  {
    RunKeeps(render, Init(file), actions);
  }

  // ---------- When a failed flush stalls ----------

  // No step of Run, the timer or a pending Notify is possible: only a new change or cancellation
  // gets Run going again.
  ghost predicate Stalled(s: State) {
    forall a :: Enabled(s, a) ==> a.Upsert? || a.Remove? || a.Cancel?
  }

  // In every reachable state in which Run waits with a dirty registry: it stalls exactly when no
  // Notify, token or timer of a change is outstanding, and it can do so only after a failed flush.
  // So a failed flush is retried, without a new change, only if such a change came before.
  lemma FailedFlushStalls(render: Renderer, file: Option<string>, actions: seq<Action>)
    requires Runnable(render, Init(file), actions)
    ensures var s := Run(render, Init(file), actions);
            s.pc.Selecting? && (s.dirty || s.lastFailed) ==>
              && s.dirty
              && (Stalled(s) <==> s.mutators == 0 && !s.trigger && s.timer.Off?)
              && (Stalled(s) ==> s.lastFailed)
  {
    RunKeeps(render, Init(file), actions);
    var s := Run(render, Init(file), actions);
    if s.pc.Selecting? && Stalled(s) {
      assert !Enabled(s, Notify);
      assert !Enabled(s, TakeTrigger);
      assert !Enabled(s, Expire);
      assert !Enabled(s, TakeTimer);
    }
  }

  // It does happen: the first flush of an empty registry cannot write the file.
  lemma StallIsReachable(render: Renderer, file: Option<string>, actions: seq<Action>)
    requires render([]).Some?
    requires actions == [Start, Lock([]), Render, Compare(false), Write(false), Restore]
    ensures Runnable(render, Init(file), actions)
    ensures var s := Run(render, Init(file), actions);
            s.pc.Selecting? && s.dirty && s.file == file && Stalled(s)
  {
    var a := Next(render, Init(file), Start);
    assert Canonical(a.targets.Values, []);
    var b := Next(render, a, Lock([]));
    var c := Next(render, b, Render);
    WriteFails(render, c);
    RunOne(render, b, Render, [Compare(false), Write(false), Restore]);
    RunOne(render, a, Lock([]), [Render, Compare(false), Write(false), Restore]);
    RunOne(render, Init(file), Start, [Lock([]), Render, Compare(false), Write(false), Restore]);
  }

  lemma WriteFails(render: Renderer, s: State)
    requires s.pc.Comparing?
    ensures var actions := [Compare(false), Write(false), Restore];
            && Runnable(render, s, actions)
            && Run(render, s, actions) == s.(dirty := true, lastFailed := true, pc := After(s.pc.last))
  {
    var d := Next(render, s, Compare(false));
    var e := Next(render, d, Write(false));
    RunOne(render, e, Restore, []);
    RunOne(render, d, Write(false), [Restore]);
    RunOne(render, s, Compare(false), [Write(false), Restore]);
  }

  lemma RunOne(render: Renderer, s: State, a: Action, rest: seq<Action>)
    requires Enabled(s, a) && Runnable(render, Next(render, s, a), rest)
    ensures Runnable(render, s, [a] + rest) && Run(render, s, [a] + rest) == Run(render, Next(render, s, a), rest)
  {
    assert ([a] + rest)[1..] == rest;
  }

  // ---------- From the events to the file ----------

  // The call configSyncFilterFunc makes for an event, if any.
  function CallFor(ev: Event): seq<Action> {
    if ev.resType != APIInstanceResource then []
    else if ev.op == DeleteOperation then [Remove(ev.id)]
    else if ev.op == UnknownOperation || ev.objects == [] || !ev.objects[0].ApiInstanceObject? then []
    else
      match Derive(ev.objects[0].ai)
      case Target(t) => [Upsert(t)]
      case _ => [Remove(ev.objects[0].ai.instanceId)]
  }

  function CallsFor(evs: seq<Event>): seq<Action> {
    if evs == [] then [] else CallFor(evs[0]) + CallsFor(evs[1..])
  }

  // The Upsert and Remove calls of a run, in order.
  function Calls(actions: seq<Action>): seq<Action> {
    if actions == [] then []
    else (if actions[0].Upsert? || actions[0].Remove? then [actions[0]] else []) + Calls(actions[1..])
  }

  function CallOne(targets: Registry, call: Action): Registry {
    match call
    case Upsert(t) => targets[t.apiInstanceId := t]
    case Remove(id) => targets - {id}
    case _ => targets
  }

  function Called(targets: Registry, calls: seq<Action>): Registry
    decreases |calls|
  {
    if calls == [] then targets else Called(CallOne(targets, calls[0]), calls[1..])
  }

  lemma {:induction false} CalledConcat(targets: Registry, a: seq<Action>, b: seq<Action>)
    ensures Called(targets, a + b) == Called(Called(targets, a), b)
    decreases |a|
  {
    if a == [] {
      assert a + b == b;
    } else {
      assert (a + b)[1..] == a[1..] + b;
      CalledConcat(CallOne(targets, a[0]), a[1..], b);
    }
  }

  lemma {:induction false} CallsReact(targets: Registry, evs: seq<Event>, done: seq<Event>)
    requires targets == ReactAll(done)
    ensures Called(targets, CallsFor(evs)) == ReactAll(done + evs)
    decreases |evs|
  {
    if evs == [] {
      assert done + evs == done;
    } else {
      var next := done + [evs[0]];
      assert next[..|next| - 1] == done;
      assert done + evs == next + evs[1..];
      CalledConcat(targets, CallFor(evs[0]), CallsFor(evs[1..]));
      CallReacts(targets, evs[0]);
      CallsReact(React(targets, evs[0]), evs[1..], next);
    }
  }

  lemma CallReacts(targets: Registry, ev: Event)
    ensures Called(targets, CallFor(ev)) == React(targets, ev)
  {
    if CallFor(ev) != [] { assert CallFor(ev)[1..] == []; }
  }

  lemma {:induction false} RegistryOfRun(render: Renderer, s: State, actions: seq<Action>)
    requires Runnable(render, s, actions)
    ensures Run(render, s, actions).targets == Called(s.targets, Calls(actions))
    decreases |actions|
  {
    if actions == [] {
    } else {
      var a := actions[0];
      RegistryOfRun(render, Next(render, s, a), actions[1..]);
      CalledConcat(s.targets, if a.Upsert? || a.Remove? then [a] else [], Calls(actions[1..]));
      StepCalls(render, s, a);
    }
  }

  lemma StepCalls(render: Renderer, s: State, a: Action)
    requires Enabled(s, a)
    ensures Next(render, s, a).targets == Called(s.targets, if a.Upsert? || a.Remove? then [a] else [])
  {
    assert [a][1..] == [];
  }

  // End to end: when the calls of a run are those the filter makes for a sequence of well-formed
  // events, then whenever the registry is clean and no flush is under way, the file is there and is
  // the rendering of the one canonical list of the live ApiInstances' targets.
  lemma FileFollowsEvents(render: Renderer, file: Option<string>, actions: seq<Action>, evs: seq<Event>)
    requires Runnable(render, Init(file), actions) && Calls(actions) == CallsFor(evs)
    requires forall i :: 0 <= i < |evs| ==> WellFormedEvent(evs[i])
    ensures var s, live := Run(render, Init(file), actions), LiveTargets(Live(Changes(evs)));
            !s.dirty && !Flushing(s.pc) ==>
              exists c :: Canonical(live, c) && render(c).Some? && s.file == render(c)
                       && forall d :: Canonical(live, d) ==> d == c
  {
    var s := Run(render, Init(file), actions);
    RunKeeps(render, Init(file), actions);
    RegistryOfRun(render, Init(file), actions);
    CallsReact(map[], evs, []);
    assert [] + evs == evs;
    RegistryHoldsLiveTargets(evs);
    if !s.dirty && !Flushing(s.pc) {
      var c :| Canonical(s.targets.Values, c) && render(c).Some? && s.file == render(c);
      OneRendering(render, s.targets, c, s.file);
    }
  }
}
