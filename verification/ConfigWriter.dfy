// pkg/endpointprobe/otelconfigwriter.go and the filter of watcher.go as they are written, cut at
// every point where other goroutines can run. The cuts are the steps of ConfigRuns: the ghost field
// s follows the step function, and the fields the code assigns must keep up with it.
module ConfigWriters {
  import opened Wrappers
  import opened Events
  import opened ProbeTargets
  import opened Registries
  import opened ConfigRuns

  // What happens meanwhile: the locked part of an Upsert or Remove, the Notify that follows it,
  // the timer expiring, the context being cancelled.
  datatype Outside = Upserted(t: ProbeTarget) | Removed(id: Uuid) | Notified | Expired | Cancelled

  datatype Pick = PickDone | PickTrigger | PickTimer

  // What one turn of Run's loop reacted to, and where things stood then: the token, or the timer or
  // the cancelled context, which make it flush.
  datatype Reaction = Nothing | Token(found: State) | Flushed(found: State, err: bool)

  class ConfigWriter {
    var targets: Registry
    var dirty: bool
    var trigger: bool
    var timer: Timer
    var file: Option<string>
    var cancelled: bool
    var mutators: nat

    // The choices this code does not make: what runs at each point where others can run, and
    // whether the file can be read and written at each flush.
    var script: seq<seq<Outside>>
    var flushes: nat
    const readable: nat -> bool
    const writable: nat -> bool
    const render: Renderer

    ghost var s: State

    ghost predicate InStep()
      reads this
    {
      && s.targets == targets && s.dirty == dirty && s.trigger == trigger && s.timer == timer
      && s.file == file && s.mutators == mutators
    }

    ghost predicate Valid()
      reads this
    {
      InStep() && FileInv(render, s) && UpdateInv(s)
    }

    // What may have happened since while Run did not move: a stopped timer is still stopped, and
    // cancellation is not taken back.
    twostate predicate Meanwhile()
      reads this
    {
      && s.tokens == old(s.tokens) && s.timeouts == old(s.timeouts)
      && (old(timer).Off? ==> timer.Off?) && (old(cancelled) ==> cancelled) && |script| <= |old(script)|
    }

    // How a flush that found the registry and the file as in `found` has ended.
    ghost predicate FlushEnded(found: State, nth: nat, err: bool)
      reads this`file
    {
      && (!found.dirty ==> !err && file == found.file)
      && (found.dirty ==> exists c ::
            Canonical(found.targets.Values, c) &&
            Outcome(render(c), found.file, readable(nth), writable(nth), err, file))
    }

    constructor (file: Option<string>, render: Renderer, script: seq<seq<Outside>>,
                 readable: nat -> bool, writable: nat -> bool)
      ensures Valid() && s == Init(file) && this.file == file && this.render == render
    {
      targets, dirty, trigger, timer, cancelled, mutators, flushes := map[], true, false, Off, false, 0, 0;
      this.file, this.render, this.script, this.readable, this.writable := file, render, script, readable, writable;
      s := Init(file);
    }

    ghost method Step(a: Action)
      requires FileInv(render, s) && UpdateInv(s) && Enabled(s, a)
      modifies this`s
      ensures FileInv(render, s) && UpdateInv(s) && s == Next(render, old(s), a)
    {
      FileStep(render, s, a);
      UpdateStep(render, s, a);
      s := Next(render, s, a);
    }

    // The locked part of Upsert.
    method UpsertLocked(t: ProbeTarget)
      requires Valid()
      modifies this`targets, this`dirty, this`mutators, this`s
      ensures Valid() && s == Next(render, old(s), Action.Upsert(t)) && mutators == old(mutators) + 1
      ensures targets == old(targets)[t.apiInstanceId := t] && dirty
    {
      Step(Action.Upsert(t));
      targets := targets[t.apiInstanceId := t];
      dirty := true;
      mutators := mutators + 1;
    }

    // The locked part of Remove.
    method RemoveLocked(id: Uuid) returns (existed: bool)
      requires Valid()
      modifies this`targets, this`dirty, this`mutators, this`s
      ensures Valid() && s == Next(render, old(s), Action.Remove(id)) && existed == (id in old(targets))
      ensures targets == old(targets) - {id} && dirty == (existed || old(dirty))
      ensures mutators == old(mutators) + if existed then 1 else 0
    {
      Step(Action.Remove(id));
      existed := id in targets;
      if existed {
        targets := targets - {id};
        dirty := true;
        mutators := mutators + 1;
      }
    }

    // Called by a mutator that has unlocked.
    method Notify()
      requires Valid() && mutators > 0
      modifies this`trigger, this`mutators, this`s
      ensures Valid() && s == Next(render, old(s), Action.Notify) && trigger && mutators == old(mutators) - 1
    {
      Step(Action.Notify);
      mutators := mutators - 1;
      if !trigger {
        trigger := true;
      }
    }

    method Upsert(t: ProbeTarget)
      requires Valid()
      modifies this`targets, this`dirty, this`trigger, this`mutators, this`s
      ensures Valid() && s == Next(render, Next(render, old(s), Action.Upsert(t)), Action.Notify)
      ensures targets == old(targets)[t.apiInstanceId := t] && dirty && trigger && mutators == old(mutators)
    {
      UpsertLocked(t);
      Notify();
    }

    method Remove(id: Uuid)
      requires Valid()
      modifies this`targets, this`dirty, this`trigger, this`mutators, this`s
      ensures Valid() && targets == old(targets) - {id} && mutators == old(mutators)
      ensures if id in old(targets)
              then dirty && trigger && s == Next(render, Next(render, old(s), Action.Remove(id)), Action.Notify)
              else dirty == old(dirty) && trigger == old(trigger) && s == old(s)
    {
      var existed := RemoveLocked(id);
      if existed {
        Notify();
      }
    }

    // configSyncFilterFunc: the event passes through unchanged.
    method Sync(ev: Event) returns (out: seq<Event>)
      requires Valid()
      modifies this`targets, this`dirty, this`trigger, this`mutators, this`s
      ensures Valid() && out == [ev]
      ensures targets == React(old(targets), ev) == Called(old(targets), CallFor(ev))
      ensures if targets != old(targets) then dirty && trigger else old(dirty) ==> dirty
    {
      CallReacts(targets, ev);
      if ev.resType != APIInstanceResource {
        return [ev];
      }
      match ev.op {
        case DeleteOperation => Remove(ev.id);
        case CreateOperation | UpdateOperation =>
          if |ev.objects| == 0 {
            return [ev];
          }
          if !ev.objects[0].ApiInstanceObject? {
            return [ev];
          }
          var ai := ev.objects[0].ai;
          match Derive(ai) {
            case Invalid =>
              Remove(ai.instanceId);
              return [ev];
            case NoTarget =>
              Remove(ai.instanceId);
              return [ev];
            case Target(t) => Upsert(t);
          }
        case UnknownOperation =>
      }
      out := [ev];
    }

    // ---------- Flush and Run ----------

    method Other(step: Outside)
      requires Valid()
      modifies this`targets, this`dirty, this`trigger, this`timer, this`cancelled, this`mutators, this`s
      ensures Valid() && s.pc == old(s.pc) && s.lastFailed == old(s.lastFailed) && Meanwhile()
      ensures old(dirty) ==> dirty
    {
      match step
      case Upserted(t) => UpsertLocked(t);
      case Removed(id) => var existed := RemoveLocked(id);
      case Notified =>
        if mutators > 0 {
          Notify();
        }
      case Expired =>
        if timer.Armed? {
          Step(Expire);
          timer := Fired;
        }
      case Cancelled => cancelled := true;
    }

    // A point where other goroutines can run.
    method Interleave()
      requires Valid()
      modifies this`targets, this`dirty, this`trigger, this`timer, this`cancelled, this`mutators, this`s, this`script
      ensures Valid() && s.pc == old(s.pc) && s.lastFailed == old(s.lastFailed) && Meanwhile()
      ensures old(dirty) ==> dirty
      ensures old(script) == [] ==>
                script == [] && s == old(s) && trigger == old(trigger) && timer == old(timer) && cancelled == old(cancelled)
      ensures old(script) != [] ==> |script| < |old(script)|
    {
      if script != [] {
        var now := script[0];
        script := script[1..];
        for i := 0 to |now|
          invariant Valid() && s.pc == old(s.pc) && s.lastFailed == old(s.lastFailed)
          invariant script == old(script)[1..] && Meanwhile() && (old(dirty) ==> dirty)
        {
          Other(now[i]);
        }
      }
    }

    // The registry as Flush finds it under the lock.
    method Lock(last: bool) returns (canonical: seq<ProbeTarget>)
      requires Valid() && s.pc == Entering(last) && dirty
      modifies this`dirty, this`s
      ensures Valid() && s.pc == Rendering(canonical, last) && Canonical(targets.Values, canonical)
      ensures Meanwhile()
    {
      var snapshot := CopyTargets(targets);
      canonical := DedupeTargets(snapshot);
      Step(Action.Lock(canonical));
      dirty := false;
    }

    // What Flush does when it fails.
    method Restore(last: bool)
      requires Valid() && s.pc == Failed(last)
      modifies this`targets, this`dirty, this`trigger, this`timer, this`cancelled, this`mutators, this`s, this`script
      ensures Valid() && s.pc == After(last) && dirty && Meanwhile()
    {
      Interleave();
      Step(Action.Restore);
      dirty := true;
    }

    method RenderTargets(canonical: seq<ProbeTarget>, last: bool) returns (raw: Option<string>)
      requires Valid() && s.pc == Rendering(canonical, last)
      modifies this`targets, this`dirty, this`trigger, this`timer, this`cancelled, this`mutators, this`s, this`script
      ensures Valid() && raw == render(canonical) && Meanwhile()
      ensures s.pc == if raw.None? then Failed(last) else Comparing(raw.value, last)
    {
      Interleave();
      raw := render(canonical);
      Step(Render);
    }

    method CompareFile(raw: string, last: bool, canRead: bool) returns (same: bool)
      requires Valid() && s.pc == Comparing(raw, last)
      modifies this`targets, this`dirty, this`trigger, this`timer, this`cancelled, this`mutators, this`s, this`script
      ensures Valid() && s.pc == (if same then After(last) else Writing(raw, last)) && Meanwhile()
      ensures same <==> canRead && file == Some(raw)
    {
      Interleave();
      same := canRead && file == Some(raw);
      Step(Compare(canRead));
    }

    method WriteFile(raw: string, last: bool, canWrite: bool) returns (failed: bool)
      requires Valid() && s.pc == Writing(raw, last)
      modifies this`targets, this`dirty, this`trigger, this`timer, this`cancelled, this`mutators, this`s, this`script
      modifies this`file
      ensures Valid() && s.pc == (if failed then Failed(last) else After(last)) && Meanwhile()
      ensures failed <==> !canWrite
      ensures file == if failed then old(file) else Some(raw)
    {
      Interleave();
      Step(Write(canWrite));
      failed := !canWrite;
      if canWrite {
        file := Some(raw);
      }
    }

    // The end of Flush: compare with the file, and write it.
    method Store(raw: string, last: bool, canRead: bool, canWrite: bool) returns (err: bool)
      requires Valid() && s.pc == Comparing(raw, last)
      modifies this`targets, this`dirty, this`trigger, this`timer, this`cancelled, this`mutators, this`s, this`script
      modifies this`file
      ensures Valid() && s.pc == After(last) && Meanwhile()
      ensures err <==> !canWrite && !(canRead && old(file) == Some(raw))
      ensures file == if err then old(file) else Some(raw)
      ensures err ==> dirty
    {
      var same := CompareFile(raw, last, canRead);
      if same {
        return false;
      }
      var failed := WriteFile(raw, last, canWrite);
      if failed {
        Restore(last);
        return true;
      }
      err := false;
    }

    // A clean registry is left alone. Otherwise the file ends as the rendering of the canonical
    // targets of the registry as it was locked, or the flush fails, leaves the file as it was and
    // the registry dirty; it fails exactly when rendering fails, or writing does and the file did
    // not hold those bytes already. If no change came in while the lock was released, the file
    // matches the registry.
    method Flush(last: bool) returns (err: bool)
      requires Valid() && s.pc == Entering(last)
      modifies this`targets, this`dirty, this`trigger, this`timer, this`cancelled, this`mutators, this`s, this`script
      modifies this`file, this`flushes
      ensures Valid() && s.pc == After(last) && Meanwhile()
      ensures !old(dirty) ==> !err && file == old(file)
      ensures old(dirty) ==> exists c ::
                Canonical(old(targets).Values, c) &&
                Outcome(render(c), old(file), readable(old(flushes)), writable(old(flushes)), err, file)
      ensures err ==> dirty
      ensures !dirty ==> FileMatches(render, targets, file)
    {
      if !dirty {
        Step(Action.Lock([]));
        return false;
      }
      var now := flushes;
      flushes := flushes + 1;
      var canonical := Lock(last);
      var raw := RenderTargets(canonical, last);
      if raw.None? {
        Restore(last);
        return true;
      }
      err := Store(raw.value, last, readable(now), writable(now));
    }

    // The first flush.
    method Begin() returns (err: bool)
      requires Valid() && s.pc.NotStarted?
      modifies this
      ensures Valid() && s.pc.Selecting? && Meanwhile() && FlushEnded(old(s), old(flushes), err)
    {
      Step(Start);
      err := Flush(false);
    }

    // The case of select for a cancelled context.
    method Finish() returns (err: bool)
      requires Valid() && s.pc.Selecting? && cancelled
      modifies this
      ensures Valid() && s.pc.Done? && timer.Off? && cancelled && FlushEnded(old(s), old(flushes), err)
      ensures s.tokens == old(s.tokens) && s.timeouts == old(s.timeouts)
    {
      Step(Cancel);
      timer := Off;
      err := Flush(true);
    }

    // The case for the debounce timer.
    method Debounced() returns (err: bool)
      requires Valid() && s.pc.Selecting? && timer.Fired?
      modifies this
      ensures Valid() && s.pc.Selecting? && timer.Off? && FlushEnded(old(s), old(flushes), err)
      ensures s.tokens == old(s.tokens) && s.timeouts == old(s.timeouts) + 1
    {
      Step(TakeTimer);
      timer := Off;
      err := Flush(false);
    }

    // Blocked in select, until something is ready or nobody is left to make anything ready.
    method Settle()
      requires Valid() && s.pc.Selecting?
      modifies this`targets, this`dirty, this`trigger, this`timer, this`cancelled, this`mutators, this`s, this`script
      ensures Valid() && s.pc.Selecting? && Meanwhile() && (old(dirty) ==> dirty)
      ensures old(script) == [] ==> s == old(s)
      ensures cancelled || trigger || timer.Fired? || script == []
    {
      Interleave();
      while script != [] && !cancelled && !trigger && !timer.Fired?
        invariant Valid() && s.pc.Selecting? && Meanwhile() && (old(dirty) ==> dirty)
        invariant old(script) == [] ==> script == [] && s == old(s)
        decreases |script|
      {
        Interleave();
      }
    }

    // One iteration of Run's loop, and what it reacted to. If it comes back for another, the token
    // was there and the timer now runs afresh, or the timer had fired, is off, and a flush has run
    // to its end. If it does not, the context was cancelled and the final flush has run, or nothing
    // is ready and nobody is left to make anything ready.
    method Turn(preferred: Pick) returns (again: bool, ghost did: Reaction)
      requires Valid() && s.pc.Selecting?
      modifies this
      ensures Valid()
      ensures match did
              case Token(found) =>
                again && s.pc.Selecting? && found.trigger && !trigger && timer.Armed? && file == old(file)
              case Flushed(found, err) =>
                && timer.Off? && FlushEnded(found, old(flushes), err)
                && (if again then s.pc.Selecting? && found.timer.Fired? else s.pc.Done? && cancelled)
              case Nothing =>
                !again && s.pc.Selecting? && !cancelled && !trigger && !timer.Fired? && script == [] && file == old(file)
      ensures !did.Nothing? ==> did.found.file == old(file) && (old(dirty) ==> did.found.dirty)
      ensures !did.Nothing? && old(script) == [] ==> did.found == old(s)
      ensures s.tokens == old(s.tokens) + (if did.Token? then 1 else 0)
      ensures s.timeouts == old(s.timeouts) + (if again && did.Flushed? then 1 else 0)
    {
      Settle();
      did := Nothing;
      if !cancelled && !trigger && !timer.Fired? {
        return false, did;
      }
      ghost var found := s;
      if cancelled && (preferred.PickDone? || (!trigger && !timer.Fired?)) {
        var err := Finish();
        return false, Flushed(found, err);
      }
      if trigger && (preferred.PickTrigger? || !timer.Fired?) {
        Step(TakeTrigger);
        trigger, timer := false, Armed;
        did := Token(found);
      } else {
        var err := Debounced();
        did := Flushed(found, err);
      }
      again := true;
    }

    // As many turns as `picks` allows, each of which takes the token or, with a flush, the timer.
    // Whatever comes in meanwhile and however the flushes end: a clean registry is in the file, and
    // while Run waits, a dirty one is on its way there.
    method Run(picks: seq<Pick>) returns (ghost turns: nat)
      requires Valid() && s.pc.NotStarted?
      modifies this
      ensures Valid() && (s.pc.Selecting? || s.pc.Done?) && turns <= |picks|
      ensures s.tokens + s.timeouts == old(s.tokens) + old(s.timeouts) + turns
      ensures s.pc.Done? ==> cancelled && timer.Off?
      ensures s.pc.Selecting? && turns < |picks| ==> !cancelled && !trigger && !timer.Fired? && script == []
      ensures !dirty ==> FileMatches(render, targets, file)
      ensures s.pc.Selecting? && dirty ==> mutators > 0 || trigger || !timer.Off? || s.lastFailed
    {
      var _ := Begin();
      turns := 0;
      for i := 0 to |picks|
        invariant Valid() && s.pc.Selecting? && turns == i
        invariant s.tokens + s.timeouts == old(s.tokens) + old(s.timeouts) + turns
      {
        var again, _ := Turn(picks[i]);
        if !again {
          return;
        }
        turns := turns + 1;
      }
    }
  }

  // How a flush that rendered `raw` ends.
  predicate Outcome(
    raw: Option<string>, before: Option<string>, canRead: bool, canWrite: bool, err: bool, after: Option<string>)
  {
    && (err <==> raw.None? || (!canWrite && !(canRead && before == raw)))
    && after == (if err then before else raw)
  }
}
