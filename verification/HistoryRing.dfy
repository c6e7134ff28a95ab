// internal/events/history_ring.go: the fixed-capacity ring of recent stored events.
module HistoryRings {
  import opened Events

  // A time.Time is a number; zero is the zero value.
  type Time = int

  datatype StoredEvent = StoredEvent(
    sequenceId: nat,
    timestamp: Time,
    resourceType: string,
    operation: string,
    resourceId: Uuid,
    objects: Payload)

  const DEFAULT_HISTORY_LIMIT := 1000

  // How many of n events a ring of this capacity has let go.
  function Evicted(n: nat, limit: nat): nat { if n <= limit then 0 else n - limit }

  // The last `limit` events, oldest first.
  function Tail(log: seq<StoredEvent>, limit: nat): seq<StoredEvent> { log[Evicted(|log|, limit)..] }

  // Sequence id and time of the newest event that is no longer retained.
  function Boundary(log: seq<StoredEvent>, limit: nat): (nat, Time) {
    var e := Evicted(|log|, limit);
    if e == 0 then (0, 0) else (log[e - 1].sequenceId, log[e - 1].timestamp)
  }

  // The slots from `next` round to `next` hold the retained events of the log, oldest first.
  ghost predicate Layout(buf: seq<StoredEvent>, next: nat, size: nat, log: seq<StoredEvent>) {
    && next < |buf|
    && size == |log| - Evicted(|log|, |buf|)
    && (size < |buf| ==> next == size)
    && Tail(log, |buf|) == (if size < |buf| then buf[..size] else buf[next..] + buf[..next])
  }

  // Writing a slot and moving on replaces the oldest event of a full ring, and extends one that
  // is not full.
  lemma LayoutStep(buf: seq<StoredEvent>, next: nat, size: nat, log: seq<StoredEvent>, ev: StoredEvent)
    requires Layout(buf, next, size, log)
    ensures var next' := if next + 1 == |buf| then 0 else next + 1;
            Layout(buf[next := ev], next', if size == |buf| then size else size + 1, log + [ev])
    ensures Boundary(log + [ev], |buf|) ==
              if size == |buf| then (buf[next].sequenceId, buf[next].timestamp) else Boundary(log, |buf|)
  {
    var buf', log' := buf[next := ev], log + [ev];
    if size == |buf| {
      assert Tail(log, |buf|)[0] == buf[next] == log'[Evicted(|log'|, |buf|) - 1];
      assert Tail(log', |buf|) == Tail(log, |buf|)[1..] + [ev];
      if next + 1 == |buf| {
        assert buf'[0..] + buf'[..0] == (buf[next..] + buf[..next])[1..] + [ev];
      } else {
        assert buf'[next + 1..] + buf'[..next + 1] == (buf[next..] + buf[..next])[1..] + [ev];
      }
    } else {
      assert Tail(log, |buf|) == log && Tail(log', |buf|) == log';
      assert buf'[..next + 1] == buf[..next] + [ev];
      assert next + 1 == |buf| ==> buf'[0..] + buf'[..0] == buf'[..next + 1];
    }
  }

  class HistoryRing {
    var buf: array<StoredEvent>
    const limit: nat
    var next: nat
    var size: nat
    var compactionSeq: nat
    var compactionAt: Time
    // Every event added since construction.
    ghost var log: seq<StoredEvent>

    ghost predicate Valid()
      reads this, buf
    {
      && 0 < limit == buf.Length
      && Layout(buf[..], next, size, log)
      && (compactionSeq, compactionAt) == Boundary(log, limit)
    }

    constructor (requested: int)
      ensures Valid() && fresh(buf) && log == []
      ensures limit == if requested <= 0 then DEFAULT_HISTORY_LIMIT else requested
    {
      var capacity := if requested <= 0 then DEFAULT_HISTORY_LIMIT else requested;
      buf := new StoredEvent[capacity];
      limit := capacity;
      next, size, compactionSeq, compactionAt := 0, 0, 0, 0;
      log := [];
    }

    method Add(ev: StoredEvent)
      requires Valid()
      modifies this, buf
      ensures Valid() && buf == old(buf)
      ensures log == old(log) + [ev]
    {
      LayoutStep(buf[..], next, size, log, ev);
      ghost var was := buf[..];
      if size == limit {
        var evicted := buf[next];
        compactionSeq := evicted.sequenceId;
        compactionAt := evicted.timestamp;
      } else {
        size := size + 1;
      }
      buf[next] := ev;
      assert buf[..] == was[next := ev];
      WrapIncrement(next, limit);
      next := (next + 1) % limit;
      log := log + [ev];
    }

    method Snapshot() returns (out: seq<StoredEvent>)
      requires Valid()
      ensures out == Tail(log, limit)
      ensures |out| == (if |log| < limit then |log| else limit) && out == log[|log| - |out|..]
    {
      if size < limit {
        return buf[..size];
      }
      out := buf[next..] + buf[..next];
    }

    method CompactionBoundary() returns (seqNo: nat, at: Time)
      requires Valid()
      ensures (seqNo, at) == Boundary(log, limit)
      ensures if |log| <= limit then seqNo == 0 && at == 0
              else seqNo == log[|log| - limit - 1].sequenceId && at == log[|log| - limit - 1].timestamp
    {
      return compactionSeq, compactionAt;
    }
  }

  lemma WrapIncrement(next: nat, limit: nat)
    requires next < limit
    ensures (next + 1) % limit == if next + 1 == limit then 0 else next + 1
  {
  }
}
