/** The daemon's bounded per-subscriber event mailbox: logs may be dropped, state never. */
module Mailbox {
  import opened Options

  datatype Kind = LogChunk | StreamGap | Transition(name: nat)

  datatype Class = Activity | State | Control

  /** `ClassOf`: every kind not named here counts as state. */
  function ClassOf(k: Kind): Class {
    match k
    case LogChunk => Activity
    case StreamGap => Control
    case Transition(_) => State
  }

  /** `runId` 0 is the empty run id; `payload` is the size of the variable-length fields. */
  datatype Event = Event(kind: Kind, runId: nat, rev: nat, payload: nat)

  predicate IsLog(e: Event) { ClassOf(e.kind) == Activity }

  const MAX_EVENTS: nat := 64
  const MAX_BYTES: nat := 0x10_0000
  const OVERHEAD: nat := 128

  function Size(e: Event): nat { OVERHEAD + e.payload }

  /**
   * Log chunks, and they alone, may be dropped; 64 frames and a mebibyte, at 128
   * bytes a frame and its payload, are the bounds.
   */
  lemma KindsAndBounds(ring: seq<Event>, e: Event)
    ensures IsLog(e) <==> e.kind == LogChunk
    ensures Room(ring, Size(e)) <==> |ring| < 64 && Total(ring) + 128 + e.payload <= 1_048_576
  {
  }

  function Total(ring: seq<Event>): nat {
    if ring == [] then 0 else Size(ring[0]) + Total(ring[1..])
  }

  lemma {:induction false} TotalJoins(a: seq<Event>, b: seq<Event>)
    ensures Total(a + b) == Total(a) + Total(b)
  {
    if a == [] {
      assert a + b == b;
    } else {
      TotalJoins(a[1..], b);
      assert (a + b)[0] == a[0] && (a + b)[1..] == a[1..] + b;
    }
  }

  predicate Room(ring: seq<Event>, size: nat) {
    |ring| < MAX_EVENTS && Total(ring) + size <= MAX_BYTES
  }

  /** The frames that are no logs, in order. */
  function States(ring: seq<Event>): seq<Event> {
    if ring == [] then []
    else if IsLog(ring[0]) then States(ring[1..])
    else [ring[0]] + States(ring[1..])
  }

  lemma {:induction false} StatesJoin(a: seq<Event>, b: seq<Event>)
    ensures States(a + b) == States(a) + States(b)
  {
    if a == [] {
      assert a + b == b;
    } else {
      assert (a + b)[0] == a[0] && (a + b)[1..] == a[1..] + b;
      StatesJoin(a[1..], b);
      if !IsLog(a[0]) {
        assert [a[0]] + (States(a[1..]) + States(b)) == ([a[0]] + States(a[1..])) + States(b);
      }
    }
  }

  /** The ring without its `k` oldest logs. */
  function DropLogs(ring: seq<Event>, k: nat): seq<Event> {
    if ring == [] || k == 0 then ring
    else if IsLog(ring[0]) then DropLogs(ring[1..], k - 1)
    else [ring[0]] + DropLogs(ring[1..], k)
  }

  lemma {:induction false} DropKeepsStates(ring: seq<Event>, k: nat)
    ensures States(DropLogs(ring, k)) == States(ring)
  {
    if ring != [] && k > 0 {
      DropKeepsStates(ring[1..], if IsLog(ring[0]) then k - 1 else k);
      if !IsLog(ring[0]) {
        StatesJoin([ring[0]], DropLogs(ring[1..], k));
        assert States([ring[0]]) == [ring[0]];
      }
    }
  }

  /** Dropping a log behind a stretch of state frames drops the next-oldest log. */
  lemma {:induction false} DropNext(ring: seq<Event>, k: nat, i: nat)
    requires i < |DropLogs(ring, k)| && IsLog(DropLogs(ring, k)[i])
    requires forall j :: 0 <= j < i ==> !IsLog(DropLogs(ring, k)[j])
    ensures DropLogs(ring, k + 1) == DropLogs(ring, k)[..i] + DropLogs(ring, k)[i + 1..]
  {
    var d := DropLogs(ring, k);
    if k > 0 && IsLog(ring[0]) {
      DropNext(ring[1..], k - 1, i);
    } else {
      var rest := DropLogs(ring[1..], k);
      assert d == [ring[0]] + rest;
      if i > 0 {
        assert !IsLog(d[0]);
        forall j | 0 <= j < i - 1
          ensures !IsLog(rest[j])
        {
          assert rest[j] == d[j + 1];
        }
        DropNext(ring[1..], k, i - 1);
        assert d[..i] + d[i + 1..] == [ring[0]] + (rest[..i - 1] + rest[i..]);
      } else {
        assert DropLogs(ring[1..], 0) == ring[1..];
      }
    }
  }

  predicate OnlyStates(ring: seq<Event>) {
    forall e :: e in ring ==> !IsLog(e)
  }

  /** The `k` oldest logs are gone: just enough to make room, or all of them. */
  predicate EvictedBy(before: seq<Event>, after: seq<Event>, size: nat, k: nat) {
    && after == DropLogs(before, k)
    && (k > 0 ==> !Room(DropLogs(before, k - 1), size))
    && (Room(after, size) || OnlyStates(after))
  }

  ghost predicate EvictedFor(before: seq<Event>, after: seq<Event>, size: nat) {
    exists k: nat :: EvictedBy(before, after, size, k)
  }

  /** Logs go only when there is no room as it is. */
  ghost predicate MadeRoom(before: seq<Event>, after: seq<Event>, size: nat) {
    if Room(before, size) then after == before else EvictedFor(before, after, size)
  }

  lemma EvictedKeepsStates(before: seq<Event>, after: seq<Event>, size: nat)
    requires EvictedFor(before, after, size)
    ensures States(after) == States(before)
  {
    var k: nat :| EvictedBy(before, after, size, k);
    DropKeepsStates(before, k);
  }

  datatype Frame = Frame(event: Event) | Waiting | Finished

  class EventMailbox {
    const runId: nat
    var ring: seq<Event>
    var bytes: nat
    var gap: bool
    var gapRev: nat
    var closed: bool

    predicate Valid()
      reads this
    {
      && bytes == Total(ring) && |ring| <= MAX_EVENTS && bytes <= MAX_BYTES
      && forall e :: e in ring ==> e.runId == runId
    }

    /** A frame waits here that makes the subscriber read the state. */
    predicate Holds()
      reads this
    {
      gap || States(ring) != []
    }

    /** State revision `rev` will still reach the subscriber: as its own frame or within a gap. */
    predicate Covers(rev: nat)
      reads this
    {
      (gap && gapRev >= rev) || exists e :: e in States(ring) && e.rev == rev
    }

    /** A new subscription opens with a gap: its first frame makes the subscriber read. */
    constructor (runId: nat, startRev: nat)
      ensures Valid() && Holds() && !closed && gapRev == startRev && ring == [] && this.runId == runId
    {
      this.runId := runId;
      ring, bytes, gap, gapRev, closed := [], 0, true, startRev, false;
    }

    method HasRoom(size: nat) returns (ok: bool)
      requires Valid()
      ensures ok == Room(ring, size)
    {
      ok := |ring| < MAX_EVENTS && bytes + size <= MAX_BYTES;
    }

    method Evict(size: nat)
      requires Valid() && !Room(ring, size)
      modifies this`ring, this`bytes
      ensures Valid() && EvictedFor(old(ring), ring, size)
    {
      var i := 0;
      ghost var k := 0;
      while i < |ring|
        invariant Valid() && i <= |ring|
        invariant ring == DropLogs(old(ring), k)
        invariant k > 0 ==> !Room(DropLogs(old(ring), k - 1), size)
        invariant forall j :: 0 <= j < i ==> !IsLog(ring[j])
        invariant !Room(ring, size)
        decreases |ring| - i
      {
        if !IsLog(ring[i]) {
          i := i + 1;
        } else {
          DropNext(old(ring), k, i);
          TotalWithout(ring, i);
          bytes := bytes - Size(ring[i]);
          ring := ring[..i] + ring[i + 1..];
          k := k + 1;
          var ok := HasRoom(size);
          if ok {
            assert EvictedBy(old(ring), ring, size, k);
            return;
          }
        }
      }
      assert OnlyStates(ring);
      assert EvictedBy(old(ring), ring, size, k);
    }

    method Fold(e: Event)
      modifies this`gap, this`gapRev
      ensures gap && gapRev == if e.rev > old(gapRev) then e.rev else old(gapRev)
    {
      gap := true;
      if e.rev > gapRev { gapRev := e.rev; }
    }

    method Append(e: Event)
      requires Valid() && Room(ring, Size(e)) && e.runId == runId
      modifies this`ring, this`bytes
      ensures Valid() && ring == old(ring) + [e]
    {
      TotalJoins(ring, [e]);
      assert Total([e]) == Size(e);
      ring := ring + [e];
      bytes := bytes + Size(e);
    }

    /** Never blocks; keeps the bounds; only logs are dropped; a state frame is queued or folded into the gap. */
    method Publish(e: Event)
      requires Valid() && e.runId == runId
      modifies this
      ensures Valid() && closed == old(closed)
      ensures closed ==> ring == old(ring) && gap == old(gap) && gapRev == old(gapRev)
      // A log is queued if there is room, else dropped; nothing else changes.
      ensures !closed && IsLog(e) ==>
                gap == old(gap) && gapRev == old(gapRev) && ring == if Room(old(ring), Size(e)) then old(ring) + [e]
                    else old(ring)
      // State behind a gap is folded into it.
      ensures !closed && !IsLog(e) && old(gap) ==>
                ring == old(ring) && gap && gapRev == if e.rev > old(gapRev) then e.rev else old(gapRev)
      // Otherwise as few of the oldest logs as needed make way, and it is queued,
      // or folded if state alone fills the ring.
      ensures !closed && !IsLog(e) && !old(gap) ==>
                exists kept :: MadeRoom(old(ring), kept, Size(e))
                    && (if gap then ring == kept && !Room(kept, Size(e)) else ring == kept + [e])
                    && gapRev == if gap && e.rev > old(gapRev) then e.rev else old(gapRev)
      // Nothing owed to the subscriber is lost.
      ensures forall rev :: old(Covers(rev)) ==> Covers(rev)
      ensures !closed && !IsLog(e) ==> Covers(e.rev)
      ensures old(Holds()) ==> Holds()
      ensures !closed && !IsLog(e) ==> Holds()
    {
      if closed { return; }
      var ok := HasRoom(Size(e));
      if IsLog(e) {
        if ok {
          Append(e);
          StatesJoin(old(ring), [e]);
        }
        return;
      }
      if gap {
        Fold(e);
        return;
      }
      if !ok {
        Evict(Size(e));
        EvictedKeepsStates(old(ring), ring, Size(e));
        ok := HasRoom(Size(e));
      }
      ghost var kept := ring;
      if ok {
        Append(e);
        StatesJoin(kept, [e]);
        assert States([e]) == [e];
        assert e in States(kept) + [e];
      } else {
        Fold(e);
      }
    }

    method Close()
      modifies this`closed
      ensures closed
    {
      closed := true;
    }

    /** The gap drains first, then the ring in order; the stream finishes only when closed and drained. */
    method Next() returns (f: Frame)
      requires Valid()
      modifies this`ring, this`bytes, this`gap, this`gapRev
      ensures Valid()
      ensures f.Frame? ==> f.event.runId == runId
      ensures old(gap) ==> f == Frame(Event(StreamGap, runId, old(gapRev), 0)) && ring == old(ring) && !gap
      ensures !old(gap) && old(ring) != [] ==> f == Frame(old(ring)[0]) && ring == old(ring)[1..] && !gap
      ensures !old(gap) && old(ring) == [] ==> f == (if closed then Finished else Waiting) && ring == [] && !gap
      // A revision leaves the mailbox only in a frame that carries it or a later one.
      ensures forall rev :: old(Covers(rev)) ==> Covers(rev) || (f.Frame? && !IsLog(f.event) && f.event.rev >= rev)
      ensures old(Holds()) ==> Holds() || (f.Frame? && !IsLog(f.event))
    {
      if gap {
        f := Frame(Event(StreamGap, runId, gapRev, 0));
        gap, gapRev := false, 0;
      } else if ring != [] {
        f := Frame(ring[0]);
        bytes := bytes - Size(ring[0]);
        ring := ring[1..];
      } else {
        f := if closed then Finished else Waiting;
      }
    }
  }

  lemma TotalWithout(ring: seq<Event>, i: nat)
    requires i < |ring|
    ensures Total(ring) == Size(ring[i]) + Total(ring[..i] + ring[i + 1..])
  {
    TotalJoins(ring[..i], ring[i..]);
    assert ring == ring[..i] + ring[i..];
    assert ring[i..][1..] == ring[i + 1..];
    TotalJoins(ring[..i], ring[i + 1..]);
  }
}
