/** The client that follows one run: subscribe, read the state, read again whenever an event says so. */
module Reconciler {
  import opened Options
  import opened Mailbox

  /** What the daemon and the connection do between two steps of the client. */
  datatype Move =
    | Commit                                  // the run's stored state changes; an event is owed
    | Broadcast(name: nat, payload: nat)      // a state event goes to the subscriber's mailbox
    | Log(payload: nat)                       // so does a log chunk
    | Send                                    // the mailbox's next frame goes on the wire
    | Stray(event: Event)                     // a frame of another run arrives
    | Finish                                  // the run is over: the mailbox closes softly
    | Break(kept: nat)                        // the connection breaks and loses frames in flight

  /** What the client's next wait or request meets. */
  datatype Signal = Ready | Heartbeat | Cancelled | Refused

  datatype Turn = Turn(moves: seq<Move>, signal: Signal)

  /** The daemon as one client sees it. */
  class Daemon {
    const runId: nat
    const present: bool        // the run exists
    var version: nat           // of the stored run state
    var owed: bool             // a change was stored and its event not yet broadcast
    var rev: nat
    var finished: bool
    var mailbox: EventMailbox
    var wire: seq<Event>       // sent and not yet received
    var connected: bool
    var readCount: nat             // full state reads so far
    var script: seq<Turn>

    constructor (runId: nat, present: bool, script: seq<Turn>)
      requires runId != 0
      ensures Valid() && fresh(mailbox) && this.script == script && version == 0 && readCount == 0
    {
      this.runId, this.present, this.script := runId, present, script;
      version, rev, readCount, owed, finished := 0, 0, 0, false, false;
      wire, connected := [], false;
      mailbox := new EventMailbox(runId, 0);
    }

    ghost predicate Valid()
      reads this, mailbox
    {
      runId != 0 && mailbox.Valid() && mailbox.runId == runId
    }

    /** The client reads the state when it gets this frame. */
    predicate Forces(e: Event) {
      (e.runId == 0 || e.runId == runId) && !IsLog(e)
    }

    /** Something between the stored state and the client will still make the client read. */
    ghost predicate Waking()
      reads this, mailbox
    {
      owed || mailbox.Holds() || mailbox.closed || !connected || exists e :: e in wire && Forces(e)
    }

    /** No move loses a wakeup, and every stored change owes one. */
    method Act(m: Move)
      requires Valid()
      modifies this`version, this`owed, this`rev, this`finished, this`wire, this`connected, mailbox
      ensures Valid() && version >= old(version)
      ensures old(Waking()) || version > old(version) ==> Waking()
    {
      ghost var before := wire;
      match m {
        case Commit =>
          version := version + 1;
          owed := true;
        case Broadcast(name, payload) =>
          rev := rev + 1;
          mailbox.Publish(Event(Transition(name), runId, rev, payload));
          owed := false;
        case Log(payload) =>
          mailbox.Publish(Event(LogChunk, runId, 0, payload));
        case Send =>
          if connected {
            var f := mailbox.Next();
            if f.Frame? {
              wire := wire + [f.event];
              assert f.event in wire;
            } else if f.Finished? {
              connected := false;
            }
          }
        case Stray(e) =>
          if connected && e.runId != 0 && e.runId != runId { wire := wire + [e]; }
        case Finish =>
          finished := true;
          mailbox.Close();
        case Break(kept) =>
          if kept < |wire| { wire := wire[..kept]; }
          connected := false;
      }
      assert !m.Break? ==> forall e :: e in before ==> e in wire;
    }

    /** The moves of the next turn happen; then the client meets its signal. */
    method Await() returns (signal: Signal)
      requires Valid()
      modifies this`version, this`owed, this`rev, this`finished, this`wire, this`connected, this`script, mailbox
      ensures Valid() && version >= old(version)
      ensures old(Waking()) || version > old(version) ==> Waking()
      ensures script == if old(script) == [] then [] else old(script)[1..]
      ensures old(script) == [] ==> wire == old(wire) && connected == old(connected) && signal == Ready
      ensures old(script) != [] ==> signal == old(script)[0].signal
    {
      if script == [] { return Ready; }
      var turn := script[0];
      script := script[1..];
      for k := 0 to |turn.moves|
        invariant Valid() && version >= old(version) && script == old(script)[1..]
        invariant old(Waking()) || version > old(version) ==> Waking()
      {
        Act(turn.moves[k]);
      }
      signal := turn.signal;
    }

    /** A new mailbox opens with a gap, so the first frame of every stream forces a read; a finished run's is closed. */
    method Subscribe()
      requires Valid()
      modifies this`mailbox, this`wire, this`connected
      ensures Valid() && fresh(mailbox) && Waking()
      ensures mailbox.Holds() && mailbox.closed == finished && wire == [] && connected
    {
      mailbox := new EventMailbox(runId, rev);
      if finished { mailbox.Close(); }
      wire, connected := [], true;
    }

    method Receive() returns (e: Event)
      requires Valid() && wire != []
      modifies this`wire
      ensures Valid() && e == old(wire)[0] && wire == old(wire)[1..]
      ensures old(Waking()) && !Forces(e) ==> Waking()
    {
      e := wire[0];
      wire := wire[1..];
      assert forall x :: x in old(wire) && x != e ==> x in wire;
    }

    method GetRun() returns (run: Option<nat>)
      modifies this`readCount
      ensures readCount == old(readCount) + 1
      ensures run == if present then Some(version) else None
    {
      readCount := readCount + 1;
      run := if present then Some(version) else None;
    }
  }

  /** `Waiting`: the call is still blocked when the script ends. */
  datatype Outcome = Snapshot(run: Option<nat>) | Failed | Waiting

  /** The next request is refused or its context is cancelled. */
  predicate Unanswered(script: seq<Turn>) {
    script != [] && script[0].signal in {Refused, Cancelled}
  }

  /** The frame is this run's, or every run's. */
  predicate Own(e: Event, runId: nat) { e.runId in {0, runId} }

  predicate FirstOwn(wire: seq<Event>, runId: nat, i: nat) {
    i < |wire| && Own(wire[i], runId) && forall j :: 0 <= j < i ==> !Own(wire[j], runId)
  }

  predicate NoneOwn(wire: seq<Event>, runId: nat) {
    forall j :: 0 <= j < |wire| ==> !Own(wire[j], runId)
  }

  class RunReconciler {
    const daemon: Daemon
    var subscribed: bool       // the event channel is set
    var started: bool
    var lastRun: Option<nat>
    ghost var lastRead: nat    // version of the last completed read

    constructor (daemon: Daemon)
      requires daemon.Valid()
      ensures Valid() && this.daemon == daemon && !started
    {
      this.daemon := daemon;
      subscribed, started, lastRun, lastRead := false, false, None, 0;
    }

    ghost predicate Valid()
      reads this, daemon, daemon.mailbox
    {
      && daemon.Valid()
      && lastRead <= daemon.version
      && (started ==> lastRun == if daemon.present then Some(lastRead) else None)
    }

    /** A state newer than the last one read is on its way to the client. */
    ghost predicate Tracked()
      reads this, daemon, daemon.mailbox
    {
      Valid() && started && subscribed && (daemon.version > lastRead ==> daemon.Waking())
    }

    /** Subscribes, retrying while refused. */
    method Connect() returns (ok: bool)
      requires Valid()
      modifies this`subscribed, daemon, daemon.mailbox
      ensures Valid() && (daemon.mailbox == old(daemon.mailbox) || fresh(daemon.mailbox))
      ensures daemon.version >= old(daemon.version) && daemon.readCount == old(daemon.readCount)
                && |daemon.script| <= |old(daemon.script)|
      ensures ok ==> subscribed && daemon.Waking()
      ensures old(daemon.script) == [] ==> ok && daemon.script == []
      ensures old(daemon.script) != [] && old(daemon.script)[0].signal == Cancelled ==> !ok
    {
      while true
        invariant Valid() && daemon.mailbox == old(daemon.mailbox)
        invariant daemon.version >= old(daemon.version) && daemon.readCount == old(daemon.readCount)
                  && |daemon.script| <= |old(daemon.script)|
        invariant old(daemon.script) == [] ==> daemon.script == []
        invariant old(daemon.script) != [] && old(daemon.script)[0].signal == Cancelled ==>
                    daemon.script == old(daemon.script)
        decreases |daemon.script|
      {
        var signal := daemon.Await();
        if signal == Cancelled { return false; }
        if signal != Refused {
          daemon.Subscribe();
          subscribed := true;
          return true;
        }
      }
    }

    /** One full read; whatever was on its way before is covered by it. */
    method Reconcile() returns (outcome: Outcome)
      requires daemon.Valid() && lastRead <= daemon.version && started && subscribed
      modifies this`lastRun, this`lastRead, daemon, daemon.mailbox
      ensures daemon.mailbox == old(daemon.mailbox) && daemon.readCount <= old(daemon.readCount) + 1
      ensures daemon.version >= old(daemon.version)
      ensures outcome.Failed? || (outcome == Snapshot(lastRun) && Tracked() && lastRead >= old(daemon.version))
      ensures outcome.Snapshot? ==> daemon.readCount == old(daemon.readCount) + 1
      ensures outcome.Failed? <==> Unanswered(old(daemon.script))
      ensures old(daemon.script) == [] ==> daemon.script == []
    {
      var signal := daemon.Await();
      if signal == Refused || signal == Cancelled { return Failed; }
      lastRun := daemon.GetRun();
      lastRead := daemon.version;
      outcome := Snapshot(lastRun);
    }

    method Reconnect() returns (outcome: Outcome)
      requires Valid() && started
      modifies this, daemon, daemon.mailbox
      ensures daemon.mailbox == old(daemon.mailbox) || fresh(daemon.mailbox)
      ensures daemon.readCount <= old(daemon.readCount) + 1 && daemon.version >= old(daemon.version)
      ensures outcome.Failed? || (outcome == Snapshot(lastRun) && Tracked() && lastRead >= old(daemon.version))
      ensures outcome.Snapshot? ==> daemon.readCount == old(daemon.readCount) + 1
      ensures old(daemon.script) == [] ==> outcome.Snapshot?
    {
      subscribed := false;
      var ok := Connect();
      if !ok { return Failed; }
      outcome := Reconcile();
    }

    /** Takes every queued frame off the channel, then reads once. */
    method Drain() returns (outcome: Outcome)
      requires Valid() && started && subscribed
      modifies this, daemon, daemon.mailbox
      ensures daemon.mailbox == old(daemon.mailbox) || fresh(daemon.mailbox)
      ensures daemon.readCount <= old(daemon.readCount) + 1 && daemon.version >= old(daemon.version)
      ensures outcome.Failed? || (outcome == Snapshot(lastRun) && Tracked() && lastRead >= old(daemon.version))
      ensures outcome.Snapshot? ==> daemon.readCount == old(daemon.readCount) + 1
      ensures old(daemon.script) == [] ==> outcome.Snapshot?
    {
      while true
        invariant Valid() && started && subscribed && daemon.mailbox == old(daemon.mailbox)
        invariant daemon.readCount == old(daemon.readCount) && daemon.version >= old(daemon.version)
        invariant old(daemon.script) == [] ==> daemon.script == []
        decreases |daemon.script|, |daemon.wire|
      {
        var _ := daemon.Await();
        if daemon.wire != [] {
          var _ := daemon.Receive();
        } else if !daemon.connected {
          outcome := Reconnect();
          return;
        } else {
          outcome := Reconcile();
          return;
        }
      }
    }

    /**
     * The next snapshot. Versions never go back; a snapshot is as new as the
     * call or repeats the last one on a log chunk; at most one read is made;
     * afterwards every newer state is still on its way, and a call that blocks
     * has received all there is on the channel.
     */
    method Next() returns (outcome: Outcome)
      requires Valid() && (started ==> Tracked())
      modifies this, daemon, daemon.mailbox
      ensures daemon.mailbox == old(daemon.mailbox) || fresh(daemon.mailbox)
      ensures daemon.readCount <= old(daemon.readCount) + 1
      ensures !outcome.Failed? ==> Tracked() && lastRead >= old(lastRead)
      ensures outcome.Snapshot? ==> outcome.run == lastRun
      ensures outcome.Snapshot? ==>
                lastRead >= old(daemon.version)
                || (lastRead == old(lastRead) && daemon.readCount == old(daemon.readCount) && old(started))
      ensures outcome.Waiting? ==>
                daemon.wire == [] && daemon.connected && daemon.script == [] && lastRead == old(lastRead)
      // A heartbeat makes it read, which fails exactly when it is not answered; a cancelled context makes it fail.
      ensures old(started) && old(daemon.script) != [] && old(daemon.script)[0].signal == Heartbeat ==>
                if Unanswered(old(daemon.script)[1..]) then outcome.Failed?
                else outcome.Snapshot? && daemon.readCount == old(daemon.readCount) + 1
      ensures old(daemon.script) != [] && old(daemon.script)[0].signal == Cancelled ==> outcome.Failed?
      // With the daemon still the first frame of the run decides: a log chunk repeats the last snapshot,
      // anything else makes it read.
      ensures old(started) && old(daemon.script) == [] && daemon.present ==>
                && (forall i: nat :: FirstOwn(old(daemon.wire), daemon.runId, i) ==>
                      if old(daemon.wire)[i].kind == LogChunk then
                        outcome == Snapshot(old(lastRun)) && daemon.readCount == old(daemon.readCount)
                        && daemon.wire == old(daemon.wire)[i + 1..]
                      else outcome.Snapshot? && daemon.readCount == old(daemon.readCount) + 1)
                && (NoneOwn(old(daemon.wire), daemon.runId) ==>
                      if old(daemon.connected) then outcome.Waiting? && daemon.readCount == old(daemon.readCount)
                      else outcome.Snapshot? && daemon.readCount == old(daemon.readCount) + 1)
    {
      hide Daemon.Waking, EventMailbox.Valid, EventMailbox.Holds;
      if !started {
        var ok := Connect();
        if !ok { return Failed; }
        started := true;
        outcome := Reconcile();
        return;
      }
      ghost var k := 0;
      while true
        invariant Tracked() && daemon.mailbox == old(daemon.mailbox)
        invariant daemon.readCount == old(daemon.readCount) && daemon.version >= old(daemon.version)
        invariant lastRead == old(lastRead) && lastRun == old(lastRun)
        invariant old(daemon.script) == [] ==>
                    && daemon.script == [] && daemon.connected == old(daemon.connected)
                    && k <= |old(daemon.wire)| && daemon.wire == old(daemon.wire)[k..]
        invariant old(daemon.script) == [] && daemon.present ==>
                    forall j :: 0 <= j < k ==> !Own(old(daemon.wire)[j], daemon.runId)
        invariant old(daemon.script) != [] && old(daemon.script)[0].signal in {Heartbeat, Cancelled} ==>
                    daemon.script == old(daemon.script)
        decreases |daemon.script|, |daemon.wire|
      {
        var last := daemon.script == [];
        var signal := daemon.Await();
        if signal == Cancelled { return Failed; }
        if signal == Heartbeat {
          outcome := Reconcile();
          return;
        }
        if daemon.wire != [] {
          var event := daemon.Receive();
          assert old(daemon.script) == [] ==> event == old(daemon.wire)[k] && daemon.wire == old(daemon.wire)[k + 1..];
          k := k + 1;
          if event.runId != 0 && event.runId != daemon.runId {
            continue;
          }
          if event.kind == LogChunk && lastRun.Some? {
            return Snapshot(lastRun);
          }
          if !daemon.Forces(event) {
            continue;
          }
          outcome := Drain();
          return;
        } else if !daemon.connected {
          outcome := Reconnect();
          return;
        } else if last {
          return Outcome.Waiting;
        }
      }
    }

    /**
     * Any number of calls, up to the first that fails or blocks: the snapshots
     * never go back, and once it blocks with the daemon owing nothing, the last
     * snapshot is the stored state.
     */
    method Follow(calls: nat) returns (seen: seq<Option<nat>>, last: Outcome)
      requires Valid() && !started && daemon.present && lastRead == 0
      modifies this, daemon, daemon.mailbox
      ensures forall i :: 0 <= i < |seen| ==> seen[i].Some?
      ensures forall i, j :: 0 <= i < j < |seen| ==> seen[i].value <= seen[j].value
      ensures last.Waiting? && seen != [] && !daemon.owed && !daemon.mailbox.Holds() && !daemon.mailbox.closed ==>
                seen[|seen| - 1] == Some(daemon.version)
    {
      seen := [];
      last := Failed;
      for k := 0 to calls
        invariant Valid() && (started ==> Tracked()) && started == (seen != [])
        invariant daemon.mailbox == old(daemon.mailbox) || fresh(daemon.mailbox)
        invariant forall i :: 0 <= i < |seen| ==> seen[i].Some? && seen[i].value <= lastRead
        invariant forall i, j :: 0 <= i < j < |seen| ==> seen[i].value <= seen[j].value
        invariant seen != [] ==> seen[|seen| - 1] == lastRun
        invariant !last.Waiting?
      {
        last := Next();
        if !last.Snapshot? { return; }
        seen := seen + [last.run];
      }
    }
  }
}
