/**
 * The end of a native agent's output pipes, marked by any number of goroutines.
 * Each pipe's mark runs once; it takes the lock, counts the pipe off, and the
 * one that counts off the last pipe closes the channel the waiter stands at.
 */
module Pipes {

  /** How far the one run of a pipe's mark has come. */
  datatype Phase = Open | Waiting | Locked | Closing | Leaving | Done

  datatype State = State(pipes: seq<Phase>, locked: bool, remaining: int, closes: nat)

  /** What some goroutine tries next. */
  datatype Action = Mark(p: nat) | Lock(p: nat) | CountOff(p: nat) | Close(p: nat) | Unlock(p: nat)

  predicate Enabled(s: State, a: Action) {
    && a.p < |s.pipes|
    && match a
       case Mark(p) => s.pipes[p].Open?
       case Lock(p) => s.pipes[p].Waiting? && !s.locked
       case CountOff(p) => s.pipes[p].Locked?
       case Close(p) => s.pipes[p].Closing?
       case Unlock(p) => s.pipes[p].Leaving?
  }

  /** A goroutine that finds the mark taken or the lock held changes nothing. */
  function Act(s: State, a: Action): State {
    if !Enabled(s, a) then s
    else
      match a
      case Mark(p) => s.(pipes := s.pipes[p := Waiting])
      case Lock(p) => s.(pipes := s.pipes[p := Locked], locked := true)
      case CountOff(p) => s.(pipes := s.pipes[p := if s.remaining - 1 == 0 then Closing
          else Leaving], remaining := s.remaining - 1)
      case Close(p) => s.(pipes := s.pipes[p := Leaving], closes := s.closes + 1)
      case Unlock(p) => s.(pipes := s.pipes[p := Done], locked := false)
  }

  function Start(n: nat): State {
    State(seq(n, k => Open), false, n, 0)
  }

  /** From `n` open pipes, any interleaving of the goroutines. */
  function Run(n: nat, actions: seq<Action>): State {
    if actions == [] then Start(n) else Act(Run(n, actions[..|actions| - 1]), actions[|actions| - 1])
  }

  predicate Inside(ph: Phase) { ph.Locked? || ph.Closing? || ph.Leaving? }
  predicate Counted(ph: Phase) { ph.Closing? || ph.Leaving? || ph.Done? }

  function CountedOff(pipes: seq<Phase>): nat {
    if pipes == [] then 0 else CountedOff(pipes[..|pipes| - 1]) + if Counted(pipes[|pipes| - 1]) then 1 else 0
  }

  lemma {:induction false} CountedOffChanges(pipes: seq<Phase>, p: nat, ph: Phase)
    requires p < |pipes|
    ensures CountedOff(pipes[p := ph]) == CountedOff(pipes) + (if Counted(ph) then 1 else 0) - (if Counted(pipes[p])
              then 1 else 0)
    decreases |pipes|
  {
    var n := |pipes| - 1;
    if p < n {
      CountedOffChanges(pipes[..n], p, ph);
      assert pipes[p := ph][..n] == pipes[..n][p := ph];
    } else {
      assert pipes[p := ph][..n] == pipes[..n];
    }
  }

  lemma {:induction false} CountedOffAll(pipes: seq<Phase>)
    ensures CountedOff(pipes) <= |pipes|
    ensures CountedOff(pipes) == |pipes| <==> forall k :: 0 <= k < |pipes| ==> Counted(pipes[k])
    decreases |pipes|
  {
    if pipes != [] {
      var n := |pipes| - 1;
      CountedOffAll(pipes[..n]);
      assert forall k :: 0 <= k < n ==> pipes[..n][k] == pipes[k];
      if CountedOff(pipes) != |pipes| && Counted(pipes[n]) {
        var k :| 0 <= k < n && !Counted(pipes[..n][k]);
        assert !Counted(pipes[k]);
      }
    }
  }

  /** The lock has one holder; every pipe is counted off once; the channel is closed exactly after the last. */
  ghost predicate Sound(n: nat, s: State) {
    && |s.pipes| == n
    && (forall p, q :: 0 <= p < n && 0 <= q < n && Inside(s.pipes[p]) && Inside(s.pipes[q]) ==> p == q)
    && (s.locked <==> exists p :: 0 <= p < n && Inside(s.pipes[p]))
    && s.remaining == n - CountedOff(s.pipes)
    && (forall p :: 0 <= p < n && s.pipes[p].Closing? ==> s.remaining == 0 && s.closes == 0)
    && s.closes <= 1
    && (s.closes == 1 ==> s.remaining == 0)
    && (n > 0 && s.remaining == 0 && s.closes == 0 ==> exists p :: 0 <= p < n && s.pipes[p].Closing?)
  }

  lemma StartIsSound(n: nat)
    ensures Sound(n, Start(n))
  {
    CountedOffAll(Start(n).pipes);
    NoneCounted(n, n);
  }

  lemma {:induction false} NoneCounted(n: nat, k: nat)
    requires k <= n
    ensures CountedOff(Start(n).pipes[..k]) == 0
    ensures Start(n).pipes[..n] == Start(n).pipes
  {
    if k > 0 {
      NoneCounted(n, k - 1);
      assert Start(n).pipes[..k][..k - 1] == Start(n).pipes[..k - 1];
    }
  }

  lemma StepIsSound(n: nat, s: State, a: Action)
    requires Sound(n, s)
    ensures Sound(n, Act(s, a))
  {
    hide CountedOff;
    if !Enabled(s, a) { return; }
    var t := Act(s, a);
    CountedOffChanges(s.pipes, a.p, t.pipes[a.p]);
    CountedOffAll(s.pipes);
    CountedOffAll(t.pipes);
    assert forall q :: 0 <= q < n && q != a.p ==> t.pipes[q] == s.pipes[q];
    if t.pipes[a.p].Closing? || Inside(t.pipes[a.p]) { assert Inside(t.pipes[a.p]); }
    if a.Mark? || a.Lock? {
      assert !Counted(s.pipes[a.p]);
      assert t.remaining > 0;
    }
  }

  lemma {:induction false} RunsAreSound(n: nat, actions: seq<Action>)
    ensures Sound(n, Run(n, actions))
    decreases |actions|
  {
    if actions == [] {
      StartIsSound(n);
    } else {
      var init := actions[..|actions| - 1];
      RunsAreSound(n, init);
      StepIsSound(n, Run(n, init), actions[|actions| - 1]);
    }
  }

  predicate AllDone(s: State) {
    forall p :: 0 <= p < |s.pipes| ==> s.pipes[p].Done?
  }

  /** However the goroutines interleave, the channel is never closed twice, and it is closed once all marks are done. */
  lemma ClosesExactlyOnce(n: nat, actions: seq<Action>)
    requires n > 0
    ensures
      var s := Run(n, actions);
      && s.closes <= 1
      && (AllDone(s) ==> s.closes == 1)
      && (s.closes == 1 ==> forall p :: 0 <= p < |s.pipes| ==> Counted(s.pipes[p]))
  {
    RunsAreSound(n, actions);
    CountedOffAll(Run(n, actions).pipes);
  }

  /** Once every pipe's mark has been called, some goroutine can go on until all are done: nothing deadlocks. */
  lemma MarksFinish(n: nat, actions: seq<Action>)
    requires !AllDone(Run(n, actions)) && forall p :: 0 <= p < |Run(n, actions).pipes| ==>
              !Run(n, actions).pipes[p].Open?
    ensures exists a :: Enabled(Run(n, actions), a) && !a.Mark?
  {
    var s := Run(n, actions);
    RunsAreSound(n, actions);
    if s.locked {
      var p: nat :| p < n && Inside(s.pipes[p]);
      match s.pipes[p] {
        case Locked => assert Enabled(s, CountOff(p));
        case Closing => assert Enabled(s, Close(p));
        case Leaving => assert Enabled(s, Unlock(p));
      }
    } else {
      var p: nat :| p < n && !s.pipes[p].Done?;
      assert Enabled(s, Lock(p));
    }
  }
}
