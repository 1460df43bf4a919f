/** Running an agent under an account seat leased for the one invocation. */
module Lease {
  import opened Options

  /** `id` 0 and `account` 0 are empty. */
  datatype Seat = Seat(account: nat, id: nat)

  datatype Outcome = Completed | Failed | Cancelled

  datatype Error =
    | Unreachable                       // the lease command itself failed
    | Refused                           // no usable lease, by policy or by an incomplete answer
    | SeatBlocked                       // such a refusal, reported as a seat that was not to be had
    | NoHome                            // the leased account's home cannot be used
    | Agent(error: nat)
    | AccountOut                        // the leased account reported its quota exhausted
    | NotReleased(id: nat)

  /** What the lease command answers; the granted seat, whatever the answer names of it. */
  datatype Answer = CommandFails | Grants(seat: Seat)

  datatype Invocation = Invocation(
    answer: Answer,
    homeOk: bool,              // the account's environment can be set up
    agent: Option<nat>,        // the agent's error, if it fails
    quota: bool,               // that error carries a quota banner
    ctxDone: bool,             // the context is over when the agent returns
    releaseOk: bool)

  /** The authority's side: which seats were handed back, and how the invocation was said to have ended. */
  datatype Release = Release(id: nat, outcome: Outcome)

  datatype Result = Result(ran: bool, errors: seq<Error>)

  class Authority {
    var releases: seq<Release>

    constructor () ensures releases == [] { releases := []; }

    /** Handing back needs the lease's id; a seat without one cannot be named. */
    method GiveBack(id: nat, outcome: Outcome, ok: bool) returns (error: Option<Error>)
      modifies this
      ensures releases == if id == 0 then old(releases) else old(releases) + [Release(id, outcome)]
      ensures error == if id == 0 || ok then None else Some(NotReleased(id))
    {
      if id == 0 { return None; }
      releases := releases + [Release(id, outcome)];
      error := if ok then None else Some(NotReleased(id));
    }

    /** `Acquire`: an answer that names no account is refused, and its seat handed back at once if it can be named. */
    method Acquire(i: Invocation) returns (seat: Option<Seat>, errors: seq<Error>)
      modifies this
      ensures seat.Some? ==>
                i.answer == Grants(seat.value) && seat.value.id != 0 && seat.value.account != 0
                && releases == old(releases) && errors == []
      ensures seat.None? ==> errors != []
      ensures seat.None? ==>
                releases == if i.answer.Grants? && i.answer.seat.id != 0
                then old(releases) + [Release(i.answer.seat.id, Failed)] else old(releases)
      ensures seat.None? && releases != old(releases) && !i.releaseOk ==> NotReleased(i.answer.seat.id) in errors
      ensures seat.None? ==> (i.answer.CommandFails? || i.answer.seat.id == 0 || i.answer.seat.account == 0)
    {
      if i.answer.CommandFails? { return None, [Unreachable]; }
      var granted := i.answer.seat;
      if granted.account == 0 || granted.id == 0 {
        if granted.id == 0 { return None, [SeatBlocked]; }
        var error := GiveBack(granted.id, Failed, i.releaseOk);
        return None, [Refused] + if error.Some? then [error.value] else [];
      }
      return Some(granted), [];
    }

    /**
     * `quartermasterAgent.Run`: the agent runs only under a complete lease; a seat
     * that was granted and can be named is handed back exactly once, saying how
     * the run ended; a seat that stays held is always reported.
     */
    method Run(i: Invocation) returns (r: Result)
      modifies this
      ensures r.ran <==> i.answer.Grants? && i.answer.seat.account != 0 && i.answer.seat.id != 0 && i.homeOk
      ensures releases == old(releases) + HandedBack(i)
      ensures r.errors == [] <==> r.ran && i.agent.None? && i.releaseOk
      ensures HandedBack(i) != [] && !i.releaseOk ==> NotReleased(i.answer.seat.id) in r.errors
      ensures r.ran && i.agent.Some? ==>
                r.errors[0] == if i.quota && !i.ctxDone then AccountOut else Agent(i.agent.value)
    {
      var seat, errors := Acquire(i);
      if seat.None? { return Result(false, errors); }
      var id := seat.value.id;
      if !i.homeOk {
        var error := GiveBack(id, Cancelled, i.releaseOk);
        return Result(false, [NoHome] + if error.Some? then [error.value] else []);
      }
      var outcome := Completed;
      errors := [];
      if i.agent.Some? {
        errors := [Agent(i.agent.value)];
        outcome := Failed;
        if i.ctxDone {
          outcome := Cancelled;
        } else if i.quota {
          errors := [AccountOut];
        }
      }
      var error := GiveBack(id, outcome, i.releaseOk);
      if error.Some? { errors := errors + [error.value]; }
      r := Result(true, errors);
    }
  }

  /** What a granted seat is due: one release if it can be named, with the outcome the run had. */
  function HandedBack(i: Invocation): seq<Release> {
    if i.answer.CommandFails? || i.answer.seat.id == 0 then []
    else
      var outcome := if i.answer.seat.account == 0 then Failed
                     else if !i.homeOk then Cancelled
                     else if i.agent.None? then Completed
                     else if i.ctxDone then Cancelled
                     else Failed;
      [Release(i.answer.seat.id, outcome)]
  }
}
