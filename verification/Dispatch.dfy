/** Running an agent: retries within a lane, the lane's quota record, and falling back from lane to lane. */
module Dispatch {
  import opened Options

  datatype Outage = Outage(until: int, reason: nat)

  /**
   * A failed run of the tool: whether its adapter retries it, whether its text
   * carries a quota banner, whether it is a parse failure, and whether it means
   * the agent is unavailable.
   */
  datatype Failure = Failure(retry: bool, quota: Option<Outage>, parse: bool, unavailable: bool)

  datatype Error =
    | Raw(f: Failure)
    | Interrupted(deadline: bool)                          // the context ended between two tries
    | LaneOutage(lane: nat, outage: Outage)
    | AllLanesOut(outages: seq<Error>, everyLane: bool)
    | NoProvider(provider: nat)

  /** `provider` 0 is the empty name. */
  datatype Outcome = Succeeds(provider: nat) | Fails(f: Failure)
  datatype Result = Ok(provider: nat) | Err(error: Error)

  /** One reported attempt; no error on success. */
  datatype Attempt = Attempt(lane: nat, error: Option<Error>)

  predicate IsAgentUnavailable(e: Error) {
    match e
    case Raw(f) => f.unavailable
    case Interrupted(deadline) => deadline
    case LaneOutage(_, _) => true
    case AllLanesOut(_, _) => true
    case NoProvider(_) => false
  }

  function AttemptOf(lane: nat, o: Outcome): Attempt {
    Attempt(lane, if o.Fails? then Some(Raw(o.f)) else None)
  }

  function ResultOf(o: Outcome): Result {
    if o.Fails? then Err(Raw(o.f)) else Ok(o.provider)
  }

  function ErrorOf(r: Result): Option<Error> {
    if r.Err? then Some(r.error) else None
  }

  /** The tool of one lane and everything the world decides about it. */
  datatype Lane = Lane(
    name: nat,
    reports: bool,              // its adapter reports its own attempts
    providers: set<nat>,        // sessions of these providers can be resumed here
    maxRetries: nat,
    runs: nat -> Outcome,
    sleeps: nat -> Option<bool>,    // the backoff before try k is interrupted (by a deadline or not)
    down: Option<Outage>,       // the quota record when the lane is asked
    probe: bool,                // a probe may be sent all the same
    ctxDone: bool)              // the caller's context is over when the lane returns

  // ----- what happened in one lane -----

  datatype LaneRecord = LaneRecord(lane: nat, spawned: seq<Outcome>, reported: seq<Attempt>, returned: Result)

  /**
   * The last attempt is reported with the error the lane returned when that is the
   * quota verdict on it, else as it was.
   */
  predicate LastFaithful(r: LaneRecord)
    requires r.spawned != [] && |r.reported| == |r.spawned|
  {
    var last, report := r.spawned[|r.spawned| - 1], r.reported[|r.spawned| - 1];
    match r.returned
    case Ok(provider) => last == Succeeds(provider) && report == Attempt(r.lane, None)
    case Err(LaneOutage(lane, outage)) =>
      lane == r.lane && last.Fails? && last.f.quota == Some(outage) && !last.f.parse
          && report == Attempt(r.lane, Some(r.returned.error))
    case Err(Raw(f)) => last == Fails(f) && report == AttemptOf(r.lane, last)
    case Err(Interrupted(_)) => last.Fails? && last.f.retry && report == AttemptOf(r.lane, last)
    case Err(_) => false
  }

  /** Every run of the tool is reported once, in order; a lane skipped for quota is reported as such. */
  predicate Faithful(r: LaneRecord) {
    if r.spawned == [] then
      r.returned.Err? && r.returned.error.LaneOutage? && r.returned.error.lane == r.lane
          && r.reported == [Attempt(r.lane, Some(r.returned.error))]
    else
      && |r.reported| == |r.spawned|
      && (forall k :: 0 <= k < |r.spawned| - 1 ==>
           r.spawned[k].Fails? && r.spawned[k].f.retry && r.reported[k] == AttemptOf(r.lane, r.spawned[k]))
      && LastFaithful(r)
  }

  // ----- the listener and the relay -----

  class Listener {
    var log: seq<Attempt>
    constructor () ensures log == [] { log := []; }
  }

  /** Holds back the latest attempt until the next one, or the lane's verdict, arrives. */
  class AttemptRelay {
    const downstream: Listener
    var held: Option<Attempt>

    constructor (downstream: Listener)
      ensures this.downstream == downstream && held == None
    {
      this.downstream := downstream;
      held := None;
    }

    function View(): seq<Attempt>
      reads this, downstream
    {
      downstream.log + if held.Some? then [held.value] else []
    }

    method Capture(a: Attempt)
      modifies this, downstream
      ensures View() == old(View()) + [a] && held == Some(a)
    {
      Release();
      held := Some(a);
    }

    /** Replaces the error of the attempt held back; earlier ones are out already. */
    method Amend(error: Error)
      modifies this
      ensures held == (if old(held).Some? then Some(old(held).value.(error := Some(error))) else None)
    {
      if held.Some? { held := Some(held.value.(error := Some(error))); }
    }

    method Release()
      modifies this, downstream
      ensures held.None? && downstream.log == old(View())
    {
      if held.None? { return; }
      var a := held.value;
      held := None;
      downstream.log := downstream.log + [a];
    }
  }

  // ----- retries -----

  function Spawned(runs: nat -> Outcome, n: nat): seq<Outcome> {
    seq(n, k requires 0 <= k < n => runs(k))
  }

  function Reports(lane: nat, runs: nat -> Outcome, n: nat): seq<Attempt> {
    seq(n, k requires 0 <= k < n => AttemptOf(lane, runs(k)))
  }

  /** The tool ran `n` times: again only after retryable failures, and no more once it stopped for cause. */
  predicate RanTimes(lane: Lane, n: nat, result: Result) {
    && 1 <= n <= lane.maxRetries + 1
    && (forall k :: 0 <= k < n - 1 ==> lane.runs(k).Fails? && lane.runs(k).f.retry)
    && (forall k :: 1 <= k < n ==> lane.sleeps(k).None?)
    && (if lane.runs(n - 1).Succeeds? || !lane.runs(n - 1).f.retry || n == lane.maxRetries + 1
        then result == ResultOf(lane.runs(n - 1))
        else lane.sleeps(n).Some? && result == Err(Interrupted(lane.sleeps(n).value)))
  }

  /** `runWithRetry`: every try is reported. */
  method RunWithRetry(lane: Lane, relay: AttemptRelay) returns (result: Result, ghost n: nat)
    requires relay.held.None?
    modifies relay, relay.downstream
    ensures RanTimes(lane, n, result)
    ensures relay.View() == old(relay.View()) + Reports(lane.name, lane.runs, n)
    ensures relay.held == Some(AttemptOf(lane.name, lane.runs(n - 1)))
  {
    var lastErr: Option<Error> := None;
    n := 0;
    for attempt := 0 to lane.maxRetries + 1
      invariant n == attempt
      invariant relay.View() == old(relay.View()) + Reports(lane.name, lane.runs, n)
      invariant n > 0 ==> relay.held == Some(AttemptOf(lane.name, lane.runs(n - 1)))
      invariant forall k :: 0 <= k < n ==> lane.runs(k).Fails? && lane.runs(k).f.retry
      invariant forall k :: 1 <= k < n ==> lane.sleeps(k).None?
      invariant n > 0 ==> lastErr == Some(Raw(lane.runs(n - 1).f))
    {
      if attempt > 0 {
        var interrupted := lane.sleeps(attempt);
        if interrupted.Some? { return Err(Interrupted(interrupted.value)), n; }
      }
      var outcome := lane.runs(attempt);
      n := n + 1;
      relay.Capture(AttemptOf(lane.name, outcome));
      assert Reports(lane.name, lane.runs, n) == Reports(lane.name, lane.runs, attempt)
          + [AttemptOf(lane.name, outcome)];
      if outcome.Succeeds? { return Ok(outcome.provider), n; }
      if !outcome.f.retry { return Err(Raw(outcome.f)), n; }
      lastErr := Some(Raw(outcome.f));
    }
    result := Err(lastErr.value);
  }

  // ----- one lane -----

  datatype StoreCall = Mark(lane: nat, outage: Outage) | Clear(lane: nat)

  /** What the run teaches the quota record: success clears it, a quota verdict marks it, nothing else touches it. */
  function Lesson(r: LaneRecord): seq<StoreCall> {
    if r.returned.Ok? then [Clear(r.lane)]
    else if r.spawned != [] && r.returned.error.LaneOutage? then [Mark(r.lane, r.returned.error.outage)]
    else []
  }

  class QuotaStore {
    var calls: seq<StoreCall>
    constructor () ensures calls == [] { calls := []; }

    method Call(c: StoreCall)
      modifies this
      ensures calls == old(calls) + [c]
    {
      calls := calls + [c];
    }
  }

  /** The context is over when a lane returns: it was, or the backoff found it so. */
  predicate Over(lane: Lane, r: Result) {
    lane.ctxDone || (r.Err? && r.error.Interrupted?)
  }

  /** `laneHealthAgent.Run`. A lane that does not report leaves reporting to its caller. */
  method RunLane(lane: Lane, listener: Listener, store: QuotaStore) returns (result: Result, ghost record: LaneRecord)
    modifies listener, store
    ensures Faithful(record) && record.lane == lane.name && record.returned == result
    ensures record.spawned == [] <==> lane.down.Some? && !lane.probe
    ensures listener.log == if lane.reports then old(listener.log) + record.reported else old(listener.log)
    ensures !lane.reports ==> record.reported == [Attempt(lane.name, ErrorOf(result))]
    ensures store.calls == old(store.calls) + Lesson(record)
    ensures result.Err? ==> result.error.Raw? || result.error.Interrupted? || result.error.LaneOutage?
    // A run cut short by its context, or one whose answer did not parse, parks no lane.
    ensures record.spawned != [] && result.Err? && result.error.LaneOutage? ==> !lane.ctxDone
  {
    if lane.down.Some? && !lane.probe {
      var error := LaneOutage(lane.name, lane.down.value);
      if lane.reports { listener.log := listener.log + [Attempt(lane.name, Some(error))]; }
      return Err(error), LaneRecord(lane.name, [], [Attempt(lane.name, Some(error))], Err(error));
    }
    if !lane.reports {
      result := Judge(lane, ResultOf(lane.runs(0)), store);
      record := LaneRecord(lane.name, [lane.runs(0)], [Attempt(lane.name, ErrorOf(result))], result);
      return;
    }
    var relay := new AttemptRelay(listener);
    ghost var n: nat;
    ghost var before := listener.log;
    assert relay.View() == before;
    result, n := RunWithRetry(lane, relay);
    ghost var reports := Reports(lane.name, lane.runs, n);
    assert reports[n - 1] == relay.held.value;
    assert listener.log == before + reports[..n - 1] by {
      assert relay.View()[..|relay.View()| - 1] == listener.log;
    }
    result := Judge(lane, result, store);
    if result.Err? && result.error.LaneOutage? {
      relay.Amend(result.error);
      reports := reports[n - 1 := Attempt(lane.name, Some(result.error))];
    }
    relay.Release();
    assert listener.log == before + reports;
    record := LaneRecord(lane.name, Spawned(lane.runs, n), reports, result);
  }

  /**
   * The verdict on a finished run: a quota failure becomes the lane's outage, unless
   * the context was over or the answer did not parse.
   */
  method Judge(lane: Lane, raw: Result, store: QuotaStore) returns (result: Result)
    requires raw.Err? ==> raw.error.Raw? || raw.error.Interrupted?
    modifies store
    ensures result == if raw.Err? && raw.error.Raw? && !lane.ctxDone && !raw.error.f.parse && raw.error.f.quota.Some?
                      then Err(LaneOutage(lane.name, raw.error.f.quota.value)) else raw
    ensures store.calls == old(store.calls) + if result.Ok? then [Clear(lane.name)] else if result != raw
              then [Mark(lane.name, result.error.outage)] else []
  {
    if raw.Ok? {
      store.Call(Clear(lane.name));
      return raw;
    }
    if Over(lane, raw) || raw.error.f.parse { return raw; }
    if raw.error.f.quota.Some? {
      store.Call(Mark(lane.name, raw.error.f.quota.value));
      return Err(LaneOutage(lane.name, raw.error.f.quota.value));
    }
    result := raw;
  }

  // ----- lane to lane -----

  function AllReported(records: seq<LaneRecord>): seq<Attempt> {
    if records == [] then [] else AllReported(records[..|records| - 1]) + records[|records| - 1].reported
  }

  function AllLessons(records: seq<LaneRecord>): seq<StoreCall> {
    if records == [] then [] else AllLessons(records[..|records| - 1]) + Lesson(records[|records| - 1])
  }

  predicate EndedInOutage(r: LaneRecord) {
    r.returned.Err? && r.returned.error.LaneOutage?
  }

  function Outages(records: seq<LaneRecord>): seq<Error> {
    if records == [] then []
    else Outages(records[..|records| - 1]) + if EndedInOutage(records[|records| - 1])
        then [records[|records| - 1].returned.error] else []
  }

  lemma {:induction false} OutagesCount(records: seq<LaneRecord>)
    ensures |Outages(records)| <= |records|
    ensures |Outages(records)| == |records| <==> forall k :: 0 <= k < |records| ==> EndedInOutage(records[k])
  {
    if records != [] {
      var n := |records| - 1;
      OutagesCount(records[..n]);
      assert forall k :: 0 <= k < n ==> records[..n][k] == records[k];
      if forall k :: 0 <= k < n ==> EndedInOutage(records[..n][k]) {
      } else {
        var k :| 0 <= k < n && !EndedInOutage(records[..n][k]);
        assert !EndedInOutage(records[k]);
      }
    }
  }

  /**
   * The next lane is tried exactly after a quota outage, or a failure that means the
   * agent is unavailable, under a context that is not over.
   */
  predicate MovesOn(lane: Lane, r: LaneRecord) {
    && r.returned.Err? && !lane.ctxDone
    && match r.returned.error { case LaneOutage(_, _) => true case Raw(f) => f.unavailable case _ => false }
  }

  /** The lanes a call may use: all, or the first that can resume the session. */
  function Candidates(agents: seq<Lane>, session: Option<nat>): seq<Lane> {
    if session.None? then agents else FirstSupporting(agents, session.value)
  }

  predicate FirstOf(agents: seq<Lane>, provider: nat, k: nat) {
    && k < |agents| && provider in agents[k].providers
    && forall j :: 0 <= j < k ==> provider !in agents[j].providers
  }

  function FirstSupporting(agents: seq<Lane>, provider: nat): (r: seq<Lane>)
    ensures |r| <= 1
    ensures r == [] <==> forall k :: 0 <= k < |agents| ==> provider !in agents[k].providers
    ensures r != [] ==> exists k :: 0 <= k < |agents| && FirstOf(agents, provider, k) && r == [agents[k]]
  {
    if agents == [] then []
    else if provider in agents[0].providers then
      assert FirstOf(agents, provider, 0);
      [agents[0]]
    else
      var r := FirstSupporting(agents[1..], provider);
      assert r != [] ==> exists k :: 0 <= k < |agents| && FirstOf(agents, provider, k) && r == [agents[k]] by {
        if r != [] {
          var k :| 0 <= k < |agents[1..]| && FirstOf(agents[1..], provider, k) && r == [agents[1..][k]];
          assert FirstOf(agents, provider, k + 1) by { FirstMoves(agents, provider, k); }
        }
      }
      r
  }

  lemma FirstMoves(agents: seq<Lane>, provider: nat, k: nat)
    requires agents != [] && provider !in agents[0].providers && FirstOf(agents[1..], provider, k)
    ensures FirstOf(agents, provider, k + 1)
  {
    forall j | 0 <= j < k + 1 ensures provider !in agents[j].providers {
      if j > 0 { assert agents[j] == agents[1..][j - 1]; }
    }
  }

  /** What the caller is told after the last lane tried. */
  predicate Answers(candidates: seq<Lane>, everyLane: bool, records: seq<LaneRecord>, result: Result)
    requires records != []
  {
    var last := records[|records| - 1].returned;
    if last.Ok? then result == Ok(if last.provider == 0 then records[|records| - 1].lane else last.provider)
    else if |records| == |candidates| && forall k :: 0 <= k < |records| ==> EndedInOutage(records[k]) then
      result == Err(AllLanesOut(Outages(records), everyLane))
    else result == last
  }

  /** The lanes tried are the first candidates in order, each left only for cause. */
  ghost predicate Tried(candidates: seq<Lane>, records: seq<LaneRecord>) {
    && |records| <= |candidates|
    && (forall k :: 0 <= k < |records| ==> Faithful(records[k]) && records[k].lane == candidates[k].name)
    && (forall k :: 0 <= k < |records| - 1 ==> MovesOn(candidates[k], records[k]))
  }

  /**
   * `fallbackAgent.Run`: the caller sees exactly the attempts made, in order, and
   * the answer the last lane calls for.
   */
  method RunFallback(agents: seq<Lane>, session: Option<nat>, listener: Listener, store: QuotaStore)
      returns (result: Result, ghost records: seq<LaneRecord>)
    requires |agents| >= 2
    modifies listener, store
    ensures Tried(Candidates(agents, session), records)
    ensures listener.log == old(listener.log) + AllReported(records)
    ensures store.calls == old(store.calls) + AllLessons(records)
    ensures records == [] <==> Candidates(agents, session) == []
    ensures records == [] ==> session.Some? && result == Err(NoProvider(session.value))
    ensures records != [] ==>
              Answers(Candidates(agents, session), |Candidates(agents, session)| == |agents|, records, result)
    // It stops early only with success, or when the last lane gave no reason to go on.
    ensures records != [] && |records| < |Candidates(agents, session)| ==>
              !MovesOn(Candidates(agents, session)[|records| - 1], records[|records| - 1])
    // The all-lanes error is returned exactly when every candidate ended in a quota outage.
    ensures result.Err? && result.error.AllLanesOut? <==>
              records != [] && |records| == |Candidates(agents, session)| && forall k :: 0 <= k < |records| ==>
                  EndedInOutage(records[k])
  {
    hide Faithful, Lesson, FirstSupporting, Tried, AllReported, AllLessons, Outages;
    NoRecords(Candidates(agents, session));
    var candidates := Candidates(agents, session);
    records := [];
    if |candidates| == 0 { return Err(NoProvider(session.value)), records; }
    var outages: seq<Error> := [];
    for i := 0 to |candidates|
      invariant |records| == i && Tried(candidates, records)
      invariant i > 0 ==> MovesOn(candidates[i - 1], records[i - 1])
      invariant listener.log == old(listener.log) + AllReported(records)
      invariant store.calls == old(store.calls) + AllLessons(records)
      invariant outages == Outages(records)
      invariant i < |candidates|
    {
      var lane := candidates[i];
      ghost var record: LaneRecord;
      result, record := TryLane(lane, listener, store);
      RecordsGrow(candidates, records, record);
      records := records + [record];
      if result.Ok? {
        if result.provider == 0 { result := Ok(lane.name); }
        return;
      }
      if result.error.LaneOutage? { outages := outages + [result.error]; }
      OutagesCount(records);
      if i == |candidates| - 1 {
        if |outages| == |candidates| {
          return Err(AllLanesOut(outages, |candidates| == |agents|)), records;
        }
        return;
      }
      if Over(lane, result) { return; }
      if !IsAgentUnavailable(result.error) { return; }
    }
  }

  /** One lane's run, reported by the caller where the lane does not report itself. */
  method TryLane(lane: Lane, listener: Listener, store: QuotaStore) returns (result: Result, ghost record: LaneRecord)
    modifies listener, store
    ensures Faithful(record) && record.lane == lane.name && record.returned == result
    ensures listener.log == old(listener.log) + record.reported
    ensures store.calls == old(store.calls) + Lesson(record)
    ensures result.Err? ==> result.error.Raw? || result.error.Interrupted? || result.error.LaneOutage?
  {
    hide Faithful, Lesson;
    result, record := RunLane(lane, listener, store);
    if !lane.reports { listener.log := listener.log + [Attempt(lane.name, ErrorOf(result))]; }
  }

  lemma NoRecords(candidates: seq<Lane>)
    ensures Tried(candidates, []) && AllReported([]) == [] && AllLessons([]) == [] && Outages([]) == []
  {
  }

  lemma RecordsGrow(candidates: seq<Lane>, records: seq<LaneRecord>, record: LaneRecord)
    requires |records| < |candidates| && Tried(candidates, records) && Faithful(record)
              && record.lane == candidates[|records|].name
    requires records != [] ==> MovesOn(candidates[|records| - 1], records[|records| - 1])
    ensures Tried(candidates, records + [record])
    ensures AllReported(records + [record]) == AllReported(records) + record.reported
    ensures AllLessons(records + [record]) == AllLessons(records) + Lesson(record)
    ensures Outages(records + [record]) == Outages(records) + if EndedInOutage(record) then [record.returned.error]
              else []
  {
    hide Faithful, Lesson, MovesOn;
    var after := records + [record];
    assert after[..|records|] == records;
  }
}
