/**
 * Per-client admission of remote calls: eight run, thirty-two wait in order,
 * and past that the oldest waiter gives way to the newest.
 */
module AdmissionLanes {
  const IN_FLIGHT := 8
  const QUEUED := 32

  datatype Native = Unstarted | Unsettled | Settled

  datatype Why = Overflow | Disconnected | ShutDown

  /** A call holds its slot until it has answered and its native call, if any, has settled. */
  datatype Phase = Waiting | Holding(native: Native, answered: bool) | Released | Dropped(why: Why)

  datatype Call = Call(client: nat, mutates: bool, phase: Phase)

  /** Waiters are named by their call's number in arrival order. */
  datatype Lane = Lane(running: nat, waiting: seq<nat>)

  /** `calls` and `started` are history: every accepted call, and slots in the order they were given. */
  datatype State = State(closed: bool, gone: set<nat>, lanes: map<nat, Lane>, calls: seq<Call>, started: seq<nat>)

  const Fresh := State(false, {}, map[], [], [])

  const Idle := Lane(0, [])

  const Granted := Holding(Unstarted, false)

  function LaneOf(lanes: map<nat, Lane>, client: nat): Lane {
    if client in lanes then lanes[client] else Idle
  }

  // ----- Steps -----

  predicate Known(waiting: seq<nat>, n: nat) {
    forall i :: 0 <= i < |waiting| ==> waiting[i] < n
  }

  function SetPhase(calls: seq<Call>, ticket: nat, phase: Phase): seq<Call>
    requires ticket < |calls|
  {
    calls[ticket := calls[ticket].(phase := phase)]
  }

  /** A new call of a client with its lane full: it is refused if the client is gone, and may push out the oldest waiter. */
  function Queue(s: State, client: nat, mutates: bool): State
    requires client in s.lanes && Known(s.lanes[client].waiting, |s.calls|)
  {
    var lane, ticket := s.lanes[client], |s.calls|;
    if client in s.gone then s.(calls := s.calls + [Call(client, mutates, Dropped(Disconnected))])
    else if |lane.waiting| + 1 > QUEUED then
      s.(lanes := s.lanes[client := lane.(waiting := lane.waiting[1..] + [ticket])],
         calls := SetPhase(s.calls, lane.waiting[0], Dropped(Overflow)) + [Call(client, mutates, Waiting)])
    else
      s.(lanes := s.lanes[client := lane.(waiting := lane.waiting + [ticket])],
         calls := s.calls + [Call(client, mutates, Waiting)])
  }

  function Acquire(s: State, client: nat, mutates: bool): State
    requires Known(LaneOf(s.lanes, client).waiting, |s.calls|)
  {
    var lane := LaneOf(s.lanes, client);
    if s.closed then s
    else if lane.running < IN_FLIGHT then
      s.(lanes := s.lanes[client := lane.(running := lane.running + 1)],
         calls := s.calls + [Call(client, mutates, Granted)], started := s.started + [|s.calls|])
    else Queue(s.(lanes := s.lanes[client := lane]), client, mutates)
  }

  /** The slot of `ticket` passes to the oldest waiter, or frees. */
  function Release(s: State, ticket: nat): State
    requires ticket < |s.calls| && s.calls[ticket].client in s.lanes && s.lanes[s.calls[ticket].client].running > 0
    requires Known(s.lanes[s.calls[ticket].client].waiting, |s.calls|)
  {
    var client := s.calls[ticket].client;
    var lane := s.lanes[client];
    var calls := SetPhase(s.calls, ticket, Released);
    if lane.waiting != [] then
      s.(lanes := s.lanes[client := lane.(waiting := lane.waiting[1..])],
         calls := SetPhase(calls, lane.waiting[0], Granted), started := s.started + [lane.waiting[0]])
    else if lane.running == 1 then s.(lanes := s.lanes - {client}, calls := calls)
    else s.(lanes := s.lanes[client := lane.(running := lane.running - 1)], calls := calls)
  }

  function Abandoned(calls: seq<Call>, client: nat, why: Why): seq<Call> {
    seq(|calls|, i requires 0 <= i < |calls| =>
      if calls[i].client == client && calls[i].phase.Waiting? then calls[i].(phase := Dropped(why)) else calls[i])
  }

  /** A client's signal aborts: each of its waiters is abandoned. Shutdown does the same for one client after another. */
  function Leave(s: State, client: nat): State {
    s.(gone := s.gone + {client}, calls := Abandoned(s.calls, client, if s.closed then ShutDown else Disconnected),
       lanes := if client in s.lanes then s.lanes[client := s.lanes[client].(waiting := [])] else s.lanes)
  }

  datatype Action =
    | DoAcquire(client: nat, mutates: bool)
    | NativeStarts(ticket: nat)
    | NativeSettles(ticket: nat)
    | Answer(ticket: nat)
    | DoRelease(ticket: nat)
    | DoLeave(client: nat)
    | DoClose

  predicate Holds(s: State, ticket: nat) {
    ticket < |s.calls| && s.calls[ticket].phase.Holding?
  }

  /** A mutation answers only once its native call settled; a read may answer at its timeout. */
  predicate Enabled(s: State, a: Action) {
    match a
    case NativeStarts(t) => Holds(s, t) && s.calls[t].phase == Granted
    case NativeSettles(t) => Holds(s, t) && s.calls[t].phase.native.Unsettled?
    case Answer(t) => Holds(s, t) && !s.calls[t].phase.answered && (s.calls[t].mutates ==> !s.calls[t].phase.native.Unsettled?)
    case DoRelease(t) => Holds(s, t) && s.calls[t].phase.answered && !s.calls[t].phase.native.Unsettled?
    case _ => true
  }

  function Step(s: State, a: Action): State
    requires Inv(s) && Enabled(s, a)
  {
    match a
    case DoAcquire(client, mutates) => assert LaneFits(s.calls, client, LaneOf(s.lanes, client)); Acquire(s, client, mutates)
    case NativeStarts(t) => s.(calls := SetPhase(s.calls, t, Holding(Unsettled, false)))
    case NativeSettles(t) => s.(calls := SetPhase(s.calls, t, Holding(Settled, s.calls[t].phase.answered)))
    case Answer(t) => s.(calls := SetPhase(s.calls, t, Holding(s.calls[t].phase.native, true)))
    case DoRelease(t) => HolderInLane(s, t); Release(s, t)
    case DoLeave(client) => Leave(s, client)
    case DoClose => s.(closed := true)
  }

  // ----- What every reachable state satisfies -----

  ghost function Holders(calls: seq<Call>, client: nat): set<nat> {
    set t: nat | t < |calls| && calls[t].client == client && calls[t].phase.Holding?
  }

  predicate WaitsFor(calls: seq<Call>, client: nat, t: nat) {
    t < |calls| && calls[t].client == client && calls[t].phase.Waiting?
  }

  ghost predicate Ascending(waiting: seq<nat>) {
    forall i, j :: 0 <= i < j < |waiting| ==> waiting[i] < waiting[j]
  }

  /** A lane counts its client's slots and lists its client's waiters in arrival order. */
  ghost predicate LaneTrue(calls: seq<Call>, client: nat, lane: Lane) {
    && lane.running == |Holders(calls, client)| <= IN_FLIGHT && |lane.waiting| <= QUEUED
    && Ascending(lane.waiting) && Known(lane.waiting, |calls|)
    && forall t: nat :: t in lane.waiting <==> WaitsFor(calls, client, t)
  }

  /** Nobody waits while a slot is free. */
  ghost predicate LaneFits(calls: seq<Call>, client: nat, lane: Lane) {
    LaneTrue(calls, client, lane) && (lane.waiting != [] ==> lane.running == IN_FLIGHT)
  }

  ghost predicate AllLanesFit(lanes: map<nat, Lane>, calls: seq<Call>) {
    && (forall client :: LaneFits(calls, client, LaneOf(lanes, client)))
    && (forall client :: client in lanes ==> lanes[client].running > 0)
  }

  /** Slots of one client were given in arrival order, and before everyone who still waits. */
  ghost predicate InOrder(started: seq<nat>, calls: seq<Call>) {
    && Known(started, |calls|)
    && (forall t: nat :: t in started <==> t < |calls| && (calls[t].phase.Holding? || calls[t].phase.Released?))
    && (forall i, j :: 0 <= i < j < |started| && calls[started[i]].client == calls[started[j]].client ==> started[i] < started[j])
    && (forall t: nat, u: nat :: t in started && WaitsFor(calls, calls[t].client, u) ==> t < u)
  }

  ghost predicate Inv(s: State) {
    AllLanesFit(s.lanes, s.calls) && InOrder(s.started, s.calls)
  }

  lemma HolderInLane(s: State, t: nat)
    requires AllLanesFit(s.lanes, s.calls) && Holds(s, t)
    ensures s.calls[t].client in s.lanes && s.lanes[s.calls[t].client].running > 0
    ensures Known(s.lanes[s.calls[t].client].waiting, |s.calls|)
  {
    var c := s.calls[t].client;
    assert LaneFits(s.calls, c, LaneOf(s.lanes, c));
    assert t in Holders(s.calls, c);
  }

  // ----- Frames -----

  ghost predicate SameFor(calls: seq<Call>, calls': seq<Call>, client: nat) {
    && |calls| <= |calls'| && Holders(calls, client) == Holders(calls', client)
    && forall t: nat :: WaitsFor(calls, client, t) <==> WaitsFor(calls', client, t)
  }

  lemma LaneSame(calls: seq<Call>, calls': seq<Call>, client: nat, lane: Lane)
    requires LaneFits(calls, client, lane) && SameFor(calls, calls', client)
    ensures LaneFits(calls', client, lane)
  {
    hide Holders, WaitsFor, Ascending;
  }

  /** A step that touches one client's calls and lane keeps every other lane. */
  lemma OtherLanes(lanes: map<nat, Lane>, calls: seq<Call>, lanes': map<nat, Lane>, calls': seq<Call>, client: nat)
    requires AllLanesFit(lanes, calls) && lanes - {client} == lanes' - {client}
    requires forall d: nat :: d != client ==> SameFor(calls, calls', d)
    requires LaneFits(calls', client, LaneOf(lanes', client)) && (client in lanes' ==> lanes'[client].running > 0)
    ensures AllLanesFit(lanes', calls')
  {
    hide SameFor, LaneFits;
    forall d: nat
      ensures LaneFits(calls', d, LaneOf(lanes', d))
      ensures d in lanes' ==> lanes'[d].running > 0
    {
      if d != client {
        OtherLane(lanes, lanes', client, d);
        LaneSame(calls, calls', d, LaneOf(lanes, d));
      }
    }
  }

  lemma OtherLane(lanes: map<nat, Lane>, lanes': map<nat, Lane>, client: nat, d: nat)
    requires lanes - {client} == lanes' - {client} && d != client
    ensures LaneOf(lanes', d) == LaneOf(lanes, d) && (d in lanes <==> d in lanes')
  {
    assert d in lanes <==> d in lanes - {client};
    assert d in lanes' <==> d in lanes' - {client};
    if d in lanes { assert (lanes - {client})[d] == (lanes' - {client})[d]; }
  }

  /** Setting one call's phase, or adding a call, leaves other clients alone. */
  lemma SetSame(calls: seq<Call>, ticket: nat, phase: Phase, d: nat)
    requires ticket < |calls| && (calls[ticket].client != d || (calls[ticket].phase.Holding? && phase.Holding?))
    ensures SameFor(calls, SetPhase(calls, ticket, phase), d)
  {
  }

  lemma AddSame(calls: seq<Call>, call: Call, d: nat)
    requires call.client != d || call.phase.Dropped?
    ensures SameFor(calls, calls + [call], d)
  {
  }

  lemma SameTwice(a: seq<Call>, b: seq<Call>, c: seq<Call>, d: nat)
    requires SameFor(a, b, d) && SameFor(b, c, d)
    ensures SameFor(a, c, d)
  {
  }

  // ----- What a slot's or waiter's move does to its own client -----

  lemma HolderJoins(calls: seq<Call>, call: Call)
    ensures Holders(calls + [call], call.client) == Holders(calls, call.client) + if call.phase.Holding? then {|calls|} else {}
    ensures forall t: nat :: WaitsFor(calls + [call], call.client, t) <==>
              WaitsFor(calls, call.client, t) || (t == |calls| && call.phase.Waiting?)
  {
  }

  lemma PhaseMoves(calls: seq<Call>, ticket: nat, phase: Phase)
    requires ticket < |calls|
    ensures Holders(SetPhase(calls, ticket, phase), calls[ticket].client)
            == if phase.Holding? then Holders(calls, calls[ticket].client) + {ticket} else Holders(calls, calls[ticket].client) - {ticket}
    ensures forall t: nat :: WaitsFor(SetPhase(calls, ticket, phase), calls[ticket].client, t) <==>
              if t == ticket then phase.Waiting? else WaitsFor(calls, calls[ticket].client, t)
  {
  }

  lemma GrantFits(calls: seq<Call>, client: nat, mutates: bool, lane: Lane)
    requires LaneFits(calls, client, lane) && lane.running < IN_FLIGHT
    ensures LaneFits(calls + [Call(client, mutates, Granted)], client, lane.(running := lane.running + 1))
  {
    HolderJoins(calls, Call(client, mutates, Granted));
    hide WaitsFor;
    assert |calls| !in Holders(calls, client);
    hide Holders;
  }

  lemma WaitFits(calls: seq<Call>, client: nat, mutates: bool, lane: Lane)
    requires LaneFits(calls, client, lane) && lane.running == IN_FLIGHT && |lane.waiting| < QUEUED
    ensures LaneFits(calls + [Call(client, mutates, Waiting)], client, lane.(waiting := lane.waiting + [|calls|]))
  {
    HolderJoins(calls, Call(client, mutates, Waiting));
    hide WaitsFor, Holders;
    AscendingAdds(lane.waiting, |calls|);
    hide Ascending;
    forall t: nat
      ensures t in lane.waiting + [|calls|] <==> WaitsFor(calls + [Call(client, mutates, Waiting)], client, t)
    {
      assert t in lane.waiting <==> WaitsFor(calls, client, t);
    }
  }

  lemma AscendingAdds(waiting: seq<nat>, n: nat)
    requires Ascending(waiting) && Known(waiting, n)
    ensures Ascending(waiting + [n]) && Known(waiting + [n], n + 1)
  {
  }

  lemma OthersStay(waiting: seq<nat>)
    requires waiting != [] && Ascending(waiting)
    ensures Ascending(waiting[1..]) && forall t: nat :: t in waiting[1..] <==> t in waiting && t != waiting[0]
  {
    assert waiting == [waiting[0]] + waiting[1..];
  }

  /** The oldest waiter leaves, for a slot or for good. */
  lemma FirstLeaves(calls: seq<Call>, client: nat, lane: Lane, phase: Phase)
    requires LaneTrue(calls, client, lane) && lane.waiting != [] && !phase.Waiting?
    requires phase.Holding? ==> lane.running < IN_FLIGHT
    ensures lane.waiting[0] < |calls|
    ensures var calls' := SetPhase(calls, lane.waiting[0], phase);
            var running := if phase.Holding? then lane.running + 1 else lane.running;
            LaneTrue(calls', client, Lane(running, lane.waiting[1..]))
  {
    assert lane.waiting[0] in lane.waiting;
    PhaseMoves(calls, lane.waiting[0], phase);
    OthersStay(lane.waiting);
  }

  /** A slot is given up. */
  lemma SlotLeaves(calls: seq<Call>, client: nat, lane: Lane, ticket: nat)
    requires LaneTrue(calls, client, lane) && ticket in Holders(calls, client)
    ensures LaneTrue(SetPhase(calls, ticket, Released), client, lane.(running := lane.running - 1))
  {
    PhaseMoves(calls, ticket, Released);
    hide Holders, WaitsFor;
    assert |Holders(calls, client) - {ticket}| == |Holders(calls, client)| - 1;
    hide SetPhase;
    forall t: nat
      ensures t in lane.waiting <==> WaitsFor(SetPhase(calls, ticket, Released), client, t)
    {
      assert t in lane.waiting <==> WaitsFor(calls, client, t);
    }
  }

  // ----- Every step keeps the lanes -----

  lemma GrantLanes(s: State, client: nat, mutates: bool)
    requires AllLanesFit(s.lanes, s.calls) && LaneOf(s.lanes, client).running < IN_FLIGHT
    ensures var lane := LaneOf(s.lanes, client);
            AllLanesFit(s.lanes[client := lane.(running := lane.running + 1)], s.calls + [Call(client, mutates, Granted)])
  {
    var lane, call := LaneOf(s.lanes, client), Call(client, mutates, Granted);
    var lanes := s.lanes[client := lane.(running := lane.running + 1)];
    assert LaneFits(s.calls, client, lane);
    GrantFits(s.calls, client, mutates, lane);
    hide LaneFits, SameFor, AllLanesFit;
    forall d: nat | d != client
      ensures SameFor(s.calls, s.calls + [call], d)
    {
      AddSame(s.calls, call, d);
    }
    assert lanes - {client} == s.lanes - {client};
    OtherLanes(s.lanes, s.calls, lanes, s.calls + [call], client);
  }

  lemma RefusedLanes(s: State, client: nat, mutates: bool)
    requires AllLanesFit(s.lanes, s.calls)
    ensures AllLanesFit(s.lanes, s.calls + [Call(client, mutates, Dropped(Disconnected))])
  {
    hide LaneFits, SameFor;
    forall d: nat
      ensures LaneFits(s.calls + [Call(client, mutates, Dropped(Disconnected))], d, LaneOf(s.lanes, d))
    {
      AddSame(s.calls, Call(client, mutates, Dropped(Disconnected)), d);
      LaneSame(s.calls, s.calls + [Call(client, mutates, Dropped(Disconnected))], d, LaneOf(s.lanes, d));
    }
  }

  lemma WaitLanes(s: State, client: nat, mutates: bool)
    requires AllLanesFit(s.lanes, s.calls) && client in s.lanes
    requires s.lanes[client].running == IN_FLIGHT && |s.lanes[client].waiting| < QUEUED
    ensures var lane := s.lanes[client];
            AllLanesFit(s.lanes[client := lane.(waiting := lane.waiting + [|s.calls|])], s.calls + [Call(client, mutates, Waiting)])
  {
    var lane, call := s.lanes[client], Call(client, mutates, Waiting);
    var lanes := s.lanes[client := lane.(waiting := lane.waiting + [|s.calls|])];
    assert LaneFits(s.calls, client, LaneOf(s.lanes, client));
    WaitFits(s.calls, client, mutates, lane);
    hide LaneFits, SameFor, AllLanesFit;
    forall d: nat | d != client
      ensures SameFor(s.calls, s.calls + [call], d)
    {
      AddSame(s.calls, call, d);
    }
    assert lanes - {client} == s.lanes - {client};
    OtherLanes(s.lanes, s.calls, lanes, s.calls + [call], client);
  }

  /** The oldest of a full lane gives way. */
  lemma EvictLanes(s: State, client: nat)
    requires AllLanesFit(s.lanes, s.calls) && client in s.lanes && s.lanes[client].waiting != []
    ensures var lane := s.lanes[client];
            && lane.waiting[0] < |s.calls|
            && AllLanesFit(s.lanes[client := lane.(waiting := lane.waiting[1..])], SetPhase(s.calls, lane.waiting[0], Dropped(Overflow)))
  {
    var lane := s.lanes[client];
    assert LaneFits(s.calls, client, LaneOf(s.lanes, client));
    assert lane.waiting[0] in lane.waiting;
    FirstLeaves(s.calls, client, lane, Dropped(Overflow));
    var lanes, calls := s.lanes[client := lane.(waiting := lane.waiting[1..])], SetPhase(s.calls, lane.waiting[0], Dropped(Overflow));
    assert s.calls[lane.waiting[0]].client == client;
    hide LaneTrue, SameFor, AllLanesFit, SetPhase;
    forall d: nat | d != client
      ensures SameFor(s.calls, calls, d)
    {
      SetSame(s.calls, lane.waiting[0], Dropped(Overflow), d);
    }
    assert lanes - {client} == s.lanes - {client};
    assert lanes[client].running > 0 by { assert s.lanes[client].running == IN_FLIGHT; }
    OtherLanes(s.lanes, s.calls, lanes, calls, client);
  }

  lemma AcquireLanes(s: State, client: nat, mutates: bool)
    requires AllLanesFit(s.lanes, s.calls)
    ensures Known(LaneOf(s.lanes, client).waiting, |s.calls|)
    ensures AllLanesFit(Acquire(s, client, mutates).lanes, Acquire(s, client, mutates).calls)
  {
    var lane := LaneOf(s.lanes, client);
    assert LaneFits(s.calls, client, lane);
    hide AllLanesFit, LaneTrue;
    if s.closed { return; }
    if lane.running < IN_FLIGHT { GrantLanes(s, client, mutates); return; }
    assert client in s.lanes && s.lanes[client := lane] == s.lanes && lane.running == IN_FLIGHT by { CountBound(s.calls, client, lane); }
    if client in s.gone { RefusedLanes(s, client, mutates); return; }
    if |lane.waiting| + 1 <= QUEUED { WaitLanes(s, client, mutates); return; }
    EvictLanes(s, client);
    var rest := lane.(waiting := lane.waiting[1..]);
    var t := s.(lanes := s.lanes[client := rest], calls := SetPhase(s.calls, lane.waiting[0], Dropped(Overflow)));
    CountBound(s.calls, client, lane);
    WaitLanes(t, client, mutates);
    assert t.lanes[client := rest.(waiting := rest.waiting + [|t.calls|])]
        == s.lanes[client := lane.(waiting := lane.waiting[1..] + [|s.calls|])];
  }

  lemma CountBound(calls: seq<Call>, client: nat, lane: Lane)
    requires LaneFits(calls, client, lane)
    ensures lane.running <= IN_FLIGHT && |lane.waiting| <= QUEUED
  {
  }

  lemma ReleaseOwn(s: State, ticket: nat)
    requires AllLanesFit(s.lanes, s.calls) && Holds(s, ticket)
    requires s.calls[ticket].client in s.lanes && s.lanes[s.calls[ticket].client].running > 0
    requires Known(s.lanes[s.calls[ticket].client].waiting, |s.calls|)
    ensures var client, t := s.calls[ticket].client, Release(s, ticket);
            LaneFits(t.calls, client, LaneOf(t.lanes, client)) && (client in t.lanes ==> t.lanes[client].running > 0)
  {
    var client := s.calls[ticket].client;
    var lane := s.lanes[client];
    assert LaneFits(s.calls, client, LaneOf(s.lanes, client));
    assert ticket in Holders(s.calls, client);
    SlotLeaves(s.calls, client, lane, ticket);
    hide LaneTrue;
    if lane.waiting != [] {
      FirstLeaves(SetPhase(s.calls, ticket, Released), client, lane.(running := lane.running - 1), Granted);
    }
  }

  lemma ReleaseSame(s: State, ticket: nat, d: nat)
    requires AllLanesFit(s.lanes, s.calls) && Holds(s, ticket) && d != s.calls[ticket].client
    requires s.calls[ticket].client in s.lanes && s.lanes[s.calls[ticket].client].running > 0
    requires Known(s.lanes[s.calls[ticket].client].waiting, |s.calls|)
    ensures SameFor(s.calls, Release(s, ticket).calls, d)
  {
    var client := s.calls[ticket].client;
    var lane := s.lanes[client];
    assert LaneFits(s.calls, client, LaneOf(s.lanes, client));
    var calls := SetPhase(s.calls, ticket, Released);
    SetSame(s.calls, ticket, Released, d);
    if lane.waiting != [] {
      assert lane.waiting[0] in lane.waiting;
      SetSame(calls, lane.waiting[0], Granted, d);
      SameTwice(s.calls, calls, SetPhase(calls, lane.waiting[0], Granted), d);
    }
  }

  lemma ReleaseLanes(s: State, ticket: nat)
    requires AllLanesFit(s.lanes, s.calls) && Holds(s, ticket)
    ensures s.calls[ticket].client in s.lanes && s.lanes[s.calls[ticket].client].running > 0
    ensures Known(s.lanes[s.calls[ticket].client].waiting, |s.calls|)
    ensures AllLanesFit(Release(s, ticket).lanes, Release(s, ticket).calls)
  {
    HolderInLane(s, ticket);
    var client, t := s.calls[ticket].client, Release(s, ticket);
    ReleaseOwn(s, ticket);
    assert t.lanes - {client} == s.lanes - {client};
    hide AllLanesFit, LaneFits, SameFor, Release;
    forall d: nat | d != client
      ensures SameFor(s.calls, t.calls, d)
    {
      ReleaseSame(s, ticket, d);
    }
    OtherLanes(s.lanes, s.calls, t.lanes, t.calls, client);
  }

  lemma LeaveOwn(calls: seq<Call>, client: nat, lane: Lane, why: Why)
    requires LaneFits(calls, client, lane)
    ensures LaneFits(Abandoned(calls, client, why), client, lane.(waiting := []))
    ensures forall d: nat :: d != client ==> SameFor(calls, Abandoned(calls, client, why), d)
  {
    assert Holders(Abandoned(calls, client, why), client) == Holders(calls, client);
    forall d: nat | d != client
      ensures SameFor(calls, Abandoned(calls, client, why), d)
    {
      assert Holders(Abandoned(calls, client, why), d) == Holders(calls, d);
    }
  }

  lemma LeaveLanes(s: State, client: nat)
    requires AllLanesFit(s.lanes, s.calls)
    ensures AllLanesFit(Leave(s, client).lanes, Leave(s, client).calls)
  {
    var t := Leave(s, client);
    assert LaneFits(s.calls, client, LaneOf(s.lanes, client));
    LeaveOwn(s.calls, client, LaneOf(s.lanes, client), if s.closed then ShutDown else Disconnected);
    assert t.lanes - {client} == s.lanes - {client};
    assert client in s.lanes ==> s.lanes[client].running > 0;
    hide AllLanesFit, LaneFits, SameFor;
    assert LaneOf(t.lanes, client) == LaneOf(s.lanes, client).(waiting := []);
    OtherLanes(s.lanes, s.calls, t.lanes, t.calls, client);
  }

  /** A holder's own progress changes no lane. */
  lemma PhaseLanes(s: State, ticket: nat, phase: Phase)
    requires AllLanesFit(s.lanes, s.calls) && Holds(s, ticket) && phase.Holding?
    ensures AllLanesFit(s.lanes, SetPhase(s.calls, ticket, phase))
  {
    hide LaneFits, SameFor, SetPhase;
    forall d: nat
      ensures LaneFits(SetPhase(s.calls, ticket, phase), d, LaneOf(s.lanes, d))
    {
      SetSame(s.calls, ticket, phase, d);
      LaneSame(s.calls, SetPhase(s.calls, ticket, phase), d, LaneOf(s.lanes, d));
    }
  }

  // ----- Every step keeps the order -----

  lemma HolderOrder(started: seq<nat>, calls: seq<Call>, ticket: nat, phase: Phase)
    requires InOrder(started, calls) && ticket < |calls| && calls[ticket].phase.Holding? && (phase.Holding? || phase.Released?)
    ensures InOrder(started, SetPhase(calls, ticket, phase))
  {
    var calls' := SetPhase(calls, ticket, phase);
    assert forall t: nat, c: nat :: WaitsFor(calls', c, t) <==> WaitsFor(calls, c, t);
  }

  lemma DropOrder(started: seq<nat>, calls: seq<Call>, ticket: nat, why: Why)
    requires InOrder(started, calls) && ticket < |calls| && calls[ticket].phase.Waiting?
    ensures InOrder(started, SetPhase(calls, ticket, Dropped(why)))
  {
    var calls' := SetPhase(calls, ticket, Dropped(why));
    assert forall t: nat, c: nat :: WaitsFor(calls', c, t) ==> WaitsFor(calls, c, t);
  }

  lemma LeaveOrder(started: seq<nat>, calls: seq<Call>, client: nat, why: Why)
    requires InOrder(started, calls)
    ensures InOrder(started, Abandoned(calls, client, why))
  {
    var calls' := Abandoned(calls, client, why);
    assert forall t: nat, c: nat :: WaitsFor(calls', c, t) ==> WaitsFor(calls, c, t);
  }

  lemma LateOrder(started: seq<nat>, calls: seq<Call>, call: Call)
    requires InOrder(started, calls) && (call.phase.Waiting? || call.phase.Dropped?)
    ensures InOrder(started, calls + [call])
  {
    var calls' := calls + [call];
    assert forall t: nat, c: nat :: WaitsFor(calls', c, t) ==> WaitsFor(calls, c, t) || t == |calls|;
  }

  lemma StartedAdds(started: seq<nat>, calls: seq<Call>, ticket: nat)
    requires Known(started, |calls|) && ticket < |calls|
    requires forall i, j :: 0 <= i < j < |started| && calls[started[i]].client == calls[started[j]].client ==> started[i] < started[j]
    requires forall i :: 0 <= i < |started| && calls[started[i]].client == calls[ticket].client ==> started[i] < ticket
    ensures var more := started + [ticket];
            forall i, j :: 0 <= i < j < |more| && calls[more[i]].client == calls[more[j]].client ==> more[i] < more[j]
  {
  }

  /** A slot given on arrival comes after every earlier one, and finds nobody waiting. */
  lemma GrantOrder(started: seq<nat>, calls: seq<Call>, client: nat, mutates: bool)
    requires InOrder(started, calls) && forall t: nat :: !WaitsFor(calls, client, t)
    ensures InOrder(started + [|calls|], calls + [Call(client, mutates, Granted)])
  {
    var calls', started' := calls + [Call(client, mutates, Granted)], started + [|calls|];
    assert forall t: nat, c: nat :: WaitsFor(calls', c, t) ==> WaitsFor(calls, c, t);
    assert forall t: nat :: t in started' <==> t in started || t == |calls|;
    StartedAdds(started, calls', |calls|);
  }

  /** The oldest waiter's slot comes after every earlier one and before the other waiters. */
  lemma StartOrder(started: seq<nat>, calls: seq<Call>, ticket: nat)
    requires InOrder(started, calls) && ticket < |calls| && calls[ticket].phase.Waiting?
    requires forall t: nat :: WaitsFor(calls, calls[ticket].client, t) ==> ticket <= t
    ensures InOrder(started + [ticket], SetPhase(calls, ticket, Granted))
  {
    var calls', started' := SetPhase(calls, ticket, Granted), started + [ticket];
    assert forall t: nat, c: nat :: WaitsFor(calls', c, t) <==> WaitsFor(calls, c, t) && t != ticket;
    assert forall t: nat :: t in started' <==> t in started || t == ticket;
    assert forall t: nat :: t < |calls| ==> calls'[t].client == calls[t].client;
    assert WaitsFor(calls, calls[ticket].client, ticket);
    assert forall i :: 0 <= i < |started| ==> started[i] in started;
    StartedAdds(started, calls', ticket);
  }

  lemma FirstIsOldest(calls: seq<Call>, client: nat, lane: Lane)
    requires LaneTrue(calls, client, lane) && lane.waiting != []
    ensures WaitsFor(calls, client, lane.waiting[0]) && forall t: nat :: WaitsFor(calls, client, t) ==> lane.waiting[0] <= t
  {
    assert lane.waiting[0] in lane.waiting;
    hide WaitsFor;
    forall t: nat | WaitsFor(calls, client, t)
      ensures lane.waiting[0] <= t
    {
      assert t in lane.waiting;
    }
  }

  lemma AcquireOrder(s: State, client: nat, mutates: bool)
    requires Inv(s) && Known(LaneOf(s.lanes, client).waiting, |s.calls|)
    ensures InOrder(Acquire(s, client, mutates).started, Acquire(s, client, mutates).calls)
  {
    var lane := LaneOf(s.lanes, client);
    assert LaneFits(s.calls, client, lane);
    hide InOrder, AllLanesFit, Holders;
    if s.closed { return; }
    if lane.running < IN_FLIGHT {
      assert forall t: nat :: t !in lane.waiting;
      GrantOrder(s.started, s.calls, client, mutates);
      return;
    }
    if client in s.gone { LateOrder(s.started, s.calls, Call(client, mutates, Dropped(Disconnected))); return; }
    if |lane.waiting| + 1 <= QUEUED { LateOrder(s.started, s.calls, Call(client, mutates, Waiting)); return; }
    FirstIsOldest(s.calls, client, lane);
    DropOrder(s.started, s.calls, lane.waiting[0], Overflow);
    LateOrder(s.started, SetPhase(s.calls, lane.waiting[0], Dropped(Overflow)), Call(client, mutates, Waiting));
  }

  lemma ReleaseOrder(s: State, ticket: nat)
    requires Inv(s) && Holds(s, ticket)
    requires s.calls[ticket].client in s.lanes && s.lanes[s.calls[ticket].client].running > 0
    requires Known(s.lanes[s.calls[ticket].client].waiting, |s.calls|)
    ensures InOrder(Release(s, ticket).started, Release(s, ticket).calls)
  {
    var client := s.calls[ticket].client;
    var lane := s.lanes[client];
    assert LaneFits(s.calls, client, LaneOf(s.lanes, client));
    HolderOrder(s.started, s.calls, ticket, Released);
    hide InOrder, AllLanesFit, Holders;
    if lane.waiting != [] {
      FirstIsOldest(s.calls, client, lane);
      var calls := SetPhase(s.calls, ticket, Released);
      assert forall t: nat :: WaitsFor(calls, client, t) <==> WaitsFor(s.calls, client, t);
      StartOrder(s.started, calls, lane.waiting[0]);
    }
  }

  lemma {:induction false} StepKeeps(s: State, a: Action)
    requires Inv(s) && Enabled(s, a)
    ensures Inv(Step(s, a))
  {
    match a
    case DoAcquire(client, mutates) =>
      hide InOrder, AllLanesFit, Acquire;
      AcquireLanes(s, client, mutates);
      AcquireOrder(s, client, mutates);
    case DoRelease(t) => hide InOrder, AllLanesFit, Release; ReleaseLanes(s, t); ReleaseOrder(s, t);
    case DoLeave(client) =>
      hide InOrder, AllLanesFit;
      LeaveLanes(s, client);
      LeaveOrder(s.started, s.calls, client, if s.closed then ShutDown else Disconnected);
    case NativeStarts(t) => MoveKeeps(s, t, Holding(Unsettled, false));
    case NativeSettles(t) => MoveKeeps(s, t, Holding(Settled, s.calls[t].phase.answered));
    case Answer(t) => MoveKeeps(s, t, Holding(s.calls[t].phase.native, true));
    case DoClose =>
  }

  lemma MoveKeeps(s: State, ticket: nat, phase: Phase)
    requires Inv(s) && Holds(s, ticket) && phase.Holding?
    ensures Inv(s.(calls := SetPhase(s.calls, ticket, phase)))
  {
    hide InOrder, AllLanesFit;
    PhaseLanes(s, ticket, phase);
    HolderOrder(s.started, s.calls, ticket, phase);
  }

  lemma FreshInv()
    ensures Inv(Fresh)
  {
    forall client: nat
      ensures LaneFits([], client, Idle)
    {
      assert Holders([], client) == {};
    }
  }

  // ----- Every run -----

  ghost predicate RunFrom(s: State, actions: seq<Action>)
    requires Inv(s)
    decreases |actions|
  {
    actions == [] || (
      && Enabled(s, actions[0])
      && (StepKeeps(s, actions[0]); RunFrom(Step(s, actions[0]), actions[1..])))
  }

  ghost function After(s: State, actions: seq<Action>): (t: State)
    requires Inv(s) && RunFrom(s, actions)
    ensures Inv(t)
    decreases |actions|
  {
    if actions == [] then s
    else
      StepKeeps(s, actions[0]);
      After(Step(s, actions[0]), actions[1..])
  }

  ghost predicate Runs(actions: seq<Action>) {
    FreshInv();
    RunFrom(Fresh, actions)
  }

  ghost function Reached(actions: seq<Action>): (s: State)
    requires Runs(actions)
    ensures Inv(s)
  {
    FreshInv();
    After(Fresh, actions)
  }

  // ----- Bounds and order of every run -----

  ghost function Waiters(calls: seq<Call>, client: nat): set<nat> {
    set t: nat | t < |calls| && WaitsFor(calls, client, t)
  }

  ghost function Unsettleds(calls: seq<Call>, client: nat): set<nat> {
    set t: nat | t < |calls| && calls[t].client == client && calls[t].phase.Holding? && calls[t].phase.native.Unsettled?
  }

  lemma {:induction false} SizeOf(list: seq<nat>, members: set<nat>)
    requires Ascending(list) && forall t: nat :: t in list <==> t in members
    ensures |members| == |list|
    decreases |list|
  {
    if list == [] {
      assert members == {};
    } else {
      OthersStay(list);
      SizeOf(list[1..], members - {list[0]});
    }
  }

  lemma {:induction false} SubsetSize(a: set<nat>, b: set<nat>)
    requires a <= b
    ensures |a| <= |b|
    decreases |a|
  {
    if a != {} {
      var x :| x in a;
      SubsetSize(a - {x}, b - {x});
    }
  }

  /**
   * In every run: at most eight calls of a client hold a slot and at most
   * eight of its native calls are unsettled, even when a read has answered at
   * its timeout; at most thirty-two wait, and only while all slots are taken;
   * slots are given in arrival order.
   */
  lemma {:induction false} Bounded(actions: seq<Action>, client: nat)
    requires Runs(actions)
    ensures var s := Reached(actions);
            && |Unsettleds(s.calls, client)| <= |Holders(s.calls, client)| <= IN_FLIGHT
            && |Waiters(s.calls, client)| <= QUEUED
            && (Waiters(s.calls, client) != {} ==> |Holders(s.calls, client)| == IN_FLIGHT)
            && InOrder(s.started, s.calls)
  {
    var s := Reached(actions);
    hide Runs, Reached;
    var lane := LaneOf(s.lanes, client);
    assert LaneFits(s.calls, client, lane);
    SizeOf(lane.waiting, Waiters(s.calls, client));
    SubsetSize(Unsettleds(s.calls, client), Holders(s.calls, client));
  }

  /** A waiter is dropped for overflow only as its lane's oldest, when exactly thirty-two newer ones wait. */
  lemma {:induction false} EvictsOldest(s: State, a: Action, t: nat)
    requires Inv(s) && Enabled(s, a) && t < |s.calls| && !s.calls[t].phase.Dropped?
    requires t < |Step(s, a).calls| && Step(s, a).calls[t].phase == Dropped(Overflow)
    ensures var calls, client := Step(s, a).calls, s.calls[t].client;
            && a.DoAcquire? && WaitsFor(s.calls, client, t) && |Waiters(calls, client)| == QUEUED
            && forall u: nat :: WaitsFor(calls, client, u) ==> u > t
  {
    StepKeeps(s, a);
    hide InOrder;
    if a.DoAcquire? {
      var lane := LaneOf(s.lanes, a.client);
      assert LaneFits(s.calls, a.client, lane);
      FirstIsOldest(s.calls, a.client, lane);
      Evicted(s, a.client, a.mutates, t);
    } else {
      OnlyAcquireEvicts(s, a, t);
      assert false;
    }
  }

  lemma OnlyAcquireEvicts(s: State, a: Action, t: nat)
    requires Inv(s) && Enabled(s, a) && t < |s.calls| && !s.calls[t].phase.Dropped? && !a.DoAcquire?
    ensures t < |Step(s, a).calls| ==> Step(s, a).calls[t].phase != Dropped(Overflow)
  {
    hide Inv;
  }

  lemma Evicted(s: State, client: nat, mutates: bool, t: nat)
    requires Inv(s) && Known(LaneOf(s.lanes, client).waiting, |s.calls|) && Inv(Acquire(s, client, mutates))
    requires t < |s.calls| && !s.calls[t].phase.Dropped? && Acquire(s, client, mutates).calls[t].phase == Dropped(Overflow)
    ensures var calls := Acquire(s, client, mutates).calls;
            && s.calls[t].client == client && WaitsFor(s.calls, client, t) && |Waiters(calls, client)| == QUEUED
            && forall u: nat :: WaitsFor(calls, client, u) ==> u > t
  {
    var lane, u := LaneOf(s.lanes, client), Acquire(s, client, mutates);
    assert LaneFits(s.calls, client, lane) && LaneFits(u.calls, client, LaneOf(u.lanes, client));
    hide AllLanesFit, InOrder, Holders;
    assert t == lane.waiting[0] && |lane.waiting| == QUEUED;
    assert t in lane.waiting;
    var waiting := LaneOf(u.lanes, client).waiting;
    assert waiting == lane.waiting[1..] + [|s.calls|];
    SizeOf(waiting, Waiters(u.calls, client));
    assert forall i :: 0 <= i < |waiting| ==> waiting[i] > t;
  }

  /** Every acquire settles once: it gets a slot or is dropped, and neither changes afterwards. */
  lemma {:induction false} SettlesOnce(s: State, a: Action, t: nat)
    requires Inv(s) && Enabled(s, a) && t < |s.calls|
    ensures t < |Step(s, a).calls| && Step(s, a).calls[t].client == s.calls[t].client
    ensures var before, after := s.calls[t].phase, Step(s, a).calls[t].phase;
            match before
            case Waiting => after.Waiting? || after == Granted || after.Dropped?
            case Holding(_, _) => after.Holding? || after.Released?
            case _ => after == before
  {
    match a
    case DoAcquire(client, mutates) =>
      assert LaneFits(s.calls, client, LaneOf(s.lanes, client));
      SettlesAcquire(s, client, mutates, t);
    case DoRelease(u) =>
      HolderInLane(s, u);
      assert LaneFits(s.calls, s.calls[u].client, LaneOf(s.lanes, s.calls[u].client));
      SettlesRelease(s, u, t);
    case _ => hide Inv;
  }

  lemma SettlesAcquire(s: State, client: nat, mutates: bool, t: nat)
    requires LaneFits(s.calls, client, LaneOf(s.lanes, client)) && t < |s.calls|
    ensures var after := Acquire(s, client, mutates).calls;
            t < |after| && (after[t] == s.calls[t] || (s.calls[t].phase.Waiting? && after[t] == s.calls[t].(phase := Dropped(Overflow))))
  {
    var lane := LaneOf(s.lanes, client);
    hide Holders;
    if |lane.waiting| > 0 { assert lane.waiting[0] in lane.waiting; }
  }

  lemma SettlesRelease(s: State, u: nat, t: nat)
    requires Holds(s, u) && t < |s.calls| && s.calls[u].client in s.lanes && s.lanes[s.calls[u].client].running > 0
    requires LaneFits(s.calls, s.calls[u].client, s.lanes[s.calls[u].client])
    ensures var after := Release(s, u).calls;
            && t < |after| && (t == u ==> after[t] == s.calls[t].(phase := Released))
            && (t != u ==> after[t] == s.calls[t] || (s.calls[t].phase.Waiting? && after[t] == s.calls[t].(phase := Granted)))
  {
    var lane := s.lanes[s.calls[u].client];
    hide Holders;
    if |lane.waiting| > 0 { assert lane.waiting[0] in lane.waiting; }
  }

  // ----- What happens to every call, read off the calls alone -----

  /** The calls without lanes or waiting lists: who holds and who waits is found by looking at all of them. */
  datatype Ledger = Ledger(closed: bool, gone: set<nat>, calls: seq<Call>)

  function LedgerOf(s: State): Ledger {
    Ledger(s.closed, s.gone, s.calls)
  }

  /** No earlier call of the client waits. */
  ghost predicate Oldest(calls: seq<Call>, client: nat, t: nat) {
    WaitsFor(calls, client, t) && forall u: nat :: WaitsFor(calls, client, u) ==> t <= u
  }

  /** A new call of an open leader: a slot while one is free, else a place in line unless its client is gone. */
  ghost function Arrives(l: Ledger, client: nat): Phase {
    if |Holders(l.calls, client)| < IN_FLIGHT then Granted
    else if client in l.gone then Dropped(Disconnected)
    else Waiting
  }

  /** Where a step takes a call it finds. */
  ghost function Moves(l: Ledger, a: Action, t: nat): Phase
    requires t < |l.calls|
  {
    var phase := l.calls[t].phase;
    match a
    case DoAcquire(client, _) =>
      if !l.closed && client !in l.gone && |Waiters(l.calls, client)| == QUEUED && Oldest(l.calls, client, t) then Dropped(Overflow)
      else phase
    case DoRelease(u) =>
      if t == u then Released else if u < |l.calls| && Oldest(l.calls, l.calls[u].client, t) then Granted else phase
    case DoLeave(client) =>
      if WaitsFor(l.calls, client, t) then Dropped(if l.closed then ShutDown else Disconnected) else phase
    case NativeStarts(u) => if t == u then Holding(Unsettled, false) else phase
    case NativeSettles(u) => if t == u && phase.Holding? then Holding(Settled, phase.answered) else phase
    case Answer(u) => if t == u && phase.Holding? then Holding(phase.native, true) else phase
    case DoClose => phase
  }

  ghost function Booked(l: Ledger, a: Action): Ledger {
    Ledger(l.closed || a.DoClose?, l.gone + if a.DoLeave? then {a.client} else {},
           seq(|l.calls|, t requires 0 <= t < |l.calls| => l.calls[t].(phase := Moves(l, a, t)))
           + if a.DoAcquire? && !l.closed then [Call(a.client, a.mutates, Arrives(l, a.client))] else [])
  }

  ghost function BookedAll(l: Ledger, actions: seq<Action>): Ledger
    decreases |actions|
  {
    if actions == [] then l else BookedAll(Booked(l, actions[0]), actions[1..])
  }

  lemma OldestIsFirst(calls: seq<Call>, client: nat, lane: Lane, t: nat)
    requires LaneTrue(calls, client, lane)
    ensures Oldest(calls, client, t) <==> lane.waiting != [] && t == lane.waiting[0]
    ensures |Waiters(calls, client)| == |lane.waiting|
  {
    SizeOf(lane.waiting, Waiters(calls, client));
    if lane.waiting != [] { FirstIsOldest(calls, client, lane); }
    hide WaitsFor, Holders, Ascending;
    assert WaitsFor(calls, client, t) ==> t in lane.waiting;
  }

  /** Whether an acquire pushes out the front of this lane. */
  predicate PushesOut(s: State, client: nat) {
    !s.closed && client !in s.gone && |LaneOf(s.lanes, client).waiting| == QUEUED
  }

  lemma AcquireMoves(s: State, client: nat, mutates: bool, t: nat)
    requires Inv(s) && t < |s.calls|
    ensures Moves(LedgerOf(s), DoAcquire(client, mutates), t)
            == if PushesOut(s, client) && t == LaneOf(s.lanes, client).waiting[0] then Dropped(Overflow) else s.calls[t].phase
  {
    var lane := LaneOf(s.lanes, client);
    assert LaneFits(s.calls, client, lane);
    OldestIsFirst(s.calls, client, lane, t);
    hide Inv, Waiters, Oldest;
  }

  lemma AcquireLeaves(s: State, client: nat, mutates: bool)
    requires Inv(s) && Enabled(s, DoAcquire(client, mutates)) && !s.closed
    ensures var calls, lane := Step(s, DoAcquire(client, mutates)).calls, LaneOf(s.lanes, client);
            && |calls| == |s.calls| + 1 && calls[|s.calls|] == Call(client, mutates, Arrives(LedgerOf(s), client))
            && forall t: nat :: t < |s.calls| ==>
                 calls[t] == if PushesOut(s, client) && t == lane.waiting[0] then s.calls[t].(phase := Dropped(Overflow)) else s.calls[t]
  {
    var lane := LaneOf(s.lanes, client);
    assert LaneFits(s.calls, client, lane);
    if lane.waiting != [] { assert lane.waiting[0] in lane.waiting; }
    hide Inv, Holders;
  }

  lemma AcquireBooked(s: State, client: nat, mutates: bool)
    requires Inv(s) && Enabled(s, DoAcquire(client, mutates))
    ensures LedgerOf(Step(s, DoAcquire(client, mutates))) == Booked(LedgerOf(s), DoAcquire(client, mutates))
  {
    var l, a := LedgerOf(s), DoAcquire(client, mutates);
    forall t: nat | t < |s.calls|
      ensures Moves(l, a, t) == if PushesOut(s, client) && t == LaneOf(s.lanes, client).waiting[0] then Dropped(Overflow)
                                else s.calls[t].phase
    {
      AcquireMoves(s, client, mutates, t);
    }
    assert l.gone + {} == l.gone;
    var t := Step(s, a);
    if s.closed {
      hide Inv, Moves;
      assert t.calls == Booked(l, a).calls;
      return;
    }
    AcquireLeaves(s, client, mutates);
    assert t.gone == s.gone && t.closed == s.closed;
    hide Inv, Moves, Step, PushesOut, Arrives;
    assert t.calls == Booked(l, a).calls;
  }

  lemma ReleaseBooked(s: State, u: nat)
    requires Inv(s) && Enabled(s, DoRelease(u))
    ensures LedgerOf(Step(s, DoRelease(u))) == Booked(LedgerOf(s), DoRelease(u))
  {
    var client := s.calls[u].client;
    HolderInLane(s, u);
    var lane, l, a := LaneOf(s.lanes, client), LedgerOf(s), DoRelease(u);
    assert LaneFits(s.calls, client, lane);
    forall t: nat | t < |s.calls|
      ensures Oldest(s.calls, client, t) <==> lane.waiting != [] && t == lane.waiting[0]
    {
      OldestIsFirst(s.calls, client, lane, t);
    }
    if lane.waiting != [] { assert lane.waiting[0] in lane.waiting && WaitsFor(s.calls, client, lane.waiting[0]); }
    hide Inv, Holders, Waiters, Oldest;
    assert l.gone + {} == l.gone;
    assert Step(s, a).calls == Booked(l, a).calls;
  }

  /**
   * One step, call by call: an acquire adds exactly its own call and may cost
   * the oldest waiter its place, a release hands the slot to the oldest waiter,
   * a departure drops the client's waiters; nothing else happens to anyone.
   */
  lemma {:induction false} StepBooked(s: State, a: Action)
    requires Inv(s) && Enabled(s, a)
    ensures LedgerOf(Step(s, a)) == Booked(LedgerOf(s), a)
  {
    match a
    case DoAcquire(client, mutates) => AcquireBooked(s, client, mutates);
    case DoRelease(u) => ReleaseBooked(s, u);
    case _ =>
      hide Inv, Oldest, Holders, Waiters;
      assert s.gone + {} == s.gone;
      assert Step(s, a).calls == Booked(LedgerOf(s), a).calls;
  }

  lemma {:induction false} BookedFrom(s: State, actions: seq<Action>)
    requires Inv(s) && RunFrom(s, actions)
    ensures LedgerOf(After(s, actions)) == BookedAll(LedgerOf(s), actions)
    decreases |actions|
  {
    hide Inv, Enabled, Step, Booked;
    if actions == [] { return; }
    StepKeeps(s, actions[0]);
    StepBooked(s, actions[0]);
    BookedFrom(Step(s, actions[0]), actions[1..]);
  }

  /** In every run the lanes serve each call exactly as looking at all the calls would. */
  lemma {:induction false} ServedAsBooked(actions: seq<Action>)
    requires Runs(actions)
    ensures LedgerOf(Reached(actions)) == BookedAll(Ledger(false, {}, []), actions)
  {
    FreshInv();
    BookedFrom(Fresh, actions);
  }

  // ----- Every call is served -----

  function Weight(call: Call): nat {
    match call.phase
    case Waiting => 5
    case Holding(Unstarted, false) => 4
    case Holding(Unsettled, false) => 3
    case Holding(Settled, false) => 2
    case Holding(Unsettled, true) => 2
    case Holding(_, true) => 1
    case _ => 0
  }

  function Work(calls: seq<Call>): nat {
    if calls == [] then 0 else Work(calls[..|calls| - 1]) + Weight(calls[|calls| - 1])
  }

  lemma {:induction false} WorkSet(calls: seq<Call>, t: nat, call: Call)
    requires t < |calls|
    ensures Work(calls[t := call]) == Work(calls) - Weight(calls[t]) + Weight(call)
    decreases |calls|
  {
    hide Weight;
    var rest, last := calls[..|calls| - 1], calls[|calls| - 1];
    if t == |rest| {
      assert calls[t := call][..|rest|] == rest;
    } else {
      assert calls[t := call][..|rest|] == rest[t := call];
      WorkSet(rest, t, call);
    }
  }

  predicate Serves(a: Action) {
    a.NativeStarts? || a.NativeSettles? || a.Answer? || a.DoRelease?
  }

  /** Serving calls ends, and while a call holds or awaits a slot some call can be served. */
  lemma {:induction false} ServingEnds(s: State, a: Action)
    requires Inv(s) && Enabled(s, a) && Serves(a)
    ensures Work(Step(s, a).calls) < Work(s.calls)
  {
    if a.DoRelease? {
      ReleaseWorks(s, a.ticket);
    } else {
      hide Inv;
      WorkSet(s.calls, a.ticket, Step(s, a).calls[a.ticket]);
    }
  }

  lemma ReleaseWorks(s: State, t: nat)
    requires Inv(s) && Enabled(s, DoRelease(t))
    ensures Work(Step(s, DoRelease(t)).calls) < Work(s.calls)
  {
    HolderInLane(s, t);
    var client := s.calls[t].client;
    assert LaneFits(s.calls, client, LaneOf(s.lanes, client));
    hide Inv, Holders, Work;
    var lane := s.lanes[client];
    var calls := SetPhase(s.calls, t, Released);
    WorkSet(s.calls, t, calls[t]);
    if lane.waiting != [] {
      assert lane.waiting[0] in lane.waiting;
      WorkSet(calls, lane.waiting[0], calls[lane.waiting[0]].(phase := Granted));
    }
  }

  lemma {:induction false} NobodyStuck(s: State, t: nat)
    requires Inv(s) && t < |s.calls| && (s.calls[t].phase.Waiting? || s.calls[t].phase.Holding?)
    ensures exists a :: Serves(a) && Enabled(s, a)
  {
    var client := s.calls[t].client;
    assert LaneFits(s.calls, client, LaneOf(s.lanes, client));
    assert WaitsFor(s.calls, client, t) || t in Holders(s.calls, client);
    assert |Holders(s.calls, client)| > 0;
    var h :| h in Holders(s.calls, client);
    hide Inv, LaneFits, InOrder;
    var phase := s.calls[h].phase;
    if phase.native.Unsettled? { assert Serves(NativeSettles(h)) && Enabled(s, NativeSettles(h)); }
    else if phase.answered { assert Serves(DoRelease(h)) && Enabled(s, DoRelease(h)); }
    else { assert Serves(Answer(h)) && Enabled(s, Answer(h)); }
  }

  // ----- The lanes in place -----

  class Lanes {
    var closed: bool
    var gone: set<nat>
    var lanes: map<nat, Lane>
    var calls: seq<Call>
    var started: seq<nat>

    ghost function View(): State
      reads this
    {
      State(closed, gone, lanes, calls, started)
    }

    constructor ()
      ensures View() == Fresh
    {
      closed, gone, lanes, calls, started := false, {}, map[], [], [];
    }

    /** `start`: the slot is the waiter's. */
    method Start(client: nat, ticket: nat)
      requires client in lanes && ticket < |calls|
      modifies `lanes, `calls, `started
      ensures lanes == old(lanes)[client := old(lanes)[client].(running := old(lanes)[client].running + 1)]
      ensures calls == SetPhase(old(calls), ticket, Granted) && started == old(started) + [ticket]
    {
      lanes := lanes[client := lanes[client].(running := lanes[client].running + 1)];
      calls := calls[ticket := calls[ticket].(phase := Granted)];
      started := started + [ticket];
    }

    method DoAcquire(client: nat, mutates: bool)
      requires !closed && Known(LaneOf(lanes, client).waiting, |calls|)
      modifies this
      ensures View() == Acquire(old(View()), client, mutates)
    {
      var lane := if client in lanes then lanes[client] else Idle;
      lanes := lanes[client := lane];
      var ticket := |calls|;
      calls := calls + [Call(client, mutates, Waiting)];
      if lane.running < IN_FLIGHT { Start(client, ticket); return; }
      lanes := lanes[client := lane.(waiting := lane.waiting + [ticket])];
      if client in gone {
        assert (lane.waiting + [ticket])[..|lane.waiting|] == lane.waiting;
        lanes := lanes[client := lane.(waiting := lanes[client].waiting[..|lane.waiting|])];
        calls := calls[ticket := calls[ticket].(phase := Dropped(Disconnected))];
      } else if |lanes[client].waiting| > QUEUED {
        var oldest := lanes[client].waiting[0];
        lanes := lanes[client := lane.(waiting := lanes[client].waiting[1..])];
        calls := calls[oldest := calls[oldest].(phase := Dropped(Overflow))];
        assert (lane.waiting + [ticket])[1..] == lane.waiting[1..] + [ticket];
        assert calls == SetPhase(old(calls), oldest, Dropped(Overflow)) + [Call(client, mutates, Waiting)];
      }
    }

    method DoRelease(ticket: nat)
      requires ticket < |calls| && calls[ticket].client in lanes && lanes[calls[ticket].client].running > 0
      requires Known(lanes[calls[ticket].client].waiting, |calls|)
      modifies this
      ensures View() == Release(old(View()), ticket)
    {
      var client := calls[ticket].client;
      var lane := lanes[client];
      lanes := lanes[client := lane.(running := lane.running - 1)];
      calls := calls[ticket := calls[ticket].(phase := Released)];
      if lane.waiting != [] {
        var next := lane.waiting[0];
        lanes := lanes[client := Lane(lane.running - 1, lane.waiting[1..])];
        Start(client, next);
      } else if lane.running == 1 {
        lanes := lanes - {client};
      }
    }

    /** `abandon`, for the waiter at the front. */
    method Abandon(client: nat, why: Why)
      requires client in lanes && lanes[client].waiting != [] && lanes[client].waiting[0] < |calls|
      modifies `lanes, `calls
      ensures lanes == old(lanes)[client := old(lanes)[client].(waiting := old(lanes)[client].waiting[1..])]
      ensures calls == SetPhase(old(calls), old(lanes)[client].waiting[0], Dropped(why))
    {
      var waiter := lanes[client].waiting[0];
      lanes := lanes[client := lanes[client].(waiting := lanes[client].waiting[1..])];
      calls := calls[waiter := calls[waiter].(phase := Dropped(why))];
    }

    /** The abort listeners of a client's waiters run in the order they were added. */
    method DoLeave(client: nat)
      requires Inv(View())
      modifies this
      ensures View() == Leave(old(View()), client)
    {
      gone := gone + {client};
      if client !in lanes {
        NoWaiters(old(View()), client);
        return;
      }
      ghost var lane, before := lanes[client], calls;
      assert LaneFits(calls, client, LaneOf(lanes, client));
      hide Inv, LaneFits, SetPhase, Dropping, Abandoned;
      var why := if closed then ShutDown else Disconnected;
      DroppingNone(calls, why);
      var i := 0;
      while lanes[client].waiting != []
        invariant i <= |lane.waiting| && lanes == old(lanes)[client := lane.(waiting := lane.waiting[i..])]
        invariant Dropping(before, calls, lane.waiting[..i], why)
        modifies `lanes, `calls
        decreases |lane.waiting| - i
      {
        WaiterKnown(before, client, lane, i);
        DropOne(before, calls, lane.waiting, i, why);
        Abandon(client, why);
        i := i + 1;
      }
      assert lane.waiting[..i] == lane.waiting && lane.waiting[i..] == [];
      AllDropped(before, calls, client, lane, why);
    }
  }

  /** `after` is `before` with the calls of `dropped` dropped. */
  ghost predicate Dropping(before: seq<Call>, after: seq<Call>, dropped: seq<nat>, why: Why) {
    |after| == |before| &&
    forall t: nat :: t < |after| ==> after[t] == if t in dropped then before[t].(phase := Dropped(why)) else before[t]
  }

  lemma DroppingNone(calls: seq<Call>, why: Why)
    ensures Dropping(calls, calls, [], why)
  {
  }

  lemma DropOne(before: seq<Call>, after: seq<Call>, waiting: seq<nat>, i: nat, why: Why)
    requires i < |waiting| && waiting[i] < |before| && Dropping(before, after, waiting[..i], why)
    ensures |after| == |before| && Dropping(before, SetPhase(after, waiting[i], Dropped(why)), waiting[..i + 1], why)
  {
    assert waiting[..i + 1] == waiting[..i] + [waiting[i]];
  }

  lemma NoWaiters(s: State, client: nat)
    requires AllLanesFit(s.lanes, s.calls) && client !in s.lanes
    ensures forall why :: Abandoned(s.calls, client, why) == s.calls
  {
    assert LaneFits(s.calls, client, LaneOf(s.lanes, client));
    assert forall t: nat :: t < |s.calls| && s.calls[t].client == client && s.calls[t].phase.Waiting? ==> WaitsFor(s.calls, client, t);
  }

  lemma WaiterKnown(calls: seq<Call>, client: nat, lane: Lane, i: nat)
    requires LaneFits(calls, client, lane) && i < |lane.waiting|
    ensures lane.waiting[i] < |calls| && lane.waiting[i..] != [] && lane.waiting[i..][0] == lane.waiting[i]
    ensures lane.waiting[i] !in lane.waiting[..i]
  {
  }

  lemma AllDropped(before: seq<Call>, after: seq<Call>, client: nat, lane: Lane, why: Why)
    requires LaneFits(before, client, lane) && Dropping(before, after, lane.waiting, why)
    ensures after == Abandoned(before, client, why)
  {
    forall t: nat | t < |before|
      ensures after[t] == Abandoned(before, client, why)[t]
    {
      assert t in lane.waiting <==> WaitsFor(before, client, t);
    }
  }
}
