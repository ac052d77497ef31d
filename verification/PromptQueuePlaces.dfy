/**
 * Where a settled prompt can still be found: a failed steering answers the
 * client and keeps the row, and what becomes of the row does not depend on
 * its answer.
 */
module PromptQueuePlaces {
  import opened Options
  import opened PromptQueueModel
  import opened PromptQueueSafety
  import opened PromptQueueSettlement

  /** The same queue, apart from what was answered. */
  ghost predicate Twins(s: State, t: State) {
    t == s.(cells := t.cells) && |t.cells| == |s.cells|
  }

  // ----- No step reads an answer -----

  lemma AdvanceTwins(s: State, t: State, env: Env)
    requires Twins(s, t)
    ensures Twins(Advance(s, env), Advance(t, env))
  {
    hide Rpcs, Texts, RunContent, HasImage;
  }

  lemma PromoteTwins(s: State, t: State, env: Env)
    requires Twins(s, t)
    ensures Twins(Promote(s, env), Promote(t, env))
  {
    AdvanceTwins(s, t, env);
    hide Advance;
  }

  lemma FailTwins(s: State, t: State, i: Rpc, abort: Abort)
    requires Twins(s, t) && i < |s.a.slots|
    ensures Twins(FailSlot(s, i, abort), FailSlot(t, i, abort))
  {
  }

  lemma EnqueueTwins(s: State, t: State, i: Rpc, content: seq<Block>, env: Env)
    requires Twins(s, t) && i < |s.a.slots|
    ensures Twins(Enqueue(s, i, content, env), Enqueue(t, i, content, env))
  {
    hide Promote, SettleInflight, Resolve;
    var slot := s.a.slots[i];
    var row := Row(i, slot.id, slot.text, content, 0, None);
    var entered := s.(log := s.log + [Entered(i)]);
    if slot.sendNow && s.q.inflight.Some? {
      var u := entered.(q := s.q.(queue := [row] + s.q.queue, sendNowTrigger := true));
      InflightTwins(u, u.(cells := t.cells), Stopped(Cancelled));
    } else if SteersThis(s, slot) && s.q.inflight.Some? {
      SettleTwins(entered, entered.(cells := t.cells), i, Rejected([SteerFailed]));
    } else {
      var u := entered.(q := s.q.(queue := s.q.queue + [row]));
      PromoteTwins(u, u.(cells := t.cells), env);
    }
  }

  lemma InflightTwins(s: State, t: State, outcome: Outcome)
    requires Twins(s, t)
    ensures Twins(SettleInflight(s, outcome), SettleInflight(t, outcome))
  {
  }

  lemma SettleTwins(s: State, t: State, r: Rpc, outcome: Outcome)
    requires Twins(s, t)
    ensures Twins(Settle(s, r, outcome), Settle(t, r, outcome))
  {
  }

  lemma AdmissionTwins(s: State, t: State, a: Action, env: Env)
    requires Twins(s, t) && Enabled(s, a) && (a.ASubmit? || a.APredecessorDone? || a.APrepared? || a.APreparationFailed?)
    ensures Twins(Step(s, a, env), Step(t, a, env))
  {
    hide Enqueue, Accepts, FailSlot, Retire, Prepared;
    match a
    case ASubmit(id, _, _, _) => assert Accepts(s, id) == Accepts(t, id) by { AcceptsTwins(s, t, id); }
    case APredecessorDone(i) =>
      var u := s.(a := s.a.(slots := s.a.slots[i := s.a.slots[i].(predecessorDone := true)]));
      if AssertActive(u, i).Some? { FailTwins(u, u.(cells := t.cells), i, AssertActive(u, i).value); }
    case APrepared(i, content) => PreparedTwins(s, t, i, content, env);
    case APreparationFailed(i, abort) =>
      var u := s.(a := s.a.(slots := s.a.slots[i := s.a.slots[i].(io := false)]));
      FailTwins(u, u.(cells := t.cells), i, abort);
  }

  lemma PreparedTwins(s: State, t: State, i: Rpc, content: seq<Block>, env: Env)
    requires Twins(s, t) && i < |s.a.slots|
    ensures Twins(Prepared(s, i, content, env), Prepared(t, i, content, env))
  {
    hide Enqueue, FailSlot, Retire;
    var u := s.(a := s.a.(slots := s.a.slots[i := s.a.slots[i].(io := false)]));
    var v := u.(cells := t.cells);
    if u.a.slots[i].retired { return; }
    if AssertActive(u, i).Some? {
      FailTwins(u, v, i, AssertActive(u, i).value);
    } else {
      RetireTwins(u, v, i);
      EnqueueTwins(Retire(u, i), Retire(v, i), i, content, env);
    }
  }

  lemma AcceptsTwins(s: State, t: State, id: Id)
    requires Twins(s, t)
    ensures Accepts(s, id) == Accepts(t, id)
  {
  }

  lemma RetireTwins(s: State, t: State, i: Rpc)
    requires Twins(s, t) && i < |s.a.slots|
    ensures Twins(Retire(s, i), Retire(t, i)) && |Retire(s, i).a.slots| == |s.a.slots|
  {
  }

  lemma FlushTwins(s: State, t: State, flushOk: bool, env: Env)
    requires Twins(s, t)
    ensures Twins(FlushDone(s, flushOk, env), FlushDone(t, flushOk, env))
  {
    hide Promote, SteeredRpcs;
    if s.q.run.Some? && s.q.run.value.phase.Flushing? {
      PromoteTwins(Finished(s, flushOk), Finished(t, flushOk), env);
    }
  }

  lemma CancelPromptTwins(s: State, t: State, id: Id, env: Env)
    requires Twins(s, t)
    ensures Twins(CancelPrompt(s, id, env), CancelPrompt(t, id, env))
  {
    hide Promote, Locate;
    var at := LocateIn(s, Some(id));
    if at.Some? {
      var u := s.(q := s.q.(queue := Without(s.q.queue, at.value), holds := s.q.holds - {id}));
      var r := s.q.queue[at.value].rpc;
      DropTwins(u, u.(cells := t.cells), r, env);
    }
  }

  lemma InterjectTwins(s: State, t: State, id: Option<Id>, expected: int, newText: Option<string>, env: Env)
    requires Twins(s, t)
    ensures Twins(Interject(s, id, expected, newText, env), Interject(t, id, expected, newText, env))
  {
    hide Promote, Locate, Rewrite, SettleInflight;
    var at := LocateIn(s, id);
    if at.None? || s.q.queue[at.value].version != expected {
      PromoteTwins(Unhold(s, id), Unhold(t, id), env);
    } else {
      var row := Rewrite(s.q.queue[at.value], newText);
      var u := s.(q := s.q.(queue := [row] + Without(s.q.queue, at.value), holds := s.q.holds - {row.id}));
      var v := u.(q := u.q.(sendNowTrigger := true));
      PromoteTwins(u, u.(cells := t.cells), env);
      InflightTwins(v, v.(cells := t.cells), Stopped(Cancelled));
    }
  }

  lemma SteerTwins(s: State, t: State, id: Option<Id>, expected: int, env: Env)
    requires Twins(s, t)
    ensures Twins(SteerRow(s, id, expected, env), SteerRow(t, id, expected, env))
  {
    hide Promote, Locate;
    PromoteTwins(s, t, env);
    PromoteTwins(Unhold(s, id), Unhold(t, id), env);
  }

  lemma RemoveTwins(s: State, t: State, id: Option<Id>, expected: int, env: Env)
    requires Twins(s, t)
    ensures Twins(Remove(s, id, expected, env), Remove(t, id, expected, env))
  {
    hide Promote, Locate, SettleInflight, Settle;
    var at := LocateIn(s, id);
    PromoteTwins(s, t, env);
    PromoteTwins(Unhold(s, id), Unhold(t, id), env);
    if at.Some? {
      var row := s.q.queue[at.value];
      var u := s.(q := s.q.(queue := Without(s.q.queue, at.value), holds := s.q.holds - {row.id}));
      DropTwins(u, u.(cells := t.cells), row.rpc, env);
    } else {
      InflightTwins(s, t, Stopped(Cancelled));
      var u := SettleInflight(s, Stopped(Cancelled));
      var v := SettleInflight(t, Stopped(Cancelled));
      var w := u.(q := u.q.(holds := u.q.holds - {if id.Some? then id.value else "undefined"}));
      PromoteTwins(w, w.(cells := v.cells), env);
    }
  }

  lemma DropTwins(s: State, t: State, r: Rpc, env: Env)
    requires Twins(s, t)
    ensures Twins(Promote(Settle(s, r, Stopped(Cancelled)), env), Promote(Settle(t, r, Stopped(Cancelled)), env))
  {
    SettleTwins(s, t, r, Stopped(Cancelled));
    PromoteTwins(Settle(s, r, Stopped(Cancelled)), Settle(t, r, Stopped(Cancelled)), env);
    hide Promote, Settle;
  }

  lemma DiscardTwins(s: State, t: State)
    requires Twins(s, t)
    ensures Twins(Discard(s), Discard(t))
  {
    hide Rpcs;
  }

  lemma CancelTwins(s: State, t: State)
    requires Twins(s, t)
    ensures Twins(CancelAll(s), CancelAll(t))
  {
    hide Discard, SettleInflight;
    var u := s.(a := s.a.(epoch := s.a.epoch + 1), log := s.log + [CancelledAll(|s.a.slots|)]);
    var v := u.(cells := t.cells);
    InflightTwins(u, v, Stopped(Cancelled));
    DiscardTwins(SettleInflight(u, Stopped(Cancelled)), SettleInflight(v, Stopped(Cancelled)));
  }

  lemma ControlTwins(s: State, t: State, control: Control, env: Env)
    requires Twins(s, t)
    ensures Twins(ApplyControl(s, control, env), ApplyControl(t, control, env))
  {
    hide Promote, Locate, Rewrite, Named, Unnamed, Rpcs, Resolve, Interject, SteerRow, Remove, Discard;
    match control
    case DoInterject(id, expected, newText) => InterjectTwins(s, t, id, expected, newText, env);
    case DoSteer(id, expected) => SteerTwins(s, t, id, expected, env);
    case DoRemove(id, expected) => RemoveTwins(s, t, id, expected, env);
    case DoEdit(id, _, newText) =>
      var at := LocateIn(s, id);
      if at.Some? {
        var row := s.q.queue[at.value];
        var u := s.(q := s.q.(holds := s.q.holds - {row.id}));
        var v := u.(q := u.q.(queue := s.q.queue[at.value := Rewrite(row, newText)]));
        PromoteTwins(u, u.(cells := t.cells), env);
        PromoteTwins(v, v.(cells := t.cells), env);
      }
    case DoHold(_) =>
    case DoRelease(id) =>
      if id.Some? {
        var u := s.(q := s.q.(holds := s.q.holds - {id.value}));
        PromoteTwins(u, u.(cells := t.cells), env);
      }
    case DoReorder(ids) =>
      var u := s.(q := s.q.(queue := Named(s.q.queue, ids) + Unnamed(s.q.queue, ids)));
      PromoteTwins(u, u.(cells := t.cells), env);
    case DoClear => DiscardTwins(s, t);
  }

  lemma ClaimedTwins(s: State, t: State, messageId: nat, turn: int)
    requires Twins(s, t)
    ensures Twins(Claimed(s, messageId, turn), Claimed(t, messageId, turn))
  {
  }

  /** What a step does to the queue does not depend on what was answered. */
  lemma {:induction false} StepTwins(s: State, t: State, a: Action, env: Env)
    requires Twins(s, t) && Enabled(s, a)
    ensures Enabled(t, a) && Twins(Step(s, a, env), Step(t, a, env))
  {
    hide Submit, PredecessorDone, Prepared, PreparationAborted, ApplyControl, FlushDone, CancelPrompt, Advance,
      CancelAll, SettleInflight, Claimed;
    match a
    case ASubmit(_, _, _, _) => AdmissionTwins(s, t, a, env);
    case APredecessorDone(_) => AdmissionTwins(s, t, a, env);
    case APrepared(_, _) => AdmissionTwins(s, t, a, env);
    case APreparationFailed(_, _) => AdmissionTwins(s, t, a, env);
    case AControl(control) => ControlTwins(s, t, control, env);
    case AClaimed(messageId, turn) => ClaimedTwins(s, t, messageId, turn);
    case ATurnEnded(_, outcome) => InflightTwins(s, t, outcome);
    case ARunIdle => InflightTwins(s, t, Stopped(Cancelled));
    case ADrainDone =>
    case AFlushDone(flushOk) => FlushTwins(s, t, flushOk, env);
    case APromotionIdle => AdvanceTwins(s.(q := s.q.(scheduled := false)), t.(q := t.q.(scheduled := false)), env);
    case ACancelAll => CancelTwins(s, t);
    case ACancelPrompt(id) => CancelPromptTwins(s, t, id, env);
    case ADispose => CancelTwins(s, t);
    case ABeginReload => CancelTwins(s, t);
    case AReloadFailed =>
    case ALose =>
  }

  lemma {:induction false} RunTwins(s: State, t: State, actions: seq<(Action, Env)>)
    requires Twins(s, t) && RunFrom(s, actions)
    ensures RunFrom(t, actions) && Twins(After(s, actions), After(t, actions))
    decreases |actions|
  {
    hide Twins, Step, Enabled;
    if actions != [] {
      StepTwins(s, t, actions[0].0, actions[0].1);
      RunTwins(Step(s, actions[0].0, actions[0].1), Step(t, actions[0].0, actions[0].1), actions[1..]);
    }
  }

  // ----- Settled prompts -----

  /** The same state with another answer, or none, for `r`. */
  ghost function With(s: State, r: Rpc, answer: Option<Outcome>): State
    requires r < |s.cells|
  {
    s.(cells := s.cells[r := answer])
  }

  lemma {:induction false} RunAnswered(s: State, actions: seq<(Action, Env)>, r: Rpc)
    requires RunFrom(s, actions) && r < |s.cells| && s.cells[r].Some?
    ensures var t := After(s, actions); r < |t.cells| && t.cells[r] == s.cells[r]
    decreases |actions|
  {
    if actions != [] {
      FirstSettlementWins(s, actions[0].0, actions[0].1);
      hide Step, Enabled;
      RunAnswered(Step(s, actions[0].0, actions[0].1), actions[1..], r);
    }
  }

  lemma PlacedOrNot(s: State, r: Rpc)
    ensures Places(s, r) > 0 <==> Preparing(s.a.slots, r) || r in Holding(s)
  {
    assert InQueue(s, r) <==> r in Rpcs(s.q.queue);
    assert IsSteered(s, r) <==> r in SteeredRpcs(s.q.steered);
  }

  /** A settled prompt without a place may have any answer. */
  lemma OtherAnswer(s: State, r: Rpc, outcome: Outcome)
    requires Inv(s) && r < |s.cells| && s.cells[r].Some? && Places(s, r) == 0
    ensures Inv(With(s, r, Some(outcome))) && Twins(s, With(s, r, Some(outcome)))
  {
    PlacedOrNot(s, r);
    hide Epochs, Chain, Admissions, Ordered, StartedLeft, Serial, RowsNamed, SteeredNamed, RunNamed, Slotted, Disjoint, Distinct,
      Rpcs, SteeredRpcs, Places;
  }

  /** A prompt that keeps its place may as well be unsettled. */
  lemma NoAnswer(s: State, r: Rpc)
    requires Inv(s) && r < |s.cells| && Places(s, r) > 0
    ensures Inv(With(s, r, None)) && Twins(s, With(s, r, None))
  {
    PlacedOrNot(s, r);
    hide Epochs, Chain, Admissions, Ordered, StartedLeft, Serial, RowsNamed, SteeredNamed, RunNamed, Slotted, Disjoint, Distinct,
      Rpcs, SteeredRpcs, Places;
  }

  lemma TwinPlaces(s: State, t: State, r: Rpc)
    requires Twins(s, t)
    ensures Places(s, r) == Places(t, r)
  {
  }

  /** A settled prompt that is in no place never gets one again. */
  lemma {:induction false} NeverRegained(s: State, actions: seq<(Action, Env)>, r: Rpc)
    requires Inv(s) && RunFrom(s, actions) && r < |s.cells| && s.cells[r].Some? && Places(s, r) == 0
    ensures Places(After(s, actions), r) == 0
  {
    var t := With(s, r, Some(Stopped(Cancelled)));
    OtherAnswer(s, r, Stopped(Cancelled));
    assert t.cells[r] == Some(Stopped(Cancelled));
    hide With, Places, Inv, Twins, Core;
    RunTwins(s, t, actions);
    RunKeeps(t, actions);
    RunAnswered(t, actions, r);
    assert Core(After(t, actions)) by { InvCore(After(t, actions)); }
    PlacesOf(After(t, actions), r);
    TwinPlaces(After(s, actions), After(t, actions), r);
  }

  lemma InvCore(s: State)
    requires Inv(s)
    ensures Core(s)
  {
  }

  /**
   * The row a failed steering leaves behind goes on exactly as if its prompt
   * were unsettled: it has a place as long as the prompt would have no answer,
   * and none once it would have one other than a steering failing again.
   */
  lemma {:induction false} RowGoesOn(s: State, actions: seq<(Action, Env)>, r: Rpc)
    requires Inv(s) && RunFrom(s, actions) && r < |s.cells| && Places(s, r) > 0
    ensures var unsettled := With(s, r, None);
            && RunFrom(unsettled, actions)
            && var t, u := After(s, actions), After(unsettled, actions);
            && t.q == u.q && t.a == u.a && t.log == u.log && r < |u.cells|
            && (u.cells[r].None? ==> Places(t, r) == 1)
            && (u.cells[r].Some? && u.cells[r] != Some(Rejected([SteerFailed])) ==> Places(t, r) == 0)
  {
    var twin := With(s, r, None);
    NoAnswer(s, r);
    assert |twin.cells| == |s.cells|;
    hide With, Places, Inv, Core;
    RunTwins(s, twin, actions);
    RunKeeps(twin, actions);
    RunLonger(twin, actions);
    InvCore(After(twin, actions));
    PlacesOf(After(twin, actions), r);
    TwinPlaces(After(s, actions), After(twin, actions), r);
  }

  lemma {:induction false} RunLonger(s: State, actions: seq<(Action, Env)>)
    requires RunFrom(s, actions)
    ensures |s.cells| <= |After(s, actions).cells|
    decreases |actions|
  {
    if actions != [] {
      FirstSettlementWins(s, actions[0].0, actions[0].1);
      hide Step, Enabled;
      RunLonger(Step(s, actions[0].0, actions[0].1), actions[1..]);
    }
  }

  /**
   * In every run a settled prompt that still has a place was answered by a
   * failed steering and has had a place at every moment since.
   */
  lemma {:induction false} SettledPlace(combineQueued: bool, followUpSteer: bool, before: seq<(Action, Env)>,
                                        after: seq<(Action, Env)>, r: Rpc)
    requires RunFrom(Initial(combineQueued, followUpSteer), before)
    requires RunFrom(After(Initial(combineQueued, followUpSteer), before), after)
    requires var s := After(Initial(combineQueued, followUpSteer), before); r < |s.cells| && s.cells[r].Some?
    ensures var s := After(Initial(combineQueued, followUpSteer), before);
            Places(After(s, after), r) > 0 ==> Places(s, r) == 1 && s.cells[r] == Some(Rejected([SteerFailed]))
  {
    hide Step, Enabled;
    InitialInv(combineQueued, followUpSteer);
    RunKeeps(Initial(combineQueued, followUpSteer), before);
    hide Initial;
    var s := After(Initial(combineQueued, followUpSteer), before);
    hide After, RunFrom;
    PlacesOf(s, r);
    hide Places, Inv;
    if Places(s, r) == 0 { NeverRegained(s, after, r); }
  }

  // ----- A run that gets there -----

  /** The agent is idle and takes a turn, but refuses to steer. */
  const Refusing := Env(true, true, false, 0)

  function Prompted(id: Id, ready: bool): Slot {
    Slot(id, id, false, Queue, 0, false, false, ready, false, ready)
  }

  function Through(id: Id): Slot {
    Slot(id, id, false, Queue, 0, false, true, true, true, false)
  }

  const Turn := PromptState([], {}, [], Some("a"), Some(Inflight(0, "a", 0, None)), Some(Run(0, "a", Active)), false, false)

  const Ran := [Entered(0), Started(0, [Text("a")], None)]

  const Queued := Row(1, "b", "b", [Text("b")], 0, None)

  /** Prompt `a` runs and `b` is queued behind it. */
  const Behind := State(false, false, Turn.(queue := [Queued], scheduled := true),
                        Admission([Through("a"), Through("b")], map[], 0, 0), false, true, false, [None, None], Ran + [Entered(1)])

  /** The first prompt, up to its turn. */
  const First := [(ASubmit("a", "a", false, Queue), Refusing), (APredecessorDone(0), Refusing), (APrepared(0, [Text("a")]), Refusing)]

  const Second := [(ASubmit("b", "b", false, Queue), Refusing), (APredecessorDone(1), Refusing), (APrepared(1, [Text("b")]), Refusing)]

  lemma RunThree(s: State, actions: seq<(Action, Env)>)
    requires |actions| == 3 && Enabled(s, actions[0].0)
    requires var t := Step(s, actions[0].0, actions[0].1);
             Enabled(t, actions[1].0) && Enabled(Step(t, actions[1].0, actions[1].1), actions[2].0)
    ensures RunFrom(s, actions)
    ensures var t := Step(s, actions[0].0, actions[0].1);
            After(s, actions) == Step(Step(t, actions[1].0, actions[1].1), actions[2].0, actions[2].1)
  {
    hide Step, Enabled;
    var t := Step(s, actions[0].0, actions[0].1);
    var u := Step(t, actions[1].0, actions[1].1);
    assert actions[1..][1..] == [actions[2]] && actions[1..][1..][1..] == [];
    assert RunFrom(u, [actions[2]]) && RunFrom(t, actions[1..]);
    var end := Step(u, actions[2].0, actions[2].1);
    assert end == After(end, []) == After(u, [actions[2]]);
    assert After(t, actions[1..]) == After(u, actions[1..][1..]);
  }

  const Calm := State(false, false, Turn, Admission([Through("a")], map[], 0, 0), false, true, false, [None], Ran)

  lemma FirstRuns()
    ensures RunFrom(Initial(false, false), First) && After(Initial(false, false), First) == Calm
  {
    var s := Initial(false, false);
    var t := s.(a := Admission([Prompted("a", false)], map["a" := 0], 1, 0), cells := [None]);
    assert Step(s, First[0].0, Refusing) == t by { assert s.a.slots + [Prompted("a", false)] == [Prompted("a", false)]; }
    var u := t.(a := t.a.(slots := [Prompted("a", true)]));
    assert Step(t, First[1].0, Refusing) == u;
    assert Step(u, First[2].0, Refusing) == Calm by { FirstStarts(u); }
    hide Step, Enabled;
    RunThree(s, First);
  }

  lemma FirstStarts(u: State)
    requires u == Initial(false, false).(a := Admission([Prompted("a", true)], map["a" := 0], 1, 0), cells := [None])
    ensures Prepared(u, 0, [Text("a")], Refusing) == Calm
  {
    hide HasImage;
    var row := Row(0, "a", "a", [Text("a")], 0, None);
    assert u.a.preparing - {"a"} == map[];
    assert [] + [row] == [row] && [row][1..] == [] && [row][1..1] == [] && Rpcs([]) == {};
    assert u.log + [Entered(0)] + [Started(0, [Text("a")], None)] == Ran;
    assert Resolve([None], {}, Stopped(Cancelled)) == [None];
    assert TurnSize([row], {}, false) == 1;
  }

  lemma SecondQueues()
    ensures RunFrom(Calm, Second) && After(Calm, Second) == Behind
  {
    var s := Calm;
    var t := s.(a := Admission([Through("a"), Prompted("b", false)], map["b" := 1], 1, 0), cells := [None, None]);
    assert Step(s, Second[0].0, Refusing) == t by {
      assert s.a.slots + [Prompted("b", false)] == t.a.slots && s.cells + [None] == t.cells;
    }
    var u := t.(a := t.a.(slots := [Through("a"), Prompted("b", true)]));
    assert Step(t, Second[1].0, Refusing) == u;
    assert Step(u, Second[2].0, Refusing) == Behind by {
      assert u.a.preparing - {"b"} == map[];
      assert u.q.queue + [Queued] == [Queued];
    }
    hide Step, Enabled;
    RunThree(s, Second);
  }

  /** Steering `b` fails: its client is told so, and its row stays in the queue. */
  lemma {:induction false} FailedSteeringKeepsRow()
    ensures RunFrom(Initial(false, false), First) && RunFrom(After(Initial(false, false), First), Second)
    ensures var s := After(After(Initial(false, false), First), Second);
            var t := Step(s, AControl(DoSteer(Some("b"), 0)), Refusing);
            && |s.cells| == 2 && s.cells[1].None? && |t.cells| == 2
            && t.cells[1] == Some(Rejected([SteerFailed])) && Places(t, 1) == 1
  {
    FirstRuns();
    SecondQueues();
    hide RunFrom, After;
    var t := Step(Behind, AControl(DoSteer(Some("b"), 0)), Refusing);
    assert Locate([Queued], "b") == Some(0);
    assert t.q.queue == [Queued] && t.q.run == Turn.run && t.q.steered == [] && t.a == Behind.a;
    assert t.cells == [None, Some(Rejected([SteerFailed]))];
    assert Queued in t.q.queue;
  }
}
