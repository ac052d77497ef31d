/** First settlement wins: once an RPC of the prompt queue has settled, no later step changes its answer. */
module PromptQueueSettlement {
  import opened Options
  import opened PromptQueueModel
  import opened PromptQueueSafety

  /** `after` answers every RPC of `before` that was already answered the same way. */
  ghost predicate Kept(before: seq<Option<Outcome>>, after: seq<Option<Outcome>>) {
    |before| <= |after| && forall i :: 0 <= i < |before| && before[i].Some? ==> after[i] == before[i]
  }

  lemma ResolveKept(cells: seq<Option<Outcome>>, rpcs: set<Rpc>, outcome: Outcome)
    ensures Kept(cells, Resolve(cells, rpcs, outcome))
  {
  }

  lemma KeptThrough(a: seq<Option<Outcome>>, b: seq<Option<Outcome>>, c: seq<Option<Outcome>>)
    requires Kept(a, b) && Kept(b, c)
    ensures Kept(a, c)
  {
  }

  lemma AdvanceKept(s: State, env: Env)
    ensures Kept(s.cells, Advance(s, env).cells)
  {
    hide Rpcs, Texts, RunContent, Resolve, HasImage, Parked, TurnSize, Kept;
    ResolveKept(s.cells, {}, Stopped(Cancelled));
    assert Kept(s.cells, s.cells) by { SameKept(s.cells); }
    if s.q.inflight.None? && s.q.runningId.None? && s.q.queue != [] && !Parked(s) {
      FollowersFit(s.q.queue[1..], s.q.holds);
      var n := TurnSize(s.q.queue, s.q.holds, s.combineQueued);
      TurnIsMaximal(s.q.queue, s.q.holds, s.combineQueued);
      ResolveKept(s.cells, Rpcs(s.q.queue[1..n]), Stopped(Cancelled));
    }
  }

  lemma SameKept(cells: seq<Option<Outcome>>)
    ensures Kept(cells, cells)
  {
  }

  lemma PromoteKept(s: State, env: Env)
    ensures Kept(s.cells, Promote(s, env).cells)
  {
    hide Advance, Kept;
    SameKept(s.cells);
    AdvanceKept(s, env);
  }

  lemma SettleInflightKept(s: State, outcome: Outcome)
    ensures SettleInflight(s, outcome).cells == s.cells
  {
  }

  lemma RetireKept(s: State, i: Rpc)
    requires i < |s.a.slots|
    ensures Retire(s, i).cells == s.cells
  {
  }

  lemma FailKept(s: State, i: Rpc, abort: Abort)
    requires i < |s.a.slots|
    ensures Kept(s.cells, FailSlot(s, i, abort).cells)
  {
    hide Retire, Resolve, Kept;
    SameKept(s.cells);
    var t := Settle(s, i, AbortOutcome(abort));
    ResolveKept(s.cells, {i}, AbortOutcome(abort));
    RetireKept(t, i);
  }

  lemma EnqueueKept(s: State, i: Rpc, content: seq<Block>, env: Env)
    requires i < |s.a.slots|
    ensures Kept(s.cells, Enqueue(s, i, content, env).cells)
  {
    hide Promote, SettleInflight, Resolve, Kept;
    SameKept(s.cells);
    var slot := s.a.slots[i];
    var row := Row(i, slot.id, slot.text, content, 0, None);
    var t := s.(log := s.log + [Entered(i)]);
    ResolveKept(s.cells, {i}, Rejected([SteerFailed]));
    SettleInflightKept(t.(q := t.q.(queue := [row] + t.q.queue, sendNowTrigger := true)), Stopped(Cancelled));
    PromoteKept(t.(q := t.q.(queue := t.q.queue + [row])), env);
  }

  lemma AdmissionKept(s: State, a: Action, env: Env)
    requires Enabled(s, a) && (a.ASubmit? || a.APredecessorDone? || a.APrepared? || a.APreparationFailed?)
    ensures Kept(s.cells, Step(s, a, env).cells)
  {
    hide Kept, Enqueue, FailSlot, Retire, Accepts;
    SameKept(s.cells);
    match a
    case ASubmit(_, _, _, _) => Grown(s.cells);
    case APredecessorDone(i) =>
      var t := s.(a := s.a.(slots := s.a.slots[i := s.a.slots[i].(predecessorDone := true)]));
      if AssertActive(t, i).Some? { FailKept(t, i, AssertActive(t, i).value); }
    case APrepared(i, content) =>
      var t := s.(a := s.a.(slots := s.a.slots[i := s.a.slots[i].(io := false)]));
      if AssertActive(t, i).Some? { FailKept(t, i, AssertActive(t, i).value); }
      RetireKept(t, i);
      RetireCount(t, i);
      EnqueueKept(Retire(t, i), i, content, env);
    case APreparationFailed(i, abort) => FailKept(s.(a := s.a.(slots := s.a.slots[i := s.a.slots[i].(io := false)])), i, abort);
  }

  lemma RetireCount(s: State, i: Rpc)
    requires i < |s.a.slots|
    ensures |Retire(s, i).a.slots| == |s.a.slots|
  {
  }

  lemma Grown(cells: seq<Option<Outcome>>)
    ensures Kept(cells, cells + [None])
  {
  }

  lemma FlushKept(s: State, flushOk: bool, env: Env)
    ensures Kept(s.cells, FlushDone(s, flushOk, env).cells)
  {
    SameKept(s.cells);
    hide Kept, Resolve, Promote, SteeredRpcs;
    if s.q.run.Some? && s.q.run.value.phase.Flushing? {
      var t := Finished(s, flushOk);
      var run := s.q.run.value;
      var steered := Resolve(s.cells, SteeredRpcs(s.q.steered), Stopped(SteeredReason(run.phase.outcome)));
      ResolveKept(s.cells, SteeredRpcs(s.q.steered), Stopped(SteeredReason(run.phase.outcome)));
      ResolveKept(steered, {run.rpc}, RunOutcome(run.phase.outcome, flushOk));
      KeptThrough(s.cells, steered, t.cells);
      PromoteKept(t, env);
      KeptThrough(s.cells, t.cells, Promote(t, env).cells);
    }
  }

  lemma CancelKept(s: State)
    ensures Kept(s.cells, CancelAll(s).cells)
  {
    var t := s.(a := s.a.(epoch := s.a.epoch + 1), log := s.log + [CancelledAll(|s.a.slots|)]);
    SettleInflightKept(t, Stopped(Cancelled));
    hide Kept, Resolve, SettleInflight, Rpcs;
    ResolveKept(s.cells, Rpcs(SettleInflight(t, Stopped(Cancelled)).q.queue), Stopped(Cancelled));
  }

  /** One row is settled and the queue is served again. */
  lemma DropKept(s: State, t: State, r: Rpc, env: Env)
    requires t.cells == s.cells
    ensures Kept(s.cells, Promote(Settle(t, r, Stopped(Cancelled)), env).cells)
  {
    hide Kept, Resolve, Promote;
    ResolveKept(s.cells, {r}, Stopped(Cancelled));
    PromoteKept(Settle(t, r, Stopped(Cancelled)), env);
    KeptThrough(s.cells, Settle(t, r, Stopped(Cancelled)).cells, Promote(Settle(t, r, Stopped(Cancelled)), env).cells);
  }

  lemma CancelPromptKept(s: State, id: Id, env: Env)
    ensures Kept(s.cells, CancelPrompt(s, id, env).cells)
  {
    hide Kept, Resolve, Promote, SettleInflight, Retire;
    SameKept(s.cells);
    SettleInflightKept(s, Stopped(Cancelled));
    var at := LocateIn(s, Some(id));
    if at.Some? {
      DropKept(s, s.(q := s.q.(queue := Without(s.q.queue, at.value), holds := s.q.holds - {id})), s.q.queue[at.value].rpc, env);
    }
    if id in s.a.preparing && s.a.preparing[id] < |s.a.slots| {
      var i := s.a.preparing[id];
      var t := Settle(s.(a := s.a.(slots := s.a.slots[i := s.a.slots[i].(targeted := true)])), i, Stopped(Cancelled));
      ResolveKept(s.cells, {i}, Stopped(Cancelled));
      RetireKept(t, i);
    }
  }

  lemma InterjectKept(s: State, id: Option<Id>, expected: int, newText: Option<string>, env: Env)
    ensures Kept(s.cells, Interject(s, id, expected, newText, env).cells)
  {
    hide Kept, Promote, SettleInflight, Rewrite;
    var at := LocateIn(s, id);
    PromoteKept(Unhold(s, id), env);
    if at.Some? {
      var row := Rewrite(s.q.queue[at.value], newText);
      var t := s.(q := s.q.(queue := [row] + Without(s.q.queue, at.value), holds := s.q.holds - {row.id}));
      PromoteKept(t, env);
      SettleInflightKept(t.(q := t.q.(sendNowTrigger := true)), Stopped(Cancelled));
      SameKept(s.cells);
    }
  }

  lemma SteerRowKept(s: State, id: Option<Id>, expected: int, env: Env)
    ensures Kept(s.cells, SteerRow(s, id, expected, env).cells)
  {
    hide Kept, Promote, Resolve;
    var at := LocateIn(s, id);
    SameKept(s.cells);
    PromoteKept(Unhold(s, id), env);
    PromoteKept(s, env);
    if at.Some? { ResolveKept(s.cells, {s.q.queue[at.value].rpc}, Rejected([SteerFailed])); }
  }

  lemma RemoveKept(s: State, id: Option<Id>, expected: int, env: Env)
    ensures Kept(s.cells, Remove(s, id, expected, env).cells)
  {
    hide Kept, Promote, Resolve, SettleInflight;
    var at := LocateIn(s, id);
    PromoteKept(Unhold(s, id), env);
    PromoteKept(s, env);
    if at.Some? {
      var row := s.q.queue[at.value];
      DropKept(s, s.(q := s.q.(queue := Without(s.q.queue, at.value), holds := s.q.holds - {row.id})), row.rpc, env);
    } else {
      var t := SettleInflight(s, Stopped(Cancelled));
      SettleInflightKept(s, Stopped(Cancelled));
      PromoteKept(t.(q := t.q.(holds := t.q.holds - {if id.Some? then id.value else "undefined"})), env);
    }
  }

  lemma EditKept(s: State, id: Option<Id>, expected: Option<int>, newText: Option<string>, env: Env)
    ensures Kept(s.cells, Edit(s, id, expected, newText, env).cells)
  {
    hide Kept, Promote, Rewrite;
    SameKept(s.cells);
    var at := LocateIn(s, id);
    if at.Some? {
      var row := s.q.queue[at.value];
      var t := s.(q := s.q.(holds := s.q.holds - {row.id}));
      PromoteKept(t, env);
      PromoteKept(t.(q := t.q.(queue := s.q.queue[at.value := Rewrite(row, newText)])), env);
    }
  }

  lemma ControlKept(s: State, control: Control, env: Env)
    ensures Kept(s.cells, ApplyControl(s, control, env).cells)
  {
    SameKept(s.cells);
    hide Kept, Interject, SteerRow, Remove, Edit, Promote, Resolve, Named, Unnamed;
    match control
    case DoInterject(id, expected, newText) => InterjectKept(s, id, expected, newText, env);
    case DoSteer(id, expected) => SteerRowKept(s, id, expected, env);
    case DoRemove(id, expected) => RemoveKept(s, id, expected, env);
    case DoEdit(id, expected, newText) => EditKept(s, id, expected, newText, env);
    case DoHold(_) =>
    case DoRelease(id) => if id.Some? { PromoteKept(s.(q := s.q.(holds := s.q.holds - {id.value})), env); }
    case DoReorder(ids) => PromoteKept(s.(q := s.q.(queue := Named(s.q.queue, ids) + Unnamed(s.q.queue, ids))), env);
    case DoClear => ResolveKept(s.cells, Rpcs(s.q.queue), Stopped(Cancelled));
  }

  /** No step changes the answer of an RPC that has one. */
  lemma {:induction false} FirstSettlementWins(s: State, a: Action, env: Env)
    requires Enabled(s, a)
    ensures Kept(s.cells, Step(s, a, env).cells)
  {
    SameKept(s.cells);
    hide Kept, Submit, PredecessorDone, Prepared, PreparationAborted, ApplyControl, Claimed, FlushDone, CancelAll,
      CancelPrompt, SettleInflight, Advance;
    match a
    case ASubmit(_, _, _, _) => AdmissionKept(s, a, env);
    case APredecessorDone(_) => AdmissionKept(s, a, env);
    case APrepared(_, _) => AdmissionKept(s, a, env);
    case APreparationFailed(_, _) => AdmissionKept(s, a, env);
    case AControl(control) => ControlKept(s, control, env);
    case AClaimed(messageId, turn) => ClaimedSame(s, messageId, turn);
    case ATurnEnded(turn, outcome) => SettleInflightKept(s, outcome);
    case ARunIdle => SettleInflightKept(s, Stopped(Cancelled));
    case ADrainDone =>
    case AFlushDone(flushOk) => FlushKept(s, flushOk, env);
    case APromotionIdle => AdvanceKept(s.(q := s.q.(scheduled := false)), env);
    case ACancelAll => CancelKept(s);
    case ACancelPrompt(id) => CancelPromptKept(s, id, env);
    case ADispose => CancelKept(s);
    case ABeginReload => CancelKept(s);
    case AReloadFailed =>
    case ALose =>
  }

  lemma ClaimedSame(s: State, messageId: nat, turn: int)
    ensures Claimed(s, messageId, turn).cells == s.cells
  {
  }
}
