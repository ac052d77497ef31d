/**
 * In which order prompts run: one that jumps the queue runs next, and without
 * jumps or reorders prompts run in the order they entered.
 */
module PromptQueueOrder {
  import opened Options
  import opened PromptQueueModel
  import opened PromptQueueSafety
  import opened PromptQueueAnswers

  // ----- Who runs next -----

  /** The first prompt started since the history was `n` long. */
  function FirstStart(log: seq<Event>, n: nat): Option<Rpc> {
    if |log| <= n then None
    else
      var earlier := FirstStart(log[..|log| - 1], n);
      if earlier.Some? then earlier else if log[|log| - 1].Started? then Some(log[|log| - 1].rpc) else None
  }

  lemma FirstStartNext(log: seq<Event>, e: Event, n: nat)
    requires n <= |log|
    ensures FirstStart(log + [e], n)
            == if FirstStart(log, n).Some? then FirstStart(log, n) else if e.Started? then Some(e.rpc) else None
  {
    assert (log + [e])[..|log|] == log;
  }

  predicate AtFront(q: PromptState, i: Rpc) {
    q.queue != [] && q.queue[0].rpc == i && q.inflight.None?
  }

  /** Since then `i` was the first to start, or none was and `i` is at the front with no turn under way. */
  ghost predicate Next(s: State, n: nat, i: Rpc) {
    n <= |s.log| && (FirstStart(s.log, n) == Some(i) || (FirstStart(s.log, n).None? && AtFront(s.q, i)))
  }

  /** `i` jumps the queue: a send-now prompt entering beside a turn, or an interjected row. */
  ghost predicate JumpsQueue(s: State, a: Action, i: Rpc) {
    match a
    case APrepared(slot, _) => slot == i && Jumps(s, a) && s.q.inflight.Some?
    case AControl(control) => control.DoInterject? && Controllable(s) && PicksRow(s, control.id, control.expectedVersion, i)
    case _ => false
  }

  /** What may take the place of `i`: another interjection, a reorder, or a cancellation or removal that reaches it. */
  predicate Displaces(s: State, a: Action, i: Rpc) {
    match a
    case ACancelAll => true
    case ABeginReload => true
    case ADispose => true
    case ACancelPrompt(id) => i < |s.a.slots| && id == s.a.slots[i].id
    case AControl(control) =>
      match control {
        case DoInterject(id, _, _) => !(i < |s.a.slots| && id == Some(s.a.slots[i].id))
        case DoReorder(_) => true
        case DoClear => true
        case DoRemove(id, _) => i < |s.a.slots| && id == Some(s.a.slots[i].id)
        case _ => false
      }
    case _ => false
  }

  /** A step that starts nothing and leaves `i` at the front, and then may promote. */
  lemma ThenNext(s: State, u: State, env: Env, n: nat, i: Rpc)
    requires Next(s, n, i) && Quiet(s.log, u.log) && (AtFront(s.q, i) ==> AtFront(u.q, i))
    ensures Next(u, n, i) && Next(Promote(u, env), n, i)
  {
    assert Next(u, n, i) by {
      if u.log != s.log {
        assert u.log == s.log + [u.log[|s.log|]];
        FirstStartNext(s.log, u.log[|s.log|], n);
      }
    }
    hide Next;
    PromoteNext(u, env, n, i);
  }

  lemma PromoteNext(s: State, env: Env, n: nat, i: Rpc)
    requires Next(s, n, i)
    ensures Next(Promote(s, env), n, i)
  {
    AdvanceNext(s, env, n, i);
    AdvanceNext(s.(q := s.q.(scheduled := true)), env, n, i);
    hide Advance, FirstStart;
  }

  lemma AdvanceNext(s: State, env: Env, n: nat, i: Rpc)
    requires Next(s, n, i)
    ensures Next(Advance(s, env), n, i)
  {
    hide Rpcs, Texts, RunContent, HasImage, Followers, Resolve, FirstStart;
    if s.q.inflight.None? && s.q.runningId.None? && s.q.queue != [] && !Parked(s) {
      FollowersFit(s.q.queue[1..], s.q.holds);
      var t := Advance(s, env);
      FirstStartNext(s.log, t.log[|s.log|], n);
      assert t.log == s.log + [t.log[|s.log|]];
    }
  }

  lemma SameQueueNext(s: State, u: State, env: Env, n: nat, i: Rpc)
    requires Next(s, n, i) && Quiet(s.log, u.log) && u.q.queue == s.q.queue && (s.q.inflight.None? ==> u.q.inflight.None?)
    ensures Next(u, n, i) && Next(Promote(u, env), n, i)
  {
    ThenNext(s, u, env, n, i);
    hide Next, Promote;
  }

  lemma LastNext(s: State, row: Row, e: Event, env: Env, n: nat, i: Rpc)
    requires Next(s, n, i) && !e.Started?
    ensures Next(Promote(s.(log := s.log + [e], q := s.q.(queue := s.q.queue + [row])), env), n, i)
  {
    hide Next, Promote;
    ThenNext(s, s.(log := s.log + [e], q := s.q.(queue := s.q.queue + [row])), env, n, i);
  }

  lemma FrontNext(s: State, row: Row, e: Event, env: Env, n: nat, i: Rpc)
    requires Next(s, n, i) && !e.Started? && s.q.inflight.Some?
    ensures var jumped := s.(log := s.log + [e], q := s.q.(queue := [row] + s.q.queue, sendNowTrigger := true));
            Next(SettleInflight(jumped, Stopped(Cancelled)), n, i)
  {
    var u := s.(log := s.log + [e], q := s.q.(queue := [row] + s.q.queue, sendNowTrigger := true));
    FrontStays(u);
    hide Next, Promote, SettleInflight;
    ThenNext(s, SettleInflight(u, Stopped(Cancelled)), env, n, i);
  }

  lemma EntersNext(s: State, i: Rpc, content: seq<Block>, env: Env, n: nat, j: Rpc)
    requires Next(s, n, j) && i < |s.a.slots|
    ensures Next(Enqueue(s, i, content, env), n, j)
  {
    var slot := s.a.slots[i];
    var row := Row(i, slot.id, slot.text, content, 0, None);
    hide Promote, Next, Resolve, FirstStart, SettleInflight;
    if slot.sendNow && s.q.inflight.Some? {
      FrontNext(s, row, Entered(i), env, n, j);
    } else if SteersThis(s, slot) && s.q.inflight.Some? {
      SameQueueNext(s, Enqueue(s, i, content, env), env, n, j);
    } else {
      LastNext(s, row, Entered(i), env, n, j);
    }
  }

  lemma PreparedNext(s: State, i: Rpc, content: seq<Block>, env: Env, n: nat, j: Rpc)
    requires Next(s, n, j) && Enabled(s, APrepared(i, content))
    ensures Next(Prepared(s, i, content, env), n, j)
  {
    var t := s.(a := s.a.(slots := s.a.slots[i := s.a.slots[i].(io := false)]));
    SameQueueNext(s, t, env, n, j);
    hide Next, Resolve, Enqueue;
    if !t.a.slots[i].retired {
      if AssertActive(t, i).None? {
        SameQueueNext(s, Retire(t, i), env, n, j);
        EntersNext(Retire(t, i), i, content, env, n, j);
      } else {
        SameQueueNext(s, FailSlot(t, i, AssertActive(t, i).value), env, n, j);
      }
    }
  }

  lemma StillNext(s: State, a: Action, env: Env, n: nat, i: Rpc)
    requires Next(s, n, i) && Enabled(s, a) && Still(a)
    ensures Next(Step(s, a, env), n, i)
  {
    StepStill(s, a, env);
    hide Next, Step;
    SameQueueNext(s, Step(s, a, env), env, n, i);
  }

  lemma TurnNext(s: State, a: Action, env: Env, n: nat, i: Rpc)
    requires Next(s, n, i) && Enabled(s, a) && (a.AClaimed? || a.ATurnEnded? || a.ARunIdle? || a.ADrainDone?)
    ensures Next(Step(s, a, env), n, i)
  {
    hide Next;
    SameQueueNext(s, Step(s, a, env), env, n, i);
  }

  lemma FlushNext(s: State, flushOk: bool, env: Env, n: nat, i: Rpc)
    requires Next(s, n, i) && Enabled(s, AFlushDone(flushOk))
    ensures Next(FlushDone(s, flushOk, env), n, i)
  {
    hide Next, Promote, SteeredRpcs, Resolve;
    ThenNext(s, Finished(s, flushOk), env, n, i);
  }

  lemma IdleNext(s: State, env: Env, n: nat, i: Rpc)
    requires Next(s, n, i)
    ensures Next(PromotionIdle(s, env), n, i)
  {
    var t := s.(q := s.q.(scheduled := false));
    ThenNext(s, t, env, n, i);
    AdvanceNext(t, env, n, i);
    hide Next, Advance;
  }

  /** The row of another id is not the front one. */
  lemma NotFront(s: State, id: Id, i: Rpc)
    requires Core(s) && AtFront(s.q, i) && LocateIn(s, Some(id)).Some? && !(i < |s.a.slots| && id == s.a.slots[i].id)
    ensures LocateIn(s, Some(id)).value > 0
  {
    CorePlaces(s);
    assert s.q.queue[0] in s.q.queue;
    hide Core, Disjoint, Distinct, Accounted;
  }

  lemma CancelPromptNext(s: State, id: Id, env: Env, n: nat, i: Rpc)
    requires Core(s) && Next(s, n, i) && !Displaces(s, ACancelPrompt(id), i)
    ensures Next(CancelPrompt(s, id, env), n, i)
  {
    var at := LocateIn(s, Some(id));
    if AtFront(s.q, i) && at.Some? { NotFront(s, id, i); }
    hide Core, Next, Promote, Locate, AtFront, Settle, Without, SettleInflight, Target;
    if s.disposed || !s.live {
    } else if s.q.inflight.Some? && s.q.inflight.value.id == id {
      HaltNext(s, env, n, i);
    } else if at.Some? {
      DropNext(s, at.value, s.q.holds - {id}, env, n, i);
    } else if id in s.a.preparing && s.a.preparing[id] < |s.a.slots| {
      TargetNext(s, s.a.preparing[id], env, n, i);
    }
  }

  lemma HaltNext(s: State, env: Env, n: nat, i: Rpc)
    requires Next(s, n, i)
    ensures Next(SettleInflight(s, Stopped(Cancelled)), n, i)
  {
    FrontStays(s);
    hide Next, SettleInflight;
    ThenNext(s, SettleInflight(s, Stopped(Cancelled)), env, n, i);
  }

  lemma TargetNext(s: State, slot: Rpc, env: Env, n: nat, i: Rpc)
    requires Next(s, n, i) && slot < |s.a.slots|
    ensures Next(Target(s, slot), n, i)
  {
    TargetLeaves(s, slot);
    hide Next, Target;
    SameQueueNext(s, Target(s, slot), env, n, i);
  }

  // ----- Row controls -----

  lemma PutFirstNext(s: State, row: Row, rest: seq<Row>, holds: set<Id>, env: Env, n: nat, i: Rpc)
    requires Next(s, n, i) && (AtFront(s.q, i) ==> row.rpc == i)
    ensures var t := s.(q := s.q.(queue := [row] + rest, holds := holds));
            && Next(Promote(t, env), n, i)
            && (s.q.inflight.Some? ==> Next(SettleInflight(t.(q := t.q.(sendNowTrigger := true)), Stopped(Cancelled)), n, i))
  {
    var t := s.(q := s.q.(queue := [row] + rest, holds := holds));
    var u := t.(q := t.q.(sendNowTrigger := true));
    FrontStays(u);
    hide Next, Promote, SettleInflight;
    ThenNext(s, t, env, n, i);
    if s.q.inflight.Some? { ThenNext(s, SettleInflight(u, Stopped(Cancelled)), env, n, i); }
  }

  lemma InterjectNext(s: State, id: Option<Id>, expected: int, newText: Option<string>, env: Env, n: nat, i: Rpc)
    requires Core(s) && Next(s, n, i) && i < |s.a.slots| && id == Some(s.a.slots[i].id)
    ensures Next(Interject(s, id, expected, newText, env), n, i)
  {
    if AtFront(s.q, i) { FrontLocated(s, i); }
    var at := LocateIn(s, id);
    hide Core, Next, Promote, Rewrite, Locate, SettleInflight;
    if at.None? || s.q.queue[at.value].version != expected {
      ThenNext(s, Unhold(s, id), env, n, i);
    } else {
      SameRow(s.q.queue[at.value], newText);
      hide LocateIn;
      var row := Rewrite(s.q.queue[at.value], newText);
      PutFirstNext(s, row, Without(s.q.queue, at.value), s.q.holds - {row.id}, env, n, i);
    }
  }

  lemma FrontLocated(s: State, i: Rpc)
    requires Core(s) && AtFront(s.q, i)
    ensures i < |s.a.slots| && LocateIn(s, Some(s.a.slots[i].id)) == Some(0)
  {
    CorePlaces(s);
    assert s.q.queue[0] in s.q.queue;
    hide Core, Disjoint, Distinct, Accounted;
  }

  lemma SameRow(row: Row, newText: Option<string>)
    ensures Rewrite(row, newText).rpc == row.rpc && Rewrite(row, newText).id == row.id
  {
  }

  lemma FrontStays(s: State)
    ensures var t := SettleInflight(s, Stopped(Cancelled));
            t.q.queue == s.q.queue && t.log == s.log && (s.q.inflight.None? || s.q.run.Some? ==> t.q.inflight.None?)
  {
  }

  lemma DropNext(s: State, k: nat, holds: set<Id>, env: Env, n: nat, i: Rpc)
    requires Next(s, n, i) && k < |s.q.queue| && (AtFront(s.q, i) ==> k > 0)
    ensures var rest := s.(q := s.q.(queue := Without(s.q.queue, k), holds := holds));
            Next(Promote(Settle(rest, s.q.queue[k].rpc, Stopped(Cancelled)), env), n, i)
  {
    hide Next, Promote, Resolve;
    ThenNext(s, Settle(s.(q := s.q.(queue := Without(s.q.queue, k), holds := holds)), s.q.queue[k].rpc, Stopped(Cancelled)), env, n, i);
  }

  lemma StopNext(s: State, id: Id, env: Env, n: nat, i: Rpc)
    requires Next(s, n, i)
    ensures var t := SettleInflight(s, Stopped(Cancelled)); Next(Promote(t.(q := t.q.(holds := t.q.holds - {id})), env), n, i)
  {
    FrontStays(s);
    hide Next, Promote, SettleInflight;
    var t := SettleInflight(s, Stopped(Cancelled));
    ThenNext(s, t.(q := t.q.(holds := t.q.holds - {id})), env, n, i);
  }

  lemma RemoveNext(s: State, id: Option<Id>, expected: int, env: Env, n: nat, i: Rpc)
    requires Core(s) && Next(s, n, i) && !(i < |s.a.slots| && id == Some(s.a.slots[i].id))
    ensures Next(Remove(s, id, expected, env), n, i)
  {
    var at := LocateIn(s, id);
    if AtFront(s.q, i) && at.Some? { NotFront(s, id.value, i); }
    hide Core, Next, Promote, Resolve, Locate, SettleInflight, AtFront, Settle, Without;
    if at.Some? && s.q.queue[at.value].version != expected {
      UnholdNext(s, id, env, n, i);
    } else if at.Some? {
      DropNext(s, at.value, s.q.holds - {s.q.queue[at.value].id}, env, n, i);
    } else if s.q.runningId == id {
      StopNext(s, if id.Some? then id.value else "undefined", env, n, i);
    } else {
      ThenNext(s, s, env, n, i);
    }
  }

  lemma UnholdNext(s: State, id: Option<Id>, env: Env, n: nat, i: Rpc)
    requires Next(s, n, i)
    ensures Next(Promote(Unhold(s, id), env), n, i)
  {
    hide Next, Promote;
    ThenNext(s, Unhold(s, id), env, n, i);
  }

  lemma SteerNext(s: State, id: Option<Id>, expected: int, env: Env, n: nat, i: Rpc)
    requires Next(s, n, i)
    ensures Next(SteerRow(s, id, expected, env), n, i)
  {
    hide Next, Promote, Resolve, Locate;
    var at := LocateIn(s, id);
    if at.None? || s.q.queue[at.value].version != expected {
      ThenNext(s, Unhold(s, id), env, n, i);
    } else if s.q.inflight.None? {
      ThenNext(s, s, env, n, i);
    } else {
      ThenNext(s, SteerRow(s, id, expected, env), env, n, i);
    }
  }

  lemma EditNext(s: State, id: Option<Id>, pinned: Option<int>, newText: Option<string>, env: Env, n: nat, i: Rpc)
    requires Next(s, n, i)
    ensures Next(Edit(s, id, pinned, newText, env), n, i)
  {
    hide Next, Promote, Rewrite, Locate;
    var at := LocateIn(s, id);
    if at.Some? {
      var row := s.q.queue[at.value];
      SameRow(row, newText);
      var t := s.(q := s.q.(holds := s.q.holds - {row.id}));
      ThenNext(s, t, env, n, i);
      ThenNext(s, t.(q := t.q.(queue := s.q.queue[at.value := Rewrite(row, newText)])), env, n, i);
    }
  }

  lemma HoldNext(s: State, control: Control, env: Env, n: nat, i: Rpc)
    requires Next(s, n, i) && (control.DoHold? || control.DoRelease?)
    ensures Next(ApplyControl(s, control, env), n, i)
  {
    hide Next, Promote;
    ThenNext(s, s, env, n, i);
    ThenNext(s, HoldEdit(s, control.id), env, n, i);
    ThenNext(s, Unhold(s, control.id), env, n, i);
  }

  lemma ControlNext(s: State, control: Control, env: Env, n: nat, i: Rpc)
    requires Core(s) && Next(s, n, i) && !Displaces(s, AControl(control), i)
    ensures Next(ApplyControl(s, control, env), n, i)
  {
    hide Core, Next, Interject, SteerRow, Remove, Edit;
    if !Controllable(s) { return; }
    match control
    case DoInterject(id, expected, newText) => InterjectNext(s, id, expected, newText, env, n, i);
    case DoSteer(id, expected) => SteerNext(s, id, expected, env, n, i);
    case DoRemove(id, expected) => RemoveNext(s, id, expected, env, n, i);
    case DoEdit(id, pinned, newText) => EditNext(s, id, pinned, newText, env, n, i);
    case DoHold(_) => HoldNext(s, control, env, n, i);
    case DoRelease(_) => HoldNext(s, control, env, n, i);
  }

  lemma {:induction false} StepNext(s: State, a: Action, env: Env, n: nat, i: Rpc)
    requires Core(s) && Next(s, n, i) && Enabled(s, a) && !Displaces(s, a, i)
    ensures Next(Step(s, a, env), n, i)
  {
    hide Core, Next, Displaces, ApplyControl, FlushDone, PromotionIdle, CancelPrompt, Submit, PredecessorDone, Prepared,
      PreparationAborted, Claimed, TurnEnded, RunIdle, DrainDone;
    match a
    case AControl(control) => ControlNext(s, control, env, n, i);
    case AFlushDone(flushOk) => FlushNext(s, flushOk, env, n, i);
    case APromotionIdle => IdleNext(s, env, n, i);
    case ACancelPrompt(id) => CancelPromptNext(s, id, env, n, i);
    case APrepared(slot, content) => PreparedNext(s, slot, content, env, n, i);
    case _ =>
      WholeDisplaces(s, a, i);
      if Still(a) { StillNext(s, a, env, n, i); } else { TurnNext(s, a, env, n, i); }
  }

  lemma WholeDisplaces(s: State, a: Action, i: Rpc)
    requires !Displaces(s, a, i)
    ensures !a.ACancelAll? && !a.ABeginReload? && !a.ADispose?
  {
  }

  ghost predicate Undisplaced(s: State, actions: seq<(Action, Env)>, i: Rpc)
    requires RunFrom(s, actions)
    decreases |actions|
  {
    actions == [] || (!Displaces(s, actions[0].0, i) && Undisplaced(Step(s, actions[0].0, actions[0].1), actions[1..], i))
  }

  lemma {:induction false} RunNext(s: State, actions: seq<(Action, Env)>, n: nat, i: Rpc)
    requires Inv(s) && RunFrom(s, actions) && Undisplaced(s, actions, i) && Next(s, n, i)
    ensures Next(After(s, actions), n, i)
    decreases |actions|
  {
    if actions != [] {
      InvIsCore(s);
      hide Inv, Core, Next, Step, Enabled, Displaces;
      StepKeeps(s, actions[0].0, actions[0].1);
      StepNext(s, actions[0].0, actions[0].1, n, i);
      RunNext(Step(s, actions[0].0, actions[0].1), actions[1..], n, i);
    }
  }

  lemma NoneYet(log: seq<Event>)
    ensures FirstStart(log, |log|).None?
  {
  }

  lemma PreparedJumps(s: State, i: Rpc, content: seq<Block>, env: Env)
    requires Core(s) && Enabled(s, APrepared(i, content)) && Admitted(s, i) && s.a.slots[i].sendNow && s.q.inflight.Some?
    ensures Next(Prepared(s, i, content, env), |s.log|, i)
  {
    CoreDependents(s);
    hide Core;
    NoneYet(s.log);
    FirstStartNext(s.log, Entered(i), |s.log|);
    hide FirstStart;
    var t := Prepared(s, i, content, env);
    assert t.log == s.log + [Entered(i)];
  }

  lemma InterjectJumps(s: State, id: Option<Id>, expected: int, newText: Option<string>, env: Env, i: Rpc)
    requires Core(s) && PicksRow(s, id, expected, i)
    ensures Next(Interject(s, id, expected, newText, env), |s.log|, i)
  {
    PicksOne(s, id, expected, i);
    CoreDependents(s);
    NoneYet(s.log);
    hide Core, Promote, Rewrite, Locate, FirstStart, PicksRow;
    var at := LocateIn(s, id);
    SameRow(s.q.queue[at.value], newText);
    var row := Rewrite(s.q.queue[at.value], newText);
    var t := s.(q := s.q.(queue := [row] + Without(s.q.queue, at.value), holds := s.q.holds - {row.id}));
    if s.q.inflight.None? { PromoteNext(t, env, |s.log|, i); }
  }

  lemma JumpNext(s: State, a: Action, env: Env, i: Rpc)
    requires Core(s) && Enabled(s, a) && JumpsQueue(s, a, i)
    ensures Next(Step(s, a, env), |s.log|, i)
  {
    hide Core, Next, Prepared, Interject, PicksRow;
    match a
    case APrepared(slot, content) => PreparedJumps(s, i, content, env);
    case AControl(control) => InterjectJumps(s, control.id, control.expectedVersion, control.newText, env, i);
  }

  /**
   * In every run, a prompt that jumps the queue, by entering as send-now beside
   * a turn or by being interjected, is the next to start, unless another
   * interjection, a reorder, or a cancellation or removal that reaches it comes
   * before; and until it starts it is at the front.
   */
  lemma {:induction false} JumperRunsNext(combineQueued: bool, followUpSteer: bool, before: seq<(Action, Env)>, a: Action, env: Env, i: Rpc,
                                          after: seq<(Action, Env)>)
    requires RunFrom(Initial(combineQueued, followUpSteer), before)
    requires var s := After(Initial(combineQueued, followUpSteer), before);
             && Enabled(s, a) && JumpsQueue(s, a, i) && RunFrom(Step(s, a, env), after) && Undisplaced(Step(s, a, env), after, i)
    ensures var s := After(Initial(combineQueued, followUpSteer), before);
            var t := After(Step(s, a, env), after);
            FirstStart(t.log, |s.log|) == Some(i) || (FirstStart(t.log, |s.log|).None? && AtFront(t.q, i))
  {
    InitialInv(combineQueued, followUpSteer);
    RunKeeps(Initial(combineQueued, followUpSteer), before);
    var s := After(Initial(combineQueued, followUpSteer), before);
    InvIsCore(s);
    hide Initial, Step, Core, Inv, Enabled, RunFrom, After, Undisplaced, JumpsQueue;
    JumpNext(s, a, env, i);
    StepKeeps(s, a, env);
    hide Next;
    RunNext(Step(s, a, env), after, |s.log|, i);
    NextIs(After(Step(s, a, env), after), |s.log|, i);
  }

  lemma NextIs(s: State, n: nat, i: Rpc)
    requires Next(s, n, i)
    ensures FirstStart(s.log, n) == Some(i) || (FirstStart(s.log, n).None? && AtFront(s.q, i))
  {
  }

  // ----- First come, first served -----

  /** The newest prompt that has entered. */
  function Newest(log: seq<Event>): int {
    if log == [] then -1 else if log[|log| - 1].Entered? then log[|log| - 1].rpc else Newest(log[..|log| - 1])
  }

  ghost predicate StartedAscending(log: seq<Event>) {
    forall k, l :: 0 <= k < l < |log| && log[k].Started? && log[l].Started? ==> log[k].rpc < log[l].rpc
  }

  ghost predicate RowsAscending(rows: seq<Row>) {
    forall k, l :: 0 <= k < l < |rows| ==> rows[k].rpc < rows[l].rpc
  }

  /** Every queued prompt entered after every started one. */
  ghost predicate StartedBefore(log: seq<Event>, rows: seq<Row>) {
    forall k, l :: 0 <= k < |log| && log[k].Started? && 0 <= l < |rows| ==> log[k].rpc < rows[l].rpc
  }

  ghost predicate Known(log: seq<Event>, rows: seq<Row>) {
    && (forall k :: 0 <= k < |rows| ==> rows[k].rpc <= Newest(log))
    && (forall k :: 0 <= k < |log| && log[k].Started? ==> log[k].rpc <= Newest(log))
  }

  ghost predicate Fifo(log: seq<Event>, rows: seq<Row>) {
    StartedAscending(log) && RowsAscending(rows) && StartedBefore(log, rows) && Known(log, rows)
  }

  /** What lets a prompt pass another: a jump or a reorder. */
  ghost predicate Passes(s: State, a: Action) {
    (Jumps(s, a) && (a.APrepared? ==> s.q.inflight.Some?)) || (a.AControl? && a.control.DoReorder?)
  }

  lemma NewestNext(log: seq<Event>, e: Event)
    ensures Newest(log + [e]) == if e.Entered? then e.rpc else Newest(log)
  {
    assert (log + [e])[..|log|] == log;
  }

  lemma FifoEnters(log: seq<Event>, rows: seq<Row>, row: Row)
    requires Fifo(log, rows) && row.rpc > Newest(log)
    ensures Fifo(log + [Entered(row.rpc)], rows + [row]) && Fifo(log + [Entered(row.rpc)], rows)
  {
    NewestNext(log, Entered(row.rpc));
    hide Newest;
  }

  lemma FifoLogs(log: seq<Event>, rows: seq<Row>, e: Event)
    requires Fifo(log, rows) && !e.Started? && !e.Entered?
    ensures Fifo(log + [e], rows)
  {
    NewestNext(log, e);
    hide Newest;
  }

  lemma FifoStarts(log: seq<Event>, rows: seq<Row>, n: nat, e: Event)
    requires Fifo(log, rows) && 0 < n <= |rows| && e.Started? && e.rpc == rows[0].rpc
    ensures Fifo(log + [e], rows[n..])
  {
    NewestNext(log, e);
    hide Newest;
  }

  lemma FifoDrops(log: seq<Event>, rows: seq<Row>, k: nat)
    requires Fifo(log, rows) && k < |rows|
    ensures Fifo(log, Without(rows, k))
  {
    var rest := Without(rows, k);
    assert forall j :: 0 <= j < |rest| ==> rest[j] == rows[if j < k then j else j + 1];
    hide Newest;
  }

  lemma FifoRewords(log: seq<Event>, rows: seq<Row>, k: nat, row: Row)
    requires Fifo(log, rows) && k < |rows| && row.rpc == rows[k].rpc
    ensures Fifo(log, rows[k := row])
  {
    hide Newest;
  }

  lemma FifoEmpties(log: seq<Event>, rows: seq<Row>)
    requires Fifo(log, rows)
    ensures Fifo(log, [])
  {
    hide Newest;
  }

  lemma AdvanceFifo(s: State, env: Env)
    requires Fifo(s.log, s.q.queue)
    ensures Fifo(Advance(s, env).log, Advance(s, env).q.queue)
  {
    hide Rpcs, Texts, RunContent, HasImage, Followers, Resolve, Fifo;
    if s.q.inflight.None? && s.q.runningId.None? && s.q.queue != [] && !Parked(s) {
      FollowersFit(s.q.queue[1..], s.q.holds);
      var n := TurnSize(s.q.queue, s.q.holds, s.combineQueued);
      var t := Advance(s, env);
      assert t.log == s.log + [t.log[|s.log|]];
      FifoStarts(s.log, s.q.queue, n, t.log[|s.log|]);
    }
  }

  lemma PromoteFifo(s: State, env: Env)
    requires Fifo(s.log, s.q.queue)
    ensures Fifo(Promote(s, env).log, Promote(s, env).q.queue)
  {
    AdvanceFifo(s, env);
    hide Advance, Fifo;
  }

  /** A turn takes the oldest: what it starts or folds entered before all that is left. */
  lemma OldestFirst(rows: seq<Row>, n: nat, r: Rpc)
    requires RowsAscending(rows) && 0 < n <= |rows| && r in Rpcs(rows)
    ensures r !in Rpcs(rows[n..]) ==> rows[0].rpc <= r && forall row :: row in rows[n..] ==> r < row.rpc
  {
    var k :| 0 <= k < |rows| && rows[k].rpc == r;
    if k >= n { assert rows[n..][k - n] == rows[k]; }
  }

  lemma {:induction false} TurnTakesOldest(s: State, env: Env, r: Rpc)
    requires Core(s) && Fifo(s.log, s.q.queue) && InQueue(s, r) && s.q.runningId.None? && s.q.queue != [] && !Parked(s)
    ensures var t := Advance(s, env);
            && Begun(s.log, t.log) == Some(s.q.queue[0].rpc)
            && (!InQueue(t, r) ==> s.q.queue[0].rpc <= r && forall row :: row in t.q.queue ==> r < row.rpc)
  {
    AdvanceTakesTurn(s, env);
    InRpcs(s, r);
    InRpcs(Advance(s, env), r);
    hide Core, Advance, TurnSize, Newest, StartedAscending, StartedBefore, Known, Rpcs, InQueue, RowsAscending;
    OldestFirst(s.q.queue, TurnSize(s.q.queue, s.q.holds, s.combineQueued), r);
  }

  lemma NewestBelow(log: seq<Event>, i: Rpc)
    requires EnteredInOrder(log + [Entered(i)])
    ensures i > Newest(log)
    decreases |log|
  {
    if log != [] {
      if log[|log| - 1].Entered? {
        assert (log + [Entered(i)])[|log| - 1] == log[|log| - 1] && (log + [Entered(i)])[|log|] == Entered(i);
      } else {
        var less := log[..|log| - 1];
        forall k, l | 0 <= k < l < |less + [Entered(i)]| && (less + [Entered(i)])[k].Entered? && (less + [Entered(i)])[l].Entered?
          ensures (less + [Entered(i)])[k].rpc < (less + [Entered(i)])[l].rpc
        {
          var m := if l == |less| then |log| else l;
          assert (log + [Entered(i)])[k] == less[k] && (log + [Entered(i)])[m] == (less + [Entered(i)])[l];
        }
        NewestBelow(less, i);
      }
    }
  }

  // ----- Every step -----

  ghost predicate InFifo(s: State) {
    Fifo(s.log, s.q.queue)
  }

  lemma SameFifo(s: State, u: State, env: Env)
    requires InFifo(s) && u.log == s.log && u.q.queue == s.q.queue
    ensures InFifo(u) && InFifo(Promote(u, env))
  {
    hide Fifo, Promote;
    PromoteFifo(u, env);
  }

  lemma LastFifo(s: State, row: Row, env: Env)
    requires InFifo(s) && row.rpc > Newest(s.log)
    ensures InFifo(Promote(s.(log := s.log + [Entered(row.rpc)], q := s.q.(queue := s.q.queue + [row])), env))
    ensures Fifo(s.log + [Entered(row.rpc)], s.q.queue)
  {
    FifoEnters(s.log, s.q.queue, row);
    hide Fifo, Promote, Newest;
    PromoteFifo(s.(log := s.log + [Entered(row.rpc)], q := s.q.(queue := s.q.queue + [row])), env);
  }

  lemma EnqueueFifo(s: State, i: Rpc, content: seq<Block>, env: Env)
    requires InFifo(s) && i < |s.a.slots| && i > Newest(s.log) && !(s.a.slots[i].sendNow && s.q.inflight.Some?)
    ensures InFifo(Enqueue(s, i, content, env))
  {
    var slot := s.a.slots[i];
    LastFifo(s, Row(i, slot.id, slot.text, content, 0, None), env);
    hide Fifo, Promote, Newest, Resolve;
  }

  lemma PreparedFifo(s: State, i: Rpc, content: seq<Block>, env: Env)
    requires Core(s) && InFifo(s) && Enabled(s, APrepared(i, content)) && !Passes(s, APrepared(i, content))
    ensures InFifo(Prepared(s, i, content, env))
  {
    var t := s.(a := s.a.(slots := s.a.slots[i := s.a.slots[i].(io := false)]));
    if Admitted(s, i) {
      EntersNewest(s, i);
      hide Core, Fifo, Enqueue, Newest;
      EnqueueFifo(Retire(t, i), i, content, env);
    } else {
      hide Core, Fifo, Enqueue, Resolve;
      SameFifo(s, Prepared(s, i, content, env), env);
    }
  }

  lemma EntersNewest(s: State, i: Rpc)
    requires Core(s) && i < |s.a.slots| && !s.a.slots[i].retired
    ensures i > Newest(s.log)
  {
    CoreOrder(s);
    hide Core;
    EnteredBelow(s, i);
    NewestBelow(s.log, i);
  }

  lemma CoreOrder(s: State)
    requires Core(s)
    ensures Chain(s.a.slots) && Ordered(s.log, s.a.slots, s.a.epoch)
  {
  }

  lemma EnteredBelow(s: State, i: Rpc)
    requires Chain(s.a.slots) && Ordered(s.log, s.a.slots, s.a.epoch) && i < |s.a.slots| && !s.a.slots[i].retired
    ensures EnteredInOrder(s.log + [Entered(i)])
  {
    forall k | 0 <= k < |s.log| && s.log[k].Entered?
      ensures s.log[k].rpc < i
    {
    }
  }

  lemma CancelPromptFifo(s: State, id: Id, env: Env)
    requires InFifo(s)
    ensures InFifo(CancelPrompt(s, id, env))
  {
    hide Fifo, Promote, Resolve, Locate, Newest;
    var at := LocateIn(s, Some(id));
    if s.disposed || !s.live || at.None? || (s.q.inflight.Some? && s.q.inflight.value.id == id) {
      SameFifo(s, CancelPrompt(s, id, env), env);
    } else {
      FifoDrops(s.log, s.q.queue, at.value);
      var t := s.(q := s.q.(queue := Without(s.q.queue, at.value), holds := s.q.holds - {id}));
      PromoteFifo(Settle(t, s.q.queue[at.value].rpc, Stopped(Cancelled)), env);
    }
  }

  lemma CancelAllFifo(s: State)
    requires InFifo(s)
    ensures InFifo(CancelAll(s))
  {
    hide Fifo, Newest, Resolve, SettleInflight;
    var t := s.(a := s.a.(epoch := s.a.epoch + 1), log := s.log + [CancelledAll(|s.a.slots|)]);
    SettleLeaves(t);
    FifoLogs(s.log, s.q.queue, CancelledAll(|s.a.slots|));
    FifoEmpties(t.log, s.q.queue);
  }

  lemma FlushFifo(s: State, flushOk: bool, env: Env)
    requires InFifo(s) && Enabled(s, AFlushDone(flushOk))
    ensures InFifo(FlushDone(s, flushOk, env))
  {
    hide Fifo, Newest, Resolve, SteeredRpcs, Promote;
    var u := Finished(s, flushOk);
    FifoLogs(s.log, s.q.queue, u.log[|s.log|]);
    PromoteFifo(u, env);
  }

  lemma IdleFifo(s: State, env: Env)
    requires InFifo(s)
    ensures InFifo(PromotionIdle(s, env))
  {
    hide Fifo, Advance;
    AdvanceFifo(s.(q := s.q.(scheduled := false)), env);
  }

  lemma StillFifo(s: State, a: Action, env: Env)
    requires InFifo(s) && Enabled(s, a) && Still(a)
    ensures InFifo(Step(s, a, env))
  {
    StepStill(s, a, env);
    hide Step, Fifo;
  }

  lemma TurnFifo(s: State, a: Action, env: Env)
    requires InFifo(s) && Enabled(s, a)
    requires a.AClaimed? || a.ATurnEnded? || a.ARunIdle? || a.ADrainDone?
    ensures InFifo(Step(s, a, env))
  {
    hide Fifo;
    assert Step(s, a, env).log == s.log && Step(s, a, env).q.queue == s.q.queue;
  }

  lemma RemoveFifo(s: State, id: Option<Id>, expected: int, env: Env)
    requires InFifo(s)
    ensures InFifo(Remove(s, id, expected, env))
  {
    var at := LocateIn(s, id);
    SettleLeaves(s);
    hide Fifo, Promote, Resolve, Locate, Newest, SettleInflight;
    SameFifo(s, s, env);
    SameFifo(s, Unhold(s, id), env);
    if at.Some? {
      FifoDrops(s.log, s.q.queue, at.value);
      var row := s.q.queue[at.value];
      var t := s.(q := s.q.(queue := Without(s.q.queue, at.value), holds := s.q.holds - {row.id}));
      PromoteFifo(Settle(t, row.rpc, Stopped(Cancelled)), env);
    } else {
      var t := SettleInflight(s, Stopped(Cancelled));
      SameFifo(s, t.(q := t.q.(holds := t.q.holds - {if id.Some? then id.value else "undefined"})), env);
    }
  }

  lemma SteerFifo(s: State, id: Option<Id>, expected: int, env: Env)
    requires InFifo(s)
    ensures InFifo(SteerRow(s, id, expected, env))
  {
    hide Fifo, Promote, Resolve, Locate, Newest;
    var at := LocateIn(s, id);
    SameFifo(s, s, env);
    SameFifo(s, Unhold(s, id), env);
    if at.Some? { FifoDrops(s.log, s.q.queue, at.value); }
  }

  lemma EditFifo(s: State, id: Option<Id>, pinned: Option<int>, newText: Option<string>, env: Env)
    requires InFifo(s)
    ensures InFifo(Edit(s, id, pinned, newText, env))
  {
    hide Fifo, Promote, Locate, Rewrite, Newest;
    var at := LocateIn(s, id);
    if at.Some? {
      var row := s.q.queue[at.value];
      SameRow(row, newText);
      FifoRewords(s.log, s.q.queue, at.value, Rewrite(row, newText));
      var t := s.(q := s.q.(holds := s.q.holds - {row.id}));
      SameFifo(s, t, env);
      PromoteFifo(t.(q := t.q.(queue := s.q.queue[at.value := Rewrite(row, newText)])), env);
    }
  }

  lemma PassedOver(s: State, id: Option<Id>, expected: int, newText: Option<string>, env: Env)
    requires Core(s) && InFifo(s) && !Picks(s, id, expected)
    ensures InFifo(Interject(s, id, expected, newText, env))
  {
    PicksLocated(s, id, expected);
    hide Core, Fifo, Promote, Locate, Picks;
    SameFifo(s, Unhold(s, id), env);
  }

  lemma HoldFifo(s: State, id: Option<Id>, env: Env)
    requires InFifo(s)
    ensures InFifo(HoldEdit(s, id)) && InFifo(ReleaseEdit(s, id, env))
  {
    SameFifo(s, HoldEdit(s, id), env);
    SameFifo(s, Unhold(s, id), env);
    hide InFifo, Promote;
  }

  lemma ClearFifo(s: State)
    requires InFifo(s)
    ensures InFifo(Discard(s))
  {
    FifoEmpties(s.log, s.q.queue);
    hide Fifo, Resolve;
  }

  lemma ControlFifo(s: State, control: Control, env: Env)
    requires Core(s) && InFifo(s) && !Passes(s, AControl(control))
    ensures InFifo(ApplyControl(s, control, env))
  {
    hide Core, InFifo, Interject, Remove, SteerRow, Edit, HoldEdit, ReleaseEdit, Discard, Picks;
    if s.disposed || !s.live { return; }
    match control
    case DoInterject(id, expected, newText) => PassedOver(s, id, expected, newText, env);
    case DoSteer(id, expected) => SteerFifo(s, id, expected, env);
    case DoRemove(id, expected) => RemoveFifo(s, id, expected, env);
    case DoEdit(id, pinned, newText) => EditFifo(s, id, pinned, newText, env);
    case DoHold(id) => HoldFifo(s, id, env);
    case DoRelease(id) => HoldFifo(s, id, env);
    case DoClear => ClearFifo(s);
  }

  lemma {:induction false} StepFifo(s: State, a: Action, env: Env)
    requires Core(s) && InFifo(s) && Enabled(s, a) && !Passes(s, a)
    ensures InFifo(Step(s, a, env))
  {
    hide Core, Fifo, Passes, ApplyControl, FlushDone, PromotionIdle, CancelPrompt, CancelAll, Submit, PredecessorDone, Prepared,
      PreparationAborted, Claimed, TurnEnded, RunIdle, DrainDone;
    match a
    case APrepared(i, content) => PreparedFifo(s, i, content, env);
    case AControl(control) => ControlFifo(s, control, env);
    case AFlushDone(flushOk) => FlushFifo(s, flushOk, env);
    case APromotionIdle => IdleFifo(s, env);
    case ACancelPrompt(id) => CancelPromptFifo(s, id, env);
    case ACancelAll => CancelAllFifo(s);
    case ABeginReload => CancelAllFifo(s);
    case ADispose => CancelAllFifo(s);
    case _ => if Still(a) { StillFifo(s, a, env); } else { TurnFifo(s, a, env); }
  }

  /** Nothing jumps the queue or is reordered. */
  ghost predicate NonePasses(s: State, actions: seq<(Action, Env)>)
    requires RunFrom(s, actions)
    decreases |actions|
  {
    actions == [] || (!Passes(s, actions[0].0) && NonePasses(Step(s, actions[0].0, actions[0].1), actions[1..]))
  }

  lemma {:induction false} RunFifo(s: State, actions: seq<(Action, Env)>)
    requires Inv(s) && InFifo(s) && RunFrom(s, actions) && NonePasses(s, actions)
    ensures InFifo(After(s, actions))
    decreases |actions|
  {
    if actions != [] {
      InvIsCore(s);
      hide Inv, Core, InFifo, Step, Enabled, Passes;
      StepKeeps(s, actions[0].0, actions[0].1);
      StepFifo(s, actions[0].0, actions[0].1);
      RunFifo(Step(s, actions[0].0, actions[0].1), actions[1..]);
    }
  }

  /**
   * In every run in which nothing jumps the queue or is reordered, prompts
   * start in the order they entered, and those queued are in that order too,
   * behind all that started; so a turn takes the oldest (`TurnTakesOldest`).
   */
  lemma {:induction false} FirstComeFirstServed(combineQueued: bool, followUpSteer: bool, actions: seq<(Action, Env)>)
    requires RunFrom(Initial(combineQueued, followUpSteer), actions) && NonePasses(Initial(combineQueued, followUpSteer), actions)
    ensures var s := After(Initial(combineQueued, followUpSteer), actions);
            StartedAscending(s.log) && RowsAscending(s.q.queue) && StartedBefore(s.log, s.q.queue)
  {
    InitialInv(combineQueued, followUpSteer);
    assert InFifo(Initial(combineQueued, followUpSteer));
    hide Initial, Inv, RunFrom, After, NonePasses, Newest;
    RunFifo(Initial(combineQueued, followUpSteer), actions);
  }
}
