/**
 * What the client asks of the queue, told from the actions: which submissions
 * are taken, which rows are held, which prompts ride the running turn, and
 * what a cancellation answers.
 */
module PromptQueueRequests {
  import opened Options
  import opened PromptQueueModel
  import opened PromptQueueSafety
  import opened PromptQueueAnswers

  // ----- Holds and riders -----

  ghost predicate Queued(s: State, id: Id) {
    exists row :: row in s.q.queue && row.id == id
  }

  function Named(id: Option<Id>): set<Id> {
    if id.Some? then {id.value} else {}
  }

  /** The holds a row control lifts: that of the row it names, unless it finds nothing to do. */
  ghost function LiftedBy(s: State, control: Control): set<Id> {
    match control
    case DoInterject(id, _, _) => Named(id)
    case DoRelease(id) => Named(id)
    case DoEdit(id, _, _) => if id.Some? && Queued(s, id.value) then Named(id) else {}
    case DoSteer(id, version) => if Picks(s, id, version) && s.q.inflight.None? then {} else Named(id)
    case DoRemove(id, _) =>
      if id.None? then (if s.q.runningId.None? then {"undefined"} else {})  // a removal without an id, as the key is spelled
      else if Queued(s, id.value) || s.q.runningId == id then Named(id) else {}
    case DoClear => s.q.holds
    case _ => {}
  }

  ghost function Lifted(s: State, a: Action): set<Id> {
    match a
    case ACancelAll => s.q.holds
    case ABeginReload => s.q.holds
    case ADispose => if s.disposed then {} else s.q.holds
    case ACancelPrompt(id) => if Controllable(s) && Queued(s, id) then {id} else {}
    case AControl(control) => if Controllable(s) then LiftedBy(s, control) else {}
    case _ => {}
  }

  function Held(s: State, a: Action): set<Id> {
    if a.AControl? && a.control.DoHold? && Controllable(s) then Named(a.control.id) else {}
  }

  /** A prompt is to ride the running turn: it was prepared to, or its row is steered. */
  ghost predicate Boards(s: State, a: Action, r: Rpc) {
    s.q.inflight.Some? &&
    match a
    case APrepared(i, _) => i == r && Admitted(s, i) && !s.a.slots[i].sendNow && WantsSteering(s, s.a.slots[i])
    case AControl(control) => control.DoSteer? && Controllable(s) && PicksRow(s, control.id, control.expectedVersion, r)
    case _ => false
  }

  ghost predicate Rides(s: State, a: Action, env: Env, r: Rpc) {
    (Boards(s, a, r) && env.steerOk) || (IsSteered(s, r) && !a.AFlushDone?)
  }

  /** No turn starts with a held prompt. */
  predicate Free(before: seq<Event>, t: State) {
    Begun(before, t.log).Some? ==> t.q.runningId.Some? && t.q.runningId.value !in t.q.holds
  }

  /** The holds and the riders are those asked for. */
  ghost predicate Done(before: seq<Event>, t: State, holds: set<Id>, riders: seq<Steered>) {
    Free(before, t) && t.q.holds == holds && t.q.steered == riders
  }

  lemma AdvanceDone(s: State, env: Env)
    ensures var t := Advance(s, env);
            && Done(s.log, t, s.q.holds, s.q.steered)
            && if Begun(s.log, t.log).None? then t.log == s.log else |t.log| > |s.log|
  {
    hide Rpcs, Texts, RunContent, HasImage, Followers, Resolve;
    if s.q.inflight.None? && s.q.runningId.None? && s.q.queue != [] && !Parked(s) { FollowersFit(s.q.queue[1..], s.q.holds); }
  }

  /** A step that starts nothing, and then may promote. */
  lemma ThenDone(before: seq<Event>, u: State, env: Env)
    requires Quiet(before, u.log)
    ensures Done(before, u, u.q.holds, u.q.steered) && Done(before, Promote(u, env), u.q.holds, u.q.steered)
  {
    AdvanceDone(u, env);
    hide Advance;
  }

  lemma QueuedLocated(s: State, id: Id)
    ensures Queued(s, id) <==> LocateIn(s, Some(id)).Some?
  {
    LocateFits(s.q.queue, id);
    if LocateIn(s, Some(id)).Some? {
      assert s.q.queue[LocateIn(s, Some(id)).value] in s.q.queue;
    }
  }

  /** The riders after a step; only a boarding adds one, and only the end of the turn lets them off. */
  function RidersAfter(s: State, a: Action, env: Env): seq<Steered> {
    if a.AFlushDone? then []
    else if !env.steerOk || s.q.inflight.None? then s.q.steered
    else
      match a
      case APrepared(i, _) =>
        if Admitted(s, i) && !s.a.slots[i].sendNow && WantsSteering(s, s.a.slots[i]) then s.q.steered + [Steered(i, s.a.slots[i].id)]
        else s.q.steered
      case AControl(control) =>
        var at := if control.DoSteer? then LocateIn(s, control.id) else None;
        if Controllable(s) && at.Some? && s.q.queue[at.value].version == control.expectedVersion
        then s.q.steered + [Steered(s.q.queue[at.value].rpc, s.q.queue[at.value].id)] else s.q.steered
      case _ => s.q.steered
  }

  ghost predicate DoneAfter(s: State, a: Action, env: Env, t: State) {
    Done(s.log, t, s.q.holds - Lifted(s, a) + Held(s, a), RidersAfter(s, a, env))
  }

  lemma NothingLifted(s: State, a: Action)
    requires Lifted(s, a) == {} && Held(s, a) == {}
    ensures s.q.holds - Lifted(s, a) + Held(s, a) == s.q.holds
  {
  }

  lemma EnqueueDone(t: State, i: Rpc, content: seq<Block>, env: Env)
    requires i < |t.a.slots|
    ensures var rides := t.q.inflight.Some? && !t.a.slots[i].sendNow && WantsSteering(t, t.a.slots[i]) && env.steerOk;
            Done(t.log, Enqueue(t, i, content, env), t.q.holds, t.q.steered + if rides then [Steered(i, t.a.slots[i].id)] else [])
  {
    var slot := t.a.slots[i];
    var row := Row(i, slot.id, slot.text, content, 0, None);
    var u := t.(log := t.log + [Entered(i)]);
    assert t.q.steered + [] == t.q.steered;
    assert SteersThis(u, slot) <==> WantsSteering(t, slot);
    hide Promote, Done, Resolve, SteersThis, WantsSteering;
    if (slot.sendNow || SteersThis(u, slot)) && t.q.inflight.Some? {
      hide SettleInflight;
      EndsOnly(u.(q := u.q.(queue := [row] + u.q.queue, sendNowTrigger := true)));
      ThenDone(t.log, Enqueue(t, i, content, env), env);
    } else {
      ThenDone(t.log, u.(q := u.q.(queue := u.q.queue + [row])), env);
    }
  }

  lemma PreparedDone(s: State, i: Rpc, content: seq<Block>, env: Env)
    requires Enabled(s, APrepared(i, content))
    ensures DoneAfter(s, APrepared(i, content), env, Prepared(s, i, content, env))
  {
    var a := APrepared(i, content);
    NothingLifted(s, a);
    var t := s.(a := s.a.(slots := s.a.slots[i := s.a.slots[i].(io := false)]));
    assert s.q.steered + [] == s.q.steered;
    if Admitted(s, i) {
      hide Enqueue, Done;
      EnqueueDone(Retire(t, i), i, content, env);
    } else {
      hide Enqueue, FailSlot, Done;
      if !t.a.slots[i].retired { FailStill(t, i, AssertActive(t, i).value); }
      ThenDone(s.log, Prepared(s, i, content, env), env);
    }
  }

  lemma StillDone(s: State, a: Action, env: Env)
    requires Enabled(s, a) && (Still(a) || a.AClaimed? || a.ATurnEnded? || a.ARunIdle? || a.ADrainDone?)
    ensures DoneAfter(s, a, env, Step(s, a, env))
  {
    NothingLifted(s, a);
    if Still(a) { StepStill(s, a, env); } else { TurnStill(s, a, env); }
    hide Step, Done, Lifted, Held;
    ThenDone(s.log, Step(s, a, env), env);
  }

  lemma TurnStill(s: State, a: Action, env: Env)
    requires Enabled(s, a) && (a.AClaimed? || a.ATurnEnded? || a.ARunIdle? || a.ADrainDone?)
    ensures var t := Step(s, a, env); t.q.holds == s.q.holds && t.q.steered == s.q.steered && t.log == s.log
  {
  }

  lemma FlushedDone(s: State, flushOk: bool, env: Env)
    requires Enabled(s, AFlushDone(flushOk))
    ensures DoneAfter(s, AFlushDone(flushOk), env, FlushDone(s, flushOk, env))
  {
    NothingLifted(s, AFlushDone(flushOk));
    hide Promote, Done, Resolve, SteeredRpcs;
    ThenDone(s.log, Finished(s, flushOk), env);
  }

  lemma IdleDone(s: State, env: Env)
    requires Enabled(s, APromotionIdle)
    ensures DoneAfter(s, APromotionIdle, env, PromotionIdle(s, env))
  {
    NothingLifted(s, APromotionIdle);
    AdvanceDone(s.(q := s.q.(scheduled := false)), env);
    hide Advance;
  }

  lemma WholeDone(s: State, a: Action, env: Env)
    requires Enabled(s, a) && (a.ACancelAll? || a.ABeginReload? || a.ADispose?)
    ensures DoneAfter(s, a, env, Step(s, a, env))
  {
    hide Done, Resolve, Rpcs;
    assert s.q.holds - s.q.holds + {} == {} && s.q.holds - {} + {} == s.q.holds;
    ThenDone(s.log, Step(s, a, env), env);
  }

  /** What a cancellation by id lifts. */
  lemma CancelLifts(s: State, id: Id)
    requires Core(s) && Controllable(s)
    ensures s.q.inflight.Some? && s.q.inflight.value.id == id ==> !Queued(s, id)
    ensures Queued(s, id) <==> LocateIn(s, Some(id)).Some?
    ensures s.q.holds - Lifted(s, ACancelPrompt(id)) + Held(s, ACancelPrompt(id)) == if Queued(s, id) then s.q.holds - {id} else s.q.holds
  {
    QueuedLocated(s, id);
    if s.q.inflight.Some? && s.q.inflight.value.id == id {
      CoreDependents(s);
      RunIsNamed(s);
      RunningApart(s, id);
    }
    hide Core;
  }

  lemma CancelPromptDone(s: State, id: Id, env: Env)
    requires Core(s)
    ensures DoneAfter(s, ACancelPrompt(id), env, CancelPrompt(s, id, env))
  {
    if !Controllable(s) {
      NothingLifted(s, ACancelPrompt(id));
      hide Core, Done;
      ThenDone(s.log, s, env);
      return;
    }
    CancelLifts(s, id);
    hide Core, Done, Promote, Resolve, Target, Locate, Settle, Without, Lifted, Held, Queued, SettleInflight;
    if s.q.inflight.Some? && s.q.inflight.value.id == id {
      EndsOnly(s);
      ThenDone(s.log, SettleInflight(s, Stopped(Cancelled)), env);
      return;
    }
    var at := LocateIn(s, Some(id));
    if at.Some? {
      DropsOnly(s, at.value, s.q.holds - {id});
      ThenDone(s.log, Dropped(s, at.value, s.q.holds - {id}), env);
    } else if id in s.a.preparing && s.a.preparing[id] < |s.a.slots| {
      TargetLeaves(s, s.a.preparing[id]);
      ThenDone(s.log, Target(s, s.a.preparing[id]), env);
      ThenDone(s.log, s, env);
    } else {
      ThenDone(s.log, s, env);
    }
  }

  lemma DropsOnly(s: State, k: nat, holds: set<Id>)
    requires k < |s.q.queue|
    ensures var t := Dropped(s, k, holds); t.q.holds == holds && t.q.steered == s.q.steered && t.log == s.log
  {
    hide Resolve;
  }

  // ----- Row controls -----

  lemma InterjectDone(s: State, id: Option<Id>, expected: int, newText: Option<string>, env: Env)
    ensures Done(s.log, Interject(s, id, expected, newText, env), s.q.holds - Named(id), s.q.steered)
  {
    var at := LocateIn(s, id);
    hide Done, Promote, Locate, Without, SettleInflight;
    if at.None? || s.q.queue[at.value].version != expected {
      UnholdDone(s, id, env);
      return;
    }
    var row := Rewrite(s.q.queue[at.value], newText);
    assert row.id == s.q.queue[at.value].id;
    hide Rewrite;
    var t := s.(q := s.q.(queue := [row] + Without(s.q.queue, at.value), holds := s.q.holds - {row.id}));
    if s.q.inflight.Some? {
      EndsOnly(t.(q := t.q.(sendNowTrigger := true)));
      ThenDone(s.log, SettleInflight(t.(q := t.q.(sendNowTrigger := true)), Stopped(Cancelled)), env);
    } else {
      ThenDone(s.log, t, env);
    }
  }

  lemma UnholdDone(s: State, id: Option<Id>, env: Env)
    ensures Done(s.log, Promote(Unhold(s, id), env), s.q.holds - Named(id), s.q.steered)
  {
    hide Done, Promote;
    assert s.q.holds - {} == s.q.holds;
    ThenDone(s.log, Unhold(s, id), env);
  }

  lemma SteerLifts(s: State, id: Option<Id>, expected: int)
    requires Core(s) && Controllable(s)
    ensures var at, a := LocateIn(s, id), AControl(DoSteer(id, expected));
            var picked := at.Some? && s.q.queue[at.value].version == expected;
            s.q.holds - Lifted(s, a) + Held(s, a) == if picked && s.q.inflight.None? then s.q.holds else s.q.holds - Named(id)
  {
    PicksLocated(s, id, expected);
    hide Core, Locate, Picks;
  }

  lemma SteerDone(s: State, id: Option<Id>, expected: int, env: Env)
    requires Core(s) && Controllable(s)
    ensures DoneAfter(s, AControl(DoSteer(id, expected)), env, SteerRow(s, id, expected, env))
  {
    SteerLifts(s, id, expected);
    hide Core, Done, Promote, Locate, Without, Resolve, Lifted, Held;
    var at := LocateIn(s, id);
    if at.None? || s.q.queue[at.value].version != expected {
      UnholdDone(s, id, env);
    } else if s.q.inflight.None? {
      ThenDone(s.log, s, env);
    } else {
      ThenDone(s.log, SteerRow(s, id, expected, env), env);
    }
  }

  lemma RemoveLifts(s: State, id: Option<Id>, expected: int)
    requires Controllable(s)
    ensures var at, a := LocateIn(s, id), AControl(DoRemove(id, expected));
            s.q.holds - Lifted(s, a) + Held(s, a)
            == if at.Some? || (s.q.runningId == id && id.Some?) then s.q.holds - Named(id)
               else if s.q.runningId == id then s.q.holds - {"undefined"} else s.q.holds
  {
    if id.Some? { QueuedLocated(s, id.value); }
    hide Locate, Queued;
  }

  lemma RemoveDone(s: State, id: Option<Id>, expected: int, env: Env)
    requires Controllable(s)
    ensures DoneAfter(s, AControl(DoRemove(id, expected)), env, Remove(s, id, expected, env))
  {
    RemoveLifts(s, id, expected);
    var at := LocateIn(s, id);
    hide Done, Promote, Locate, Without, Resolve, Settle, SettleInflight, Lifted, Held;
    if at.Some? && s.q.queue[at.value].version != expected {
      UnholdDone(s, id, env);
    } else if at.Some? {
      DropsOnly(s, at.value, s.q.holds - {s.q.queue[at.value].id});
      ThenDone(s.log, Dropped(s, at.value, s.q.holds - {s.q.queue[at.value].id}), env);
    } else if s.q.runningId == id {
      EndsOnly(s);
      var t := SettleInflight(s, Stopped(Cancelled));
      ThenDone(s.log, t.(q := t.q.(holds := t.q.holds - {if id.Some? then id.value else "undefined"})), env);
    } else {
      ThenDone(s.log, s, env);
    }
  }

  lemma EndsOnly(s: State)
    ensures var t := SettleInflight(s, Stopped(Cancelled)); t.q.holds == s.q.holds && t.q.steered == s.q.steered && t.log == s.log
  {
  }

  lemma EditLifts(s: State, id: Option<Id>, pinned: Option<int>, newText: Option<string>)
    requires Controllable(s)
    ensures var at, a := LocateIn(s, id), AControl(DoEdit(id, pinned, newText));
            s.q.holds - Lifted(s, a) + Held(s, a) == if at.Some? then s.q.holds - Named(id) else s.q.holds
  {
    if id.Some? { QueuedLocated(s, id.value); }
    hide Locate, Queued;
  }

  lemma EditDone(s: State, id: Option<Id>, pinned: Option<int>, newText: Option<string>, env: Env)
    requires Controllable(s)
    ensures DoneAfter(s, AControl(DoEdit(id, pinned, newText)), env, Edit(s, id, pinned, newText, env))
  {
    EditLifts(s, id, pinned, newText);
    var at := LocateIn(s, id);
    hide Done, Promote, Locate, Rewrite, Lifted, Held;
    if at.None? {
      ThenDone(s.log, s, env);
      return;
    }
    var row := s.q.queue[at.value];
    var t := s.(q := s.q.(holds := s.q.holds - {row.id}));
    if pinned.Some? && row.version != pinned.value {
      ThenDone(s.log, t, env);
    } else {
      ThenDone(s.log, t.(q := t.q.(queue := s.q.queue[at.value := Rewrite(row, newText)])), env);
    }
  }

  lemma OtherControlDone(s: State, control: Control, env: Env)
    requires Controllable(s) && (control.DoHold? || control.DoRelease? || control.DoClear? || control.DoReorder?)
    ensures DoneAfter(s, AControl(control), env, ApplyControl(s, control, env))
  {
    hide Done, Promote, Resolve, PromptQueueModel.Named, Unnamed, Rpcs;
    assert forall lifted: set<Id> :: s.q.holds - lifted + {} == s.q.holds - lifted;
    assert s.q.holds - {} == s.q.holds && s.q.holds - s.q.holds == {};
    ThenDone(s.log, s, env);
    match control
    case DoHold(id) =>
      assert s.q.holds + {} == s.q.holds;
      ThenDone(s.log, HoldEdit(s, id), env);
    case DoRelease(id) =>
      ThenDone(s.log, Unhold(s, id), env);
      if id.Some? && id.value !in s.q.holds { assert s.q.holds - {id.value} == s.q.holds; }
    case DoClear => ThenDone(s.log, Discard(s), env);
    case DoReorder(ids) =>
      var next := PromptQueueModel.Named(s.q.queue, ids) + Unnamed(s.q.queue, ids);
      ThenDone(s.log, s.(q := s.q.(queue := next)), env);
  }

  lemma ControlDone(s: State, control: Control, env: Env)
    requires Core(s)
    ensures DoneAfter(s, AControl(control), env, ApplyControl(s, control, env))
  {
    if !Controllable(s) {
      NothingLifted(s, AControl(control));
      hide Core, Done;
      ThenDone(s.log, s, env);
      return;
    }
    hide Interject, SteerRow, Remove, Edit, HoldEdit, ReleaseEdit, Reorder, Discard;
    match control
    case DoInterject(id, expected, newText) =>
      hide Core, Done;
      assert s.q.holds - Named(id) + {} == s.q.holds - Named(id);
      InterjectDone(s, id, expected, newText, env);
    case DoSteer(id, expected) => hide Core, DoneAfter; SteerDone(s, id, expected, env);
    case DoRemove(id, expected) => hide Core, DoneAfter; RemoveDone(s, id, expected, env);
    case DoEdit(id, pinned, newText) => hide Core, DoneAfter; EditDone(s, id, pinned, newText, env);
    case _ => hide Core, DoneAfter; OtherControlDone(s, control, env);
  }

  lemma StepDone(s: State, a: Action, env: Env)
    requires Core(s) && Enabled(s, a)
    ensures DoneAfter(s, a, env, Step(s, a, env))
  {
    hide Core, DoneAfter, Submit, PredecessorDone, Prepared, PreparationAborted, ApplyControl, Claimed, TurnEnded, DrainDone,
      FlushDone, PromotionIdle, CancelAll, CancelPrompt, Dispose, RunIdle;
    match a
    case APrepared(i, content) => PreparedDone(s, i, content, env);
    case AControl(control) => ControlDone(s, control, env);
    case AFlushDone(flushOk) => FlushedDone(s, flushOk, env);
    case APromotionIdle => IdleDone(s, env);
    case ACancelPrompt(id) => CancelPromptDone(s, id, env);
    case ACancelAll => WholeDone(s, a, env);
    case ABeginReload => WholeDone(s, a, env);
    case ADispose => WholeDone(s, a, env);
    case _ => StillDone(s, a, env);
  }

  lemma RidersAre(s: State, a: Action, env: Env, t: State, r: Rpc)
    requires Core(s) && Enabled(s, a) && t.q.steered == RidersAfter(s, a, env)
    ensures IsSteered(t, r) <==> Rides(s, a, env, r)
  {
    if a.AControl? && a.control.DoSteer? {
      PicksRowLocated(s, a.control.id, a.control.expectedVersion, r);
      hide Core, PicksRow, Locate;
      var at := LocateIn(s, a.control.id);
      if at.Some? { IsSteeredNext(s, t, Steered(s.q.queue[at.value].rpc, s.q.queue[at.value].id), r); }
    } else {
      hide Core;
      if a.APrepared? && a.slot < |s.a.slots| { IsSteeredNext(s, t, Steered(a.slot, s.a.slots[a.slot].id), r); }
    }
  }

  lemma IsSteeredNext(s: State, t: State, entry: Steered, r: Rpc)
    ensures t.q.steered == s.q.steered + [entry] ==> (IsSteered(t, r) <==> IsSteered(s, r) || entry.rpc == r)
  {
    if t.q.steered == s.q.steered + [entry] {
      assert t.q.steered[|s.q.steered|] == entry;
      if IsSteered(s, r) {
        var e :| e in s.q.steered && e.rpc == r;
        assert e in t.q.steered;
      }
    }
  }

  lemma PicksRowLocated(s: State, id: Option<Id>, version: int, r: Rpc)
    requires Core(s)
    ensures var at := LocateIn(s, id);
            PicksRow(s, id, version, r) <==> at.Some? && s.q.queue[at.value].version == version && s.q.queue[at.value].rpc == r
  {
    PicksLocated(s, id, version);
    if id.Some? {
      LocateFits(s.q.queue, id.value);
      var at := LocateIn(s, id);
      if at.Some? {
        assert s.q.queue[at.value] in s.q.queue;
        forall row | row in s.q.queue && row.id == id.value
          ensures row == s.q.queue[at.value]
        {
          var k :| 0 <= k < |s.q.queue| && s.q.queue[k] == row;
          IdsApart(s, k, at.value);
        }
      }
    }
  }

  /**
   * In every run the held ids are exactly those asked to be held and not yet
   * lifted, and no step starts a turn with a prompt that is held after it; a
   * prompt rides the running turn exactly from when it was prepared to, or its
   * row steered, beside an agent that took it, until the turn is flushed.
   */
  lemma {:induction false} HeldAndSteered(combineQueued: bool, followUpSteer: bool, actions: seq<(Action, Env)>, a: Action, env: Env)
    requires RunFrom(Initial(combineQueued, followUpSteer), actions) && Enabled(After(Initial(combineQueued, followUpSteer), actions), a)
    ensures var s := After(Initial(combineQueued, followUpSteer), actions);
            var t := Step(s, a, env);
            && t.q.holds == s.q.holds - Lifted(s, a) + Held(s, a) && Free(s.log, t)
            && forall r :: IsSteered(t, r) <==> Rides(s, a, env, r)
  {
    InitialInv(combineQueued, followUpSteer);
    hide Initial, Step, Core, Inv, Enabled, RunFrom, After, Free, Lifted, Held, RidersAfter, IsSteered, Rides;
    RunKeeps(Initial(combineQueued, followUpSteer), actions);
    var s := After(Initial(combineQueued, followUpSteer), actions);
    InvIsCore(s);
    StepDone(s, a, env);
    forall r: Rpc
      ensures IsSteered(Step(s, a, env), r) <==> Rides(s, a, env, r)
    {
      RidersAre(s, a, env, Step(s, a, env), r);
    }
  }

  // ----- Submissions and cancellations -----

  /** Prompt `r` carries this id and holds a place. */
  ghost predicate Carries(s: State, id: Id, r: Rpc) {
    r < |s.a.slots| && s.a.slots[r].id == id && Places(s, r) > 0
  }

  lemma RowCarries(s: State, row: Row)
    requires Core(s) && row in s.q.queue
    ensures Carries(s, row.id, row.rpc) && InQueue(s, row.rpc)
  {
    CorePlaces(s);
    hide Core, Accounted, Slotted, SteeredNamed, Disjoint, Distinct;
  }

  lemma SteeredCarries(s: State, entry: Steered)
    requires Core(s) && entry in s.q.steered
    ensures Carries(s, entry.id, entry.rpc) && IsSteered(s, entry.rpc)
  {
    hide RowsNamed, RunNamed, Epochs, Chain, Admissions, Disjoint, Distinct, Accounted, Slotted, Liveness, Ordered, StartedLeft, Serial;
  }

  lemma PreparingCarries(s: State, id: Id)
    requires Core(s)
    ensures id in s.a.preparing <==> exists r :: Carries(s, id, r) && Preparing(s.a.slots, r)
    ensures id in s.a.preparing ==> Carries(s, id, s.a.preparing[id]) && Preparing(s.a.slots, s.a.preparing[id])
  {
    hide RowsNamed, RunNamed, SteeredNamed, Epochs, Chain, Disjoint, Distinct, Accounted, Slotted, Liveness, Ordered, StartedLeft, Serial;
  }

  lemma RunCarries(s: State)
    requires Core(s)
    ensures s.q.runningId == if s.q.run.Some? then Some(s.q.run.value.id) else None
    ensures s.q.run.Some? ==> Carries(s, s.q.run.value.id, s.q.run.value.rpc) && IsRunning(s, s.q.run.value.rpc)
  {
    hide RowsNamed, SteeredNamed, Epochs, Chain, Admissions, Disjoint, Distinct, Accounted, Liveness, Ordered, StartedLeft, Serial;
  }

  /** An id is active exactly if a prompt that holds a place carries it. */
  lemma ActiveCarries(s: State, id: Id)
    requires Core(s)
    ensures id in ActiveIds(s) <==> exists r :: Carries(s, id, r)
  {
    hide Core, Carries, Preparing;
    PreparingCarries(s, id);
    RunCarries(s);
    forall row | row in s.q.queue && row.id == id
      ensures Carries(s, id, row.rpc)
    {
      RowCarries(s, row);
    }
    forall entry | entry in s.q.steered && entry.id == id
      ensures Carries(s, id, entry.rpc)
    {
      SteeredCarries(s, entry);
    }
    if r :| Carries(s, id, r) { CarriedActive(s, id, r); }
  }

  lemma CarriedActive(s: State, id: Id, r: Rpc)
    requires Core(s) && Carries(s, id, r)
    ensures id in ActiveIds(s)
  {
    PreparingCarries(s, id);
    hide Epochs, Chain, Disjoint, Distinct, Accounted, Liveness, Ordered, StartedLeft, Serial, Admissions;
  }

  /**
   * In every run a submission is taken exactly if the session is live and no
   * prompt that holds a place carries its id; it is then the newest RPC,
   * unanswered, preparing, as it was sent. Otherwise nothing happens.
   */
  lemma {:induction false} SubmissionTaken(combineQueued: bool, followUpSteer: bool, actions: seq<(Action, Env)>,
                                           id: Id, text: string, sendNow: bool, followUp: FollowUp)
    requires RunFrom(Initial(combineQueued, followUpSteer), actions)
    ensures var s := After(Initial(combineQueued, followUpSteer), actions);
            var t, r := Submit(s, id, text, sendNow, followUp), |s.a.slots|;
            if Controllable(s) && !exists q :: Carries(s, id, q)
            then t.cells == s.cells + [None] && r < |t.a.slots| && Preparing(t.a.slots, r) && t.q == s.q
                 && var slot := t.a.slots[r]; slot.id == id && slot.text == text && slot.sendNow == sendNow && slot.followUp == followUp
            else t == s
  {
    InitialInv(combineQueued, followUpSteer);
    RunKeeps(Initial(combineQueued, followUpSteer), actions);
    var s := After(Initial(combineQueued, followUpSteer), actions);
    hide Initial, Step, Core, Inv, Enabled, RunFrom, After;
    InvIsCore(s);
    ActiveCarries(s, id);
    hide ActiveIds, Carries;
  }

  /** A prompt that can still be withdrawn: it prepares, waits, or runs and has not ended. */
  ghost predicate Withdrawable(s: State, r: Rpc) {
    Preparing(s.a.slots, r) || InQueue(s, r) || (IsRunning(s, r) && s.q.inflight.Some?)
  }

  /**
   * In every run a targeted cancellation answers what became of the prompt that
   * carries the id: cancelled if it could be withdrawn, already submitted if it
   * rides a turn or its own has ended, and not found if there is none.
   */
  lemma {:induction false} CancellationTold(combineQueued: bool, followUpSteer: bool, actions: seq<(Action, Env)>, id: Id)
    requires RunFrom(Initial(combineQueued, followUpSteer), actions)
    ensures var s := After(Initial(combineQueued, followUpSteer), actions);
            match CancelPromptResult(s, id)
            case CancelledPrompt => Controllable(s) && exists r :: Carries(s, id, r) && Withdrawable(s, r)
            case AlreadySubmitted => Controllable(s) && exists r :: Carries(s, id, r) && !Withdrawable(s, r)
            case NotFound => !Controllable(s) || !exists r :: Carries(s, id, r)
  {
    InitialInv(combineQueued, followUpSteer);
    RunKeeps(Initial(combineQueued, followUpSteer), actions);
    var s := After(Initial(combineQueued, followUpSteer), actions);
    hide Initial, Step, Core, Inv, Enabled, RunFrom, After, CancelPromptResult, Carries, Withdrawable;
    InvIsCore(s);
    ResultTold(s, id);
  }

  lemma ResultTold(s: State, id: Id)
    requires Core(s)
    ensures match CancelPromptResult(s, id)
            case CancelledPrompt => Controllable(s) && exists r :: Carries(s, id, r) && Withdrawable(s, r)
            case AlreadySubmitted => Controllable(s) && exists r :: Carries(s, id, r) && !Withdrawable(s, r)
            case NotFound => !Controllable(s) || !exists r :: Carries(s, id, r)
  {
    hide Core, Carries, Withdrawable, Locate;
    if !Controllable(s) { return; }
    RunCarries(s);
    if s.q.runningId == Some(id) {
      RunningTold(s);
      return;
    }
    CoreDependents(s);
    NotRunning(s, id);
    var at := LocateIn(s, Some(id));
    if at.Some? {
      RowTold(s, at.value);
    } else if entry :| entry in s.q.steered && entry.id == id {
      SteeredCarries(s, entry);
      OnePlace(s, entry.rpc);
    } else {
      PreparingTold(s, id);
    }
  }

  lemma NotRunning(s: State, id: Id)
    requires Core(s) && s.q.runningId != Some(id)
    ensures !(s.q.inflight.Some? && s.q.inflight.value.id == id)
  {
    hide RowsNamed, SteeredNamed, Epochs, Chain, Admissions, Disjoint, Distinct, Accounted, Liveness, Ordered, StartedLeft, Serial;
  }

  lemma RowTold(s: State, k: nat)
    requires Core(s) && k < |s.q.queue|
    ensures Carries(s, s.q.queue[k].id, s.q.queue[k].rpc) && Withdrawable(s, s.q.queue[k].rpc)
  {
    RowCarries(s, s.q.queue[k]);
    hide Core, Carries;
  }

  /** Neither queued nor steered nor running: an id is that of a preparing prompt or of none. */
  lemma PreparingTold(s: State, id: Id)
    requires Core(s) && LocateIn(s, Some(id)).None? && s.q.runningId != Some(id)
    requires !exists entry :: entry in s.q.steered && entry.id == id
    ensures if id in s.a.preparing then exists r :: Carries(s, id, r) && Withdrawable(s, r) else !exists r :: Carries(s, id, r)
  {
    PreparingCarries(s, id);
    ActiveCarries(s, id);
    LocateFits(s.q.queue, id);
    hide Core, Carries, Locate;
    if id in s.a.preparing { assert Withdrawable(s, s.a.preparing[id]); }
  }

  lemma OnePlace(s: State, r: Rpc)
    requires Core(s) && IsSteered(s, r)
    ensures !Withdrawable(s, r)
  {
    PlacesOf(s, r);
    hide Core;
  }

  lemma RunningTold(s: State)
    requires Core(s) && s.q.run.Some? && Controllable(s)
    ensures var id, r := s.q.run.value.id, s.q.run.value.rpc;
            && Carries(s, id, r)
            && (s.q.inflight.Some? ==> CancelPromptResult(s, id) == CancelledPrompt && Withdrawable(s, r))
            && (s.q.inflight.None? ==> CancelPromptResult(s, id) == AlreadySubmitted && !Withdrawable(s, r))
  {
    RunIsNamed(s);
    RunningApart(s, s.q.run.value.id);
    PlacesOf(s, s.q.run.value.rpc);
    hide Core;
  }
}
