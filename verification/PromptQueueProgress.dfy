/**
 * Progress of the prompt queue: what the environment still owes is finite, and
 * once it has delivered, every prompt RPC has settled except those queued with
 * no run behind a held front row, or in a session lost without being disposed.
 */
module PromptQueueProgress {
  import opened Options
  import opened PromptQueueModel
  import opened PromptQueueSafety

  /** The actions that deliver something already promised; the rest is new input. */
  predicate Completion(a: Action) {
    a.APredecessorDone? || a.APrepared? || a.APreparationFailed? || a.ARunIdle? || a.ADrainDone? || a.AFlushDone? || a.APromotionIdle?
  }

  // ----- Enough is enabled -----

  /** The first slot whose tail promise is outstanding can move. */
  lemma {:induction false} FirstOutstanding(slots: seq<Slot>, i: Rpc) returns (j: Rpc)
    requires Chain(slots) && i < |slots| && !slots[i].released
    ensures j <= i && !slots[j].released && (j > 0 ==> slots[j - 1].released)
  {
    j := i;
    if i > 0 && !slots[i - 1].released {
      j := FirstOutstanding(slots, i - 1);
    }
  }

  lemma PreparingMoves(s: State, r: Rpc) returns (a: Action)
    requires Core(s) && Preparing(s.a.slots, r)
    ensures Completion(a) && Enabled(s, a)
  {
    CoreChain(s);
    hide Core;
    var j := FirstOutstanding(s.a.slots, r);
    a := if s.a.slots[j].predecessorDone then APrepared(j, []) else APredecessorDone(j);
  }

  lemma RunMoves(s: State) returns (a: Action)
    requires s.q.run.Some?
    ensures Completion(a) && Enabled(s, a)
  {
    a := match s.q.run.value.phase case Active => ARunIdle case Draining => ADrainDone case Flushing(_) => AFlushDone(true);
  }

  /** The RPC is queued with no run before it, behind a held front of a live queue or in a session lost undisposed. */
  ghost predicate Blocked(s: State, r: Rpc) {
    InQueue(s, r) && s.q.run.None? && ((s.live && Parked(s)) || (s.gone && !s.disposed))
  }

  /** No lost wakeup: while an RPC is unsettled and not blocked, some promised completion is still due. */
  lemma {:induction false} NoDeadlock(s: State, r: Rpc) returns (a: Action)
    requires Inv(s) && r < |s.cells| && s.cells[r].None?
    requires !Blocked(s, r)
    ensures Completion(a) && Enabled(s, a)
  {
    PlacesOf(s, r);
    CoreChain(s);
    CoreDependents(s);
    hide Core;
    if Preparing(s.a.slots, r) {
      a := PreparingMoves(s, r);
    } else if s.q.run.Some? {
      a := RunMoves(s);
    } else {
      assert InQueue(s, r);
      assert s.q.queue != [] by { var row :| row in s.q.queue && row.rpc == r; }
      a := APromotionIdle;
    }
  }

  // ----- What is owed only shrinks -----

  function SlotWork(slot: Slot): nat {
    if !slot.predecessorDone then 10 else if slot.io then 9 else 0
  }

  function SlotsWork(slots: seq<Slot>): nat {
    if slots == [] then 0 else SlotWork(slots[0]) + SlotsWork(slots[1..])
  }

  function RunWork(run: Option<Run>): nat {
    match run
    case None => 0
    case Some(r) => match r.phase case Active => 4 case Draining => 3 case Flushing(_) => 2
  }

  function QueueWork(q: PromptState): nat {
    6 * |q.queue| + RunWork(q.run) + (if q.scheduled then 1 else 0)
  }

  /** How much the environment may still have to deliver before the queue is quiescent. */
  function Owed(s: State): nat {
    SlotsWork(s.a.slots) + QueueWork(s.q)
  }

  lemma {:induction false} SlotsWorkAt(slots: seq<Slot>, i: Rpc, after: Slot)
    requires i < |slots|
    ensures SlotsWork(slots[i := after]) == SlotsWork(slots) - SlotWork(slots[i]) + SlotWork(after)
  {
    if i > 0 {
      SlotsWorkAt(slots[1..], i - 1, after);
      assert slots[i := after][1..] == slots[1..][i - 1 := after];
    }
  }

  /** Starting a turn takes at least one row out of the queue. */
  lemma StartOwes(s: State, env: Env)
    requires s.q.runningId.None? && s.q.inflight.None? && s.q.run.None? && s.q.queue != [] && !Parked(s)
    ensures QueueWork(Advance(s, env).q) + 2 <= QueueWork(s.q) && Advance(s, env).a == s.a
  {
    TurnIsMaximal(s.q.queue, s.q.holds, s.combineQueued);
    hide Rpcs, Texts, RunContent, Resolve, HasImage, Parked, TurnSize, Followers;
  }

  predicate Starts(s: State) {
    s.q.runningId.None? && s.q.inflight.None? && s.q.queue != [] && !Parked(s)
  }

  lemma StaysPut(s: State, env: Env)
    requires !Starts(s)
    ensures Advance(s, env) == s
  {
  }

  lemma AdvanceOwes(s: State, env: Env)
    requires s.q.run.Some? <==> s.q.runningId.Some?
    ensures QueueWork(Advance(s, env).q) <= QueueWork(s.q) && Advance(s, env).a == s.a
  {
    hide Advance;
    if Starts(s) { StartOwes(s, env); } else { StaysPut(s, env); }
  }

  lemma PromoteOwes(s: State, env: Env)
    requires s.q.run.Some? <==> s.q.runningId.Some?
    ensures QueueWork(Promote(s, env).q) <= QueueWork(s.q) + 1 && Promote(s, env).a == s.a
  {
    hide Advance;
    AdvanceOwes(s, env);
  }

  lemma SettleOwes(s: State, outcome: Outcome)
    ensures var t := SettleInflight(s, outcome); QueueWork(t.q) <= QueueWork(s.q) && t.a == s.a
    requires s.q.inflight.Some? <==> s.q.run.Some? && s.q.run.value.phase.Active?
  {
  }

  lemma RetireOwes(s: State, i: Rpc)
    requires i < |s.a.slots|
    ensures SlotsWork(Retire(s, i).a.slots) == SlotsWork(s.a.slots) && Retire(s, i).q == s.q
    ensures |Retire(s, i).a.slots| == |s.a.slots|
  {
    SlotsWorkAt(s.a.slots, i, s.a.slots[i].(retired := true, released := s.a.slots[i].predecessorDone));
    hide SlotsWork;
  }

  lemma FailOwes(s: State, i: Rpc, abort: Abort)
    requires i < |s.a.slots|
    ensures Owed(FailSlot(s, i, abort)) == Owed(s)
  {
    hide SlotsWork, QueueWork, Retire, Resolve;
    if !s.a.slots[i].retired { RetireOwes(Settle(s, i, AbortOutcome(abort)), i); }
  }

  lemma EnqueueOwes(s: State, i: Rpc, content: seq<Block>, env: Env)
    requires i < |s.a.slots|
    requires s.q.run.Some? <==> s.q.runningId.Some?
    requires s.q.inflight.Some? <==> s.q.run.Some? && s.q.run.value.phase.Active?
    ensures Owed(Enqueue(s, i, content, env)) <= Owed(s) + 7
  {
    hide SlotsWork, Promote, SettleInflight, Resolve, QueueWork;
    var slot := s.a.slots[i];
    var row := Row(i, slot.id, slot.text, content, 0, None);
    var t := s.(log := s.log + [Entered(i)]);
    var front := t.q.(queue := [row] + t.q.queue, sendNowTrigger := true);
    var back := t.q.(queue := t.q.queue + [row]);
    OneRowMore(s.q, front, back, t.q.(steered := t.q.steered + [Steered(i, slot.id)]));
    if slot.sendNow && t.q.inflight.Some? {
      SettleOwes(t.(q := front), Stopped(Cancelled));
    } else if SteersThis(s, slot) && t.q.inflight.Some? {
    } else {
      PromoteOwes(t.(q := back), env);
    }
  }

  lemma OneRowMore(q: PromptState, front: PromptState, back: PromptState, steered: PromptState)
    requires |front.queue| == |back.queue| == |q.queue| + 1 && |steered.queue| == |q.queue|
    requires front.run == back.run == steered.run == q.run && front.scheduled == back.scheduled == steered.scheduled == q.scheduled
    ensures QueueWork(front) == QueueWork(back) == QueueWork(q) + 6 && QueueWork(steered) == QueueWork(q)
  {
  }

  lemma PredecessorOwes(s: State, i: Rpc)
    requires i < |s.a.slots| && !s.a.slots[i].predecessorDone && !s.a.slots[i].io
    ensures Owed(PredecessorDone(s, i)) < Owed(s)
  {
    var slot := s.a.slots[i].(predecessorDone := true);
    var t := s.(a := s.a.(slots := s.a.slots[i := slot]));
    SlotsWorkAt(s.a.slots, i, slot);
    SlotsWorkAt(s.a.slots, i, slot.(released := true));
    SlotsWorkAt(t.a.slots, i, slot.(io := true));
    hide SlotsWork, QueueWork, FailSlot;
    if !slot.retired && AssertActive(t, i).Some? { FailOwes(t, i, AssertActive(t, i).value); }
  }

  lemma PreparedOwes(s: State, i: Rpc, content: seq<Block>, env: Env)
    requires Core(s) && i < |s.a.slots| && s.a.slots[i].io
    ensures Owed(Prepared(s, i, content, env)) < Owed(s)
  {
    CoreChain(s);
    IoChain(s.a.slots, i);
    CorePlaces(s);
    var t := s.(a := s.a.(slots := s.a.slots[i := s.a.slots[i].(io := false)]));
    SlotsWorkAt(s.a.slots, i, s.a.slots[i].(io := false));
    hide Core, Chain, SlotsWork, QueueWork, FailSlot, Retire, Enqueue, Disjoint, Distinct, Accounted, RowsNamed, SteeredNamed;
    if t.a.slots[i].retired {
    } else if AssertActive(t, i).Some? {
      FailOwes(t, i, AssertActive(t, i).value);
    } else {
      RetireOwes(t, i);
      EnqueueOwes(Retire(t, i), i, content, env);
    }
  }

  lemma AbortedOwes(s: State, i: Rpc, abort: Abort)
    requires Core(s) && i < |s.a.slots| && s.a.slots[i].io
    ensures Owed(PreparationAborted(s, i, abort)) < Owed(s)
  {
    CoreChain(s);
    IoChain(s.a.slots, i);
    SlotsWorkAt(s.a.slots, i, s.a.slots[i].(io := false));
    hide Core, Chain, SlotsWork, QueueWork, FailSlot;
    FailOwes(s.(a := s.a.(slots := s.a.slots[i := s.a.slots[i].(io := false)])), i, abort);
  }

  lemma FlushOwes(s: State, flushOk: bool, env: Env)
    requires s.q.run.Some? && s.q.run.value.phase.Flushing?
    ensures Owed(FlushDone(s, flushOk, env)) < Owed(s)
  {
    hide SlotsWork, Promote, Resolve, SteeredRpcs;
    PromoteOwes(Finished(s, flushOk), env);
  }

  lemma PromotionOwes(s: State, env: Env)
    requires Core(s) && s.q.scheduled
    ensures Owed(PromotionIdle(s, env)) < Owed(s)
  {
    CoreDependents(s);
    hide Core, SlotsWork, Advance;
    AdvanceOwes(s.(q := s.q.(scheduled := false)), env);
  }

  /** Every completion leaves strictly less owed: without new input the queue comes to rest. */
  lemma {:induction false} CompletionOwes(s: State, a: Action, env: Env)
    requires Inv(s) && Completion(a) && Enabled(s, a)
    ensures Owed(Step(s, a, env)) < Owed(s)
  {
    CoreChain(s);
    hide Core, Owed, PredecessorDone, Prepared, PreparationAborted, SettleInflight, DrainDone, FlushDone, PromotionIdle;
    match a
    case APredecessorDone(i) => IoChain(s.a.slots, i); PredecessorOwes(s, i);
    case APrepared(i, content) => PreparedOwes(s, i, content, env);
    case APreparationFailed(i, abort) => AbortedOwes(s, i, abort);
    case ARunIdle => IdleOwes(s);
    case ADrainDone => DrainOwes(s);
    case AFlushDone(flushOk) => FlushOwes(s, flushOk, env);
    case APromotionIdle => PromotionOwes(s, env);
  }

  lemma IdleOwes(s: State)
    requires Inv(s) && s.q.run.Some? && s.q.run.value.phase.Active?
    ensures Owed(RunIdle(s)) < Owed(s)
  {
    CorePlaces(s);
    hide Core, Distinct, Accounted, Disjoint, RowsNamed, SteeredNamed, SlotsWork, Inv;
    ActiveOwes(s);
  }

  lemma ActiveOwes(s: State)
    requires s.q.run.Some? && s.q.inflight.Some? && s.q.run.value.phase.Active?
    ensures Owed(RunIdle(s)) < Owed(s)
  {
  }

  lemma DrainOwes(s: State)
    requires s.q.run.Some? && s.q.run.value.phase.Draining?
    ensures Owed(DrainDone(s)) < Owed(s)
  {
  }

  // ----- Coming to rest -----

  ghost predicate OnlyCompletions(actions: seq<(Action, Env)>) {
    forall k :: 0 <= k < |actions| ==> Completion(actions[k].0)
  }

  /** No run of completions is longer than what is owed at its start. */
  lemma {:induction false} CompletionsEnd(s: State, actions: seq<(Action, Env)>)
    requires Inv(s) && RunFrom(s, actions) && OnlyCompletions(actions)
    ensures |actions| + Owed(After(s, actions)) <= Owed(s)
    decreases |actions|
  {
    hide Inv, Step, Owed;
    if actions != [] {
      var (a, env) := actions[0];
      CompletionOwes(s, a, env);
      StepKeeps(s, a, env);
      assert forall k :: 0 <= k < |actions[1..]| ==> actions[1..][k] == actions[k + 1];
      CompletionsEnd(Step(s, a, env), actions[1..]);
    }
  }

  lemma BlockedPlace(s: State, r: Rpc)
    requires Inv(s) && Blocked(s, r) && r < |s.cells|
    ensures s.cells[r].None? || s.cells[r] == Some(Rejected([SteerFailed]))
  {
    PlacesOf(s, r);
  }

  /** In a queue at rest the unsettled RPCs are exactly the blocked ones, but for rows a failed steering left there. */
  lemma {:induction false} AtRest(combineQueued: bool, followUpSteer: bool, actions: seq<(Action, Env)>, r: Rpc)
    requires RunFrom(Initial(combineQueued, followUpSteer), actions)
    requires var s := After(Initial(combineQueued, followUpSteer), actions);
             r < |s.cells| && forall a :: Completion(a) ==> !Enabled(s, a)
    ensures var s := After(Initial(combineQueued, followUpSteer), actions);
            s.cells[r].None? <==> Blocked(s, r) && s.cells[r] != Some(Rejected([SteerFailed]))
  {
    hide Step;
    InitialInv(combineQueued, followUpSteer);
    RunKeeps(Initial(combineQueued, followUpSteer), actions);
    hide RunFrom, Initial, Inv;
    var s := After(Initial(combineQueued, followUpSteer), actions);
    hide After, Blocked;
    if s.cells[r].None? && !Blocked(s, r) {
      var a := NoDeadlock(s, r);
      assert false;
    }
    if Blocked(s, r) { BlockedPlace(s, r); }
  }
}
