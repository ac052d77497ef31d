/** The prompt queue as the bridge keeps it: fields updated in place, one method per atomic step. */
module PromptQueueEngine {
  import opened Options
  import JsText
  import Model = PromptQueueModel
  import opened Types = PromptQueueModel
  import opened PromptQueueSafety

  class PromptQueue {
    const combineQueued: bool
    const followUpSteer: bool
    // PromptState
    var queue: seq<Row>
    var holds: set<Id>
    var steered: seq<Steered>
    var runningId: Option<Id>
    var inflight: Option<Inflight>
    var run: Option<Run>
    var sendNowTrigger: bool
    var scheduled: bool
    // what the attached queue closes over
    var slots: seq<Slot>
    var preparing: map<Id, Rpc>
    var admissions: int
    var epoch: nat
    var disposed: bool
    // what the host answers
    var live: bool
    var gone: bool
    // the promises handed out
    var cells: seq<Option<Outcome>>
    ghost var log: seq<Event>

    ghost function View(): State
      reads this
    {
      State(combineQueued, followUpSteer,
            PromptState(queue, holds, steered, runningId, inflight, run, sendNowTrigger, scheduled),
            Admission(slots, preparing, admissions, epoch),
            disposed, live, gone, cells, log)
    }

    ghost predicate Valid()
      reads this
    {
      Inv(View())
    }

    constructor (combineQueued: bool, followUpSteer: bool)
      ensures View() == Initial(combineQueued, followUpSteer) && Valid()
    {
      this.combineQueued, this.followUpSteer := combineQueued, followUpSteer;
      queue, holds, steered, runningId, inflight, run := [], {}, [], None, None, None;
      sendNowTrigger, scheduled := false, false;
      slots, preparing, admissions, epoch := [], map[], 0, 0;
      disposed, live, gone := false, true, false;
      cells, log := [], [];
      new;
      InitialInv(combineQueued, followUpSteer);
    }

    /** A promise settles once; later writes are ignored. */
    method ResolveCell(rpc: Rpc, outcome: Outcome)
      modifies this`cells
      ensures cells == Resolve(old(cells), {rpc}, outcome)
    {
      if rpc < |cells| && cells[rpc].None? {
        cells := cells[rpc := Some(outcome)];
      }
    }

    method SettlePrompt(outcome: Outcome)
      modifies this`inflight, this`run
      ensures View() == Model.SettleInflight(old(View()), outcome)
    {
      if inflight.None? || run.None? { return; }
      inflight := None;
      run := Some(run.value.(phase := AfterActive(outcome)));
    }

    /** Fold the rows behind the front into its turn one by one; each folded prompt settles cancelled. */
    method FoldFollowers() returns (segments: seq<string>)
      requires queue != []
      modifies this`queue, this`cells
      ensures var rows, n := old(queue), TurnSize(old(queue), holds, combineQueued);
              && 1 <= n <= |rows| && queue == [rows[0]] + rows[n..] && segments == Texts(rows[..n])
              && cells == Resolve(old(cells), Rpcs(rows[1..n]), Stopped(Cancelled))
    {
      hide Rpcs, Resolve, Texts, HasImage;
      ghost var rows, before := queue, cells;
      TextsOne(rows);
      segments := [queue[0].text];
      FollowersFit(rows[1..], holds);
      FoldOne(rows, before, 1);
      if !combineQueued || HasImage(queue[0]) { return; }
      while |queue| >= 2 && queue[1].id !in holds && !HasImage(queue[1])
        invariant 1 <= |segments| <= |rows|
        invariant queue == [rows[0]] + rows[|segments|..]
        invariant segments == Texts(rows[..|segments|])
        invariant cells == Resolve(before, Rpcs(rows[1..|segments|]), Stopped(Cancelled))
        invariant Followers(rows[1..], holds) == |segments| - 1 + Followers(rows[|segments|..], holds)
        decreases |queue|
      {
        var follower := queue[1];
        assert follower == rows[|segments|] && rows[|segments|..][1..] == rows[|segments| + 1..];
        queue := [queue[0]] + queue[2..];
        FoldOne(rows, before, |segments|);
        segments := segments + [follower.text];
        ResolveCell(follower.rpc, Stopped(Cancelled));
      }
    }

    /** `advancePromptQueue`. */
    method AdvancePromptQueue(env: Env)
      modifies this`queue, this`cells, this`runningId, this`run, this`inflight, this`log
      ensures View() == Model.Advance(old(View()), env)
    {
      if inflight.Some? || runningId.Some? || queue == [] || queue[0].id in holds { return; }
      var segments := FoldFollowers();
      var front := queue[0];
      if |segments| >= 2 { front := front.(combinedTexts := Some(segments)); }
      queue := queue[1..];
      StartPrompt(front, env);
    }

    /** The synchronous part of `runPrompt`. */
    method StartPrompt(row: Row, env: Env)
      modifies this`runningId, this`run, this`inflight, this`log
      ensures View() == Model.StartRun(old(View()), row, env)
    {
      runningId := Some(row.id);
      log := log + [Started(row.rpc, RunContent(row), row.combinedTexts)];
      inflight := Some(Inflight(row.rpc, row.id, env.messageId, None));
      run := Some(Run(row.rpc, row.id, Active));
      hide RunContent;
      if env.followupOk { return; }
      inflight := None;
      run := Some(Run(row.rpc, row.id, Flushing(Rejected([FollowupFailed]))));
    }

    /** `promoteWhenIdle`: the single promotion entry point. */
    method PromoteWhenIdle(env: Env)
      modifies this`queue, this`cells, this`runningId, this`run, this`inflight, this`log, this`scheduled
      ensures View() == Model.Promote(old(View()), env)
    {
      hide Model.Advance;
      if disposed || !live || scheduled { return; }
      if inflight.None? && env.idle {
        AdvancePromptQueue(env);
      } else {
        scheduled := true;
      }
    }

    /** `discardPromptQueue`. */
    method DiscardPromptQueue()
      modifies this`holds, this`queue, this`cells
      ensures View() == Model.Discard(old(View()))
    {
      holds := {};
      var rows := queue;
      queue := [];
      ghost var before := cells;
      DiscardOne(rows, before, 0);
      for i := 0 to |rows|
        invariant cells == Resolve(before, Rpcs(rows[..i]), Stopped(Cancelled))
        invariant holds == {} && queue == []
      {
        DiscardOne(rows, before, i);
        ResolveCell(rows[i].rpc, Stopped(Cancelled));
      }
      assert rows[..|rows|] == rows;
    }

    // ----- Admission -----

    method IsActive(id: Id) returns (active: bool)
      ensures active == (id in ActiveIds(View()))
    {
      active := id in preparing || runningId == Some(id) || (exists row :: row in queue && row.id == id)
                || (exists entry :: entry in steered && entry.id == id);
    }

    method Submit(id: Id, text: string, sendNow: bool, followUp: FollowUp) returns (accepted: bool)
      modifies this`slots, this`preparing, this`admissions, this`cells
      ensures View() == Model.Submit(old(View()), id, text, sendNow, followUp)
      ensures accepted == Accepts(old(View()), id)
    {
      if disposed || !live { return false; }
      var active := IsActive(id);
      if active { return false; }
      hide ActiveIds;
      admissions := admissions + 1;
      slots := slots + [Slot(id, text, sendNow, followUp, epoch, false, false, false, false, false)];
      preparing := preparing[id := |slots| - 1];
      cells := cells + [None];
      return true;
    }

    method RetireSlot(i: Rpc)
      requires i < |slots|
      modifies this`slots, this`preparing, this`admissions
      ensures View() == Model.Retire(old(View()), i)
    {
      if slots[i].retired { return; }
      preparing := preparing - {slots[i].id};
      admissions := admissions - 1;
      slots := slots[i := slots[i].(retired := true, released := slots[i].predecessorDone)];
    }

    method FailSlot(i: Rpc, abort: Abort)
      requires i < |slots|
      modifies this`slots, this`preparing, this`admissions, this`cells
      ensures View() == Model.FailSlot(old(View()), i, abort)
    {
      hide Model.Retire, Resolve;
      if slots[i].retired { return; }
      ResolveCell(i, AbortOutcome(abort));
      RetireSlot(i);
    }

    /** The tail before slot `i` resolved; its preparation starts unless it is no longer wanted. */
    method PredecessorDone(i: Rpc)
      requires i < |slots|
      modifies this`slots, this`preparing, this`admissions, this`cells
      ensures View() == Model.PredecessorDone(old(View()), i)
    {
      hide Model.FailSlot;
      slots := slots[i := slots[i].(predecessorDone := true)];
      if slots[i].retired {
        slots := slots[i := slots[i].(released := true)];
        return;
      }
      var abort := CheckActive(i);
      if abort.Some? {
        FailSlot(i, abort.value);
      } else {
        slots := slots[i := slots[i].(io := true)];
      }
    }

    method CheckActive(i: Rpc) returns (abort: Option<Abort>)
      requires i < |slots|
      ensures abort == AssertActive(View(), i)
    {
      if disposed || !live { return Some(Failure(NotLive)); }
      if slots[i].targeted || slots[i].epoch != epoch { return Some(CancelledMark); }
      return None;
    }

    /** `enqueuePrompt`: send now, steer the running turn, or wait in the queue. */
    method EnqueuePrompt(i: Rpc, content: seq<Block>, env: Env)
      requires i < |slots|
      modifies this`queue, this`cells, this`runningId, this`run, this`inflight, this`log, this`scheduled, this`sendNowTrigger, this`steered
      ensures View() == Model.Enqueue(old(View()), i, content, env)
    {
      hide Model.Promote, Model.SettleInflight, Resolve;
      var slot := slots[i];
      var row := Row(i, slot.id, slot.text, content, 0, None);
      log := log + [Entered(i)];
      if slot.sendNow && inflight.Some? {
        SendNow(row);
        return;
      }
      var steerThis := if slot.followUp == Steer then true else if slot.followUp == Queue then false else followUpSteer;
      if steerThis && inflight.Some? {
        SteerIn(row, env);
        return;
      }
      queue := queue + [row];
      PromoteWhenIdle(env);
    }

    /** Cancel the running turn and run this row next. */
    method SendNow(row: Row)
      modifies this`queue, this`sendNowTrigger, this`inflight, this`run
      ensures View() ==
              Model.SettleInflight(old(View().(q := View().q.(queue := [row] + queue, sendNowTrigger := true))), Stopped(Cancelled))
    {
      hide Model.SettleInflight;
      queue := [row] + queue;
      sendNowTrigger := true;
      SettlePrompt(Stopped(Cancelled));
    }

    /** Fold the row into the running turn; a failed steering rejects its RPC. */
    method SteerIn(row: Row, env: Env)
      modifies this`steered, this`cells
      ensures steered == if env.steerOk then old(steered) + [Steered(row.rpc, row.id)] else old(steered)
      ensures cells == if env.steerOk then old(cells) else Resolve(old(cells), {row.rpc}, Rejected([SteerFailed]))
    {
      hide Resolve;
      steered := steered + [Steered(row.rpc, row.id)];
      if !env.steerOk {
        steered := steered[..|steered| - 1];
        ResolveCell(row.rpc, Rejected([SteerFailed]));
      }
    }

    method Prepared(i: Rpc, content: seq<Block>, env: Env)
      requires i < |slots|
      modifies this
      ensures View() == Model.Prepared(old(View()), i, content, env)
    {
      hide Model.FailSlot, Model.Retire, Model.Enqueue;
      slots := slots[i := slots[i].(io := false)];
      if slots[i].retired { return; }
      var abort := CheckActive(i);
      if abort.Some? {
        FailSlot(i, abort.value);
      } else {
        SlotsStay(View(), i);
        RetireSlot(i);
        EnqueuePrompt(i, content, env);
      }
    }

    method PreparationAborted(i: Rpc, abort: Abort)
      requires i < |slots|
      modifies this`slots, this`preparing, this`admissions, this`cells
      ensures View() == Model.PreparationAborted(old(View()), i, abort)
    {
      hide Model.FailSlot;
      slots := slots[i := slots[i].(io := false)];
      FailSlot(i, abort);
    }

    // ----- The native turn -----

    method Claimed(messageId: nat, turn: int)
      modifies this`inflight
      ensures View() == Model.Claimed(old(View()), messageId, turn)
    {
      if inflight.Some? && inflight.value.messageId == messageId {
        inflight := Some(inflight.value.(turn := Some(turn)));
      }
    }

    /** `observe` a turn's end, or `failed`: the correlated turn settles the prompt. */
    method TurnEnded(turn: int, outcome: Outcome)
      modifies this`inflight, this`run
      ensures View() == Model.TurnEnded(old(View()), turn, outcome)
    {
      hide Model.SettleInflight;
      if inflight.Some? && inflight.value.turn == Some(turn) {
        SettlePrompt(outcome);
      }
    }

    method DrainDone()
      modifies this`run
      ensures View() == Model.DrainDone(old(View()))
    {
      if run.Some? && run.value.phase.Draining? {
        run := Some(run.value.(phase := Flushing(Stopped(Cancelled))));
      }
    }

    /** The steered prompts settle with the turn they rode. */
    method SettleSteered(reason: StopReason)
      modifies this`steered, this`cells
      ensures steered == [] && cells == Resolve(old(cells), SteeredRpcs(old(steered)), Stopped(reason))
    {
      var entries := steered;
      ghost var before := cells;
      steered := [];
      SteeredOne(entries, before, 0, reason);
      for i := 0 to |entries|
        invariant cells == Resolve(before, SteeredRpcs(entries[..i]), Stopped(reason)) && steered == []
      {
        SteeredOne(entries, before, i, reason);
        ResolveCell(entries[i].rpc, Stopped(reason));
      }
      assert entries[..|entries|] == entries;
    }

    /** Free the running slot, report the outcome and settle whatever rode the turn. */
    method CleanUp(flushOk: bool)
      requires run.Some? && run.value.phase.Flushing?
      modifies this`runningId, this`run, this`log, this`sendNowTrigger, this`steered, this`cells
      ensures View() == Finished(old(View()), flushOk)
    {
      hide Resolve, SteeredRpcs;
      var finished := run.value;
      var outcome := RunOutcome(finished.phase.outcome, flushOk);
      runningId, run := None, None;
      log := log + [Ended(finished.rpc, outcome, sendNowTrigger)];
      sendNowTrigger := false;
      SettleSteered(SteeredReason(finished.phase.outcome));
      ResolveCell(finished.rpc, outcome);
    }

    /** `flushOutput` settled: the running slot is cleaned up and the queue promoted. */
    method FlushDone(flushOk: bool, env: Env)
      modifies this
      ensures View() == Model.FlushDone(old(View()), flushOk, env)
    {
      hide Model.Promote, Resolve, SteeredRpcs;
      if run.None? || !run.value.phase.Flushing? { return; }
      CleanUp(flushOk);
      if queue != [] { PromoteWhenIdle(env); }
    }

    method PromotionIdle(env: Env)
      modifies this`queue, this`cells, this`runningId, this`run, this`inflight, this`log, this`scheduled
      ensures View() == Model.PromotionIdle(old(View()), env)
    {
      hide Model.Advance;
      scheduled := false;
      if disposed || !live { return; }
      AdvancePromptQueue(env);
    }

    // ----- Cancellation -----

    method Cancel()
      modifies this`epoch, this`log, this`inflight, this`run, this`holds, this`queue, this`cells
      ensures View() == Model.CancelAll(old(View()))
    {
      hide Model.SettleInflight, Model.Discard;
      epoch := epoch + 1;
      log := log + [CancelledAll(|slots|)];
      SettlePrompt(Stopped(Cancelled));
      DiscardPromptQueue();
    }

    method Dispose()
      modifies this`disposed, this`epoch, this`log, this`inflight, this`run, this`holds, this`queue, this`cells
      ensures View() == Model.Dispose(old(View()))
    {
      hide Model.CancelAll;
      if disposed { return; }
      Cancel();
      disposed := true;
    }

    /** The row with this id, by linear search. */
    method FindRow(id: Option<Id>) returns (at: Option<nat>)
      ensures at == LocateIn(View(), id)
    {
      if id.None? { return None; }
      LocateFits(queue, id.value);
      for i := 0 to |queue|
        invariant forall j :: 0 <= j < i ==> queue[j].id != id.value
      {
        if queue[i].id == id.value { return Some(i); }
      }
      return None;
    }

    /** Take a row out of the queue, settled cancelled. */
    method DropRow(i: nat)
      requires i < |queue|
      modifies this`queue, this`holds, this`cells
      ensures queue == Without(old(queue), i) && holds == old(holds) - {old(queue)[i].id}
      ensures cells == Resolve(old(cells), {old(queue)[i].rpc}, Stopped(Cancelled))
    {
      var row := queue[i];
      queue := queue[..i] + queue[i + 1..];
      ResolveCell(row.rpc, Stopped(Cancelled));
      holds := holds - {row.id};
    }

    method CancelPrompt(id: Id, env: Env) returns (result: CancelResult)
      modifies this
      ensures View() == Model.CancelPrompt(old(View()), id, env)
      ensures old(Admissions(slots, preparing, admissions)) ==> result == CancelPromptResult(old(View()), id)
    {
      hide Model.Promote, Model.SettleInflight, Resolve, Model.Target;
      if disposed || !live { return NotFound; }
      if inflight.Some? && inflight.value.id == id {
        SettlePrompt(Stopped(Cancelled));
        return CancelledPrompt;
      }
      var at := FindRow(Some(id));
      if at.Some? {
        DropRow(at.value);
        PromoteWhenIdle(env);
        return CancelledPrompt;
      }
      if runningId == Some(id) || (exists entry :: entry in steered && entry.id == id) { return AlreadySubmitted; }
      if id !in preparing || preparing[id] >= |slots| { return NotFound; }
      StopSlot(preparing[id]);
      return CancelledPrompt;
    }

    /** The cancellation handle a preparing slot publishes. */
    method StopSlot(i: Rpc)
      requires i < |slots|
      modifies this`slots, this`preparing, this`admissions, this`cells
      ensures View() == Model.Target(old(View()), i)
    {
      hide Model.Retire, Resolve;
      slots := slots[i := slots[i].(targeted := true)];
      ResolveCell(i, Stopped(Cancelled));
      RetireSlot(i);
    }

    // ----- Row controls -----

    method Release(id: Option<Id>)
      modifies this`holds
      ensures View() == Unhold(old(View()), id)
    {
      if id.Some? { holds := holds - {id.value}; }
    }

    /** A control that names no current row version only resyncs. */
    method Resync(id: Option<Id>, env: Env)
      modifies this`queue, this`cells, this`runningId, this`run, this`inflight, this`log, this`scheduled, this`holds
      ensures View() == Model.Promote(Unhold(old(View()), id), env)
    {
      hide Model.Promote;
      Release(id);
      PromoteWhenIdle(env);
    }

    method Interject(id: Option<Id>, expected: int, newText: Option<string>, env: Env)
      modifies this
      ensures View() == Model.Interject(old(View()), id, expected, newText, env)
    {
      hide Model.Promote, Model.SettleInflight, Rewrite;
      var at := FindRow(id);
      if at.None? || queue[at.value].version != expected {
        Resync(id, env);
        return;
      }
      BringToFront(at.value, newText);
      if inflight.Some? {
        sendNowTrigger := true;
        SettlePrompt(Stopped(Cancelled));
        return;
      }
      PromoteWhenIdle(env);
    }

    method BringToFront(i: nat, newText: Option<string>)
      requires i < |queue|
      modifies this`queue, this`holds
      ensures var row := Rewrite(old(queue)[i], newText);
              queue == [row] + Without(old(queue), i) && holds == old(holds) - {row.id}
    {
      hide Rewrite;
      var row := Rewrite(queue[i], newText);
      queue := [row] + (queue[..i] + queue[i + 1..]);
      holds := holds - {row.id};
    }

    method SteerPending(id: Option<Id>, expected: int, env: Env)
      modifies this
      ensures View() == Model.SteerRow(old(View()), id, expected, env)
    {
      hide Model.Promote, Resolve;
      var at := FindRow(id);
      if at.None? || queue[at.value].version != expected {
        Resync(id, env);
        return;
      }
      if inflight.None? {
        PromoteWhenIdle(env);
        return;
      }
      SteerQueued(at.value, env);
    }

    /** A queued row joins the running turn; a failed steering puts it back where it was. */
    method SteerQueued(i: nat, env: Env)
      requires i < |queue|
      modifies this`queue, this`holds, this`steered, this`cells
      ensures holds == old(holds) - {old(queue)[i].id}
      ensures env.steerOk ==> queue == Without(old(queue), i) && cells == old(cells)
                              && steered == old(steered) + [Steered(old(queue)[i].rpc, old(queue)[i].id)]
      ensures !env.steerOk ==> queue == old(queue) && steered == old(steered)
                               && cells == Resolve(old(cells), {old(queue)[i].rpc}, Rejected([SteerFailed]))
    {
      hide Resolve;
      var row := queue[i];
      queue := queue[..i] + queue[i + 1..];
      holds := holds - {row.id};
      if env.steerOk {
        steered := steered + [Steered(row.rpc, row.id)];
        return;
      }
      queue := queue[..i] + [row] + queue[i..];
      ResolveCell(row.rpc, Rejected([SteerFailed]));
    }

    method Remove(id: Option<Id>, expected: int, env: Env)
      modifies this
      ensures View() == Model.Remove(old(View()), id, expected, env)
    {
      hide Model.Promote, Model.SettleInflight, Resolve;
      var at := FindRow(id);
      if at.Some? && queue[at.value].version != expected {
        Resync(id, env);
        return;
      }
      if at.Some? {
        DropRow(at.value);
        PromoteWhenIdle(env);
        return;
      }
      if runningId == id {
        SettlePrompt(Stopped(Cancelled));
        holds := holds - {if id.Some? then id.value else "undefined"};
      }
      PromoteWhenIdle(env);
    }

    method Edit(id: Option<Id>, expected: Option<int>, newText: Option<string>, env: Env)
      modifies this
      ensures View() == Model.Edit(old(View()), id, expected, newText, env)
    {
      hide Model.Promote, Rewrite;
      var at := FindRow(id);
      if at.None? { return; }
      holds := holds - {queue[at.value].id};
      if expected.None? || queue[at.value].version == expected.value {
        queue := queue[at.value := Rewrite(queue[at.value], newText)];
      }
      PromoteWhenIdle(env);
    }

    method HoldEdit(id: Option<Id>)
      modifies this`holds
      ensures View() == Model.HoldEdit(old(View()), id)
    {
      if id.Some? { holds := holds + {id.value}; }
    }

    method ReleaseEdit(id: Option<Id>, env: Env)
      modifies this
      ensures View() == Model.ReleaseEdit(old(View()), id, env)
    {
      hide Model.Promote;
      if id.None? || id.value !in holds { return; }
      holds := holds - {id.value};
      PromoteWhenIdle(env);
    }

    method Reorder(ids: seq<Id>, env: Env)
      requires DistinctRowIds(queue)
      modifies this
      ensures View() == Model.Reorder(old(View()), ids, env)
    {
      hide Model.Promote;
      var next := InOrder(queue, ids);
      if next == queue { return; }
      queue := next;
      PromoteWhenIdle(env);
    }

    /** `controlQueue`, behind the queue's own guard. */
    method Control(control: Control, env: Env)
      requires DistinctRowIds(queue)
      modifies this
      ensures View() == Model.ApplyControl(old(View()), control, env)
    {
      hide DistinctRowIds, Model.Interject, Model.SteerRow, Model.Remove, Model.Edit, Model.HoldEdit,
        Model.ReleaseEdit, Model.Reorder, Model.Discard;
      if disposed || !live { return; }
      match control {
        case DoInterject(id, expected, newText) => Interject(id, expected, newText, env);
        case DoSteer(id, expected) => SteerPending(id, expected, env);
        case DoRemove(id, expected) => Remove(id, expected, env);
        case DoEdit(id, expected, newText) => Edit(id, expected, newText, env);
        case DoHold(id) => HoldEdit(id);
        case DoRelease(id) => ReleaseEdit(id, env);
        case DoReorder(ids) => Reorder(ids, env);
        case DoClear => DiscardPromptQueue();
      }
    }

    // ----- The host -----

    /** A reload closes input and cancels; it may fail and hand the queue back, or end it. */
    method BeginReload()
      modifies this
      ensures View() == Model.CancelAll(old(View())).(live := false)
    {
      hide Model.CancelAll;
      Cancel();
      live := false;
    }

    method DispatchAdmission(a: Action, env: Env)
      requires Enabled(View(), a) && (a.ASubmit? || a.APredecessorDone? || a.APrepared? || a.APreparationFailed?)
      modifies this
      ensures View() == Step(old(View()), a, env)
    {
      hide Model.Submit, Model.PredecessorDone, Model.Prepared, Model.PreparationAborted, Accepts;
      match a {
        case ASubmit(id, text, sendNow, followUp) => var _ := Submit(id, text, sendNow, followUp);
        case APredecessorDone(i) => PredecessorDone(i);
        case APrepared(i, content) => Prepared(i, content, env);
        case APreparationFailed(i, abort) => PreparationAborted(i, abort);
      }
    }

    method DispatchTurn(a: Action, env: Env)
      requires a.AClaimed? || a.ATurnEnded? || a.ARunIdle? || a.ADrainDone? || a.AFlushDone? || a.APromotionIdle?
      requires Enabled(View(), a)
      modifies this
      ensures View() == Step(old(View()), a, env)
    {
      hide Model.Claimed, Model.TurnEnded, Model.DrainDone, Model.FlushDone, Model.PromotionIdle, Model.SettleInflight, Enabled;
      match a {
        case AClaimed(messageId, turn) => Claimed(messageId, turn);
        case ATurnEnded(turn, outcome) => TurnEnded(turn, outcome);
        case ARunIdle => SettlePrompt(Stopped(Cancelled));
        case ADrainDone => DrainDone();
        case AFlushDone(flushOk) => FlushDone(flushOk, env);
        case APromotionIdle => PromotionIdle(env);
      }
    }

    method DispatchClient(a: Action, env: Env)
      requires a.AControl? || a.ACancelAll? || a.ACancelPrompt? || a.ADispose? || a.ABeginReload? || a.AReloadFailed? || a.ALose?
      requires Enabled(View(), a) && DistinctRowIds(queue)
      modifies this
      ensures View() == Step(old(View()), a, env)
    {
      hide DistinctRowIds, Model.ApplyControl, Model.CancelAll, Model.CancelPrompt, Model.Dispose,
        CancelPromptResult, Admissions, Enabled;
      match a {
        case AControl(control) => Control(control, env);
        case ACancelAll => Cancel();
        case ACancelPrompt(id) => var _ := CancelPrompt(id, env);
        case ADispose => Dispose();
        case ABeginReload => BeginReload();
        case AReloadFailed => live := true;
        case ALose => live, gone := false, true;
      }
    }

    /** The event loop's view: any enabled action, in any order, is one step of the model
        and keeps the queue's invariant. */
    method Perform(a: Action, env: Env)
      requires Valid() && Enabled(View(), a)
      modifies this
      ensures Valid() && View() == Step(old(View()), a, env)
    {
      StepValid(View(), a, env);
      hide Inv, DistinctRowIds, Step, Enabled;
      if a.ASubmit? || a.APredecessorDone? || a.APrepared? || a.APreparationFailed? {
        DispatchAdmission(a, env);
      } else if a.AClaimed? || a.ATurnEnded? || a.ARunIdle? || a.ADrainDone? || a.AFlushDone? || a.APromotionIdle? {
        DispatchTurn(a, env);
      } else {
        DispatchClient(a, env);
      }
    }
  }

  /** What a step needs and keeps. */
  lemma StepValid(s: State, a: Action, env: Env)
    requires Inv(s) && Enabled(s, a)
    ensures Inv(Step(s, a, env)) && DistinctRowIds(s.q.queue)
  {
    StepKeeps(s, a, env);
    QueueIds(s);
  }

  lemma QueueIds(s: State)
    requires Core(s)
    ensures DistinctRowIds(s.q.queue)
  {
    CorePlaces(s);
    hide Core, Accounted, Slotted;
    forall i, j | 0 <= i < j < |s.q.queue|
      ensures s.q.queue[i].id != s.q.queue[j].id
    {
      assert s.q.queue[i] in s.q.queue && s.q.queue[j] in s.q.queue;
      assert Occupied(s.a.slots, Holding(s), s.q.queue[i].rpc) && Occupied(s.a.slots, Holding(s), s.q.queue[j].rpc);
    }
  }

  lemma DiscardOne(rows: seq<Row>, before: seq<Option<Outcome>>, n: nat)
    requires n <= |rows|
    ensures n == 0 ==> Resolve(before, Rpcs(rows[..n]), Stopped(Cancelled)) == before
    ensures n < |rows| ==> Resolve(Resolve(before, Rpcs(rows[..n]), Stopped(Cancelled)), {rows[n].rpc}, Stopped(Cancelled))
                           == Resolve(before, Rpcs(rows[..n + 1]), Stopped(Cancelled))
  {
    if n < |rows| {
      assert rows[..n + 1] == rows[..n] + [rows[n]];
      RpcsJoin(rows[..n], [rows[n]]);
      RpcsOne(rows[n]);
    }
  }

  lemma SlotsStay(s: State, i: Rpc)
    requires i < |s.a.slots|
    ensures |Model.Retire(s, i).a.slots| == |s.a.slots|
  {
  }

  lemma SteeredOne(entries: seq<Steered>, before: seq<Option<Outcome>>, n: nat, reason: StopReason)
    requires n <= |entries|
    ensures n == 0 ==> Resolve(before, SteeredRpcs(entries[..n]), Stopped(reason)) == before
    ensures n < |entries| ==> Resolve(Resolve(before, SteeredRpcs(entries[..n]), Stopped(reason)), {entries[n].rpc}, Stopped(reason))
                              == Resolve(before, SteeredRpcs(entries[..n + 1]), Stopped(reason))
  {
    if n < |entries| {
      assert entries[..n + 1] == entries[..n] + [entries[n]];
      SteeredJoin(entries[..n], entries[n]);
    }
  }

  ghost predicate DistinctRowIds(rows: seq<Row>) {
    forall i, j :: 0 <= i < j < |rows| ==> rows[i].id != rows[j].id
  }

  /** `byId` indexes exactly `rows`. */
  ghost predicate Indexes(byId: map<Id, Row>, rows: seq<Row>) {
    && (forall row :: row in rows ==> row.id in byId && byId[row.id] == row)
    && (forall id :: id in byId ==> byId[id] in rows && byId[id].id == id)
  }

  /** The rows whose id is still listed, in queue order. */
  ghost function Listed(rows: seq<Row>, ids: set<Id>): seq<Row> {
    if rows == [] then []
    else
      var last := rows[|rows| - 1];
      Listed(rows[..|rows| - 1], ids) + (if last.id in ids then [last] else [])
  }

  lemma {:induction false} ListedAll(rows: seq<Row>, ids: set<Id>)
    requires forall row :: row in rows ==> row.id in ids
    ensures Listed(rows, ids) == rows
  {
    if rows != [] {
      var rest := rows[..|rows| - 1];
      assert rows == rest + [rows[|rows| - 1]];
      ListedAll(rest, ids);
    }
  }

  lemma {:induction false} ListedSub(rows: seq<Row>, ids: set<Id>)
    ensures forall row :: row in Listed(rows, ids) ==> row in rows && row.id in ids
  {
    if rows != [] {
      ListedSub(rows[..|rows| - 1], ids);
    }
  }

  /** Striking one id from the list takes its row out. */
  lemma {:induction false} Strike(rows: seq<Row>, ids: set<Id>, i: nat)
    requires DistinctRowIds(rows) && i < |Listed(rows, ids)|
    ensures Listed(rows, ids - {Listed(rows, ids)[i].id}) == Without(Listed(rows, ids), i)
    decreases |rows|
  {
    var rest, last := rows[..|rows| - 1], rows[|rows| - 1];
    var before := Listed(rest, ids);
    var gone := Listed(rows, ids)[i].id;
    ListedSub(rest, ids);
    if i < |before| {
      Strike(rest, ids, i);
      assert before[i] in before;
      assert Without(before, i) + [last] == Without(before + [last], i);
    } else {
      StrikeAbsent(rest, ids, gone);
      assert Without(before + [last], i) == before;
    }
  }

  lemma {:induction false} StrikeAbsent(rows: seq<Row>, ids: set<Id>, id: Id)
    requires forall row :: row in rows ==> row.id != id
    ensures Listed(rows, ids - {id}) == Listed(rows, ids)
  {
    if rows != [] {
      StrikeAbsent(rows[..|rows| - 1], ids, id);
      assert rows[|rows| - 1] in rows;
    }
  }

  lemma OthersStay(rows: seq<Row>, i: nat)
    requires DistinctRowIds(rows) && i < |rows|
    ensures DistinctRowIds(Without(rows, i))
    ensures forall row :: row in Without(rows, i) <==> row in rows && row.id != rows[i].id
  {
    var rest := Without(rows, i);
    forall row | row in rest
      ensures row in rows && row.id != rows[i].id
    {
      var j :| 0 <= j < |rest| && rest[j] == row;
      assert row == rows[if j < i then j else j + 1];
    }
    forall row | row in rows && row.id != rows[i].id
      ensures row in rest
    {
      var j :| 0 <= j < |rows| && rows[j] == row;
      assert rest[if j < i then j else j - 1] == rows[j];
    }
  }

  lemma IndexStrike(byId: map<Id, Row>, rows: seq<Row>, i: nat)
    requires Indexes(byId, rows) && DistinctRowIds(rows) && i < |rows|
    ensures Indexes(byId - {rows[i].id}, Without(rows, i)) && DistinctRowIds(Without(rows, i))
  {
    OthersStay(rows, i);
    hide DistinctRowIds, Without;
    assert rows[i] in rows;
  }

  /** Taking one named row moves it from the rest to the front part. */
  lemma TakeNamed(rest: seq<Row>, ids: seq<Id>, k: nat)
    requires k < |ids|
    ensures ids[k..][0] == ids[k] && ids[k..][1..] == ids[k + 1..]
    ensures match Locate(rest, ids[k])
            case None => Named(rest, ids[k..]) == Named(rest, ids[k + 1..]) && Unnamed(rest, ids[k..]) == Unnamed(rest, ids[k + 1..])
            case Some(i) => i < |rest| && Named(rest, ids[k..]) == [rest[i]] + Named(Without(rest, i), ids[k + 1..])
                            && Unnamed(rest, ids[k..]) == Unnamed(Without(rest, i), ids[k + 1..])
  {
    LocateFits(rest, ids[k]);
    assert ids[k..][1..] == ids[k + 1..];
  }

  /** An indexed id is one the queue can locate. */
  lemma IndexLocates(byId: map<Id, Row>, rows: seq<Row>, id: Id)
    requires Indexes(byId, rows)
    ensures match Locate(rows, id)
            case None => id !in byId
            case Some(i) => i < |rows| && id in byId && byId[id] == rows[i] && rows[i].id == id
  {
    LocateFits(rows, id);
  }

  lemma StrikeBoth(rows: seq<Row>, byId: map<Id, Row>, rest: seq<Row>, i: nat)
    requires DistinctRowIds(rows) && DistinctRowIds(rest) && Indexes(byId, rest) && rest == Listed(rows, byId.Keys) && i < |rest|
    ensures Indexes(byId - {rest[i].id}, Without(rest, i)) && DistinctRowIds(Without(rest, i))
    ensures Without(rest, i) == Listed(rows, (byId - {rest[i].id}).Keys)
  {
    hide Indexes, DistinctRowIds, Without, Listed;
    Strike(rows, byId.Keys, i);
    IndexStrike(byId, rest, i);
    assert (byId - {rest[i].id}).Keys == byId.Keys - {rest[i].id};
  }

  /** After `k` names: what they took, and the rows still in the index. */
  ghost predicate Taking(rows: seq<Row>, ids: seq<Id>, k: nat, next: seq<Row>, rest: seq<Row>, byId: map<Id, Row>) {
    && k <= |ids| && Named(rows, ids) == next + Named(rest, ids[k..]) && Unnamed(rows, ids) == Unnamed(rest, ids[k..])
    && DistinctRowIds(rest) && Indexes(byId, rest) && rest == Listed(rows, byId.Keys)
  }

  lemma TakingSkips(rows: seq<Row>, ids: seq<Id>, k: nat, next: seq<Row>, rest: seq<Row>, byId: map<Id, Row>)
    requires Taking(rows, ids, k, next, rest, byId) && k < |ids| && ids[k] !in byId
    ensures Taking(rows, ids, k + 1, next, rest, byId)
  {
    hide Indexes, DistinctRowIds, Without, Named, Unnamed, Locate, Listed;
    TakeNamed(rest, ids, k);
    IndexLocates(byId, rest, ids[k]);
  }

  lemma TakingTakes(rows: seq<Row>, ids: seq<Id>, k: nat, next: seq<Row>, rest: seq<Row>, byId: map<Id, Row>)
    requires DistinctRowIds(rows) && Taking(rows, ids, k, next, rest, byId) && k < |ids| && ids[k] in byId
    ensures Locate(rest, ids[k]).Some? && Locate(rest, ids[k]).value < |rest|
    ensures Taking(rows, ids, k + 1, next + [byId[ids[k]]], Without(rest, Locate(rest, ids[k]).value), byId - {ids[k]})
  {
    hide Indexes, DistinctRowIds, Without, Named, Unnamed, Locate, Listed;
    TakeNamed(rest, ids, k);
    IndexLocates(byId, rest, ids[k]);
    var i := Locate(rest, ids[k]).value;
    StrikeBoth(rows, byId, rest, i);
    assert next + ([rest[i]] + Named(Without(rest, i), ids[k + 1..])) == next + [rest[i]] + Named(Without(rest, i), ids[k + 1..]);
  }

  lemma TakingAll(rows: seq<Row>, ids: seq<Id>, byId: map<Id, Row>)
    requires DistinctRowIds(rows) && Indexes(byId, rows)
    ensures Taking(rows, ids, 0, [], rows, byId)
  {
    ListedAll(rows, byId.Keys);
    hide Indexes, DistinctRowIds, Named, Unnamed, Listed;
    assert ids[0..] == ids && [] + Named(rows, ids) == Named(rows, ids);
  }

  lemma TakingDone(rows: seq<Row>, ids: seq<Id>, next: seq<Row>, rest: seq<Row>, byId: map<Id, Row>)
    requires Taking(rows, ids, |ids|, next, rest, byId)
    ensures next == Named(rows, ids) && Listed(rows, byId.Keys) == Unnamed(rows, ids)
  {
    NoneNamed(rest, ids[|ids|..]);
    assert next + [] == next;
  }

  /** The rows the client names, and the index of those it does not. */
  method NamedRows(rows: seq<Row>, ids: seq<Id>) returns (next: seq<Row>, byId: map<Id, Row>)
    requires DistinctRowIds(rows)
    ensures next == Named(rows, ids) && Listed(rows, byId.Keys) == Unnamed(rows, ids)
  {
    byId := map row | row in rows :: row.id := row;
    ghost var rest := rows;
    assert Indexes(byId, rows);
    TakingAll(rows, ids, byId);
    hide Taking, Indexes, DistinctRowIds, Without, Named, Unnamed, Locate, Listed;
    next := [];
    for k := 0 to |ids|
      invariant Taking(rows, ids, k, next, rest, byId)
    {
      if ids[k] in byId {
        TakingTakes(rows, ids, k, next, rest, byId);
        rest := Without(rest, Locate(rest, ids[k]).value);
        next := next + [byId[ids[k]]];
        byId := byId - {ids[k]};
      } else {
        TakingSkips(rows, ids, k, next, rest, byId);
      }
    }
    TakingDone(rows, ids, next, rest, byId);
  }

  lemma NoneNamed(rows: seq<Row>, ids: seq<Id>)
    requires ids == []
    ensures Named(rows, ids) == [] && Unnamed(rows, ids) == rows
  {
  }

  /** `reorder`: the named rows in the client's order, then the others in queue order. */
  method InOrder(rows: seq<Row>, ids: seq<Id>) returns (next: seq<Row>)
    requires DistinctRowIds(rows)
    ensures next == Named(rows, ids) + Unnamed(rows, ids)
  {
    hide DistinctRowIds, Named, Unnamed;
    var byId;
    next, byId := NamedRows(rows, ids);
    ghost var named := next;
    for k := 0 to |rows|
      invariant next == named + Listed(rows[..k], byId.Keys)
    {
      assert rows[..k + 1][..k] == rows[..k];
      if rows[k].id in byId { next := next + [rows[k]]; }
    }
    assert rows[..|rows|] == rows;
  }

  lemma TextsOne(rows: seq<Row>)
    requires rows != []
    ensures Texts(rows[..1]) == [rows[0].text]
  {
  }

  /** Folding one more follower settles one more promise. */
  lemma FoldOne(rows: seq<Row>, before: seq<Option<Outcome>>, n: nat)
    requires 1 <= n <= |rows|
    ensures n == 1 ==> Resolve(before, Rpcs(rows[1..n]), Stopped(Cancelled)) == before
    ensures n < |rows| ==> Resolve(Resolve(before, Rpcs(rows[1..n]), Stopped(Cancelled)), {rows[n].rpc}, Stopped(Cancelled))
                           == Resolve(before, Rpcs(rows[1..n + 1]), Stopped(Cancelled))
    ensures n < |rows| ==> Texts(rows[..n + 1]) == Texts(rows[..n]) + [rows[n].text]
  {
    if n < |rows| {
      assert rows[1..n + 1] == rows[1..n] + [rows[n]];
      RpcsJoin(rows[1..n], [rows[n]]);
      RpcsOne(rows[n]);
    }
  }
}
