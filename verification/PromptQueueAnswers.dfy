/**
 * What answer each prompt gets, told from the actions: how the running prompt
 * came to its end, and every reason for which a step answers an RPC.
 */
module PromptQueueAnswers {
  import opened Options
  import opened PromptQueueModel
  import opened PromptQueueSafety

  // ----- What the client and the agent did -----

  /** A slot whose admission still stands: not cancelled, and its session live. */
  predicate Admitted(s: State, i: Rpc) {
    i < |s.a.slots| && s.live && !s.disposed && !s.a.slots[i].retired && !s.a.slots[i].targeted && s.a.slots[i].epoch == s.a.epoch
  }

  /** The session takes row controls. */
  predicate Controllable(s: State) {
    s.live && !s.disposed
  }

  /** A control names a queued row, at the version it has. */
  ghost predicate Picks(s: State, id: Option<Id>, version: int) {
    exists row :: row in s.q.queue && id == Some(row.id) && row.version == version
  }

  /** A prompt that is to run next is prepared, or a row is interjected. */
  ghost predicate Jumps(s: State, a: Action) {
    match a
    case APrepared(i, _) => Admitted(s, i) && s.a.slots[i].sendNow
    case AControl(control) => control.DoInterject? && Controllable(s) && Picks(s, control.id, control.expectedVersion)
    case _ => false
  }

  /** What ends the running prompt `r` as cancelled. */
  ghost predicate Cancels(s: State, a: Action, r: Rpc) {
    Jumps(s, a) ||
    match a
    case ARunIdle => true
    case ACancelAll => true
    case ABeginReload => true
    case ADispose => !s.disposed
    case ACancelPrompt(id) => Controllable(s) && r < |s.a.slots| && id == s.a.slots[r].id
    case AControl(control) => control.DoRemove? && Controllable(s) && r < |s.a.slots| && control.id == Some(s.a.slots[r].id)
    case _ => false
  }

  // ----- How a run comes to its end -----

  /** The open run: the message the agent was given, the turn that claimed it, and what first ended it. */
  datatype Watch = Watch(rpc: Rpc, messageId: nat, turn: Option<int>, end: Option<Outcome>, jumped: bool)

  /** Claims and ends count until the first end: a turn's own, or a cancellation. */
  ghost function Attend(w: Watch, s: State, a: Action): Watch {
    if w.end.Some? then w
    else if Cancels(s, a, w.rpc) then w.(end := Some(Stopped(Cancelled)), jumped := Jumps(s, a))
    else
      match a
      case AClaimed(messageId, turn) => if messageId == w.messageId then w.(turn := Some(turn)) else w
      case ATurnEnded(turn, outcome) => if w.turn == Some(turn) then w.(end := Some(outcome)) else w
      case _ => w
  }

  /** The prompt whose turn the step started. */
  function Begun(before: seq<Event>, after: seq<Event>): Option<Rpc> {
    if |after| > |before| && after[|after| - 1].Started? then Some(after[|after| - 1].rpc) else None
  }

  function Opening(r: Rpc, env: Env): Watch {
    Watch(r, env.messageId, None, if env.followupOk then None else Some(Rejected([FollowupFailed])), false)
  }

  ghost function Continued(w: Option<Watch>, s: State, a: Action): Option<Watch> {
    if w.None? || a.AFlushDone? then None else Some(Attend(w.value, s, a))
  }

  ghost function Tell(w: Option<Watch>, s: State, a: Action, env: Env): Option<Watch>
    requires Enabled(s, a)
  {
    var begun := Begun(s.log, Step(s, a, env).log);
    if begun.Some? then Some(Opening(begun.value, env)) else Continued(w, s, a)
  }

  ghost function WatchFrom(s: State, w: Option<Watch>, actions: seq<(Action, Env)>): Option<Watch>
    requires RunFrom(s, actions)
    decreases |actions|
  {
    if actions == [] then w
    else WatchFrom(Step(s, actions[0].0, actions[0].1), Tell(w, s, actions[0].0, actions[0].1), actions[1..])
  }

  ghost predicate Watched(q: PromptState, w: Option<Watch>) {
    && q.run.Some? == w.Some? && q.runningId.Some? == w.Some? && (w.None? ==> q.inflight.None? && !q.sendNowTrigger)
    && (w.Some? ==>
          && q.run.value.rpc == w.value.rpc && q.sendNowTrigger == w.value.jumped
          && (w.value.end.None? ==>
                && !w.value.jumped && q.run.value.phase.Active? && q.inflight.Some?
                && q.inflight.value.messageId == w.value.messageId && q.inflight.value.turn == w.value.turn)
          && (w.value.end.Some? ==>
                && q.inflight.None?
                && if q.run.value.phase.Draining? then w.value.end == Some(Stopped(Cancelled))
                   else q.run.value.phase == Flushing(w.value.end.value)))
  }

  // ----- Every step is watched -----

  lemma AdvanceWatched(s: State, env: Env, w: Option<Watch>)
    requires Watched(s.q, w)
    ensures var t := Advance(s, env);
            var begun := Begun(s.log, t.log);
            && (begun.None? ==> t.log == s.log && Watched(t.q, w))
            && (begun.Some? ==> |t.log| > |s.log| && Watched(t.q, Some(Opening(begun.value, env))))
  {
    hide Rpcs, Texts, RunContent, HasImage, Followers, Resolve;
    if s.q.inflight.None? && s.q.runningId.None? && s.q.queue != [] && !Parked(s) { FollowersFit(s.q.queue[1..], s.q.holds); }
  }

  lemma PromoteWatched(s: State, env: Env, w: Option<Watch>)
    requires Watched(s.q, w)
    ensures var t := Promote(s, env);
            var begun := Begun(s.log, t.log);
            && (begun.None? ==> t.log == s.log && Watched(t.q, w))
            && (begun.Some? ==> |t.log| > |s.log| && Watched(t.q, Some(Opening(begun.value, env))))
  {
    AdvanceWatched(s, env, w);
    hide Advance;
  }

  /** The running prompt ends cancelled, or there is none left to cancel. */
  lemma CancelledWatched(s: State, t: State, w: Option<Watch>, jumped: bool)
    requires Watched(s.q, w)
    requires t.q.run == s.q.run && t.q.inflight == s.q.inflight && t.q.runningId == s.q.runningId
    requires t.q.sendNowTrigger == (s.q.sendNowTrigger || (jumped && s.q.inflight.Some?))
    ensures var u := SettleInflight(t, Stopped(Cancelled));
            && u.log == t.log
            && Watched(u.q, if w.Some? && w.value.end.None? then Some(w.value.(end := Some(Stopped(Cancelled)), jumped := jumped)) else w)
  {
  }

  lemma SameWatched(q: PromptState, p: PromptState, w: Option<Watch>)
    requires Watched(q, w)
    requires p.run == q.run && p.inflight == q.inflight && p.runningId == q.runningId && p.sendNowTrigger == q.sendNowTrigger
    ensures Watched(p, w)
  {
  }

  /** Picking a row is locating it. */
  lemma PicksLocated(s: State, id: Option<Id>, version: int)
    requires Core(s)
    ensures Picks(s, id, version) <==> LocateIn(s, id).Some? && s.q.queue[LocateIn(s, id).value].version == version
  {
    if id.Some? {
      LocateFits(s.q.queue, id.value);
      var at := LocateIn(s, id);
      if at.Some? {
        assert s.q.queue[at.value] in s.q.queue;
        forall row | row in s.q.queue && row.id == id.value
          ensures row == s.q.queue[at.value]
        {
          var k :| 0 <= k < |s.q.queue| && s.q.queue[k] == row;
          IdsApart(s, k, at.value);
        }
      }
    }
  }

  lemma IdsApart(s: State, j: nat, k: nat)
    requires Core(s) && j < |s.q.queue| && k < |s.q.queue| && s.q.queue[j].id == s.q.queue[k].id
    ensures j == k
  {
    CorePlaces(s);
    var a, b := s.q.queue[j], s.q.queue[k];
    assert a in s.q.queue && b in s.q.queue;
    assert a.rpc in Rpcs(s.q.queue) && b.rpc in Rpcs(s.q.queue);
    hide Core, Accounted, Slotted, SteeredNamed;
    assert Occupied(s.a.slots, Holding(s), a.rpc) && Occupied(s.a.slots, Holding(s), b.rpc);
  }

  lemma OneOccupant(slots: seq<Slot>, holding: set<Rpc>, q: Rpc, r: Rpc)
    requires Distinct(slots, holding) && Occupied(slots, holding, q) && Occupied(slots, holding, r) && slots[q].id == slots[r].id
    ensures q == r
  {
  }

  /** A queued row never carries the running prompt's id. */
  lemma RunningApart(s: State, id: Id)
    requires Core(s) && s.q.run.Some? && s.q.run.value.id == id
    ensures LocateIn(s, Some(id)).None?
    ensures s.q.run.value.rpc < |s.a.slots| && s.a.slots[s.q.run.value.rpc].id == id
  {
    CorePlaces(s);
    RunIsNamed(s);
    LocateFits(s.q.queue, id);
    var r := s.q.run.value.rpc;
    var at := LocateIn(s, Some(id));
    if at.Some? {
      var row := s.q.queue[at.value];
      assert row in s.q.queue && row.rpc in Rpcs(s.q.queue);
      hide Core, Accounted, Slotted, SteeredNamed;
      OneOccupant(s.a.slots, Holding(s), row.rpc, r);
      assert false;
    }
  }

  lemma RunIsNamed(s: State)
    requires Core(s) && s.q.run.Some?
    ensures s.q.run.value.rpc < |s.a.slots| && s.q.run.value.id == s.a.slots[s.q.run.value.rpc].id
    ensures s.q.runningId == Some(s.q.run.value.id)
    ensures s.q.inflight.Some? ==> s.q.inflight.value.id == s.q.run.value.id
  {
    hide Disjoint, Distinct, Accounted, Ordered, StartedLeft, Serial, Chain, Admissions, Epochs, RowsNamed, SteeredNamed;
  }

  ghost predicate Fits(s: State, w: Option<Watch>) {
    Core(s) && Watched(s.q, w)
  }

  lemma FailWatched(s: State, i: Rpc, abort: Abort, w: Option<Watch>)
    requires i < |s.a.slots| && Watched(s.q, w)
    ensures FailSlot(s, i, abort).log == s.log && Watched(FailSlot(s, i, abort).q, w)
  {
    hide Watched, Resolve;
  }

  lemma Undecided(q: PromptState, w: Option<Watch>)
    requires Watched(q, w)
    ensures q.inflight.Some? <==> w.Some? && w.value.end.None?
  {
  }

  /** `t` is watched as `w`, or starts a run. */
  ghost predicate Onward(before: seq<Event>, t: State, env: Env, w: Option<Watch>) {
    Watched(t.q, if Begun(before, t.log).Some? then Some(Opening(Begun(before, t.log).value, env)) else w)
  }

  /** Nothing started since `before`. */
  predicate Quiet(before: seq<Event>, after: seq<Event>) {
    after == before || (|after| == |before| + 1 && after[..|before|] == before && !after[|before|].Started?)
  }

  /** A step that starts nothing, and then may promote. */
  lemma ThenPromotes(before: seq<Event>, u: State, env: Env, w: Option<Watch>)
    requires Watched(u.q, w) && Quiet(before, u.log)
    ensures Onward(before, Promote(u, env), env, w) && Onward(before, u, env, w)
  {
    PromoteWatched(u, env, w);
    hide Promote, Watched;
  }

  lemma EntersNext(t: State, i: Rpc, row: Row, env: Env, w: Option<Watch>)
    requires Watched(t.q, w) && w.Some? && w.value.end.None?
    ensures var front := t.(log := t.log + [Entered(i)], q := t.q.(queue := [row] + t.q.queue, sendNowTrigger := true));
            Onward(t.log, SettleInflight(front, Stopped(Cancelled)), env, Some(w.value.(end := Some(Stopped(Cancelled)), jumped := true)))
  {
    var front := t.(log := t.log + [Entered(i)], q := t.q.(queue := [row] + t.q.queue, sendNowTrigger := true));
    CancelledWatched(t, front, w, true);
    hide Watched, SettleInflight;
    ThenPromotes(t.log, SettleInflight(front, Stopped(Cancelled)), env, Some(w.value.(end := Some(Stopped(Cancelled)), jumped := true)));
  }

  lemma EntersLast(t: State, i: Rpc, row: Row, env: Env, w: Option<Watch>)
    requires Watched(t.q, w)
    ensures Onward(t.log, Promote(t.(log := t.log + [Entered(i)], q := t.q.(queue := t.q.queue + [row])), env), env, w)
  {
    var back := t.(log := t.log + [Entered(i)], q := t.q.(queue := t.q.queue + [row]));
    SameWatched(t.q, back.q, w);
    hide Watched, Promote;
    ThenPromotes(t.log, back, env, w);
  }

  lemma EntersSteering(t: State, i: Rpc, steered: seq<Steered>, cells: seq<Option<Outcome>>, env: Env, w: Option<Watch>)
    requires Watched(t.q, w)
    ensures Onward(t.log, t.(log := t.log + [Entered(i)], q := t.q.(steered := steered), cells := cells), env, w)
  {
    var u := t.(log := t.log + [Entered(i)], q := t.q.(steered := steered), cells := cells);
    SameWatched(t.q, u.q, w);
    hide Watched;
    ThenPromotes(t.log, u, env, w);
  }

  /** How the run goes on beside a prompt that enters. */
  function Beside(w: Option<Watch>, sendNow: bool): Option<Watch> {
    if w.Some? && w.value.end.None? && sendNow then Some(w.value.(end := Some(Stopped(Cancelled)), jumped := true)) else w
  }

  lemma EnqueueWatched(t: State, i: Rpc, content: seq<Block>, env: Env, w: Option<Watch>)
    requires Watched(t.q, w) && i < |t.a.slots|
    ensures Onward(t.log, Enqueue(t, i, content, env), env, Beside(w, t.a.slots[i].sendNow))
  {
    var slot := t.a.slots[i];
    var row := Row(i, slot.id, slot.text, content, 0, None);
    Undecided(t.q, w);
    hide Watched, Onward, Promote, SettleInflight, Resolve;
    if slot.sendNow && t.q.inflight.Some? {
      EntersNext(t, i, row, env, w);
    } else if SteersThis(t, slot) && t.q.inflight.Some? {
      EntersSteering(t, i, t.q.steered + [Steered(i, slot.id)], t.cells, env, w);
      EntersSteering(t, i, t.q.steered, Resolve(t.cells, {i}, Rejected([SteerFailed])), env, w);
    } else {
      EntersLast(t, i, row, env, w);
    }
  }

  lemma BesideIs(s: State, i: Rpc, content: seq<Block>, w: Option<Watch>)
    ensures Continued(w, s, APrepared(i, content)) == Beside(w, Admitted(s, i) && s.a.slots[i].sendNow)
  {
  }

  lemma PreparedWatched(s: State, i: Rpc, content: seq<Block>, env: Env, w: Option<Watch>)
    requires Watched(s.q, w) && Enabled(s, APrepared(i, content))
    ensures Onward(s.log, Prepared(s, i, content, env), env, Continued(w, s, APrepared(i, content)))
  {
    BesideIs(s, i, content, w);
    hide Continued, Watched;
    var t := s.(a := s.a.(slots := s.a.slots[i := s.a.slots[i].(io := false)]));
    if Admitted(s, i) {
      hide Enqueue, Onward, Beside;
      EnqueueWatched(Retire(t, i), i, content, env, w);
    } else {
      hide Enqueue, FailSlot, Retire, Onward;
      if !t.a.slots[i].retired { FailWatched(t, i, AssertActive(t, i).value, w); }
      ThenPromotes(s.log, Prepared(s, i, content, env), env, w);
    }
  }

  // ----- Cancellations and turns -----

  function Halted(w: Option<Watch>, jumped: bool): Option<Watch> {
    if w.Some? && w.value.end.None? then Some(w.value.(end := Some(Stopped(Cancelled)), jumped := jumped)) else w
  }

  lemma HaltedIs(s: State, a: Action, w: Option<Watch>, jumped: bool)
    requires !a.AFlushDone? && (w.Some? && w.value.end.None? ==> Cancels(s, a, w.value.rpc) && (Jumps(s, a) <==> jumped))
    ensures Continued(w, s, a) == Halted(w, jumped)
  {
    hide Cancels, Jumps;
  }

  lemma UntouchedIs(s: State, a: Action, w: Option<Watch>)
    requires !a.AFlushDone? && !a.AClaimed? && !a.ATurnEnded?
    requires w.Some? && w.value.end.None? ==> !Cancels(s, a, w.value.rpc)
    ensures Continued(w, s, a) == w
  {
    hide Cancels, Jumps;
  }

  /** The running prompt, if there is one, ends cancelled, and the queue is served again. */
  lemma HaltPromotes(s: State, t: State, u: State, env: Env, w: Option<Watch>, jumped: bool)
    requires Watched(s.q, w) && Quiet(s.log, t.log)
    requires t.q.run == s.q.run && t.q.inflight == s.q.inflight && t.q.runningId == s.q.runningId
    requires t.q.sendNowTrigger == (s.q.sendNowTrigger || (jumped && s.q.inflight.Some?))
    requires var v := SettleInflight(t, Stopped(Cancelled));
             && u.log == v.log && u.q.run == v.q.run && u.q.inflight == v.q.inflight && u.q.runningId == v.q.runningId
             && u.q.sendNowTrigger == v.q.sendNowTrigger
    ensures Onward(s.log, u, env, Halted(w, jumped)) && Onward(s.log, Promote(u, env), env, Halted(w, jumped))
  {
    CancelledWatched(s, t, w, jumped);
    SameWatched(SettleInflight(t, Stopped(Cancelled)).q, u.q, Halted(w, jumped));
    hide Watched, Promote, SettleInflight;
    ThenPromotes(s.log, u, env, Halted(w, jumped));
  }

  lemma CancelAllWatched(s: State, env: Env, w: Option<Watch>)
    requires Watched(s.q, w)
    ensures Onward(s.log, CancelAll(s), env, Halted(w, false))
  {
    var t := s.(a := s.a.(epoch := s.a.epoch + 1), log := s.log + [CancelledAll(|s.a.slots|)]);
    hide Watched, Promote, SettleInflight, Onward;
    SettleLeaves(t);
    HaltPromotes(s, t, CancelAll(s), env, w, false);
  }

  lemma SettleLeaves(s: State)
    ensures SettleInflight(s, Stopped(Cancelled)).q.queue == s.q.queue && SettleInflight(s, Stopped(Cancelled)).log == s.log
  {
  }

  lemma ClaimedWatched(s: State, messageId: nat, turn: int, env: Env, w: Option<Watch>)
    requires Watched(s.q, w)
    ensures Onward(s.log, Claimed(s, messageId, turn), env, Continued(w, s, AClaimed(messageId, turn)))
  {
  }

  lemma TurnEndedWatched(s: State, turn: int, outcome: Outcome, env: Env, w: Option<Watch>)
    requires Watched(s.q, w)
    ensures Onward(s.log, TurnEnded(s, turn, outcome), env, Continued(w, s, ATurnEnded(turn, outcome)))
  {
  }

  lemma DrainWatched(s: State, env: Env, w: Option<Watch>)
    requires Watched(s.q, w)
    ensures Onward(s.log, DrainDone(s), env, Continued(w, s, ADrainDone))
  {
  }

  lemma FlushWatched(s: State, flushOk: bool, env: Env, w: Option<Watch>)
    requires Watched(s.q, w) && Enabled(s, AFlushDone(flushOk))
    ensures Onward(s.log, FlushDone(s, flushOk, env), env, None)
  {
    var u := Finished(s, flushOk);
    assert Watched(u.q, None) && Quiet(s.log, u.log) by { hide Resolve, SteeredRpcs; }
    hide Watched, Promote, Onward;
    ThenPromotes(s.log, u, env, None);
    hide Resolve, SteeredRpcs, Quiet;
  }

  lemma IdleWatched(s: State, env: Env, w: Option<Watch>)
    requires Watched(s.q, w)
    ensures Onward(s.log, PromotionIdle(s, env), env, w)
  {
    var t := s.(q := s.q.(scheduled := false));
    SameWatched(s.q, t.q, w);
    AdvanceWatched(t, env, w);
    hide Watched, Advance;
  }

  lemma CancelPromptWatched(s: State, id: Id, env: Env, w: Option<Watch>)
    requires Core(s) && Watched(s.q, w)
    ensures Onward(s.log, CancelPrompt(s, id, env), env, Continued(w, s, ACancelPrompt(id)))
  {
    Undecided(s.q, w);
    var a := ACancelPrompt(id);
    if s.disposed || !s.live {
      UntouchedIs(s, a, w);
      ThenPromotes(s.log, s, env, w);
      return;
    }
    if s.q.run.Some? { RunIsNamed(s); }
    assert w.Some? ==> w.value.rpc == s.q.run.value.rpc;
    if s.q.inflight.Some? && s.q.inflight.value.id == id {
      HaltedIs(s, a, w, false);
      hide Core, Watched, SettleInflight, Onward, Continued;
      HaltPromotes(s, s, SettleInflight(s, Stopped(Cancelled)), env, w, false);
      return;
    }
    UntouchedIs(s, a, w);
    hide Core, Continued;
    CancelOther(s, id, env, w);
  }

  /** Row `k` leaves the queue, answered, and the queue is served again. */
  lemma DropWatched(s: State, k: nat, holds: set<Id>, env: Env, w: Option<Watch>)
    requires Watched(s.q, w) && k < |s.q.queue|
    ensures Onward(s.log, Promote(Dropped(s, k, holds), env), env, w)
  {
    SameWatched(s.q, Dropped(s, k, holds).q, w);
    hide Watched, Onward, Promote, Resolve;
    ThenPromotes(s.log, Dropped(s, k, holds), env, w);
  }

  function Dropped(s: State, k: nat, holds: set<Id>): State
    requires k < |s.q.queue|
  {
    Settle(s.(q := s.q.(queue := Without(s.q.queue, k), holds := holds)), s.q.queue[k].rpc, Stopped(Cancelled))
  }

  lemma CancelOther(s: State, id: Id, env: Env, w: Option<Watch>)
    requires Watched(s.q, w) && s.live && !s.disposed && !(s.q.inflight.Some? && s.q.inflight.value.id == id)
    ensures Onward(s.log, CancelPrompt(s, id, env), env, w)
  {
    hide Watched, Onward, Promote, Resolve, Retire, Locate, Settle, Without;
    var at := LocateIn(s, Some(id));
    ThenPromotes(s.log, s, env, w);
    if at.Some? {
      DropWatched(s, at.value, s.q.holds - {id}, env, w);
    } else if id in s.a.preparing && s.a.preparing[id] < |s.a.slots| {
      TargetLeaves(s, s.a.preparing[id]);
      hide Target;
      ThenPromotes(s.log, Target(s, s.a.preparing[id]), env, w);
    }
  }

  lemma TargetLeaves(s: State, i: Rpc)
    requires i < |s.a.slots|
    ensures Target(s, i).q == s.q && Target(s, i).log == s.log
  {
    hide Resolve;
  }

  // ----- Row controls -----

  lemma PutFirstWatched(s: State, row: Row, rest: seq<Row>, holds: set<Id>, env: Env, w: Option<Watch>)
    requires Watched(s.q, w)
    ensures var t := s.(q := s.q.(queue := [row] + rest, holds := holds));
            if s.q.inflight.Some?
            then Onward(s.log, SettleInflight(t.(q := t.q.(sendNowTrigger := true)), Stopped(Cancelled)), env, Halted(w, true))
            else Onward(s.log, Promote(t, env), env, Halted(w, true))
  {
    var t := s.(q := s.q.(queue := [row] + rest, holds := holds));
    var u := t.(q := t.q.(sendNowTrigger := true));
    Undecided(s.q, w);
    hide Watched, Onward, Promote, SettleInflight;
    if s.q.inflight.Some? {
      HaltPromotes(s, u, SettleInflight(u, Stopped(Cancelled)), env, w, true);
    } else {
      SameWatched(s.q, t.q, w);
      ThenPromotes(s.log, t, env, w);
    }
  }

  lemma InterjectWatched(s: State, id: Option<Id>, expected: int, newText: Option<string>, env: Env, w: Option<Watch>)
    requires Core(s) && Watched(s.q, w) && Controllable(s)
    ensures Onward(s.log, Interject(s, id, expected, newText, env), env, Continued(w, s, AControl(DoInterject(id, expected, newText))))
  {
    var a := AControl(DoInterject(id, expected, newText));
    PicksLocated(s, id, expected);
    if Picks(s, id, expected) { HaltedIs(s, a, w, true); } else { UntouchedIs(s, a, w); }
    hide Core, Watched, Onward, Promote, SettleInflight, Rewrite, Locate, Continued, Picks, Halted, Without;
    var at := LocateIn(s, id);
    if at.None? || s.q.queue[at.value].version != expected {
      UnholdWatched(s, id, env, w);
    } else {
      var row := Rewrite(s.q.queue[at.value], newText);
      PutFirstWatched(s, row, Without(s.q.queue, at.value), s.q.holds - {row.id}, env, w);
    }
  }

  lemma SteerWatched(s: State, id: Option<Id>, expected: int, env: Env, w: Option<Watch>)
    requires Watched(s.q, w)
    ensures Onward(s.log, SteerRow(s, id, expected, env), env, w)
  {
    hide Watched, Onward, Promote, Resolve, Locate;
    var at := LocateIn(s, id);
    if at.None? || s.q.queue[at.value].version != expected {
      UnholdWatched(s, id, env, w);
    } else if s.q.inflight.None? {
      ThenPromotes(s.log, s, env, w);
    } else {
      var u := SteerRow(s, id, expected, env);
      SameWatched(s.q, u.q, w);
      ThenPromotes(s.log, u, env, w);
    }
  }

  lemma RemoveRunningWatched(s: State, id: Option<Id>, env: Env, w: Option<Watch>)
    requires Watched(s.q, w)
    ensures var t := SettleInflight(s, Stopped(Cancelled));
            var released := t.q.holds - {if id.Some? then id.value else "undefined"};
            Onward(s.log, Promote(t.(q := t.q.(holds := released)), env), env, Halted(w, false))
  {
    hide Watched, Onward, Promote, SettleInflight, Halted;
    var t := SettleInflight(s, Stopped(Cancelled));
    HaltPromotes(s, s, t.(q := t.q.(holds := t.q.holds - {if id.Some? then id.value else "undefined"})), env, w, false);
  }

  /** Whether a removal names the running prompt. */
  lemma RemovesRunning(s: State, id: Option<Id>, expected: int, w: Option<Watch>)
    requires Core(s) && Watched(s.q, w) && Controllable(s)
    ensures var running := LocateIn(s, id).None? && s.q.runningId == id;
            Continued(w, s, AControl(DoRemove(id, expected))) == if running then Halted(w, false) else w
  {
    var a := AControl(DoRemove(id, expected));
    CoreDependents(s);
    if s.q.run.Some? { RunIsNamed(s); }
    if s.q.run.Some? && id == Some(s.q.run.value.id) {
      RunningApart(s, id.value);
      HaltedIs(s, a, w, false);
    } else {
      assert w.Some? ==> !Cancels(s, a, w.value.rpc);
      UntouchedIs(s, a, w);
      NothingRuns(s, w);
    }
  }

  lemma RemoveWatched(s: State, id: Option<Id>, expected: int, env: Env, w: Option<Watch>)
    requires Core(s) && Watched(s.q, w) && Controllable(s)
    ensures Onward(s.log, Remove(s, id, expected, env), env, Continued(w, s, AControl(DoRemove(id, expected))))
  {
    RemovesRunning(s, id, expected, w);
    var at := LocateIn(s, id);
    hide Core, Watched, Onward, Promote, SettleInflight, Locate, Continued, Settle, Without, Halted;
    if at.Some? && s.q.queue[at.value].version != expected {
      UnholdWatched(s, id, env, w);
    } else if at.Some? {
      DropWatched(s, at.value, s.q.holds - {s.q.queue[at.value].id}, env, w);
    } else if s.q.runningId == id {
      RemoveRunningWatched(s, id, env, w);
    } else {
      ThenPromotes(s.log, s, env, w);
    }
  }

  lemma UnholdWatched(s: State, id: Option<Id>, env: Env, w: Option<Watch>)
    requires Watched(s.q, w)
    ensures Onward(s.log, Promote(Unhold(s, id), env), env, w)
  {
    SameWatched(s.q, Unhold(s, id).q, w);
    hide Watched, Onward, Promote;
    ThenPromotes(s.log, Unhold(s, id), env, w);
  }

  lemma NothingRuns(s: State, w: Option<Watch>)
    requires Watched(s.q, w)
    ensures s.q.run.None? ==> Halted(w, false) == w
  {
  }

  lemma EditRowWatched(s: State, id: Option<Id>, pinned: Option<int>, newText: Option<string>, env: Env, w: Option<Watch>)
    requires Watched(s.q, w)
    ensures Onward(s.log, Edit(s, id, pinned, newText, env), env, w)
  {
    hide Watched, Onward, Promote, Rewrite, Locate;
    var at := LocateIn(s, id);
    if at.None? {
      ThenPromotes(s.log, s, env, w);
    } else {
      var row := s.q.queue[at.value];
      var t := s.(q := s.q.(holds := s.q.holds - {row.id}));
      var u := t.(q := t.q.(queue := s.q.queue[at.value := Rewrite(row, newText)]));
      SameWatched(s.q, t.q, w);
      SameWatched(s.q, u.q, w);
      ThenPromotes(s.log, t, env, w);
      ThenPromotes(s.log, u, env, w);
    }
  }

  lemma ReorderWatched(s: State, ids: seq<Id>, env: Env, w: Option<Watch>)
    requires Watched(s.q, w)
    ensures Onward(s.log, Reorder(s, ids, env), env, w)
  {
    hide Watched, Onward, Promote, Named, Unnamed;
    var t := s.(q := s.q.(queue := Named(s.q.queue, ids) + Unnamed(s.q.queue, ids)));
    SameWatched(s.q, t.q, w);
    ThenPromotes(s.log, t, env, w);
    ThenPromotes(s.log, s, env, w);
  }

  lemma HoldWatched(s: State, control: Control, env: Env, w: Option<Watch>)
    requires Watched(s.q, w) && Controllable(s) && (control.DoHold? || control.DoRelease? || control.DoClear?)
    ensures Onward(s.log, ApplyControl(s, control, env), env, w)
  {
    hide Watched, Onward, Promote, Resolve;
    ThenPromotes(s.log, s, env, w);
    if control.DoClear? {
      SameWatched(s.q, Discard(s).q, w);
      ThenPromotes(s.log, Discard(s), env, w);
    } else {
      SameWatched(s.q, HoldEdit(s, control.id).q, w);
      ThenPromotes(s.log, HoldEdit(s, control.id), env, w);
      SameWatched(s.q, Unhold(s, control.id).q, w);
      ThenPromotes(s.log, Unhold(s, control.id), env, w);
    }
  }

  lemma ControlWatched(s: State, control: Control, env: Env, w: Option<Watch>)
    requires Core(s) && Watched(s.q, w)
    ensures Onward(s.log, ApplyControl(s, control, env), env, Continued(w, s, AControl(control)))
  {
    var a := AControl(control);
    if !Controllable(s) {
      UntouchedIs(s, a, w);
      hide Core, Continued;
      ThenPromotes(s.log, s, env, w);
      return;
    }
    if !control.DoInterject? && !control.DoRemove? { UntouchedIs(s, a, w); }
    hide Core, Watched, Onward, Continued, Interject, SteerRow, Remove, Edit, HoldEdit, ReleaseEdit, Reorder, Discard;
    match control
    case DoInterject(id, expected, newText) => InterjectWatched(s, id, expected, newText, env, w);
    case DoSteer(id, expected) => SteerWatched(s, id, expected, env, w);
    case DoRemove(id, expected) => RemoveWatched(s, id, expected, env, w);
    case DoEdit(id, pinned, newText) => EditRowWatched(s, id, pinned, newText, env, w);
    case DoReorder(ids) => ReorderWatched(s, ids, env, w);
    case DoHold(_) => HoldWatched(s, control, env, w);
    case DoRelease(_) => HoldWatched(s, control, env, w);
    case DoClear => HoldWatched(s, control, env, w);
  }

  // ----- Every run is watched -----

  lemma SubmitStill(s: State, id: Id, text: string, sendNow: bool, followUp: FollowUp)
    ensures var t := Submit(s, id, text, sendNow, followUp); t.q == s.q && t.log == s.log && s.cells <= t.cells
  {
    hide Accepts;
  }

  lemma FailStill(s: State, i: Rpc, abort: Abort)
    requires i < |s.a.slots|
    ensures FailSlot(s, i, abort).q == s.q && FailSlot(s, i, abort).log == s.log
  {
    hide Resolve;
  }

  lemma PredecessorStill(s: State, i: Rpc)
    requires i < |s.a.slots|
    ensures PredecessorDone(s, i).q == s.q && PredecessorDone(s, i).log == s.log
  {
    var t := s.(a := s.a.(slots := s.a.slots[i := s.a.slots[i].(predecessorDone := true)]));
    if AssertActive(t, i).Some? { FailStill(t, i, AssertActive(t, i).value); }
    hide FailSlot;
  }

  lemma AbortStill(s: State, i: Rpc, abort: Abort)
    requires i < |s.a.slots|
    ensures PreparationAborted(s, i, abort).q == s.q && PreparationAborted(s, i, abort).log == s.log
  {
    FailStill(s.(a := s.a.(slots := s.a.slots[i := s.a.slots[i].(io := false)])), i, abort);
    hide FailSlot;
  }

  /** These steps leave the queue, the run and the history alone. */
  predicate Still(a: Action) {
    a.ASubmit? || a.APredecessorDone? || a.APreparationFailed? || a.AReloadFailed? || a.ALose?
  }

  lemma StepStill(s: State, a: Action, env: Env)
    requires Enabled(s, a) && Still(a)
    ensures Step(s, a, env).q == s.q && Step(s, a, env).log == s.log
  {
    hide Submit, PredecessorDone, PreparationAborted;
    match a
    case ASubmit(id, text, sendNow, followUp) => SubmitStill(s, id, text, sendNow, followUp);
    case APredecessorDone(i) => PredecessorStill(s, i);
    case APreparationFailed(i, abort) => AbortStill(s, i, abort);
    case AReloadFailed =>
    case ALose =>
  }

  lemma StillWatched(s: State, a: Action, env: Env, w: Option<Watch>)
    requires Watched(s.q, w) && Enabled(s, a) && Still(a)
    ensures Onward(s.log, Step(s, a, env), env, Continued(w, s, a))
  {
    UntouchedIs(s, a, w);
    StepStill(s, a, env);
    hide Continued, Watched, Onward, Step;
    ThenPromotes(s.log, Step(s, a, env), env, w);
  }

  lemma FlagsOnward(before: seq<Event>, t: State, u: State, env: Env, w: Option<Watch>)
    requires Onward(before, t, env, w) && u.q == t.q && u.log == t.log
    ensures Onward(before, u, env, w)
  {
    hide Watched;
  }

  lemma RunIdleWatched(s: State, env: Env, w: Option<Watch>)
    requires Watched(s.q, w)
    ensures Onward(s.log, RunIdle(s), env, Continued(w, s, ARunIdle))
  {
    HaltedIs(s, ARunIdle, w, false);
    hide Continued, Watched, SettleInflight, Onward;
    HaltPromotes(s, s, SettleInflight(s, Stopped(Cancelled)), env, w, false);
  }

  lemma WholeWatched(s: State, a: Action, env: Env, w: Option<Watch>)
    requires Watched(s.q, w) && Enabled(s, a) && (a.ACancelAll? || a.ABeginReload? || a.ADispose?)
    ensures Onward(s.log, Step(s, a, env), env, Continued(w, s, a))
  {
    if a.ADispose? && s.disposed {
      UntouchedIs(s, a, w);
      hide Continued, Watched, Onward;
      ThenPromotes(s.log, s, env, w);
    } else {
      HaltedIs(s, a, w, false);
      CancelAllWatched(s, env, w);
      hide Continued, Watched, CancelAll, Onward, Halted;
      FlagsOnward(s.log, CancelAll(s), Step(s, a, env), env, Halted(w, false));
    }
  }

  lemma {:induction false} StepWatched(s: State, a: Action, env: Env, w: Option<Watch>)
    requires Core(s) && Watched(s.q, w) && Enabled(s, a)
    ensures Watched(Step(s, a, env).q, Tell(w, s, a, env))
  {
    assert Onward(s.log, Step(s, a, env), env, Continued(w, s, a)) by {
      hide Core, Watched, Onward, Submit, PredecessorDone, Prepared, PreparationAborted, ApplyControl, Claimed, TurnEnded, DrainDone,
        FlushDone, PromotionIdle, CancelAll, CancelPrompt, Dispose, RunIdle, Begun;
      match a
      case APrepared(i, content) => PreparedWatched(s, i, content, env, w);
      case AControl(control) => ControlWatched(s, control, env, w);
      case AClaimed(messageId, turn) => ClaimedWatched(s, messageId, turn, env, w);
      case ATurnEnded(turn, outcome) => TurnEndedWatched(s, turn, outcome, env, w);
      case ADrainDone => DrainWatched(s, env, w);
      case AFlushDone(flushOk) => FlushWatched(s, flushOk, env, w);
      case ARunIdle => RunIdleWatched(s, env, w);
      case APromotionIdle => UntouchedIs(s, a, w); IdleWatched(s, env, w);
      case ACancelPrompt(id) => CancelPromptWatched(s, id, env, w);
      case ASubmit(_, _, _, _) => StillWatched(s, a, env, w);
      case APredecessorDone(_) => StillWatched(s, a, env, w);
      case APreparationFailed(_, _) => StillWatched(s, a, env, w);
      case AReloadFailed => StillWatched(s, a, env, w);
      case ALose => StillWatched(s, a, env, w);
      case _ => WholeWatched(s, a, env, w);
    }
    hide Core, Watched, Step, Continued;
  }

  lemma {:induction false} RunWatched(s: State, w: Option<Watch>, actions: seq<(Action, Env)>)
    requires Inv(s) && Watched(s.q, w) && RunFrom(s, actions)
    ensures Inv(After(s, actions)) && Watched(After(s, actions).q, WatchFrom(s, w, actions))
    decreases |actions|
  {
    if actions != [] {
      assert Core(s);
      hide Inv, Core, Watched, Step, Enabled, Tell;
      StepKeeps(s, actions[0].0, actions[0].1);
      StepWatched(s, actions[0].0, actions[0].1, w);
      RunWatched(Step(s, actions[0].0, actions[0].1), Tell(w, s, actions[0].0, actions[0].1), actions[1..]);
    }
  }

  // ----- Why an RPC is answered, and how -----

  /** The answer of a run that came to `end`: its stop reason, or every failure that was met. */
  function Answer(end: Outcome, flushOk: bool): Outcome {
    match (end, flushOk)
    case (Stopped(reason), true) => Stopped(reason)
    case (Rejected(errors), true) => Rejected(errors)
    case (Stopped(_), false) => Rejected([FlushFailed])
    case (Rejected(errors), false) => Rejected(errors + [FlushFailed])
  }

  /** Steered prompts ride the run: they stop as it does, cancelled if it failed. */
  function Ride(end: Outcome): Outcome {
    match end
    case Stopped(reason) => Stopped(reason)
    case Rejected(_) => Stopped(Cancelled)
  }

  ghost predicate PicksRow(s: State, id: Option<Id>, version: int, r: Rpc) {
    exists row :: row in s.q.queue && row.rpc == r && id == Some(row.id) && row.version == version
  }

  predicate WantsSteering(s: State, slot: Slot) {
    match slot.followUp
    case Steer => true
    case Queue => false
    case Default => s.followUpSteer
  }

  function GivenUp(s: State): Outcome {
    if s.disposed || !s.live then Rejected([NotLive]) else Stopped(Cancelled)
  }

  /** What a row control says to `r`. */
  ghost function Spoken(s: State, control: Control, env: Env, r: Rpc): Option<Outcome> {
    match control
    case DoClear => if InQueue(s, r) then Some(Stopped(Cancelled)) else None
    case DoRemove(id, version) => if PicksRow(s, id, version, r) then Some(Stopped(Cancelled)) else None
    case DoSteer(id, version) =>
      if s.q.inflight.Some? && !env.steerOk && PicksRow(s, id, version, r) then Some(Rejected([SteerFailed])) else None
    case _ => None
  }

  /** The answer a step gives to unanswered RPC `r` by name. */
  ghost function Addressed(s: State, w: Option<Watch>, a: Action, env: Env, r: Rpc): Option<Outcome> {
    match a
    case ACancelAll => if InQueue(s, r) then Some(Stopped(Cancelled)) else None
    case ABeginReload => if InQueue(s, r) then Some(Stopped(Cancelled)) else None
    case ADispose => if !s.disposed && InQueue(s, r) then Some(Stopped(Cancelled)) else None
    case ACancelPrompt(id) =>
      if Controllable(s) && r < |s.a.slots| && s.a.slots[r].id == id && (InQueue(s, r) || Preparing(s.a.slots, r))
      then Some(Stopped(Cancelled)) else None
    case APredecessorDone(i) => if i == r && Preparing(s.a.slots, r) && !Admitted(s, r) then Some(GivenUp(s)) else None
    case APreparationFailed(i, abort) =>
      if i == r && Preparing(s.a.slots, r)
      then Some(match abort case CancelledMark => Stopped(Cancelled) case Failure(error) => Rejected([error])) else None
    case APrepared(i, _) =>
      if i != r || !Preparing(s.a.slots, r) then None
      else if !Admitted(s, r) then Some(GivenUp(s))
      else if s.q.inflight.Some? && !s.a.slots[r].sendNow && WantsSteering(s, s.a.slots[r]) && !env.steerOk
      then Some(Rejected([SteerFailed])) else None
    case AControl(control) => if Controllable(s) then Spoken(s, control, env, r) else None
    case AFlushDone(flushOk) =>
      if w.None? || w.value.end.None? then None
      else if r == w.value.rpc then Some(Answer(w.value.end.value, flushOk))
      else if IsSteered(s, r) then Some(Ride(w.value.end.value)) else None
    case _ => None
  }

  /** The step started a combined turn. */
  predicate Combined(before: seq<Event>, after: seq<Event>) {
    |after| > |before| && after[|after| - 1].Started? && after[|after| - 1].texts.Some?
  }

  /** `r` is answered as addressed, or folded into a combined turn, or not at all. */
  ghost predicate Answers(before: seq<Event>, t: State, r: Rpc, addressed: Option<Outcome>) {
    && r < |t.cells|
    && (addressed.Some? ==> t.cells[r] == addressed)
    && (addressed.None? ==> t.cells[r].None? || (t.cells[r] == Some(Stopped(Cancelled)) && Combined(before, t.log)))
  }

  lemma AdvanceAnswers(s: State, env: Env, r: Rpc)
    requires r < |s.cells|
    ensures Answers(s.log, Advance(s, env), r, s.cells[r])
  {
    hide Rpcs, Texts, RunContent, HasImage, Followers;
    if s.q.inflight.None? && s.q.runningId.None? && s.q.queue != [] && !Parked(s) {
      FollowersFit(s.q.queue[1..], s.q.holds);
      if TurnSize(s.q.queue, s.q.holds, s.combineQueued) < 2 { assert s.q.queue[1..1] == []; NoRpcs(); }
    }
  }

  lemma NoRpcs()
    ensures Rpcs([]) == {}
  {
  }

  /** A step that has answered `r` as addressed, and then may promote. */
  lemma ThenAnswers(before: seq<Event>, u: State, env: Env, r: Rpc, addressed: Option<Outcome>)
    requires r < |u.cells| && u.cells[r] == addressed && Quiet(before, u.log)
    ensures Answers(before, u, r, addressed) && Answers(before, Promote(u, env), r, addressed)
  {
    AdvanceAnswers(u, env, r);
    hide Advance;
  }

  // ----- Every answer has its reason -----

  lemma Unaddressed(before: seq<Event>, t: State, r: Rpc)
    requires r < |t.cells| && t.cells[r].None?
    ensures Answers(before, t, r, None)
  {
  }

  lemma FailAnswers(s: State, t: State, i: Rpc, abort: Abort, r: Rpc)
    requires t.cells == s.cells && t.log == s.log && i < |t.a.slots| && r < |s.cells| && s.cells[r].None?
    ensures Answers(s.log, FailSlot(t, i, abort), r, if i == r && !t.a.slots[i].retired then Some(AbortOutcome(abort)) else None)
  {
    hide Combined;
  }

  lemma PredecessorAnswers(s: State, i: Rpc, env: Env, w: Option<Watch>, r: Rpc)
    requires Enabled(s, APredecessorDone(i)) && r < |s.cells| && s.cells[r].None?
    ensures Answers(s.log, PredecessorDone(s, i), r, Addressed(s, w, APredecessorDone(i), env, r))
  {
    var slot := s.a.slots[i].(predecessorDone := true);
    var t := s.(a := s.a.(slots := s.a.slots[i := slot]));
    hide Combined, FailSlot;
    if !slot.retired && AssertActive(t, i).Some? {
      FailAnswers(s, t, i, AssertActive(t, i).value, r);
    } else {
      Unaddressed(s.log, PredecessorDone(s, i), r);
    }
  }

  lemma RefusedAnswers(s: State, i: Rpc, content: seq<Block>, env: Env, w: Option<Watch>, r: Rpc)
    requires Enabled(s, APrepared(i, content)) && !Admitted(s, i) && r < |s.cells| && s.cells[r].None?
    ensures Answers(s.log, Prepared(s, i, content, env), r, Addressed(s, w, APrepared(i, content), env, r))
  {
    var t := s.(a := s.a.(slots := s.a.slots[i := s.a.slots[i].(io := false)]));
    hide Combined, FailSlot, Enqueue, Retire;
    if t.a.slots[i].retired {
      Unaddressed(s.log, t, r);
    } else {
      FailAnswers(s, t, i, AssertActive(t, i).value, r);
    }
  }

  lemma AbortedAnswers(s: State, i: Rpc, abort: Abort, env: Env, w: Option<Watch>, r: Rpc)
    requires Enabled(s, APreparationFailed(i, abort)) && r < |s.cells| && s.cells[r].None?
    ensures Answers(s.log, PreparationAborted(s, i, abort), r, Addressed(s, w, APreparationFailed(i, abort), env, r))
  {
    var t := s.(a := s.a.(slots := s.a.slots[i := s.a.slots[i].(io := false)]));
    hide Combined, FailSlot;
    FailAnswers(s, t, i, abort, r);
  }

  lemma LastAnswers(s: State, i: Rpc, row: Row, env: Env, r: Rpc)
    requires r < |s.cells| && s.cells[r].None?
    ensures Answers(s.log, Promote(s.(log := s.log + [Entered(i)], q := s.q.(queue := s.q.queue + [row])), env), r, None)
  {
    hide Promote, Answers;
    ThenAnswers(s.log, s.(log := s.log + [Entered(i)], q := s.q.(queue := s.q.queue + [row])), env, r, None);
  }

  lemma EnqueueAnswers(s: State, i: Rpc, content: seq<Block>, env: Env, r: Rpc)
    requires i < |s.a.slots| && r < |s.cells| && s.cells[r].None?
    ensures Answers(s.log, Enqueue(s, i, content, env), r,
                    if i == r && s.q.inflight.Some? && !s.a.slots[i].sendNow && WantsSteering(s, s.a.slots[i]) && !env.steerOk
                    then Some(Rejected([SteerFailed])) else None)
  {
    var slot := s.a.slots[i];
    hide Promote;
    if slot.sendNow && s.q.inflight.Some? {
      Unaddressed(s.log, Enqueue(s, i, content, env), r);
    } else if SteersThis(s, slot) && s.q.inflight.Some? {
      hide Combined;
    } else {
      hide Answers;
      LastAnswers(s, i, Row(i, slot.id, slot.text, content, 0, None), env, r);
    }
  }

  lemma PreparedAnswers(s: State, i: Rpc, content: seq<Block>, env: Env, w: Option<Watch>, r: Rpc)
    requires Core(s) && Enabled(s, APrepared(i, content)) && r < |s.cells| && s.cells[r].None?
    ensures Answers(s.log, Prepared(s, i, content, env), r, Addressed(s, w, APrepared(i, content), env, r))
  {
    if Admitted(s, i) {
      var t := Retire(s.(a := s.a.(slots := s.a.slots[i := s.a.slots[i].(io := false)])), i);
      hide Core, Enqueue, Answers;
      EnqueueAnswers(t, i, content, env, r);
    } else {
      hide Core, Answers, Addressed, Prepared;
      RefusedAnswers(s, i, content, env, w, r);
    }
  }

  lemma InRpcs(s: State, r: Rpc)
    ensures InQueue(s, r) <==> r in Rpcs(s.q.queue)
    ensures IsSteered(s, r) <==> r in SteeredRpcs(s.q.steered)
  {
  }

  lemma CancelAllAnswers(s: State, env: Env, r: Rpc)
    requires r < |s.cells| && s.cells[r].None?
    ensures Answers(s.log, CancelAll(s), r, if InQueue(s, r) then Some(Stopped(Cancelled)) else None)
  {
    InRpcs(s, r);
    hide Combined, Rpcs, InQueue;
  }

  lemma WholeAnswers(s: State, a: Action, env: Env, w: Option<Watch>, r: Rpc)
    requires Enabled(s, a) && r < |s.cells| && s.cells[r].None?
    requires a.ACancelAll? || a.ABeginReload? || a.ADispose?
    ensures Answers(s.log, Step(s, a, env), r, Addressed(s, w, a, env, r))
  {
    CancelAllAnswers(s, env, r);
    hide CancelAll, Combined, InQueue;
  }

  /** The row a control picks is the one row with that id. */
  lemma PicksOne(s: State, id: Option<Id>, version: int, r: Rpc)
    requires Core(s)
    ensures var at := LocateIn(s, id);
            PicksRow(s, id, version, r) <==> at.Some? && s.q.queue[at.value].version == version && s.q.queue[at.value].rpc == r
  {
    PicksLocated(s, id, version);
    var at := LocateIn(s, id);
    if PicksRow(s, id, version, r) {
      var row :| row in s.q.queue && row.rpc == r && id == Some(row.id) && row.version == version;
      assert Picks(s, id, version);
      var k :| 0 <= k < |s.q.queue| && s.q.queue[k] == row;
      IdsApart(s, k, at.value);
    }
    hide Core;
  }

  lemma CancelPromptAnswers(s: State, id: Id, env: Env, w: Option<Watch>, r: Rpc)
    requires Core(s) && r < |s.cells| && s.cells[r].None?
    ensures Answers(s.log, CancelPrompt(s, id, env), r, Addressed(s, w, ACancelPrompt(id), env, r))
  {
    if !Controllable(s) { Unaddressed(s.log, s, r); return; }
    NamedPlace(s, id, r);
    hide Core, Promote, Combined, Addressed, InQueue, Answers;
    assert Addressed(s, w, ACancelPrompt(id), env, r)
           == if r < |s.a.slots| && s.a.slots[r].id == id && (InQueue(s, r) || Preparing(s.a.slots, r))
              then Some(Stopped(Cancelled)) else None by { CancelAddressed(s, id, env, w, r); }
    CancelPromptCells(s, id, env, r);
  }

  lemma CancelAddressed(s: State, id: Id, env: Env, w: Option<Watch>, r: Rpc)
    requires Controllable(s)
    ensures Addressed(s, w, ACancelPrompt(id), env, r)
            == if r < |s.a.slots| && s.a.slots[r].id == id && (InQueue(s, r) || Preparing(s.a.slots, r))
               then Some(Stopped(Cancelled)) else None
  {
  }

  /** What `cancelPrompt` finds for an id: its running, queued, steered or preparing prompt, of which there is one. */
  ghost predicate Finds(s: State, id: Id, r: Rpc) {
    if s.q.inflight.Some? && s.q.inflight.value.id == id then false
    else
      var at := LocateIn(s, Some(id));
      if at.Some? then s.q.queue[at.value].rpc == r
      else if s.q.runningId == Some(id) || (exists entry :: entry in s.q.steered && entry.id == id) then false
      else id in s.a.preparing && s.a.preparing[id] < |s.a.slots| && s.a.preparing[id] == r
  }

  lemma NamedPlace(s: State, id: Id, r: Rpc)
    requires Core(s) && r < |s.cells| && s.cells[r].None?
    ensures Finds(s, id, r) <==> r < |s.a.slots| && s.a.slots[r].id == id && (InQueue(s, r) || Preparing(s.a.slots, r))
  {
    if r < |s.a.slots| && s.a.slots[r].id == id && (InQueue(s, r) || Preparing(s.a.slots, r)) {
      PlaceFound(s, id, r);
    } else if Finds(s, id, r) {
      FoundPlace(s, id, r);
      assert false;
    }
  }

  lemma FoundPlace(s: State, id: Id, r: Rpc)
    requires Core(s) && Finds(s, id, r)
    ensures r < |s.a.slots| && s.a.slots[r].id == id && (InQueue(s, r) || Preparing(s.a.slots, r))
  {
    CorePlaces(s);
    var at := LocateIn(s, Some(id));
    if at.Some? { assert s.q.queue[at.value] in s.q.queue; }
    CoreAdmissions(s);
    hide Core, Disjoint, Distinct, Accounted;
  }

  lemma CoreAdmissions(s: State)
    requires Core(s)
    ensures Admissions(s.a.slots, s.a.preparing, s.a.admissions)
  {
  }

  /** An id that a queued or preparing prompt has is no one else's. */
  lemma NoOther(s: State, r: Rpc)
    requires Core(s) && r < |s.a.slots| && (InQueue(s, r) || Preparing(s.a.slots, r))
    ensures var id := s.a.slots[r].id;
            && (forall entry :: entry in s.q.steered ==> entry.id != id)
            && (s.q.run.Some? ==> s.q.run.value.id != id)
            && forall row :: row in s.q.queue && row.id == id ==> row.rpc == r
  {
    CorePlaces(s);
    InRpcs(s, r);
    if s.q.run.Some? { RunIsNamed(s); }
    var id := s.a.slots[r].id;
    assert Occupied(s.a.slots, Holding(s), r);
    hide Core, Accounted, Slotted;
    forall entry | entry in s.q.steered
      ensures entry.id != id
    {
      assert entry.rpc in SteeredRpcs(s.q.steered);
      if entry.id == id {
        OneOccupant(s.a.slots, Holding(s), entry.rpc, r);
        assert false;
      }
    }
    forall row | row in s.q.queue && row.id == id
      ensures row.rpc == r
    {
      assert row.rpc in Rpcs(s.q.queue);
      OneOccupant(s.a.slots, Holding(s), row.rpc, r);
    }
    if s.q.run.Some? && s.q.run.value.id == id {
      OneOccupant(s.a.slots, Holding(s), s.q.run.value.rpc, r);
      assert false;
    }
  }

  lemma PreparingAlone(s: State, r: Rpc)
    requires Core(s) && Preparing(s.a.slots, r)
    ensures !InQueue(s, r) && s.a.slots[r].id in s.a.preparing && s.a.preparing[s.a.slots[r].id] == r
  {
    CorePlaces(s);
    CoreAdmissions(s);
    InRpcs(s, r);
    hide Core, Accounted, Slotted, Disjoint;
  }

  lemma PlaceFound(s: State, id: Id, r: Rpc)
    requires Core(s) && r < |s.a.slots| && s.a.slots[r].id == id && (InQueue(s, r) || Preparing(s.a.slots, r))
    ensures Finds(s, id, r)
  {
    NoOther(s, r);
    QueueNamed(s, r);
    LocateFits(s.q.queue, id);
    if s.q.run.Some? { RunIsNamed(s); }
    CoreDependents(s);
    if Preparing(s.a.slots, r) { PreparingAlone(s, r); }
    hide Core, Locate;
    var at := LocateIn(s, Some(id));
    if at.Some? { assert s.q.queue[at.value] in s.q.queue; }
  }

  lemma QueueNamed(s: State, r: Rpc)
    requires Core(s) && r < |s.a.slots|
    ensures InQueue(s, r) ==> exists k :: 0 <= k < |s.q.queue| && s.q.queue[k].id == s.a.slots[r].id
  {
    CorePlaces(s);
    hide Core, Disjoint, Distinct, Accounted, Slotted, SteeredNamed;
    if InQueue(s, r) {
      var row :| row in s.q.queue && row.rpc == r;
      var k :| 0 <= k < |s.q.queue| && s.q.queue[k] == row;
      assert s.q.queue[k].id == s.a.slots[r].id;
    }
  }

  lemma CancelPromptCells(s: State, id: Id, env: Env, r: Rpc)
    requires Controllable(s) && r < |s.cells| && s.cells[r].None?
    ensures Answers(s.log, CancelPrompt(s, id, env), r, if Finds(s, id, r) then Some(Stopped(Cancelled)) else None)
  {
    hide Promote, Answers, Locate, SettleInflight;
    var at := LocateIn(s, Some(id));
    if s.q.inflight.Some? && s.q.inflight.value.id == id {
      SettleCells(s, Stopped(Cancelled));
      ThenAnswers(s.log, SettleInflight(s, Stopped(Cancelled)), env, r, None);
    } else if at.Some? {
      DropAnswers(s, at.value, s.q.holds - {id}, env, r);
    } else if s.q.runningId == Some(id) || (exists entry :: entry in s.q.steered && entry.id == id) {
      ThenAnswers(s.log, s, env, r, None);
    } else if id in s.a.preparing && s.a.preparing[id] < |s.a.slots| {
      var i := s.a.preparing[id];
      ThenAnswers(s.log, Target(s, i), env, r, if i == r then Some(Stopped(Cancelled)) else None);
    } else {
      ThenAnswers(s.log, s, env, r, None);
    }
  }

  lemma SettleCells(s: State, outcome: Outcome)
    ensures SettleInflight(s, outcome).cells == s.cells && SettleInflight(s, outcome).log == s.log
  {
  }

  lemma InterjectAnswers(s: State, id: Option<Id>, expected: int, newText: Option<string>, env: Env, r: Rpc)
    requires r < |s.cells| && s.cells[r].None?
    ensures Answers(s.log, Interject(s, id, expected, newText, env), r, None)
  {
    hide Promote, Answers, Locate, SettleInflight, Rewrite;
    var at := LocateIn(s, id);
    if at.None? || s.q.queue[at.value].version != expected {
      ThenAnswers(s.log, Unhold(s, id), env, r, None);
    } else {
      var row := Rewrite(s.q.queue[at.value], newText);
      var t := s.(q := s.q.(queue := [row] + Without(s.q.queue, at.value), holds := s.q.holds - {row.id}));
      var u := t.(q := t.q.(sendNowTrigger := true));
      SettleCells(u, Stopped(Cancelled));
      ThenAnswers(s.log, SettleInflight(u, Stopped(Cancelled)), env, r, None);
      ThenAnswers(s.log, t, env, r, None);
    }
  }

  lemma UnholdAnswers(s: State, id: Option<Id>, env: Env, r: Rpc)
    requires r < |s.cells| && s.cells[r].None?
    ensures Answers(s.log, Promote(Unhold(s, id), env), r, None)
  {
    hide Answers, Promote;
    ThenAnswers(s.log, Unhold(s, id), env, r, None);
  }

  lemma DropAnswers(s: State, k: nat, holds: set<Id>, env: Env, r: Rpc)
    requires k < |s.q.queue| && r < |s.cells| && s.cells[r].None?
    ensures Answers(s.log, Promote(Dropped(s, k, holds), env), r, if s.q.queue[k].rpc == r then Some(Stopped(Cancelled)) else None)
  {
    hide Answers, Promote;
    ThenAnswers(s.log, Dropped(s, k, holds), env, r, if s.q.queue[k].rpc == r then Some(Stopped(Cancelled)) else None);
  }

  lemma SteerAnswers(s: State, id: Option<Id>, expected: int, env: Env, r: Rpc)
    requires Core(s) && r < |s.cells| && s.cells[r].None?
    ensures Answers(s.log, SteerRow(s, id, expected, env), r,
                    if s.q.inflight.Some? && !env.steerOk && PicksRow(s, id, expected, r) then Some(Rejected([SteerFailed])) else None)
  {
    PicksOne(s, id, expected, r);
    hide Core, Promote, Locate, PicksRow, Answers, Settle, Without;
    var at := LocateIn(s, id);
    if at.None? || s.q.queue[at.value].version != expected {
      UnholdAnswers(s, id, env, r);
    } else if s.q.inflight.None? {
      ThenAnswers(s.log, s, env, r, None);
    } else if env.steerOk {
      Unaddressed(s.log, SteerRow(s, id, expected, env), r);
    } else {
      SettledAnswers(s, s.(q := s.q.(holds := s.q.holds - {s.q.queue[at.value].id})), s.q.queue[at.value].rpc, Rejected([SteerFailed]), r);
    }
  }

  lemma SettledAnswers(s: State, t: State, rpc: Rpc, outcome: Outcome, r: Rpc)
    requires t.cells == s.cells && t.log == s.log && r < |s.cells| && s.cells[r].None?
    ensures Answers(s.log, Settle(t, rpc, outcome), r, if rpc == r then Some(outcome) else None)
  {
  }

  lemma RemoveAnswers(s: State, id: Option<Id>, expected: int, env: Env, r: Rpc)
    requires Core(s) && r < |s.cells| && s.cells[r].None?
    ensures Answers(s.log, Remove(s, id, expected, env), r, if PicksRow(s, id, expected, r) then Some(Stopped(Cancelled)) else None)
  {
    PicksOne(s, id, expected, r);
    hide Core, Promote, Answers, Locate, PicksRow, SettleInflight, Settle, Without;
    var at := LocateIn(s, id);
    if at.Some? && s.q.queue[at.value].version != expected {
      UnholdAnswers(s, id, env, r);
    } else if at.Some? {
      DropAnswers(s, at.value, s.q.holds - {s.q.queue[at.value].id}, env, r);
    } else if s.q.runningId == id {
      SettleCells(s, Stopped(Cancelled));
      var t := SettleInflight(s, Stopped(Cancelled));
      ThenAnswers(s.log, t.(q := t.q.(holds := t.q.holds - {if id.Some? then id.value else "undefined"})), env, r, None);
    } else {
      ThenAnswers(s.log, s, env, r, None);
    }
  }

  lemma EditAnswers(s: State, control: Control, env: Env, r: Rpc)
    requires Controllable(s) && (control.DoEdit? || control.DoHold? || control.DoRelease? || control.DoReorder?)
    requires r < |s.cells| && s.cells[r].None?
    ensures Answers(s.log, ApplyControl(s, control, env), r, None)
  {
    hide Promote, Answers, Locate, Rewrite, Named, Unnamed;
    ThenAnswers(s.log, s, env, r, None);
    match control
    case DoEdit(id, _, newText) =>
      var at := LocateIn(s, id);
      if at.Some? {
        var row := s.q.queue[at.value];
        var t := s.(q := s.q.(holds := s.q.holds - {row.id}));
        ThenAnswers(s.log, t, env, r, None);
        ThenAnswers(s.log, t.(q := t.q.(queue := s.q.queue[at.value := Rewrite(row, newText)])), env, r, None);
      }
    case DoHold(id) => ThenAnswers(s.log, HoldEdit(s, id), env, r, None);
    case DoRelease(id) => if id.Some? { ThenAnswers(s.log, s.(q := s.q.(holds := s.q.holds - {id.value})), env, r, None); }
    case DoReorder(ids) => ThenAnswers(s.log, s.(q := s.q.(queue := Named(s.q.queue, ids) + Unnamed(s.q.queue, ids))), env, r, None);
  }

  lemma ClearAnswers(s: State, env: Env, r: Rpc)
    requires r < |s.cells| && s.cells[r].None?
    ensures Answers(s.log, Discard(s), r, if InQueue(s, r) then Some(Stopped(Cancelled)) else None)
  {
    InRpcs(s, r);
    hide Answers, Rpcs, InQueue, Promote;
    ThenAnswers(s.log, Discard(s), env, r, if InQueue(s, r) then Some(Stopped(Cancelled)) else None);
  }

  lemma ControlAnswers(s: State, control: Control, env: Env, w: Option<Watch>, r: Rpc)
    requires Core(s) && r < |s.cells| && s.cells[r].None?
    ensures Answers(s.log, ApplyControl(s, control, env), r, Addressed(s, w, AControl(control), env, r))
  {
    if !Controllable(s) {
      Unaddressed(s.log, s, r);
    } else {
      SpokenAnswers(s, control, env, r);
    }
    hide Core, ApplyControl, Answers, InQueue, PicksRow;
  }

  lemma SpokenAnswers(s: State, control: Control, env: Env, r: Rpc)
    requires Core(s) && Controllable(s) && r < |s.cells| && s.cells[r].None?
    ensures Answers(s.log, ApplyControl(s, control, env), r, Spoken(s, control, env, r))
  {
    hide Core, Answers, Interject, SteerRow, Remove, Edit, HoldEdit, ReleaseEdit, Reorder, Discard, PicksRow, InQueue;
    match control
    case DoInterject(id, expected, newText) => InterjectAnswers(s, id, expected, newText, env, r);
    case DoSteer(id, expected) => SteerAnswers(s, id, expected, env, r);
    case DoRemove(id, expected) => RemoveAnswers(s, id, expected, env, r);
    case DoClear => ClearAnswers(s, env, r);
    case _ => EditAnswers(s, control, env, r);
  }

  lemma FinishedAnswers(s: State, flushOk: bool, w: Option<Watch>, env: Env, r: Rpc)
    requires Core(s) && Watched(s.q, w) && Enabled(s, AFlushDone(flushOk)) && r < |s.cells| && s.cells[r].None?
    ensures var u := Finished(s, flushOk);
            r < |u.cells| && u.cells[r] == Addressed(s, w, AFlushDone(flushOk), env, r) && Quiet(s.log, u.log)
  {
    InRpcs(s, r);
    RunNotSteered(s);
    FlushEnds(s, flushOk, w);
    hide Core, Watched, SteeredRpcs, IsSteered, Rpcs, InQueue, RunOutcome, SteeredReason, Answer, Ride;
  }

  lemma FlushAnswers(s: State, flushOk: bool, env: Env, w: Option<Watch>, r: Rpc)
    requires Core(s) && Watched(s.q, w) && Enabled(s, AFlushDone(flushOk)) && r < |s.cells| && s.cells[r].None?
    ensures Answers(s.log, FlushDone(s, flushOk, env), r, Addressed(s, w, AFlushDone(flushOk), env, r))
  {
    FinishedAnswers(s, flushOk, w, env, r);
    hide Core, Watched, Promote, Answers, Addressed, Resolve, SteeredRpcs, Quiet;
    ThenAnswers(s.log, Finished(s, flushOk), env, r, Addressed(s, w, AFlushDone(flushOk), env, r));
  }

  lemma RunNotSteered(s: State)
    requires Core(s)
    ensures s.q.run.Some? ==> s.q.run.value.rpc !in SteeredRpcs(s.q.steered)
  {
    CorePlaces(s);
    hide Core;
  }

  /** What a flushing run came to is what it was watched to come to. */
  lemma FlushEnds(s: State, flushOk: bool, w: Option<Watch>)
    requires Watched(s.q, w) && Enabled(s, AFlushDone(flushOk))
    ensures w.Some? && w.value.end.Some? && s.q.run.value.rpc == w.value.rpc && s.q.run.value.phase == Flushing(w.value.end.value)
    ensures RunOutcome(w.value.end.value, flushOk) == Answer(w.value.end.value, flushOk)
    ensures Stopped(SteeredReason(w.value.end.value)) == Ride(w.value.end.value)
    ensures s.q.sendNowTrigger == w.value.jumped
  {
  }

  lemma OtherAnswers(s: State, a: Action, env: Env, w: Option<Watch>, r: Rpc)
    requires Enabled(s, a) && r < |s.cells| && s.cells[r].None?
    requires a.ASubmit? || a.AClaimed? || a.ATurnEnded? || a.ARunIdle? || a.ADrainDone? || a.APromotionIdle? || a.AReloadFailed? || a.ALose?
    ensures Answers(s.log, Step(s, a, env), r, None)
  {
    var t := s.(q := s.q.(scheduled := false));
    AdvanceAnswers(t, env, r);
    hide Advance, Answers, Accepts;
    if !a.APromotionIdle? || t.disposed || !t.live { Unaddressed(s.log, Step(s, a, env), r); }
  }

  /**
   * A step answers an unanswered RPC exactly as it addresses it by name; beyond
   * that it only cancels rows that it folds into a combined turn.
   */
  lemma {:induction false} StepAnswers(s: State, a: Action, env: Env, w: Option<Watch>, r: Rpc)
    requires Core(s) && Watched(s.q, w) && Enabled(s, a) && r < |s.cells| && s.cells[r].None?
    ensures Answers(s.log, Step(s, a, env), r, Addressed(s, w, a, env, r))
  {
    hide Core, Watched, Answers, Submit, PredecessorDone, Prepared, PreparationAborted, ApplyControl, Claimed, TurnEnded, DrainDone,
      FlushDone, PromotionIdle, CancelAll, CancelPrompt, Dispose, RunIdle;
    match a
    case APredecessorDone(i) => PredecessorAnswers(s, i, env, w, r);
    case APreparationFailed(i, abort) => AbortedAnswers(s, i, abort, env, w, r);
    case APrepared(i, content) => PreparedAnswers(s, i, content, env, w, r);
    case AControl(control) => ControlAnswers(s, control, env, w, r);
    case AFlushDone(flushOk) => FlushAnswers(s, flushOk, env, w, r);
    case ACancelPrompt(id) => CancelPromptAnswers(s, id, env, w, r);
    case ACancelAll => WholeAnswers(s, a, env, w, r);
    case ABeginReload => WholeAnswers(s, a, env, w, r);
    case ADispose => WholeAnswers(s, a, env, w, r);
    case _ => OtherAnswers(s, a, env, w, r);
  }

  /**
   * In every run a step answers an unanswered RPC exactly as it addresses it by
   * name; beyond that it only cancels rows that it folds into a combined turn.
   */
  lemma {:induction false} AnsweredFor(combineQueued: bool, followUpSteer: bool, actions: seq<(Action, Env)>, a: Action, env: Env, r: Rpc)
    requires RunFrom(Initial(combineQueued, followUpSteer), actions)
    requires var s := After(Initial(combineQueued, followUpSteer), actions); Enabled(s, a) && r < |s.cells| && s.cells[r].None?
    ensures var start := Initial(combineQueued, followUpSteer);
            var s, w := After(start, actions), WatchFrom(start, None, actions);
            Answers(s.log, Step(s, a, env), r, Addressed(s, w, a, env, r))
  {
    InitialInv(combineQueued, followUpSteer);
    NothingWatched(combineQueued, followUpSteer);
    hide Initial, Step, Core, Answers, Addressed, Watched, Inv, Enabled, RunFrom, After, WatchFrom;
    RunWatched(Initial(combineQueued, followUpSteer), None, actions);
    InvIsCore(After(Initial(combineQueued, followUpSteer), actions));
    StepAnswers(After(Initial(combineQueued, followUpSteer), actions), a, env,
                WatchFrom(Initial(combineQueued, followUpSteer), None, actions), r);
  }

  lemma NothingWatched(combineQueued: bool, followUpSteer: bool)
    ensures Watched(Initial(combineQueued, followUpSteer).q, None)
  {
  }

  lemma InvIsCore(s: State)
    requires Inv(s)
    ensures Core(s)
  {
    hide Core;
  }

  /** The flushed run's end is marked and its RPC answered with what first ended it, and the steered RPCs with its reason. */
  ghost predicate EndsAsWatched(s: State, t: State, w: Option<Watch>, flushOk: bool) {
    && w.Some? && w.value.end.Some? && w.value.rpc < |s.cells| <= |t.cells|
    && |t.log| > |s.log| && t.log[..|s.log|] == s.log
    && t.log[|s.log|] == Ended(w.value.rpc, Answer(w.value.end.value, flushOk), w.value.jumped)
    && (s.cells[w.value.rpc].None? ==> t.cells[w.value.rpc] == Some(Answer(w.value.end.value, flushOk)))
    && forall r: Rpc :: IsSteered(s, r) && r < |s.cells| && s.cells[r].None? ==> t.cells[r] == Some(Ride(w.value.end.value))
  }

  /**
   * In every run, when a turn's output has been flushed, its end is marked and
   * its RPC answered with what first ended it: the stop reason of the turn that
   * claimed its message, or cancelled; or it is rejected, exactly if its
   * follow-up, its turn or the flush failed. Prompts steered into it stop as it
   * does, and the mark says whether a prompt jumped ahead of it.
   */
  lemma {:induction false} RunAnswered(combineQueued: bool, followUpSteer: bool, actions: seq<(Action, Env)>, flushOk: bool, env: Env)
    requires RunFrom(Initial(combineQueued, followUpSteer), actions)
    requires Enabled(After(Initial(combineQueued, followUpSteer), actions), AFlushDone(flushOk))
    ensures var start := Initial(combineQueued, followUpSteer);
            var s, w := After(start, actions), WatchFrom(start, None, actions);
            EndsAsWatched(s, Step(s, AFlushDone(flushOk), env), w, flushOk)
  {
    InitialInv(combineQueued, followUpSteer);
    NothingWatched(combineQueued, followUpSteer);
    hide Initial, Step, Core, EndsAsWatched, Watched, Inv, Enabled, RunFrom, After, WatchFrom;
    RunWatched(Initial(combineQueued, followUpSteer), None, actions);
    InvIsCore(After(Initial(combineQueued, followUpSteer), actions));
    FlushEndsAsWatched(After(Initial(combineQueued, followUpSteer), actions), flushOk, env,
                       WatchFrom(Initial(combineQueued, followUpSteer), None, actions));
  }

  lemma FlushEndsAsWatched(s: State, flushOk: bool, env: Env, w: Option<Watch>)
    requires Core(s) && Watched(s.q, w) && Enabled(s, AFlushDone(flushOk))
    ensures EndsAsWatched(s, Step(s, AFlushDone(flushOk), env), w, flushOk)
  {
    FlushEnds(s, flushOk, w);
    RunNotSteered(s);
    CorePlaces(s);
    RunIsNamed(s);
    FlushMarks(s, flushOk, env);
    hide Core, Watched, Step, FlushDone, Disjoint, Distinct, Slotted, RowsNamed, SteeredNamed;
    var r := w.value.rpc;
    assert |s.cells| == |s.a.slots|;
    forall q: Rpc | q < |s.cells| && s.cells[q].None? && (q == r || IsSteered(s, q))
      ensures Step(s, AFlushDone(flushOk), env).cells[q] == Addressed(s, w, AFlushDone(flushOk), env, q)
    {
      StepAnswers(s, AFlushDone(flushOk), env, w, q);
    }
    hide Accounted;
    forall q: Rpc | IsSteered(s, q)
      ensures q != r
    {
      InRpcs(s, q);
    }
  }

  lemma FlushMarks(s: State, flushOk: bool, env: Env)
    requires Enabled(s, AFlushDone(flushOk))
    ensures var t := Step(s, AFlushDone(flushOk), env);
            && |t.log| > |s.log| && t.log[..|s.log|] == s.log && |t.cells| == |s.cells|
            && t.log[|s.log|] == Ended(s.q.run.value.rpc, RunOutcome(s.q.run.value.phase.outcome, flushOk), s.q.sendNowTrigger)
  {
    var u := Finished(s, flushOk);
    PromoteAppends(u, env);
    hide Promote, SteeredRpcs, Resolve;
    assert u.log == s.log + [Ended(s.q.run.value.rpc, RunOutcome(s.q.run.value.phase.outcome, flushOk), s.q.sendNowTrigger)];
  }

  lemma PromoteAppends(s: State, env: Env)
    ensures var t := Promote(s, env); |t.log| >= |s.log| && t.log[..|s.log|] == s.log && |t.cells| == |s.cells|
  {
    hide Rpcs, Texts, RunContent, HasImage, Followers;
    if s.q.queue != [] { FollowersFit(s.q.queue[1..], s.q.holds); }
  }
}
