/**
 * One prompt queue as a value, and its atomic steps as functions: what
 * `attachPromptQueue` and the row controls do between two suspension points.
 */
module PromptQueueModel {
  import opened Options
  import JsText

  type Id = string

  /** A prompt RPC, named by the position of its accepted `submit`. */
  type Rpc = nat

  datatype StopReason = EndTurn | MaxTokens | Cancelled

  datatype Error = NotLive | FollowupFailed | SteerFailed | TurnFailed | PreparationFailed | FlushFailed

  /** How a prompt RPC settles: with a stop reason, or rejected with every failure collected. */
  datatype Outcome = Stopped(reason: StopReason) | Rejected(errors: seq<Error>)

  /** What ends a preparation early: the cancellation mark of its admission, or a failure. */
  datatype Abort = CancelledMark | Failure(error: Error)

  datatype Block = Text(text: string) | Image(attachment: string)

  datatype Row = Row(rpc: Rpc, id: Id, text: string, content: seq<Block>, version: nat, combinedTexts: Option<seq<string>>)

  datatype Steered = Steered(rpc: Rpc, id: Id)

  datatype Inflight = Inflight(rpc: Rpc, id: Id, messageId: nat, turn: Option<int>)

  /** Where the suspended `runPrompt` stands: waiting for its turn, for the
      cancelled activity to end, or for the output to flush. */
  datatype Phase = Active | Draining | Flushing(outcome: Outcome)

  datatype Run = Run(rpc: Rpc, id: Id, phase: Phase)

  datatype FollowUp = Steer | Queue | Default

  /** What one `submit` closes over. `io` says its preparation is outstanding;
      `released` says its promise on the admission tail has resolved. */
  datatype Slot = Slot(id: Id, text: string, sendNow: bool, followUp: FollowUp, epoch: nat,
                       targeted: bool, retired: bool, predecessorDone: bool, released: bool, io: bool)

  /** The history the ordering properties speak of. `Ended` with a stop reason is `prompt_complete`. */
  datatype Event =
    | Entered(rpc: Rpc)
    | CancelledAll(submitted: nat)
    | Started(rpc: Rpc, content: seq<Block>, texts: Option<seq<string>>)
    | Ended(rpc: Rpc, outcome: Outcome, sendNow: bool)

  /** The source's `PromptState`, without what only the broadcasts carry. */
  datatype PromptState = PromptState(
    queue: seq<Row>, holds: set<Id>, steered: seq<Steered>,
    runningId: Option<Id>, inflight: Option<Inflight>, run: Option<Run>, sendNowTrigger: bool, scheduled: bool)

  /** The admission side: every accepted `submit` so far and the live cancellation handles. */
  datatype Admission = Admission(slots: seq<Slot>, preparing: map<Id, Rpc>, admissions: int, epoch: nat)

  datatype State = State(
    combineQueued: bool, followUpSteer: bool, q: PromptState, a: Admission,
    disposed: bool, live: bool, gone: bool,
    cells: seq<Option<Outcome>>, log: seq<Event>)

  /** What the native agent answers during one step. */
  datatype Env = Env(idle: bool, followupOk: bool, steerOk: bool, messageId: nat)

  function Initial(combineQueued: bool, followUpSteer: bool): State {
    State(combineQueued, followUpSteer,
          PromptState([], {}, [], None, None, None, false, false), Admission([], map[], 0, 0),
          false, true, false, [], [])
  }

  // ----- Settlement cells: the first write wins -----

  function Resolve(cells: seq<Option<Outcome>>, rpcs: set<Rpc>, outcome: Outcome): seq<Option<Outcome>> {
    seq(|cells|, i requires 0 <= i < |cells| => if cells[i].None? && i in rpcs then Some(outcome) else cells[i])
  }

  function Rpcs(rows: seq<Row>): set<Rpc> {
    set row | row in rows :: row.rpc
  }

  function SteeredRpcs(steered: seq<Steered>): set<Rpc> {
    set entry | entry in steered :: entry.rpc
  }

  function RunRpcs(run: Option<Run>): set<Rpc> {
    if run.Some? then {run.value.rpc} else {}
  }

  function Settle(s: State, rpc: Rpc, outcome: Outcome): State {
    s.(cells := Resolve(s.cells, {rpc}, outcome))
  }

  // ----- The running slot -----

  function AfterActive(outcome: Outcome): Phase {
    if outcome == Stopped(Cancelled) then Draining else Flushing(outcome)
  }

  /** `settlePrompt` and the two rejections of the in-flight prompt. */
  function SettleInflight(s: State, outcome: Outcome): State {
    if s.q.inflight.None? || s.q.run.None? then s
    else s.(q := s.q.(inflight := None, run := Some(s.q.run.value.(phase := AfterActive(outcome)))))
  }

  function HasImage(row: Row): bool {
    exists block :: block in row.content && block.Image?
  }

  /** How many rows at the head of `rows` a combined turn may fold. */
  function Followers(rows: seq<Row>, holds: set<Id>): nat {
    if rows == [] || rows[0].id in holds || HasImage(rows[0]) then 0
    else 1 + Followers(rows[1..], holds)
  }

  /** How many rows the next turn takes from the front of the queue. */
  function TurnSize(rows: seq<Row>, holds: set<Id>, combineQueued: bool): nat
    requires rows != []
  {
    if combineQueued && !HasImage(rows[0]) then 1 + Followers(rows[1..], holds) else 1
  }

  function Texts(rows: seq<Row>): seq<string> {
    seq(|rows|, i requires 0 <= i < |rows| => rows[i].text)
  }

  function RunContent(row: Row): seq<Block> {
    if row.combinedTexts.None? then row.content else [Text(JsText.Join(row.combinedTexts.value, "\n\n"))]
  }

  /** The synchronous part of `runPrompt`. */
  function StartRun(s: State, row: Row, env: Env): State {
    var phase := if env.followupOk then Active else Flushing(Rejected([FollowupFailed]));
    var inflight := if env.followupOk then Some(Inflight(row.rpc, row.id, env.messageId, None)) else None;
    s.(q := s.q.(runningId := Some(row.id), run := Some(Run(row.rpc, row.id, phase)), inflight := inflight),
       log := s.log + [Started(row.rpc, RunContent(row), row.combinedTexts)])
  }

  predicate Parked(s: State) {
    s.q.queue != [] && s.q.queue[0].id in s.q.holds
  }

  lemma {:induction false} FollowersFit(rows: seq<Row>, holds: set<Id>)
    ensures Followers(rows, holds) <= |rows|
  {
    if rows != [] { FollowersFit(rows[1..], holds); }
  }

  function Advance(s: State, env: Env): State {
    if s.q.inflight.Some? || s.q.runningId.Some? || s.q.queue == [] || Parked(s) then s
    else
      var n := TurnSize(s.q.queue, s.q.holds, s.combineQueued);
      FollowersFit(s.q.queue[1..], s.q.holds);
      var front := if n >= 2 then s.q.queue[0].(combinedTexts := Some(Texts(s.q.queue[..n]))) else s.q.queue[0];
      StartRun(s.(q := s.q.(queue := s.q.queue[n..]),
                  cells := Resolve(s.cells, Rpcs(s.q.queue[1..n]), Stopped(Cancelled))), front, env)
  }

  /** `promoteWhenIdle`. */
  function Promote(s: State, env: Env): State {
    if s.disposed || !s.live || s.q.scheduled then s
    else if s.q.inflight.None? && env.idle then Advance(s, env)
    else s.(q := s.q.(scheduled := true))
  }

  /** `discardPromptQueue`. */
  function Discard(s: State): State {
    s.(q := s.q.(holds := {}, queue := []), cells := Resolve(s.cells, Rpcs(s.q.queue), Stopped(Cancelled)))
  }

  // ----- Admission -----

  function ActiveIds(s: State): set<Id> {
    s.a.preparing.Keys + (set row | row in s.q.queue :: row.id) + (set entry | entry in s.q.steered :: entry.id)
    + (if s.q.runningId.Some? then {s.q.runningId.value} else {})
  }

  predicate Accepts(s: State, id: Id) {
    !s.disposed && s.live && id !in ActiveIds(s)
  }

  function Submit(s: State, id: Id, text: string, sendNow: bool, followUp: FollowUp): State {
    if !Accepts(s, id) then s
    else
      var slot := Slot(id, text, sendNow, followUp, s.a.epoch, false, false, false, false, false);
      s.(a := s.a.(slots := s.a.slots + [slot], preparing := s.a.preparing[id := |s.a.slots|], admissions := s.a.admissions + 1),
         cells := s.cells + [None])
  }

  /** `retire`: a slot gives up its place once; its tail promise resolves only after its predecessor's. */
  function Retire(s: State, i: Rpc): State
    requires i < |s.a.slots|
  {
    var slot := s.a.slots[i];
    if slot.retired then s
    else
      var after := slot.(retired := true, released := slot.predecessorDone);
      s.(a := s.a.(slots := s.a.slots[i := after], preparing := s.a.preparing - {slot.id}, admissions := s.a.admissions - 1))
  }

  /** The cancellation handle a preparing slot publishes. */
  function Target(s: State, i: Rpc): State
    requires i < |s.a.slots|
  {
    Retire(Settle(s.(a := s.a.(slots := s.a.slots[i := s.a.slots[i].(targeted := true)])), i, Stopped(Cancelled)), i)
  }

  function AssertActive(s: State, i: Rpc): Option<Abort>
    requires i < |s.a.slots|
  {
    if s.disposed || !s.live then Some(Failure(NotLive))
    else if s.a.slots[i].targeted || s.a.slots[i].epoch != s.a.epoch then Some(CancelledMark)
    else None
  }

  function AbortOutcome(abort: Abort): Outcome {
    if abort.CancelledMark? then Stopped(Cancelled) else Rejected([abort.error])
  }

  /** `failed` in `submit`. */
  function FailSlot(s: State, i: Rpc, abort: Abort): State
    requires i < |s.a.slots|
  {
    if s.a.slots[i].retired then s else Retire(Settle(s, i, AbortOutcome(abort)), i)
  }

  /** `previous.then`: the tail before slot `i` resolved. */
  function PredecessorDone(s: State, i: Rpc): State
    requires i < |s.a.slots|
  {
    var slot := s.a.slots[i].(predecessorDone := true);
    if slot.retired then s.(a := s.a.(slots := s.a.slots[i := slot.(released := true)]))
    else
      var t := s.(a := s.a.(slots := s.a.slots[i := slot]));
      var abort := AssertActive(t, i);
      if abort.Some? then FailSlot(t, i, abort.value) else t.(a := t.a.(slots := t.a.slots[i := slot.(io := true)]))
  }

  function SteersThis(s: State, slot: Slot): bool {
    slot.followUp == Steer || (slot.followUp == Default && s.followUpSteer)
  }

  /** `enqueuePrompt`. */
  function Enqueue(s: State, i: Rpc, content: seq<Block>, env: Env): State
    requires i < |s.a.slots|
  {
    var slot := s.a.slots[i];
    var row := Row(i, slot.id, slot.text, content, 0, None);
    var t := s.(log := s.log + [Entered(i)]);
    if slot.sendNow && t.q.inflight.Some? then
      SettleInflight(t.(q := t.q.(queue := [row] + t.q.queue, sendNowTrigger := true)), Stopped(Cancelled))
    else if SteersThis(s, slot) && t.q.inflight.Some? then
      if env.steerOk then t.(q := t.q.(steered := t.q.steered + [Steered(i, slot.id)]))
      else Settle(t, i, Rejected([SteerFailed]))
    else Promote(t.(q := t.q.(queue := t.q.queue + [row])), env)
  }

  /** The preparation of slot `i` delivered its content. */
  function Prepared(s: State, i: Rpc, content: seq<Block>, env: Env): State
    requires i < |s.a.slots|
  {
    var t := s.(a := s.a.(slots := s.a.slots[i := s.a.slots[i].(io := false)]));
    if t.a.slots[i].retired then t
    else
      var abort := AssertActive(t, i);
      if abort.Some? then FailSlot(t, i, abort.value) else Enqueue(Retire(t, i), i, content, env)
  }

  /** The preparation of slot `i` threw or rejected. */
  function PreparationAborted(s: State, i: Rpc, abort: Abort): State
    requires i < |s.a.slots|
  {
    FailSlot(s.(a := s.a.(slots := s.a.slots[i := s.a.slots[i].(io := false)])), i, abort)
  }

  // ----- The native turn -----

  function Claimed(s: State, messageId: nat, turn: int): State {
    if s.q.inflight.Some? && s.q.inflight.value.messageId == messageId
    then s.(q := s.q.(inflight := Some(s.q.inflight.value.(turn := Some(turn))))) else s
  }

  /** `observe` a `turn/end`, or `failed`: only the correlated turn settles the prompt. */
  function TurnEnded(s: State, turn: int, outcome: Outcome): State {
    if s.q.inflight.Some? && s.q.inflight.value.turn == Some(turn) then SettleInflight(s, outcome) else s
  }

  /** `nativeIdle` of the running prompt resolved: a turnless slot settles cancelled. */
  function RunIdle(s: State): State {
    SettleInflight(s, Stopped(Cancelled))
  }

  /** One of the three promises a cancelled run races on resolved. */
  function DrainDone(s: State): State {
    if s.q.run.Some? && s.q.run.value.phase.Draining?
    then s.(q := s.q.(run := Some(s.q.run.value.(phase := Flushing(Stopped(Cancelled)))))) else s
  }

  function RunOutcome(outcome: Outcome, flushOk: bool): Outcome {
    if flushOk then outcome
    else Rejected((if outcome.Rejected? then outcome.errors else []) + [FlushFailed])
  }

  function SteeredReason(outcome: Outcome): StopReason {
    if outcome.Stopped? then outcome.reason else Cancelled
  }

  /** `flushOutput` settled: clean up, report, settle the steered prompts and promote. */
  function FlushDone(s: State, flushOk: bool, env: Env): State {
    if s.q.run.None? || !s.q.run.value.phase.Flushing? then s
    else
      var run := s.q.run.value;
      var outcome := RunOutcome(run.phase.outcome, flushOk);
      var cells := Resolve(s.cells, SteeredRpcs(s.q.steered), Stopped(SteeredReason(run.phase.outcome)));
      var t := s.(q := s.q.(runningId := None, run := None, sendNowTrigger := false, steered := []),
                  cells := Resolve(cells, {run.rpc}, outcome),
                  log := s.log + [Ended(run.rpc, outcome, s.q.sendNowTrigger)]);
      if t.q.queue != [] then Promote(t, env) else t
  }

  /** The promotion wait on `whenIdle` resolved. */
  function PromotionIdle(s: State, env: Env): State {
    var t := s.(q := s.q.(scheduled := false));
    if t.disposed || !t.live then t else Advance(t, env)
  }

  // ----- Cancellation -----

  function CancelAll(s: State): State {
    Discard(SettleInflight(s.(a := s.a.(epoch := s.a.epoch + 1), log := s.log + [CancelledAll(|s.a.slots|)]), Stopped(Cancelled)))
  }

  /** Cancellation reads neither host flag, so setting one commutes with it. */
  function Dispose(s: State): State {
    if s.disposed then s else CancelAll(s).(disposed := true)
  }

  /** The index of the row with this id, if any. */
  function Locate(rows: seq<Row>, id: Id): Option<nat> {
    if rows == [] then None
    else if rows[0].id == id then Some(0)
    else match Locate(rows[1..], id) case None => None case Some(i) => Some(i + 1)
  }

  function LocateIn(s: State, id: Option<Id>): (index: Option<nat>)
    ensures index.Some? ==> id.Some? && index.value < |s.q.queue| && s.q.queue[index.value].id == id.value
  {
    if id.Some? then LocateFits(s.q.queue, id.value); Locate(s.q.queue, id.value) else None
  }

  lemma {:induction false} LocateFits(rows: seq<Row>, id: Id)
    ensures match Locate(rows, id)
            case Some(i) => i < |rows| && rows[i].id == id && forall j :: 0 <= j < i ==> rows[j].id != id
            case None => forall j :: 0 <= j < |rows| ==> rows[j].id != id
  {
    if rows != [] && rows[0].id != id {
      LocateFits(rows[1..], id);
      assert forall j :: 1 <= j < |rows| ==> rows[j] == rows[1..][j - 1];
    }
  }

  function Without(rows: seq<Row>, i: nat): seq<Row>
    requires i < |rows|
  {
    rows[..i] + rows[i + 1..]
  }

  datatype CancelResult = CancelledPrompt | NotFound | AlreadySubmitted

  function CancelPrompt(s: State, id: Id, env: Env): State {
    if s.disposed || !s.live then s
    else if s.q.inflight.Some? && s.q.inflight.value.id == id then SettleInflight(s, Stopped(Cancelled))
    else
      var at := LocateIn(s, Some(id));
      if at.Some? then
        Promote(Settle(s.(q := s.q.(queue := Without(s.q.queue, at.value), holds := s.q.holds - {id})),
                       s.q.queue[at.value].rpc, Stopped(Cancelled)), env)
      else if s.q.runningId == Some(id) || (exists entry :: entry in s.q.steered && entry.id == id) then s
      else if id in s.a.preparing && s.a.preparing[id] < |s.a.slots| then Target(s, s.a.preparing[id])
      else s
  }

  function CancelPromptResult(s: State, id: Id): CancelResult {
    if s.disposed || !s.live then NotFound
    else if s.q.inflight.Some? && s.q.inflight.value.id == id then CancelledPrompt
    else if LocateIn(s, Some(id)).Some? then CancelledPrompt
    else if s.q.runningId == Some(id) || (exists entry :: entry in s.q.steered && entry.id == id) then AlreadySubmitted
    else if id in s.a.preparing then CancelledPrompt
    else NotFound
  }

  // ----- Row controls -----

  function Rewrite(row: Row, newText: Option<string>): Row {
    if newText.None? || JsText.Trim(newText.value) == "" then row
    else row.(text := newText.value,
              content := [Text(newText.value)] + Images(row.content),
              combinedTexts := None, version := row.version + 1)
  }

  function Images(content: seq<Block>): seq<Block> {
    if content == [] then []
    else (if content[0].Image? then [content[0]] else []) + Images(content[1..])
  }

  function Unhold(s: State, id: Option<Id>): State {
    if id.Some? then s.(q := s.q.(holds := s.q.holds - {id.value})) else s
  }

  function Interject(s: State, id: Option<Id>, expected: int, newText: Option<string>, env: Env): State {
    var at := LocateIn(s, id);
    if at.None? || s.q.queue[at.value].version != expected then Promote(Unhold(s, id), env)
    else
      var row := Rewrite(s.q.queue[at.value], newText);
      var t := s.(q := s.q.(queue := [row] + Without(s.q.queue, at.value), holds := s.q.holds - {row.id}));
      if t.q.inflight.Some? then SettleInflight(t.(q := t.q.(sendNowTrigger := true)), Stopped(Cancelled)) else Promote(t, env)
  }

  function SteerRow(s: State, id: Option<Id>, expected: int, env: Env): State {
    var at := LocateIn(s, id);
    if at.None? || s.q.queue[at.value].version != expected then Promote(Unhold(s, id), env)
    else if s.q.inflight.None? then Promote(s, env)
    else
      var row := s.q.queue[at.value];
      var t := s.(q := s.q.(holds := s.q.holds - {row.id}));
      if env.steerOk then t.(q := t.q.(queue := Without(s.q.queue, at.value), steered := s.q.steered + [Steered(row.rpc, row.id)]))
      else Settle(t, row.rpc, Rejected([SteerFailed]))
  }

  function Remove(s: State, id: Option<Id>, expected: int, env: Env): State {
    var at := LocateIn(s, id);
    if at.Some? && s.q.queue[at.value].version != expected then Promote(Unhold(s, id), env)
    else if at.Some? then
      Promote(Settle(s.(q := s.q.(queue := Without(s.q.queue, at.value), holds := s.q.holds - {s.q.queue[at.value].id})),
                     s.q.queue[at.value].rpc, Stopped(Cancelled)), env)
    else if s.q.runningId == id then
      var t := SettleInflight(s, Stopped(Cancelled));
      Promote(t.(q := t.q.(holds := t.q.holds - {if id.Some? then id.value else "undefined"})), env)
    else Promote(s, env)
  }

  function Edit(s: State, id: Option<Id>, expected: Option<int>, newText: Option<string>, env: Env): State {
    var at := LocateIn(s, id);
    if at.None? then s
    else
      var row := s.q.queue[at.value];
      var t := s.(q := s.q.(holds := s.q.holds - {row.id}));
      if expected.Some? && row.version != expected.value then Promote(t, env)
      else Promote(t.(q := t.q.(queue := s.q.queue[at.value := Rewrite(row, newText)])), env)
  }

  function HoldEdit(s: State, id: Option<Id>): State {
    if id.Some? then s.(q := s.q.(holds := s.q.holds + {id.value})) else s
  }

  function ReleaseEdit(s: State, id: Option<Id>, env: Env): State {
    if id.None? || id.value !in s.q.holds then s else Promote(s.(q := s.q.(holds := s.q.holds - {id.value})), env)
  }

  /** The rows the client named, in its order, each at most once. */
  function Named(rows: seq<Row>, ids: seq<Id>): seq<Row> {
    if ids == [] then []
    else
      match Locate(rows, ids[0])
      case None => Named(rows, ids[1..])
      case Some(i) =>
        LocateFits(rows, ids[0]);
        [rows[i]] + Named(Without(rows, i), ids[1..])
  }

  /** What is left of `rows` once the named ones are taken, in queue order. */
  function Unnamed(rows: seq<Row>, ids: seq<Id>): seq<Row> {
    if ids == [] then rows
    else
      match Locate(rows, ids[0])
      case None => Unnamed(rows, ids[1..])
      case Some(i) =>
        LocateFits(rows, ids[0]);
        Unnamed(Without(rows, i), ids[1..])
  }

  function Reorder(s: State, ids: seq<Id>, env: Env): State {
    var next := Named(s.q.queue, ids) + Unnamed(s.q.queue, ids);
    if next != s.q.queue then Promote(s.(q := s.q.(queue := next)), env) else s
  }

  datatype Control =
    | DoInterject(id: Option<Id>, expectedVersion: int, newText: Option<string>)
    | DoSteer(id: Option<Id>, expectedVersion: int)
    | DoRemove(id: Option<Id>, expectedVersion: int)
    | DoEdit(id: Option<Id>, pinnedVersion: Option<int>, newText: Option<string>)
    | DoHold(id: Option<Id>)
    | DoRelease(id: Option<Id>)
    | DoReorder(ids: seq<Id>)
    | DoClear

  function ApplyControl(s: State, control: Control, env: Env): State {
    if s.disposed || !s.live then s
    else
      match control
      case DoInterject(id, expected, newText) => Interject(s, id, expected, newText, env)
      case DoSteer(id, expected) => SteerRow(s, id, expected, env)
      case DoRemove(id, expected) => Remove(s, id, expected, env)
      case DoEdit(id, expected, newText) => Edit(s, id, expected, newText, env)
      case DoHold(id) => HoldEdit(s, id)
      case DoRelease(id) => ReleaseEdit(s, id, env)
      case DoReorder(ids) => Reorder(s, ids, env)
      case DoClear => Discard(s)
  }

  // ----- Steps and runs -----

  datatype Action =
    | ASubmit(id: Id, text: string, sendNow: bool, followUp: FollowUp)
    | APredecessorDone(slot: Rpc)
    | APrepared(slot: Rpc, content: seq<Block>)
    | APreparationFailed(slot: Rpc, abort: Abort)
    | AControl(control: Control)
    | AClaimed(messageId: nat, turn: int)
    | ATurnEnded(turn: int, outcome: Outcome)
    | ARunIdle
    | ADrainDone
    | AFlushDone(flushOk: bool)
    | APromotionIdle
    | ACancelAll
    | ACancelPrompt(id: Id)
    | ADispose
    | ABeginReload  // input closes, then the queue is cancelled
    | AReloadFailed  // the same owner accepts input again
    | ALose  // the session is gone for good

  /** The promises an action needs to have settled. */
  predicate Enabled(s: State, a: Action) {
    match a
    case APredecessorDone(i) => i < |s.a.slots| && !s.a.slots[i].predecessorDone && (i > 0 ==> s.a.slots[i - 1].released)
    case APrepared(i, _) => i < |s.a.slots| && s.a.slots[i].io
    case APreparationFailed(i, _) => i < |s.a.slots| && s.a.slots[i].io
    case ATurnEnded(_, outcome) => outcome.Stopped? || outcome == Rejected([TurnFailed])
    case ARunIdle => s.q.run.Some? && s.q.run.value.phase.Active?
    case ADrainDone => s.q.run.Some? && s.q.run.value.phase.Draining?
    case AFlushDone(_) => s.q.run.Some? && s.q.run.value.phase.Flushing?
    case APromotionIdle => s.q.scheduled
    case ABeginReload => s.live
    case AReloadFailed => !s.gone
    case _ => true
  }

  function Step(s: State, a: Action, env: Env): State
    requires Enabled(s, a)
  {
    match a
    case ASubmit(id, text, sendNow, followUp) => Submit(s, id, text, sendNow, followUp)
    case APredecessorDone(i) => PredecessorDone(s, i)
    case APrepared(i, content) => Prepared(s, i, content, env)
    case APreparationFailed(i, abort) => PreparationAborted(s, i, abort)
    case AControl(control) => ApplyControl(s, control, env)
    case AClaimed(messageId, turn) => Claimed(s, messageId, turn)
    case ATurnEnded(turn, outcome) => TurnEnded(s, turn, outcome)
    case ARunIdle => RunIdle(s)
    case ADrainDone => DrainDone(s)
    case AFlushDone(flushOk) => FlushDone(s, flushOk, env)
    case APromotionIdle => PromotionIdle(s, env)
    case ACancelAll => CancelAll(s)
    case ACancelPrompt(id) => CancelPrompt(s, id, env)
    case ADispose => Dispose(s)
    case ABeginReload => CancelAll(s).(live := false)
    case AReloadFailed => s.(live := true)
    case ALose => s.(live := false, gone := true)
  }
}
