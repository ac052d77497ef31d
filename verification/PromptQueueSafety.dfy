/**
 * What every interleaving of the prompt queue's steps keeps: no orphaned
 * prompt, one running slot, no stranded queue, admission in submit order and
 * the epoch fence.
 */
module PromptQueueSafety {
  import opened Options
  import opened PromptQueueModel
  import JsText

  // ----- The invariant -----

  ghost predicate NoDupRows(rows: seq<Row>) {
    forall i, j :: 0 <= i < j < |rows| ==> rows[i].rpc != rows[j].rpc
  }

  ghost predicate NoDupSteered(steered: seq<Steered>) {
    forall i, j :: 0 <= i < j < |steered| ==> steered[i].rpc != steered[j].rpc
  }

  /** The submissions that hold a place past their preparation. */
  ghost function Holding(s: State): set<Rpc> {
    Rpcs(s.q.queue) + RunRpcs(s.q.run) + SteeredRpcs(s.q.steered)
  }

  ghost predicate Preparing(slots: seq<Slot>, rpc: Rpc) {
    rpc < |slots| && !slots[rpc].retired
  }

  ghost predicate Occupied(slots: seq<Slot>, holding: set<Rpc>, rpc: Rpc) {
    rpc < |slots| && (!slots[rpc].retired || rpc in holding)
  }

  /** Rows, steered prompts and the run carry the id of an accepted submission. */
  ghost predicate RowsNamed(rows: seq<Row>, slots: seq<Slot>) {
    forall row :: row in rows ==> row.rpc < |slots| && row.id == slots[row.rpc].id && row.combinedTexts.None?
  }

  ghost predicate SteeredNamed(steered: seq<Steered>, slots: seq<Slot>) {
    forall entry :: entry in steered ==> entry.rpc < |slots| && entry.id == slots[entry.rpc].id
  }

  ghost predicate RunNamed(run: Option<Run>, slots: seq<Slot>) {
    run.Some? ==> run.value.rpc < |slots| && run.value.id == slots[run.value.rpc].id
  }

  ghost predicate Epochs(slots: seq<Slot>, epoch: nat) {
    forall i :: 0 <= i < |slots| ==> slots[i].epoch <= epoch
  }

  /** The admission tail: a slot's promise resolves once it and all its predecessors are through. */
  ghost predicate Chain(slots: seq<Slot>) {
    forall i :: 0 <= i < |slots| ==>
      && (slots[i].released <==> slots[i].predecessorDone && slots[i].retired)
      && (slots[i].io ==> slots[i].predecessorDone)
      && (slots[i].predecessorDone && !slots[i].retired ==> slots[i].io)
      && (slots[i].predecessorDone ==> forall j :: 0 <= j < i ==> slots[j].released)
  }

  /** `preparing` and `admissions` name exactly the slots not yet retired. */
  ghost predicate Admissions(slots: seq<Slot>, preparing: map<Id, Rpc>, admissions: int) {
    && (forall i :: 0 <= i < |slots| && !slots[i].retired ==> slots[i].id in preparing && preparing[slots[i].id] == i)
    && (forall id :: id in preparing ==> Preparing(slots, preparing[id]) && slots[preparing[id]].id == id)
    && admissions == |preparing|
  }

  /** No submission holds two places. */
  ghost predicate Disjoint(rows: seq<Row>, run: set<Rpc>, steered: seq<Steered>) {
    && NoDupRows(rows) && NoDupSteered(steered)
    && Rpcs(rows) !! run && Rpcs(rows) !! SteeredRpcs(steered) && run !! SteeredRpcs(steered)
  }

  /** A held place belongs to a retired slot, and active ids are distinct. */
  ghost predicate Distinct(slots: seq<Slot>, holding: set<Rpc>) {
    && (forall r :: r in holding ==> r < |slots| && slots[r].retired)
    && (forall q: nat, r: nat :: Occupied(slots, holding, q) && Occupied(slots, holding, r) && q != r ==> slots[q].id != slots[r].id)
  }

  /** An unsettled RPC holds a place; a settled one holds none, unless its steering failed. */
  ghost predicate Accounted(cells: seq<Option<Outcome>>, slots: seq<Slot>, holding: set<Rpc>) {
    && |cells| == |slots|
    && (forall r :: 0 <= r < |slots| && cells[r].None? ==> Occupied(slots, holding, r))
    && (forall r :: 0 <= r < |slots| && !slots[r].retired ==> cells[r].None?)
    && (forall r :: 0 <= r < |slots| && r in holding && cells[r].Some? ==> cells[r] == Some(Rejected([SteerFailed])))
  }

  /** One running slot, and what may exist only beside it. */
  ghost predicate Slotted(runningId: Option<Id>, inflight: Option<Inflight>, run: Option<Run>, dependents: bool) {
    && runningId == (if run.Some? then Some(run.value.id) else None)
    && (inflight.Some? <==> run.Some? && run.value.phase.Active?)
    && (inflight.Some? ==> inflight.value.rpc == run.value.rpc && inflight.value.id == run.value.id)
    && (dependents ==> run.Some?)
  }

  ghost predicate Liveness(s: State) {
    && (s.gone ==> !s.live)
    && (s.disposed || (!s.live && !s.gone) ==> s.q.queue == [])
  }

  /** A live queue whose front is not edit-held is being served. */
  ghost predicate Served(s: State) {
    s.live && !s.disposed && s.q.queue != [] && !Parked(s) ==> s.q.run.Some? || s.q.scheduled
  }

  // ----- History -----

  ghost predicate EnteredInOrder(log: seq<Event>) {
    forall k, l :: 0 <= k < l < |log| && log[k].Entered? && log[l].Entered? ==> log[k].rpc < log[l].rpc
  }

  ghost predicate Fenced(log: seq<Event>) {
    forall k, l :: 0 <= k < l < |log| && log[k].CancelledAll? && log[l].Entered? ==> log[k].submitted <= log[l].rpc
  }

  ghost predicate StartedOnce(log: seq<Event>) {
    forall k, l :: 0 <= k < l < |log| && log[k].Started? && log[l].Started? ==> log[k].rpc != log[l].rpc
  }

  /** The prompt whose run is open after `log`. */
  ghost function Open(log: seq<Event>): Option<Rpc> {
    if log == [] then None
    else
      match log[|log| - 1]
      case Started(r, _, _) => Some(r)
      case Ended(_, _, _) => None
      case _ => Open(log[..|log| - 1])
  }

  /** Runs never overlap: each starts after the previous one has ended. */
  ghost predicate OneAtATime(log: seq<Event>) {
    log == [] ||
    var rest := log[..|log| - 1];
    OneAtATime(rest) &&
    match log[|log| - 1]
    case Started(_, _, _) => Open(rest).None?
    case Ended(r, _, _) => Open(rest) == Some(r)
    case _ => true
  }

  ghost predicate Ordered(log: seq<Event>, slots: seq<Slot>, epoch: nat) {
    && EnteredInOrder(log) && Fenced(log)
    && (forall k :: 0 <= k < |log| && log[k].Entered? ==>
          log[k].rpc < |slots| && slots[log[k].rpc].predecessorDone && slots[log[k].rpc].retired)
    && (forall k :: 0 <= k < |log| && log[k].CancelledAll? ==>
          log[k].submitted <= |slots| && forall r :: 0 <= r < log[k].submitted ==> slots[r].epoch < epoch)
  }

  /** A prompt that has started never waits again. */
  ghost predicate StartedLeft(log: seq<Event>, slots: seq<Slot>, waiting: set<Rpc>) {
    StartedOnce(log)
    && forall k :: 0 <= k < |log| && log[k].Started? ==>
         log[k].rpc < |slots| && slots[log[k].rpc].retired && log[k].rpc !in waiting
  }

  ghost predicate Serial(log: seq<Event>, run: Option<Run>) {
    OneAtATime(log) && Open(log) == (if run.Some? then Some(run.value.rpc) else None)
  }

  ghost function Waiting(s: State): set<Rpc> {
    Rpcs(s.q.queue) + SteeredRpcs(s.q.steered)
  }

  ghost predicate Core(s: State) {
    && RowsNamed(s.q.queue, s.a.slots) && SteeredNamed(s.q.steered, s.a.slots) && RunNamed(s.q.run, s.a.slots)
    && Epochs(s.a.slots, s.a.epoch) && Chain(s.a.slots) && Admissions(s.a.slots, s.a.preparing, s.a.admissions)
    && Disjoint(s.q.queue, RunRpcs(s.q.run), s.q.steered) && Distinct(s.a.slots, Holding(s))
    && Accounted(s.cells, s.a.slots, Holding(s))
    && Slotted(s.q.runningId, s.q.inflight, s.q.run, s.q.steered != [] || s.q.sendNowTrigger)
    && Liveness(s)
    && Ordered(s.log, s.a.slots, s.a.epoch) && StartedLeft(s.log, s.a.slots, Waiting(s)) && Serial(s.log, s.q.run)
  }

  ghost predicate Inv(s: State) {
    Core(s) && Served(s)
  }

  // ----- Rows and places -----

  lemma RpcsJoin(a: seq<Row>, b: seq<Row>)
    ensures Rpcs(a + b) == Rpcs(a) + Rpcs(b)
  {
    assert forall row :: row in a + b <==> row in a || row in b;
  }

  lemma RpcsOne(row: Row)
    ensures Rpcs([row]) == {row.rpc}
  {
    assert row in [row];
  }

  lemma SteeredJoin(a: seq<Steered>, entry: Steered)
    ensures SteeredRpcs(a + [entry]) == SteeredRpcs(a) + {entry.rpc}
  {
    assert forall e :: e in a + [entry] <==> e in a || e == entry;
  }

  /** Cutting a queue without repeats in two leaves two disjoint queues without repeats. */
  lemma Cut(rows: seq<Row>, n: nat)
    requires n <= |rows|
    ensures Rpcs(rows) == Rpcs(rows[..n]) + Rpcs(rows[n..])
    ensures NoDupRows(rows) ==> NoDupRows(rows[..n]) && NoDupRows(rows[n..]) && Rpcs(rows[..n]) !! Rpcs(rows[n..])
  {
    assert rows == rows[..n] + rows[n..];
    RpcsJoin(rows[..n], rows[n..]);
    forall x, y | NoDupRows(rows) && x in rows[..n] && y in rows[n..]
      ensures x.rpc != y.rpc
    {
    }
  }

  lemma NoDupJoin(a: seq<Row>, b: seq<Row>)
    requires NoDupRows(a) && NoDupRows(b) && Rpcs(a) !! Rpcs(b)
    ensures NoDupRows(a + b)
  {
    forall i, j | 0 <= i < j < |a + b|
      ensures (a + b)[i].rpc != (a + b)[j].rpc
    {
      if i < |a| <= j {
        assert (a + b)[i] in a && (a + b)[j] in b;
        assert (a + b)[i].rpc in Rpcs(a) && (a + b)[j].rpc in Rpcs(b);
      }
    }
  }

  /** Taking row `i` out of a queue without repeats. */
  lemma TakeOut(rows: seq<Row>, i: nat)
    requires i < |rows| && NoDupRows(rows)
    ensures NoDupRows(Without(rows, i)) && rows[i].rpc !in Rpcs(Without(rows, i))
    ensures Rpcs(rows) == Rpcs(Without(rows, i)) + {rows[i].rpc}
  {
    Cut(rows, i);
    Cut(rows[i..], 1);
    assert rows[i..][..1] == [rows[i]] && rows[i..][1..] == rows[i + 1..];
    RpcsOne(rows[i]);
    RpcsJoin(rows[..i], rows[i + 1..]);
    NoDupJoin(rows[..i], rows[i + 1..]);
  }

  lemma NamedSubset(rows: seq<Row>, rest: seq<Row>, slots: seq<Slot>)
    requires RowsNamed(rows, slots) && forall row :: row in rest ==> row in rows
    ensures RowsNamed(rest, slots)
  {
  }

  lemma NoneSteered()
    ensures SteeredRpcs([]) == {}
  {
  }

  lemma HeldRetired(slots: seq<Slot>, holding: set<Rpc>, r: Rpc)
    requires Distinct(slots, holding) && r in holding
    ensures r < |slots| && slots[r].retired
  {
  }

  /** Settling some of the held places releases exactly those. */
  lemma Release(cells: seq<Option<Outcome>>, slots: seq<Slot>, holding: set<Rpc>, released: set<Rpc>, outcome: Outcome)
    requires Accounted(cells, slots, holding) && Distinct(slots, holding) && released <= holding
    ensures Accounted(Resolve(cells, released, outcome), slots, holding - released)
  {
  }

  lemma Shrink(slots: seq<Slot>, holding: set<Rpc>, kept: set<Rpc>)
    requires Distinct(slots, holding) && kept <= holding
    ensures Distinct(slots, kept)
  {
    assert forall q: nat :: Occupied(slots, kept, q) ==> Occupied(slots, holding, q);
  }

  // ----- Appending to the history -----

  lemma LogStarted(log: seq<Event>, slots: seq<Slot>, epoch: nat, waiting: set<Rpc>, left: set<Rpc>, e: Event)
    requires Ordered(log, slots, epoch) && StartedLeft(log, slots, waiting) && Serial(log, None)
    requires e.Started? && e.rpc in waiting && e.rpc !in left && left <= waiting
    requires e.rpc < |slots| && slots[e.rpc].retired
    ensures Ordered(log + [e], slots, epoch) && StartedLeft(log + [e], slots, left)
    ensures OneAtATime(log + [e]) && Open(log + [e]) == Some(e.rpc)
  {
    assert (log + [e])[..|log|] == log;
  }

  lemma LogEnded(log: seq<Event>, slots: seq<Slot>, epoch: nat, waiting: set<Rpc>, left: set<Rpc>, run: Run, e: Event)
    requires Ordered(log, slots, epoch) && StartedLeft(log, slots, waiting) && Serial(log, Some(run))
    requires e.Ended? && e.rpc == run.rpc && left <= waiting
    ensures Ordered(log + [e], slots, epoch) && StartedLeft(log + [e], slots, left) && Serial(log + [e], None)
  {
    assert (log + [e])[..|log|] == log;
  }

  lemma LogOther(log: seq<Event>, run: Option<Run>, e: Event)
    requires Serial(log, run) && (e.Entered? || e.CancelledAll?)
    ensures Serial(log + [e], run)
  {
    assert (log + [e])[..|log|] == log;
  }

  lemma StartedShrink(log: seq<Event>, slots: seq<Slot>, waiting: set<Rpc>, left: set<Rpc>)
    requires StartedLeft(log, slots, waiting) && left <= waiting
    ensures StartedLeft(log, slots, left)
  {
  }

  // ----- The running slot -----

  lemma SettleInflightKeeps(s: State, outcome: Outcome)
    requires Core(s)
    ensures var t := SettleInflight(s, outcome); Core(t) && t.q.run.Some? == s.q.run.Some? && (s.q.run.Some? ==> Served(t))
  {
    hide RowsNamed, SteeredNamed, Epochs, Chain, Admissions, Disjoint, Distinct, Accounted, Ordered, StartedLeft,
      OneAtATime, Rpcs, SteeredRpcs;
    var t := SettleInflight(s, outcome);
    assert RunRpcs(t.q.run) == RunRpcs(s.q.run);
  }

  lemma AdvanceKeeps(s: State, env: Env)
    requires Core(s)
    ensures var t := Advance(s, env); Core(t) && (t.q.run.Some? || t.q.queue == [] || Parked(t))
  {
    hide Epochs, Chain, Admissions, Distinct, Accounted, Ordered, StartedLeft, OneAtATime, Rpcs, SteeredRpcs,
      Resolve, Texts, RunContent;
    if s.q.runningId.None? && s.q.queue != [] && !Parked(s) {
      var t := Advance(s, env);
      var n := TurnSize(s.q.queue, s.q.holds, s.combineQueued);
      var front := s.q.queue[0].rpc;
      FollowersFit(s.q.queue[1..], s.q.holds);
      Cut(s.q.queue, n);
      Cut(s.q.queue[..n], 1);
      assert s.q.queue[..n][..1] == [s.q.queue[0]] && s.q.queue[..n][1..] == s.q.queue[1..n];
      RpcsOne(s.q.queue[0]);
      var folded := Rpcs(s.q.queue[1..n]);
      assert s.q.steered == [];
      NoneSteered();
      assert Holding(t) == Holding(s) - folded;
      Release(s.cells, s.a.slots, Holding(s), folded, Stopped(Cancelled));
      Shrink(s.a.slots, Holding(s), Holding(t));
      NamedSubset(s.q.queue, t.q.queue, s.a.slots);
      assert s.q.queue[0] in s.q.queue;
      assert front < |s.a.slots| && s.a.slots[front].retired by { assert front in Holding(s); HeldRetired(s.a.slots, Holding(s), front); }
      LogStarted(s.log, s.a.slots, s.a.epoch, Waiting(s), Waiting(t), t.log[|s.log|]);
    }
  }

  lemma PromoteKeeps(s: State, env: Env)
    requires Core(s)
    ensures Inv(Promote(s, env))
  {
    hide RowsNamed, SteeredNamed, Epochs, Chain, Admissions, Distinct, Disjoint, Accounted, Ordered, StartedLeft,
      Serial, Rpcs, SteeredRpcs, Advance, Slotted;
    AdvanceKeeps(s, env);
  }

  /** Rows leave the queue settled. */
  lemma DropKeeps(s: State, rest: seq<Row>, dropped: set<Rpc>, holds: set<Id>)
    requires Core(s) && NoDupRows(rest) && Rpcs(rest) !! dropped && Rpcs(s.q.queue) == Rpcs(rest) + dropped
    requires forall row :: row in rest ==> row in s.q.queue
    ensures Core(s.(q := s.q.(queue := rest, holds := holds), cells := Resolve(s.cells, dropped, Stopped(Cancelled))))
  {
    hide SteeredNamed, Epochs, Chain, Admissions, Distinct, Accounted, Ordered, StartedLeft, Serial, Rpcs,
      SteeredRpcs, Resolve, Slotted;
    var t := s.(q := s.q.(queue := rest, holds := holds), cells := Resolve(s.cells, dropped, Stopped(Cancelled)));
    assert Holding(t) == Holding(s) - dropped;
    Release(s.cells, s.a.slots, Holding(s), dropped, Stopped(Cancelled));
    Shrink(s.a.slots, Holding(s), Holding(t));
    StartedShrink(s.log, s.a.slots, Waiting(s), Waiting(t));
    assert s.q.queue == [] ==> rest == [] by { if rest != [] { assert rest[0] in s.q.queue; } }
  }

  lemma DiscardKeeps(s: State)
    requires Core(s)
    ensures Core(Discard(s)) && Served(Discard(s))
  {
    hide Core, Resolve;
    assert Rpcs([]) == {};
    DropKeeps(s, [], Rpcs(s.q.queue), {});
  }

  /** The rows change places or wording, not owners. */
  lemma RearrangeKeeps(s: State, rows: seq<Row>, holds: set<Id>)
    requires Core(s) && NoDupRows(rows) && Rpcs(rows) == Rpcs(s.q.queue) && RowsNamed(rows, s.a.slots)
    requires s.q.queue != [] || rows == []
    ensures Core(s.(q := s.q.(queue := rows, holds := holds)))
  {
    hide RowsNamed, SteeredNamed, Epochs, Chain, Admissions, Distinct, Accounted, Ordered, StartedLeft, Serial,
      Rpcs, SteeredRpcs, Slotted, NoDupRows, NoDupSteered;
    var t := s.(q := s.q.(queue := rows, holds := holds));
    assert Holding(t) == Holding(s) && Waiting(t) == Waiting(s);
  }

  // ----- Admission -----

  /** Slot `i` moves on; its id and epoch stay. */
  ghost predicate SlotMoves(before: seq<Slot>, after: seq<Slot>, i: Rpc) {
    && i < |before| == |after|
    && after == before[i := after[i]]
    && after[i].id == before[i].id && after[i].epoch == before[i].epoch
    && (before[i].retired ==> after[i].retired) && (before[i].predecessorDone ==> after[i].predecessorDone)
  }

  lemma NamesSurvive(s: State, after: seq<Slot>, i: Rpc)
    requires SlotMoves(s.a.slots, after, i)
    requires RowsNamed(s.q.queue, s.a.slots) && SteeredNamed(s.q.steered, s.a.slots) && RunNamed(s.q.run, s.a.slots)
    requires Epochs(s.a.slots, s.a.epoch)
    ensures RowsNamed(s.q.queue, after) && SteeredNamed(s.q.steered, after) && RunNamed(s.q.run, after) && Epochs(after, s.a.epoch)
  {
  }

  lemma DistinctSurvives(before: seq<Slot>, after: seq<Slot>, i: Rpc, holding: set<Rpc>)
    requires SlotMoves(before, after, i) && Distinct(before, holding)
    ensures Distinct(after, holding)
  {
    assert forall q: nat :: Occupied(after, holding, q) ==> Occupied(before, holding, q);
  }

  lemma HistorySurvives(log: seq<Event>, before: seq<Slot>, after: seq<Slot>, i: Rpc, epoch: nat, waiting: set<Rpc>)
    requires SlotMoves(before, after, i) && Ordered(log, before, epoch) && StartedLeft(log, before, waiting)
    ensures Ordered(log, after, epoch) && StartedLeft(log, after, waiting)
  {
  }

  /** A change to one slot that keeps the admission side keeps everything. */
  lemma SlotKeeps(s: State, t: State, i: Rpc)
    requires Core(s) && SlotMoves(s.a.slots, t.a.slots, i)
    requires t == s.(a := s.a.(slots := t.a.slots, preparing := t.a.preparing, admissions := t.a.admissions), cells := t.cells)
    requires Chain(t.a.slots) && Admissions(t.a.slots, t.a.preparing, t.a.admissions) && Accounted(t.cells, t.a.slots, Holding(s))
    ensures Core(t)
  {
    hide SlotMoves, RowsNamed, SteeredNamed, RunNamed, Epochs, Chain, Admissions, Disjoint, Distinct, Accounted,
      Ordered, StartedLeft, Serial, Slotted;
    NamesSurvive(s, t.a.slots, i);
    DistinctSurvives(s.a.slots, t.a.slots, i, Holding(s));
    HistorySurvives(s.log, s.a.slots, t.a.slots, i, s.a.epoch, Waiting(s));
  }

  lemma OneLess(preparing: map<Id, Rpc>, id: Id)
    requires id in preparing
    ensures |preparing - {id}| == |preparing| - 1
  {
    assert preparing.Keys == (preparing - {id}).Keys + {id};
    assert |preparing| == |preparing.Keys| && |preparing - {id}| == |(preparing - {id}).Keys|;
  }

  lemma Retired(slots: seq<Slot>, preparing: map<Id, Rpc>, admissions: int, i: Rpc, after: Slot)
    requires Admissions(slots, preparing, admissions) && i < |slots| && !slots[i].retired
    requires after.id == slots[i].id && after.retired
    ensures Admissions(slots[i := after], preparing - {after.id}, admissions - 1)
  {
    OneLess(preparing, after.id);
  }

  lemma Unretired(slots: seq<Slot>, preparing: map<Id, Rpc>, admissions: int, i: Rpc, after: Slot)
    requires Admissions(slots, preparing, admissions) && i < |slots| && slots[i].retired == after.retired && after.id == slots[i].id
    ensures Admissions(slots[i := after], preparing, admissions)
  {
  }

  /** The slot retires settled; its place is gone. */
  lemma AccountedRetired(cells: seq<Option<Outcome>>, slots: seq<Slot>, holding: set<Rpc>, i: Rpc, after: Slot, outcome: Outcome)
    requires Accounted(cells, slots, holding) && Distinct(slots, holding) && i < |slots| && !slots[i].retired && after.retired
    ensures Accounted(Resolve(cells, {i}, outcome), slots[i := after], holding)
  {
  }

  lemma AccountedUnretired(cells: seq<Option<Outcome>>, slots: seq<Slot>, holding: set<Rpc>, i: Rpc, after: Slot)
    requires Accounted(cells, slots, holding) && i < |slots| && slots[i].retired == after.retired
    ensures Accounted(cells, slots[i := after], holding)
  {
  }

  /** `failed` and the published cancellation handle: settle, then give up the place. */
  lemma GiveUpKeeps(s: State, i: Rpc, after: Slot, outcome: Outcome)
    requires Core(s) && i < |s.a.slots| && !s.a.slots[i].retired && Chain(s.a.slots[i := after])
    requires after.retired && after.id == s.a.slots[i].id && after.epoch == s.a.slots[i].epoch
    requires s.a.slots[i].predecessorDone ==> after.predecessorDone
    ensures Core(s.(a := s.a.(slots := s.a.slots[i := after], preparing := s.a.preparing - {after.id}, admissions := s.a.admissions - 1),
                    cells := Resolve(s.cells, {i}, outcome)))
  {
    hide RowsNamed, SteeredNamed, RunNamed, Epochs, Chain, Admissions, Disjoint, Distinct, Accounted, Ordered,
      StartedLeft, Serial, Slotted, Resolve, Holding;
    var t := s.(a := s.a.(slots := s.a.slots[i := after], preparing := s.a.preparing - {after.id}, admissions := s.a.admissions - 1),
                cells := Resolve(s.cells, {i}, outcome));
    Retired(s.a.slots, s.a.preparing, s.a.admissions, i, after);
    AccountedRetired(s.cells, s.a.slots, Holding(s), i, after, outcome);
    SlotKeeps(s, t, i);
  }

  /** The slot moves on without giving up its place. */
  lemma MoveOnKeeps(s: State, i: Rpc, after: Slot)
    requires Core(s) && i < |s.a.slots| && s.a.slots[i].retired == after.retired && Chain(s.a.slots[i := after])
    requires after.id == s.a.slots[i].id && after.epoch == s.a.slots[i].epoch
    requires s.a.slots[i].predecessorDone ==> after.predecessorDone
    ensures Core(s.(a := s.a.(slots := s.a.slots[i := after])))
  {
    hide RowsNamed, SteeredNamed, RunNamed, Epochs, Chain, Admissions, Disjoint, Distinct, Accounted, Ordered,
      StartedLeft, Serial, Slotted, Holding;
    Unretired(s.a.slots, s.a.preparing, s.a.admissions, i, after);
    AccountedUnretired(s.cells, s.a.slots, Holding(s), i, after);
    SlotKeeps(s, s.(a := s.a.(slots := s.a.slots[i := after])), i);
  }

  /** A new submission takes the last slot, waiting for its predecessor. */
  lemma GrowKeeps(s: State, slot: Slot)
    requires RowsNamed(s.q.queue, s.a.slots) && SteeredNamed(s.q.steered, s.a.slots) && RunNamed(s.q.run, s.a.slots)
    requires Epochs(s.a.slots, s.a.epoch)
    requires Chain(s.a.slots) && Ordered(s.log, s.a.slots, s.a.epoch) && StartedLeft(s.log, s.a.slots, Waiting(s))
    requires slot.epoch == s.a.epoch && !slot.predecessorDone && !slot.retired && !slot.released && !slot.io
    ensures var after := s.a.slots + [slot];
            && RowsNamed(s.q.queue, after) && SteeredNamed(s.q.steered, after) && RunNamed(s.q.run, after) && Epochs(after, s.a.epoch)
            && Chain(after) && Ordered(s.log, after, s.a.epoch) && StartedLeft(s.log, after, Waiting(s))
  {
    hide Waiting, EnteredInOrder, Fenced, StartedOnce;
  }

  lemma GrowAdmissions(slots: seq<Slot>, preparing: map<Id, Rpc>, admissions: int, slot: Slot)
    requires Admissions(slots, preparing, admissions) && slot.id !in preparing && !slot.retired
    ensures Admissions(slots + [slot], preparing[slot.id := |slots|], admissions + 1)
  {
    var after := preparing[slot.id := |slots|];
    assert after.Keys == preparing.Keys + {slot.id};
    assert |after| == |after.Keys| && |preparing| == |preparing.Keys|;
  }

  lemma GrowPlaces(cells: seq<Option<Outcome>>, slots: seq<Slot>, holding: set<Rpc>, slot: Slot)
    requires Accounted(cells, slots, holding) && Distinct(slots, holding) && !slot.retired
    requires forall r: nat :: Occupied(slots, holding, r) ==> slots[r].id != slot.id
    ensures Accounted(cells + [None], slots + [slot], holding) && Distinct(slots + [slot], holding)
  {
    assert forall r: nat :: r < |slots| && Occupied(slots + [slot], holding, r) ==> Occupied(slots, holding, r);
  }

  /** The duplicate check covers every occupied place. */
  lemma OccupiedIds(s: State, r: Rpc)
    requires Core(s) && Occupied(s.a.slots, Holding(s), r)
    ensures s.a.slots[r].id in ActiveIds(s)
  {
    hide Disjoint, Distinct, Accounted, Ordered, StartedLeft, Serial, Chain, Epochs;
    if s.a.slots[r].retired {
      if r in Rpcs(s.q.queue) {
        var row :| row in s.q.queue && row.rpc == r;
        assert row.id == s.a.slots[r].id;
      } else if r in SteeredRpcs(s.q.steered) {
        var entry :| entry in s.q.steered && entry.rpc == r;
        assert entry.id == s.a.slots[r].id;
      }
    }
  }

  lemma AcceptsFresh(s: State, id: Id)
    requires Core(s) && Accepts(s, id)
    ensures id !in s.a.preparing && forall r: nat :: Occupied(s.a.slots, Holding(s), r) ==> s.a.slots[r].id != id
  {
    hide Core, Occupied, Holding;
    forall r: nat | Occupied(s.a.slots, Holding(s), r)
      ensures r < |s.a.slots| && s.a.slots[r].id != id
    {
      hide ActiveIds;
      assert r < |s.a.slots| by { OccupiedFits(s.a.slots, Holding(s), r); }
      OccupiedIds(s, r);
    }
  }

  lemma OccupiedFits(slots: seq<Slot>, holding: set<Rpc>, r: Rpc)
    requires Occupied(slots, holding, r)
    ensures r < |slots|
  {
  }

  lemma SubmitKeeps(s: State, id: Id, text: string, sendNow: bool, followUp: FollowUp)
    requires Core(s)
    ensures Core(Submit(s, id, text, sendNow, followUp))
  {
    hide RowsNamed, SteeredNamed, RunNamed, Epochs, Chain, Admissions, Disjoint, Distinct, Accounted, Ordered,
      StartedLeft, Serial, Slotted, Rpcs, SteeredRpcs, Accepts, Occupied;
    if Accepts(s, id) {
      var slot := Slot(id, text, sendNow, followUp, s.a.epoch, false, false, false, false, false);
      AcceptsFresh(s, id);
      GrowKeeps(s, slot);
      GrowAdmissions(s.a.slots, s.a.preparing, s.a.admissions, slot);
      GrowPlaces(s.cells, s.a.slots, Holding(s), slot);
    }
  }

  lemma CoreChain(s: State)
    requires Core(s)
    ensures Chain(s.a.slots) && Liveness(s)
  {
  }

  lemma ChainStep(slots: seq<Slot>, i: Rpc, after: Slot)
    requires Chain(slots) && i < |slots| && (after.predecessorDone ==> slots[i].predecessorDone || i == 0 || slots[i - 1].released)
    requires slots[i].released ==> after.released
    requires after.released <==> after.predecessorDone && after.retired
    requires after.io ==> after.predecessorDone
    requires after.predecessorDone && !after.retired ==> after.io
    ensures Chain(slots[i := after])
  {
  }

  lemma PredecessorDoneKeeps(s: State, i: Rpc)
    requires Core(s) && Enabled(s, APredecessorDone(i))
    ensures Core(PredecessorDone(s, i))
  {
    hide Core, Chain, AssertActive, Resolve;
    var done := s.a.slots[i].(predecessorDone := true);
    var abort := AssertActive(s.(a := s.a.(slots := s.a.slots[i := done])), i);
    CoreChain(s);
    if done.retired {
      ChainStep(s.a.slots, i, done.(released := true));
      MoveOnKeeps(s, i, done.(released := true));
    } else if abort.Some? {
      var after := done.(retired := true, released := true);
      ChainStep(s.a.slots, i, after);
      GiveUpKeeps(s, i, after, AbortOutcome(abort.value));
      assert s.a.slots[i := done][i := after] == s.a.slots[i := after];
    } else {
      ChainStep(s.a.slots, i, done.(io := true));
      MoveOnKeeps(s, i, done.(io := true));
      assert s.a.slots[i := done][i := done.(io := true)] == s.a.slots[i := done.(io := true)];
    }
  }

  /** The preparation is over and the slot gives up. */
  lemma FailSlotKeeps(s: State, i: Rpc, abort: Abort)
    requires Core(s) && i < |s.a.slots| && s.a.slots[i].io
    ensures Core(FailSlot(s.(a := s.a.(slots := s.a.slots[i := s.a.slots[i].(io := false)])), i, abort))
  {
    hide Core, Chain, Resolve;
    CoreChain(s);
    var idle := s.a.slots[i].(io := false);
    assert s.a.slots[i].predecessorDone && (s.a.slots[i].released <==> s.a.slots[i].retired) by { IoChain(s.a.slots, i); }
    if idle.retired {
      ChainStep(s.a.slots, i, idle);
      MoveOnKeeps(s, i, idle);
    } else {
      var after := idle.(retired := true, released := true);
      ChainStep(s.a.slots, i, after);
      GiveUpKeeps(s, i, after, AbortOutcome(abort));
      assert s.a.slots[i := idle][i := after] == s.a.slots[i := after];
    }
  }

  lemma IoChain(slots: seq<Slot>, i: Rpc)
    requires Chain(slots) && i < |slots|
    ensures slots[i].released <==> slots[i].predecessorDone && slots[i].retired
    ensures slots[i].io ==> slots[i].predecessorDone
  {
  }

  lemma TargetKeeps(s: State, i: Rpc)
    requires Core(s) && i < |s.a.slots| && !s.a.slots[i].retired
    ensures Core(Target(s, i))
  {
    hide Core, Chain, Resolve;
    CoreChain(s);
    IoChain(s.a.slots, i);
    var marked := s.a.slots[i].(targeted := true);
    var after := marked.(retired := true, released := marked.predecessorDone);
    ChainStep(s.a.slots, i, after);
    GiveUpKeeps(s, i, after, Stopped(Cancelled));
    assert s.a.slots[i := marked][i := after] == s.a.slots[i := after];
  }

  // ----- Entering the queue -----

  lemma PlacedNames(s: State, i: Rpc, after: Slot)
    requires Distinct(s.a.slots, Holding(s)) && Accounted(s.cells, s.a.slots, Holding(s))
    requires i < |s.a.slots| && !s.a.slots[i].retired && after.retired && after.id == s.a.slots[i].id
    ensures Distinct(s.a.slots[i := after], Holding(s) + {i})
    ensures Accounted(s.cells, s.a.slots[i := after], Holding(s) + {i})
    ensures i !in Holding(s)
  {
    hide Holding;
    assert forall q: nat :: Occupied(s.a.slots[i := after], Holding(s) + {i}, q) ==> Occupied(s.a.slots, Holding(s), q);
  }

  lemma LogEntered(log: seq<Event>, before: seq<Slot>, after: seq<Slot>, i: Rpc, epoch: nat, waiting: set<Rpc>)
    requires Ordered(log, before, epoch) && StartedLeft(log, before, waiting) && Chain(before) && SlotMoves(before, after, i)
    requires before[i].predecessorDone && !before[i].retired && before[i].epoch == epoch && after[i].retired
    ensures Ordered(log + [Entered(i)], after, epoch) && StartedLeft(log + [Entered(i)], after, waiting + {i})
  {
    hide OneAtATime;
    HistorySurvives(log, before, after, i, epoch, waiting);
    forall k | 0 <= k < |log| && log[k].Entered?
      ensures log[k].rpc < i
    {
    }
    forall k | 0 <= k < |log| && log[k].CancelledAll?
      ensures log[k].submitted <= i
    {
    }
  }

  /** Slot `i` becomes the row it prepared: it waits in the queue or joins the steered prompts. */
  lemma EnterKeeps(s: State, t: State, i: Rpc, after: Slot)
    requires Core(s) && s.live && !s.disposed
    requires i < |s.a.slots| && s.a.slots[i].predecessorDone && !s.a.slots[i].retired && s.a.slots[i].epoch == s.a.epoch
    requires after.retired && after.id == s.a.slots[i].id && after.epoch == s.a.epoch && after.predecessorDone
    requires Chain(s.a.slots[i := after])
    requires t == s.(q := s.q.(queue := t.q.queue, steered := t.q.steered, sendNowTrigger := t.q.sendNowTrigger),
                     a := s.a.(slots := s.a.slots[i := after], preparing := s.a.preparing - {after.id}, admissions := s.a.admissions - 1),
                     log := s.log + [Entered(i)])
    requires t.q.steered != [] || t.q.sendNowTrigger ==> s.q.run.Some?
    requires NoDupRows(t.q.queue) && NoDupSteered(t.q.steered) && Rpcs(t.q.queue) !! SteeredRpcs(t.q.steered)
    requires Waiting(t) == Waiting(s) + {i}
    requires RowsNamed(t.q.queue, t.a.slots) && SteeredNamed(t.q.steered, t.a.slots)
    ensures Core(t)
  {
    hide RowsNamed, SteeredNamed, RunNamed, Epochs, Chain, Admissions, Distinct, Accounted, Ordered, StartedLeft,
      Serial, Rpcs, SteeredRpcs, NoDupRows, NoDupSteered;
    PlacedNames(s, i, after);
    NamesSurvive(s, t.a.slots, i);
    Retired(s.a.slots, s.a.preparing, s.a.admissions, i, after);
    LogEntered(s.log, s.a.slots, t.a.slots, i, s.a.epoch, Waiting(s));
    LogOther(s.log, s.q.run, Entered(i));
    assert Holding(t) == Holding(s) + {i};
  }

  /** One more row at either end of a queue it is not part of. */
  lemma PutIn(s: State, row: Row, i: Rpc, after: Slot)
    requires Disjoint(s.q.queue, RunRpcs(s.q.run), s.q.steered) && RowsNamed(s.q.queue, s.a.slots) && SteeredNamed(s.q.steered, s.a.slots)
    requires Distinct(s.a.slots, Holding(s)) && i < |s.a.slots| && !s.a.slots[i].retired && after.id == s.a.slots[i].id
    requires row.rpc == i && row.id == after.id && row.combinedTexts.None?
    ensures NoDupRows(s.q.queue + [row]) && NoDupRows([row] + s.q.queue)
    ensures Rpcs(s.q.queue + [row]) == Rpcs([row] + s.q.queue) == Rpcs(s.q.queue) + {i}
    ensures Rpcs(s.q.queue + [row]) !! SteeredRpcs(s.q.steered)
    ensures RowsNamed(s.q.queue + [row], s.a.slots[i := after]) && RowsNamed([row] + s.q.queue, s.a.slots[i := after])
    ensures RowsNamed(s.q.queue, s.a.slots[i := after]) && SteeredNamed(s.q.steered, s.a.slots[i := after])
  {
    assert i !in Holding(s);
    RpcsJoin(s.q.queue, [row]);
    RpcsJoin([row], s.q.queue);
    RpcsOne(row);
    NoDupJoin(s.q.queue, [row]);
    NoDupJoin([row], s.q.queue);
  }

  lemma PutSteered(s: State, rpc: Rpc, id: Id, after: seq<Slot>)
    requires NoDupSteered(s.q.steered) && rpc !in SteeredRpcs(s.q.steered) && SteeredNamed(s.q.steered, after)
    requires rpc < |after| && after[rpc].id == id
    ensures NoDupSteered(s.q.steered + [Steered(rpc, id)]) && SteeredNamed(s.q.steered + [Steered(rpc, id)], after)
    ensures SteeredRpcs(s.q.steered + [Steered(rpc, id)]) == SteeredRpcs(s.q.steered) + {rpc}
  {
    SteeredJoin(s.q.steered, Steered(rpc, id));
  }

  lemma CorePlaces(s: State)
    requires Core(s)
    ensures Disjoint(s.q.queue, RunRpcs(s.q.run), s.q.steered) && RowsNamed(s.q.queue, s.a.slots) && SteeredNamed(s.q.steered, s.a.slots)
    ensures Distinct(s.a.slots, Holding(s)) && Accounted(s.cells, s.a.slots, Holding(s))
    ensures Slotted(s.q.runningId, s.q.inflight, s.q.run, s.q.steered != [] || s.q.sendNowTrigger)
  {
  }

  /** A prepared slot about to enter: its IO is over, its admission still stands. */
  ghost predicate Ready(s: State, i: Rpc) {
    i < |s.a.slots| && s.a.slots[i].io && s.a.slots[i].predecessorDone && !s.a.slots[i].retired
    && s.a.slots[i].epoch == s.a.epoch && s.live && !s.disposed
  }

  ghost function Through(slot: Slot): Slot {
    slot.(io := false, retired := true, released := true)
  }

  /** The state in which slot `i` has just given up its place to its row. */
  ghost function Leaving(s: State, i: Rpc): State
    requires i < |s.a.slots|
  {
    var after := Through(s.a.slots[i]);
    s.(a := s.a.(slots := s.a.slots[i := after], preparing := s.a.preparing - {after.id}, admissions := s.a.admissions - 1),
       log := s.log + [Entered(i)])
  }

  lemma LeavingFits(s: State, i: Rpc, row: Row)
    requires Core(s) && Ready(s, i) && row.rpc == i && row.id == s.a.slots[i].id && row.combinedTexts.None?
    ensures Chain(s.a.slots[i := Through(s.a.slots[i])])
    ensures var rows, after := s.q.queue, s.a.slots[i := Through(s.a.slots[i])];
            && NoDupRows(rows) && NoDupRows(rows + [row]) && NoDupRows([row] + rows)
            && Rpcs(rows + [row]) == Rpcs([row] + rows) == Rpcs(rows) + {i}
            && NoDupSteered(s.q.steered) && Rpcs(rows + [row]) !! SteeredRpcs(s.q.steered)
            && RowsNamed(rows, after) && RowsNamed(rows + [row], after) && RowsNamed([row] + rows, after)
            && SteeredNamed(s.q.steered, after)
  {
    hide Core, Chain, Rpcs, SteeredRpcs, RowsNamed, SteeredNamed, NoDupRows, NoDupSteered, Distinct, Accounted, Slotted, Holding;
    CoreChain(s);
    IoChain(s.a.slots, i);
    ChainStep(s.a.slots, i, Through(s.a.slots[i]));
    CorePlaces(s);
    PutIn(s, row, i, Through(s.a.slots[i]));
  }

  lemma EntersFront(s: State, i: Rpc, row: Row)
    requires Core(s) && Ready(s, i) && row.rpc == i && row.id == s.a.slots[i].id && row.combinedTexts.None? && s.q.run.Some?
    ensures var u := Leaving(s, i); Core(u.(q := s.q.(queue := [row] + s.q.queue, sendNowTrigger := true)))
  {
    hide Core, Chain, Rpcs, SteeredRpcs, RowsNamed, SteeredNamed, NoDupRows, NoDupSteered;
    LeavingFits(s, i, row);
    var u := Leaving(s, i);
    EnterKeeps(s, u.(q := s.q.(queue := [row] + s.q.queue, sendNowTrigger := true)), i, Through(s.a.slots[i]));
  }

  lemma EntersBack(s: State, i: Rpc, row: Row)
    requires Core(s) && Ready(s, i) && row.rpc == i && row.id == s.a.slots[i].id && row.combinedTexts.None?
    ensures var u := Leaving(s, i); Core(u.(q := s.q.(queue := s.q.queue + [row])))
  {
    hide Core, Chain, Rpcs, SteeredRpcs, RowsNamed, SteeredNamed, NoDupRows, NoDupSteered;
    LeavingFits(s, i, row);
    CoreDependents(s);
    var u := Leaving(s, i);
    EnterKeeps(s, u.(q := s.q.(queue := s.q.queue + [row])), i, Through(s.a.slots[i]));
  }

  lemma CoreDependents(s: State)
    requires Core(s)
    ensures s.q.steered != [] || s.q.sendNowTrigger ==> s.q.run.Some?
    ensures s.q.inflight.Some? ==> s.q.run.Some?
    ensures s.q.runningId.Some? <==> s.q.run.Some?
  {
  }

  lemma EntersSteered(s: State, i: Rpc, row: Row)
    requires Core(s) && Ready(s, i) && row.rpc == i && row.id == s.a.slots[i].id && row.combinedTexts.None? && s.q.run.Some?
    ensures var u := Leaving(s, i); Core(u.(q := s.q.(steered := s.q.steered + [Steered(i, row.id)])))
  {
    hide Core, Chain, Rpcs, SteeredRpcs, RowsNamed, SteeredNamed, NoDupRows, NoDupSteered;
    LeavingFits(s, i, row);
    CorePlaces(s);
    FreshSteered(s, i);
    var u := Leaving(s, i);
    PutSteered(s, i, row.id, u.a.slots);
    assert i in Rpcs(s.q.queue + [row]);
    EnterKeeps(s, u.(q := s.q.(steered := s.q.steered + [Steered(i, row.id)])), i, Through(s.a.slots[i]));
  }

  lemma FreshSteered(s: State, i: Rpc)
    requires Distinct(s.a.slots, Holding(s)) && i < |s.a.slots| && !s.a.slots[i].retired
    ensures i !in SteeredRpcs(s.q.steered) && i !in Rpcs(s.q.queue)
  {
    hide Rpcs, SteeredRpcs;
    assert i !in Holding(s);
  }

  lemma SteerFails(s: State, i: Rpc)
    requires Core(s) && Ready(s, i)
    ensures var u := Leaving(s, i); Core(u.(cells := Resolve(s.cells, {i}, Rejected([SteerFailed]))))
  {
    hide RowsNamed, SteeredNamed, RunNamed, Epochs, Admissions, Disjoint, Distinct, Accounted, Ordered,
      StartedLeft, Serial, Slotted, Resolve, Rpcs, SteeredRpcs;
    var after := Through(s.a.slots[i]);
    ChainStep(s.a.slots, i, after);
    hide Chain;
    GiveUpKeeps(s, i, after, Rejected([SteerFailed]));
    LogEntered(s.log, s.a.slots, s.a.slots[i := after], i, s.a.epoch, Waiting(s));
    StartedShrink(s.log + [Entered(i)], s.a.slots[i := after], Waiting(s) + {i}, Waiting(s));
    LogOther(s.log, s.q.run, Entered(i));
  }

  lemma EnqueueKeeps(s: State, u: State, i: Rpc, content: seq<Block>, env: Env)
    requires Inv(s) && Ready(s, i) && u == Leaving(s, i).(log := s.log)
    ensures Inv(Enqueue(u, i, content, env))
  {
    hide Core, Promote, SettleInflight, Resolve, Served;
    var slot := u.a.slots[i];
    var row := Row(i, slot.id, slot.text, content, 0, None);
    CoreDependents(s);
    if slot.sendNow && s.q.inflight.Some? {
      EntersFront(s, i, row);
      SettleInflightKeeps(Leaving(s, i).(q := s.q.(queue := [row] + s.q.queue, sendNowTrigger := true)), Stopped(Cancelled));
    } else if SteersThis(u, slot) && s.q.inflight.Some? {
      if env.steerOk { EntersSteered(s, i, row); } else { SteerFails(s, i); }
      RunServes(Enqueue(u, i, content, env));
    } else {
      EntersBack(s, i, row);
      PromoteKeeps(Leaving(s, i).(q := s.q.(queue := s.q.queue + [row])), env);
    }
  }

  lemma RunServes(s: State)
    requires s.q.run.Some?
    ensures Served(s)
  {
  }

  lemma PreparedKeeps(s: State, i: Rpc, content: seq<Block>, env: Env)
    requires Inv(s) && Enabled(s, APrepared(i, content))
    ensures Inv(Prepared(s, i, content, env))
  {
    hide Core, Enqueue, FailSlot;
    var t := s.(a := s.a.(slots := s.a.slots[i := s.a.slots[i].(io := false)]));
    CoreChain(s);
    IoChain(s.a.slots, i);
    hide Chain;
    if t.a.slots[i].retired {
      FailSlotKeeps(s, i, CancelledMark);
      FailRetired(t, i);
    } else if AssertActive(t, i).Some? {
      FailSlotKeeps(s, i, AssertActive(t, i).value);
      FailFrame(t, i, AssertActive(t, i).value);
    } else {
      EnqueueKeeps(s, Retire(t, i), i, content, env);
    }
  }

  lemma FailRetired(s: State, i: Rpc)
    requires i < |s.a.slots| && s.a.slots[i].retired
    ensures FailSlot(s, i, CancelledMark) == s
  {
  }

  lemma FailFrame(s: State, i: Rpc, abort: Abort)
    requires i < |s.a.slots|
    ensures var t := FailSlot(s, i, abort); t.q == s.q && t.live == s.live && t.disposed == s.disposed
  {
  }

  // ----- The native turn -----

  lemma CellsKept(s: State, t: State)
    requires Core(s) && t == s.(q := t.q)
    requires t.q == s.q.(inflight := t.q.inflight, run := t.q.run)
    requires RunRpcs(t.q.run) == RunRpcs(s.q.run) && t.q.run.Some? == s.q.run.Some?
    requires s.q.run.Some? ==> t.q.run.value.rpc == s.q.run.value.rpc && t.q.run.value.id == s.q.run.value.id
    requires Slotted(t.q.runningId, t.q.inflight, t.q.run, t.q.steered != [] || t.q.sendNowTrigger)
    ensures Core(t)
  {
    hide RowsNamed, SteeredNamed, Epochs, Chain, Admissions, Disjoint, Distinct, Accounted, Ordered, StartedLeft,
      OneAtATime, Rpcs, SteeredRpcs;
  }

  lemma ClaimedKeeps(s: State, messageId: nat, turn: int)
    requires Inv(s)
    ensures Inv(Claimed(s, messageId, turn))
  {
    hide Core;
    if s.q.inflight.Some? {
      CorePlaces(s);
      CellsKept(s, Claimed(s, messageId, turn));
    }
  }

  lemma DrainDoneKeeps(s: State)
    requires Inv(s)
    ensures Inv(DrainDone(s))
  {
    hide Core;
    CorePlaces(s);
    if s.q.run.Some? && s.q.run.value.phase.Draining? { DrainingKeeps(s); }
  }

  lemma DrainingKeeps(s: State)
    requires Inv(s) && s.q.run.Some? && s.q.run.value.phase.Draining?
    ensures Inv(DrainDone(s))
  {
    CorePlaces(s);
    hide Core, Disjoint, Distinct, Accounted, RowsNamed, SteeredNamed;
    CellsKept(s, DrainDone(s));
  }

  /** What the finished run leaves behind. */
  ghost function Finished(s: State, flushOk: bool): State
    requires s.q.run.Some? && s.q.run.value.phase.Flushing?
  {
    var run := s.q.run.value;
    var outcome := RunOutcome(run.phase.outcome, flushOk);
    s.(q := s.q.(runningId := None, run := None, sendNowTrigger := false, steered := []),
       cells := Resolve(Resolve(s.cells, SteeredRpcs(s.q.steered), Stopped(SteeredReason(run.phase.outcome))), {run.rpc}, outcome),
       log := s.log + [Ended(run.rpc, outcome, s.q.sendNowTrigger)])
  }

  lemma FinishedKeeps(s: State, flushOk: bool)
    requires Core(s) && s.q.run.Some? && s.q.run.value.phase.Flushing?
    ensures Core(Finished(s, flushOk))
  {
    hide RowsNamed, Epochs, Chain, Admissions, Distinct, Accounted, Ordered, StartedLeft, Serial, Resolve, Rpcs,
      SteeredRpcs, NoDupRows;
    var run := s.q.run.value;
    var t := Finished(s, flushOk);
    NoneSteered();
    var steered := SteeredRpcs(s.q.steered);
    var outcome := RunOutcome(run.phase.outcome, flushOk);
    Release(s.cells, s.a.slots, Holding(s), steered, Stopped(SteeredReason(run.phase.outcome)));
    Shrink(s.a.slots, Holding(s), Holding(s) - steered);
    Release(Resolve(s.cells, steered, Stopped(SteeredReason(run.phase.outcome))), s.a.slots, Holding(s) - steered, {run.rpc}, outcome);
    assert Holding(t) == Holding(s) - steered - {run.rpc};
    Shrink(s.a.slots, Holding(s), Holding(t));
    LogEnded(s.log, s.a.slots, s.a.epoch, Waiting(s), Waiting(t), run, t.log[|s.log|]);
  }

  lemma FlushDoneKeeps(s: State, flushOk: bool, env: Env)
    requires Inv(s)
    ensures Inv(FlushDone(s, flushOk, env))
  {
    hide Core, Resolve, SteeredRpcs;
    if s.q.run.Some? && s.q.run.value.phase.Flushing? {
      FinishedKeeps(s, flushOk);
      PromoteKeeps(Finished(s, flushOk), env);
    }
  }

  lemma ScheduledKeeps(s: State, scheduled: bool)
    requires Core(s)
    ensures Core(s.(q := s.q.(scheduled := scheduled)))
  {
    hide RowsNamed, SteeredNamed, RunNamed, Epochs, Chain, Admissions, Disjoint, Distinct, Accounted, Ordered,
      StartedLeft, Serial, Slotted, Rpcs, SteeredRpcs;
  }

  lemma PromotionIdleKeeps(s: State, env: Env)
    requires Inv(s)
    ensures Inv(PromotionIdle(s, env))
  {
    hide Core, Advance;
    var t := s.(q := s.q.(scheduled := false));
    ScheduledKeeps(s, false);
    AdvanceKeeps(t, env);
  }

  // ----- Cancellation -----

  lemma EpochKeeps(s: State)
    requires Core(s)
    ensures Core(s.(a := s.a.(epoch := s.a.epoch + 1), log := s.log + [CancelledAll(|s.a.slots|)]))
  {
    hide RowsNamed, SteeredNamed, RunNamed, Chain, Admissions, Disjoint, Distinct, Accounted, Slotted, Rpcs, SteeredRpcs, Serial;
    LogOther(s.log, s.q.run, CancelledAll(|s.a.slots|));
  }

  lemma CancelAllKeeps(s: State)
    requires Core(s)
    ensures Core(CancelAll(s)) && Served(CancelAll(s))
  {
    hide Core, SettleInflight, Discard;
    var t := s.(a := s.a.(epoch := s.a.epoch + 1), log := s.log + [CancelledAll(|s.a.slots|)]);
    EpochKeeps(s);
    SettleInflightKeeps(t, Stopped(Cancelled));
    DiscardKeeps(SettleInflight(t, Stopped(Cancelled)));
  }

  lemma FlagsKeep(s: State, live: bool, disposed: bool, gone: bool)
    requires Core(s) && (gone ==> !live) && (s.q.queue == [] || (!disposed && (live || gone)))
    ensures Core(s.(live := live, disposed := disposed, gone := gone))
  {
    hide RowsNamed, SteeredNamed, RunNamed, Epochs, Chain, Admissions, Disjoint, Distinct, Accounted, Ordered,
      StartedLeft, Serial, Slotted, Rpcs, SteeredRpcs;
  }

  lemma CancelledEmpty(s: State)
    ensures CancelAll(s).q.queue == []
  {
  }

  lemma DisposeKeeps(s: State)
    requires Inv(s)
    ensures Inv(Dispose(s))
  {
    hide Core, CancelAll;
    CancelAllKeeps(s);
    CancelledEmpty(s);
    var t := CancelAll(s);
    CoreChain(t);
    FlagsKeep(t, t.live, true, t.gone);
  }

  lemma BeginReloadKeeps(s: State)
    requires Inv(s) && s.live
    ensures Inv(CancelAll(s).(live := false))
  {
    hide Core, CancelAll;
    CancelAllKeeps(s);
    CancelledEmpty(s);
    var t := CancelAll(s);
    FlagsKeep(t, false, t.disposed, t.gone);
  }

  lemma LiveKeeps(s: State, live: bool)
    requires Inv(s) && (live ==> !s.gone)
    ensures Inv(s.(live := live, gone := s.gone || !live))
  {
    CoreChain(s);
    hide Core;
    FlagsKeep(s, live, s.disposed, s.gone || !live);
  }

  // ----- Rows leaving and changing -----

  lemma RowLeaves(s: State, i: nat, holds: set<Id>)
    requires Core(s) && i < |s.q.queue|
    ensures Core(s.(q := s.q.(queue := Without(s.q.queue, i), holds := holds),
                    cells := Resolve(s.cells, {s.q.queue[i].rpc}, Stopped(Cancelled))))
  {
    hide Core, RowsNamed, SteeredNamed, Distinct, Accounted, Slotted, Resolve, Rpcs, NoDupSteered, SteeredRpcs;
    CorePlaces(s);
    TakeOut(s.q.queue, i);
    DropKeeps(s, Without(s.q.queue, i), {s.q.queue[i].rpc}, holds);
  }

  lemma PreparingSlot(s: State, id: Id)
    requires Core(s) && id in s.a.preparing
    ensures s.a.preparing[id] < |s.a.slots| && !s.a.slots[s.a.preparing[id]].retired
  {
  }

  lemma CancelPromptKeeps(s: State, id: Id, env: Env)
    requires Inv(s)
    ensures Inv(CancelPrompt(s, id, env))
  {
    hide Core, SettleInflight, Promote, Target, Resolve;
    CoreDependents(s);
    var at := LocateIn(s, Some(id));
    if s.q.inflight.Some? && s.q.inflight.value.id == id {
      SettleInflightKeeps(s, Stopped(Cancelled));
    } else if at.Some? {
      RowLeaves(s, at.value, s.q.holds - {id});
      PromoteKeeps(Settle(s.(q := s.q.(queue := Without(s.q.queue, at.value), holds := s.q.holds - {id})),
                          s.q.queue[at.value].rpc, Stopped(Cancelled)), env);
    } else if id in s.a.preparing {
      PreparingSlot(s, id);
      TargetKeeps(s, s.a.preparing[id]);
      TargetFrame(s, s.a.preparing[id]);
    }
  }

  lemma TargetFrame(s: State, i: Rpc)
    requires i < |s.a.slots|
    ensures var t := Target(s, i); t.q == s.q && t.live == s.live && t.disposed == s.disposed
  {
  }

  lemma HoldsKeep(s: State, holds: set<Id>)
    requires Core(s)
    ensures Core(s.(q := s.q.(holds := holds)))
  {
    hide Core, Slotted, Distinct, Accounted, Rpcs, RowsNamed, SteeredNamed, NoDupRows, NoDupSteered, SteeredRpcs;
    CorePlaces(s);
    RearrangeKeeps(s, s.q.queue, holds);
  }

  /** A row is replaced by a rewording of itself, in place or at the front. */
  lemma RewordKeeps(s: State, i: nat, row: Row, holds: set<Id>)
    requires Core(s) && i < |s.q.queue| && row.rpc == s.q.queue[i].rpc && row.id == s.q.queue[i].id && row.combinedTexts.None?
    ensures Core(s.(q := s.q.(queue := s.q.queue[i := row], holds := holds)))
    ensures Core(s.(q := s.q.(queue := [row] + Without(s.q.queue, i), holds := holds)))
  {
    hide Core, Slotted, Distinct, Accounted, Rpcs, SteeredNamed, NoDupSteered, SteeredRpcs, Resolve;
    CorePlaces(s);
    var rows := s.q.queue;
    TakeOut(rows, i);
    RpcsOne(row);
    RpcsJoin([row], Without(rows, i));
    NoDupJoin([row], Without(rows, i));
    RearrangeKeeps(s, [row] + Without(rows, i), holds);
    Cut(rows[i := row], i);
    Cut(rows, i);
    Cut(rows[i..], 1);
    Cut(rows[i := row][i..], 1);
    assert rows[i := row][..i] == rows[..i] && rows[i := row][i..][1..] == rows[i + 1..] == rows[i..][1..];
    assert rows[i := row][i..][..1] == [row] && rows[i..][..1] == [rows[i]];
    RpcsOne(rows[i]);
    RearrangeKeeps(s, rows[i := row], holds);
  }

  lemma TriggerKeeps(s: State)
    requires Core(s) && s.q.run.Some?
    ensures Core(s.(q := s.q.(sendNowTrigger := true)))
  {
    hide RowsNamed, SteeredNamed, RunNamed, Epochs, Chain, Admissions, Disjoint, Distinct, Accounted, Ordered,
      StartedLeft, Serial, Rpcs, SteeredRpcs;
  }

  lemma RowSteers(s: State, i: nat, holds: set<Id>)
    requires Core(s) && i < |s.q.queue| && s.q.run.Some?
    ensures var row := s.q.queue[i];
            Core(s.(q := s.q.(queue := Without(s.q.queue, i), holds := holds, steered := s.q.steered + [Steered(row.rpc, row.id)])))
  {
    hide Epochs, Chain, Admissions, Distinct, Accounted, Ordered, StartedLeft, Serial, Rpcs, SteeredRpcs, NoDupRows;
    var row := s.q.queue[i];
    assert row in s.q.queue;
    assert row.rpc in Rpcs(s.q.queue) by { TakeOut(s.q.queue, i); }
    TakeOut(s.q.queue, i);
    PutSteered(s, row.rpc, row.id, s.a.slots);
    NamedSubset(s.q.queue, Without(s.q.queue, i), s.a.slots);
    var t := s.(q := s.q.(queue := Without(s.q.queue, i), holds := holds, steered := s.q.steered + [Steered(row.rpc, row.id)]));
    assert Waiting(t) == Waiting(s);
    assert Holding(t) == Holding(s);
  }

  lemma RowSteerFails(s: State, i: nat, holds: set<Id>)
    requires Core(s) && i < |s.q.queue|
    ensures Core(s.(q := s.q.(holds := holds), cells := Resolve(s.cells, {s.q.queue[i].rpc}, Rejected([SteerFailed]))))
  {
    hide RowsNamed, SteeredNamed, RunNamed, Epochs, Chain, Admissions, Disjoint, Distinct, Accounted, Ordered,
      StartedLeft, Serial, Slotted, SteeredRpcs, Resolve;
    var r := s.q.queue[i].rpc;
    assert s.q.queue[i] in s.q.queue;
    assert r in Holding(s);
    var cells := Resolve(s.cells, {r}, Rejected([SteerFailed]));
    AccountedSteerFailure(s.cells, s.a.slots, Holding(s), r);
  }

  lemma AccountedSteerFailure(cells: seq<Option<Outcome>>, slots: seq<Slot>, holding: set<Rpc>, r: Rpc)
    requires Accounted(cells, slots, holding) && Distinct(slots, holding) && r in holding
    ensures Accounted(Resolve(cells, {r}, Rejected([SteerFailed])), slots, holding)
  {
  }

  lemma WithoutPermutes(rows: seq<Row>, i: nat)
    requires i < |rows|
    ensures multiset([rows[i]] + Without(rows, i)) == multiset(rows)
  {
    assert rows == rows[..i] + [rows[i]] + rows[i + 1..];
  }

  /** Reordering permutes the rows. */
  lemma {:induction false} ReorderPermutes(rows: seq<Row>, ids: seq<Id>)
    ensures var next := Named(rows, ids) + Unnamed(rows, ids);
            multiset(next) == multiset(rows) && |next| == |rows|
  {
    if ids != [] {
      LocateFits(rows, ids[0]);
      match Locate(rows, ids[0])
      case None => ReorderPermutes(rows, ids[1..]);
      case Some(i) =>
        var rest := Without(rows, i);
        ReorderPermutes(rest, ids[1..]);
        assert Named(rows, ids) + Unnamed(rows, ids) == [rows[i]] + (Named(rest, ids[1..]) + Unnamed(rest, ids[1..]));
        WithoutPermutes(rows, i);
    }
  }

  /** A permutation of rows without repeats holds the same places. */
  lemma PermutedRows(rows: seq<Row>, next: seq<Row>, slots: seq<Slot>)
    requires multiset(next) == multiset(rows) && NoDupRows(rows) && RowsNamed(rows, slots)
    ensures NoDupRows(next) && Rpcs(next) == Rpcs(rows) && RowsNamed(next, slots)
  {
    assert forall row :: row in rows <==> row in multiset(rows);
    assert forall row :: row in next <==> row in multiset(next);
    forall i, j | 0 <= i < j < |next|
      ensures next[i].rpc != next[j].rpc
    {
      if next[i].rpc == next[j].rpc { SameRpc(rows, next, i, j); }
    }
  }

  lemma SameRpc(rows: seq<Row>, next: seq<Row>, i: nat, j: nat)
    requires multiset(next) == multiset(rows) && NoDupRows(rows) && i < j < |next|
    ensures next[i].rpc != next[j].rpc
  {
    var x, y := next[i], next[j];
    assert x in multiset(next) && y in multiset(next);
    assert x in rows && y in rows;
    if x.rpc == y.rpc {
      assert x == y;
      assert next == next[..i] + [x] + next[i + 1..j] + [x] + next[j + 1..];
      assert multiset(next)[x] >= 2;
      Once(rows, x);
    }
  }

  lemma {:induction false} Once(rows: seq<Row>, x: Row)
    requires NoDupRows(rows)
    ensures multiset(rows)[x] <= 1
  {
    if rows != [] {
      assert rows == [rows[0]] + rows[1..];
      Once(rows[1..], x);
      if rows[0] == x { assert x !in rows[1..]; }
    }
  }

  // ----- Row controls -----

  lemma UnholdKeeps(s: State, id: Option<Id>, env: Env)
    requires Core(s)
    ensures Inv(Promote(Unhold(s, id), env))
  {
    hide Core, Served, Promote;
    if id.Some? { HoldsKeep(s, s.q.holds - {id.value}); }
    PromoteKeeps(Unhold(s, id), env);
  }

  lemma Rewritten(row: Row, newText: Option<string>)
    ensures var after := Rewrite(row, newText);
            after.rpc == row.rpc && after.id == row.id && (row.combinedTexts.None? ==> after.combinedTexts.None?)
  {
  }

  /** A queued row never carries combined texts: folding and starting are one step. */
  lemma {:induction false} QueuedUncombined(s: State, i: nat)
    requires Core(s) && i < |s.q.queue|
    ensures s.q.queue[i].combinedTexts.None?
  {
    assert s.q.queue[i] in s.q.queue;
  }

  lemma InterjectKeeps(s: State, id: Option<Id>, expected: int, newText: Option<string>, env: Env)
    requires Inv(s)
    ensures Inv(Interject(s, id, expected, newText, env))
  {
    hide Core, Served, Promote, Rewrite, SettleInflight;
    CoreDependents(s);
    var at := LocateIn(s, id);
    if at.None? || s.q.queue[at.value].version != expected {
      UnholdKeeps(s, id, env);
    } else {
      QueuedUncombined(s, at.value);
      Rewritten(s.q.queue[at.value], newText);
      var row := Rewrite(s.q.queue[at.value], newText);
      RewordKeeps(s, at.value, row, s.q.holds - {row.id});
      var t := s.(q := s.q.(queue := [row] + Without(s.q.queue, at.value), holds := s.q.holds - {row.id}));
      if t.q.inflight.Some? {
        TriggerKeeps(t);
        SettleInflightKeeps(t.(q := t.q.(sendNowTrigger := true)), Stopped(Cancelled));
      } else {
        PromoteKeeps(t, env);
      }
    }
  }

  lemma SteerRowKeeps(s: State, id: Option<Id>, expected: int, env: Env)
    requires Inv(s)
    ensures Inv(SteerRow(s, id, expected, env))
  {
    hide Core, Promote, Resolve;
    CoreDependents(s);
    var at := LocateIn(s, id);
    if at.None? || s.q.queue[at.value].version != expected {
      UnholdKeeps(s, id, env);
    } else if s.q.inflight.None? {
      PromoteKeeps(s, env);
    } else if env.steerOk {
      RowSteers(s, at.value, s.q.holds - {s.q.queue[at.value].id});
    } else {
      RowSteerFails(s, at.value, s.q.holds - {s.q.queue[at.value].id});
    }
  }

  lemma RemoveKeeps(s: State, id: Option<Id>, expected: int, env: Env)
    requires Inv(s)
    ensures Inv(Remove(s, id, expected, env))
  {
    hide Core, Served, Promote, Resolve, SettleInflight;
    var at := LocateIn(s, id);
    if at.Some? && s.q.queue[at.value].version != expected {
      UnholdKeeps(s, id, env);
    } else if at.Some? {
      var row := s.q.queue[at.value];
      RowLeaves(s, at.value, s.q.holds - {row.id});
      var t := s.(q := s.q.(queue := Without(s.q.queue, at.value), holds := s.q.holds - {row.id}));
      PromoteKeeps(Settle(t, row.rpc, Stopped(Cancelled)), env);
    } else if s.q.runningId == id {
      var t := SettleInflight(s, Stopped(Cancelled));
      SettleInflightKeeps(s, Stopped(Cancelled));
      var gone := if id.Some? then id.value else "undefined";
      HoldsKeep(t, t.q.holds - {gone});
      PromoteKeeps(t.(q := t.q.(holds := t.q.holds - {gone})), env);
    } else {
      PromoteKeeps(s, env);
    }
  }

  lemma EditKeeps(s: State, id: Option<Id>, expected: Option<int>, newText: Option<string>, env: Env)
    requires Inv(s)
    ensures Inv(Edit(s, id, expected, newText, env))
  {
    hide Core, Served, Promote, Rewrite;
    var at := LocateIn(s, id);
    if at.Some? {
      var row := s.q.queue[at.value];
      var t := s.(q := s.q.(holds := s.q.holds - {row.id}));
      if expected.Some? && row.version != expected.value {
        HoldsKeep(s, t.q.holds);
        PromoteKeeps(t, env);
      } else {
        QueuedUncombined(s, at.value);
        Rewritten(row, newText);
        RewordKeeps(s, at.value, Rewrite(row, newText), t.q.holds);
        PromoteKeeps(t.(q := t.q.(queue := s.q.queue[at.value := Rewrite(row, newText)])), env);
      }
    }
  }

  lemma ReorderKeeps(s: State, ids: seq<Id>, env: Env)
    requires Inv(s)
    ensures Inv(Reorder(s, ids, env))
  {
    hide Core, Served, Promote, Named, Unnamed, Slotted, Distinct, Accounted, Rpcs, SteeredNamed, NoDupSteered,
      SteeredRpcs, NoDupRows, RowsNamed;
    var next := Named(s.q.queue, ids) + Unnamed(s.q.queue, ids);
    CorePlaces(s);
    ReorderPermutes(s.q.queue, ids);
    PermutedRows(s.q.queue, next, s.a.slots);
    RearrangeKeeps(s, next, s.q.holds);
    if next != s.q.queue { PromoteKeeps(s.(q := s.q.(queue := next)), env); }
  }

  lemma HoldKeeps(s: State, id: Option<Id>)
    requires Inv(s)
    ensures Inv(HoldEdit(s, id))
  {
    hide Core;
    if id.Some? { HoldsKeep(s, s.q.holds + {id.value}); }
  }

  lemma ReleaseKeeps(s: State, id: Option<Id>, env: Env)
    requires Inv(s)
    ensures Inv(ReleaseEdit(s, id, env))
  {
    hide Core, Served, Promote;
    if id.Some? && id.value in s.q.holds {
      HoldsKeep(s, s.q.holds - {id.value});
      PromoteKeeps(s.(q := s.q.(holds := s.q.holds - {id.value})), env);
    }
  }

  lemma ControlKeeps(s: State, control: Control, env: Env)
    requires Inv(s)
    ensures Inv(ApplyControl(s, control, env))
  {
    hide Inv, Interject, SteerRow, Remove, Edit, Reorder, ReleaseEdit, HoldEdit, Discard;
    match control
    case DoInterject(id, expected, newText) => InterjectKeeps(s, id, expected, newText, env);
    case DoSteer(id, expected) => SteerRowKeeps(s, id, expected, env);
    case DoRemove(id, expected) => RemoveKeeps(s, id, expected, env);
    case DoEdit(id, expected, newText) => EditKeeps(s, id, expected, newText, env);
    case DoHold(id) => HoldKeeps(s, id);
    case DoRelease(id) => ReleaseKeeps(s, id, env);
    case DoReorder(ids) => ReorderKeeps(s, ids, env);
    case DoClear => ClearKeeps(s);
  }

  lemma ClearKeeps(s: State)
    requires Inv(s)
    ensures Inv(Discard(s))
  {
    hide Core, Served, Discard;
    DiscardKeeps(s);
  }

  // ----- Every step, every run -----

  lemma PredecessorFrame(s: State, i: Rpc)
    requires i < |s.a.slots|
    ensures var t := PredecessorDone(s, i); t.q == s.q && t.live == s.live && t.disposed == s.disposed
  {
  }

  lemma SlotStepKeeps(s: State, a: Action, env: Env)
    requires Inv(s) && Enabled(s, a) && (a.APredecessorDone? || a.APreparationFailed? || a.ASubmit?)
    ensures Inv(Step(s, a, env))
  {
    hide Core, PredecessorDone, FailSlot, Accepts;
    match a
    case ASubmit(id, text, sendNow, followUp) => SubmitKeeps(s, id, text, sendNow, followUp);
    case APredecessorDone(i) =>
      PredecessorDoneKeeps(s, i);
      PredecessorFrame(s, i);
    case APreparationFailed(i, abort) =>
      FailSlotKeeps(s, i, abort);
      FailFrame(s.(a := s.a.(slots := s.a.slots[i := s.a.slots[i].(io := false)])), i, abort);
  }

  /** Every step any party takes keeps the invariant. */
  lemma {:induction false} StepKeeps(s: State, a: Action, env: Env)
    requires Inv(s) && Enabled(s, a)
    ensures Inv(Step(s, a, env))
  {
    hide Inv, Submit, PredecessorDone, Prepared, PreparationAborted, ApplyControl, Claimed, TurnEnded, DrainDone,
      FlushDone, PromotionIdle, CancelAll, CancelPrompt, Dispose, SettleInflight;
    match a
    case ASubmit(_, _, _, _) => SlotStepKeeps(s, a, env);
    case APredecessorDone(_) => SlotStepKeeps(s, a, env);
    case APrepared(i, content) => PreparedKeeps(s, i, content, env);
    case APreparationFailed(_, _) => SlotStepKeeps(s, a, env);
    case AControl(control) => ControlKeeps(s, control, env);
    case AClaimed(messageId, turn) => ClaimedKeeps(s, messageId, turn);
    case ATurnEnded(turn, outcome) => TurnEndedKeeps(s, turn, outcome);
    case ARunIdle => SettledKeeps(s, Stopped(Cancelled));
    case ADrainDone => DrainDoneKeeps(s);
    case AFlushDone(flushOk) => FlushDoneKeeps(s, flushOk, env);
    case APromotionIdle => PromotionIdleKeeps(s, env);
    case ACancelAll => CancelledKeeps(s);
    case ACancelPrompt(id) => CancelPromptKeeps(s, id, env);
    case ADispose => DisposeKeeps(s);
    case ABeginReload => BeginReloadKeeps(s);
    case AReloadFailed => LiveAgain(s);
    case ALose => LiveKeeps(s, false);
  }

  lemma LiveAgain(s: State)
    requires Inv(s) && !s.gone
    ensures Inv(s.(live := true))
  {
    hide Inv;
    LiveKeeps(s, true);
  }

  lemma CancelledKeeps(s: State)
    requires Inv(s)
    ensures Inv(CancelAll(s))
  {
    hide Core, Served, CancelAll;
    CancelAllKeeps(s);
  }

  lemma SettledKeeps(s: State, outcome: Outcome)
    requires Inv(s)
    ensures Inv(SettleInflight(s, outcome))
  {
    hide Core, SettleInflight;
    SettleInflightKeeps(s, outcome);
    if s.q.run.None? { assert SettleInflight(s, outcome) == s by { NothingToSettle(s, outcome); } }
  }

  lemma NothingToSettle(s: State, outcome: Outcome)
    requires s.q.run.None?
    ensures SettleInflight(s, outcome) == s
  {
  }

  lemma TurnEndedKeeps(s: State, turn: int, outcome: Outcome)
    requires Inv(s)
    ensures Inv(TurnEnded(s, turn, outcome))
  {
    hide Inv, SettleInflight;
    SettledKeeps(s, outcome);
  }

  lemma InitialInv(combineQueued: bool, followUpSteer: bool)
    ensures Inv(Initial(combineQueued, followUpSteer))
  {
    hide EnteredInOrder, Fenced, StartedOnce, NoDupRows, NoDupSteered, Admissions, Rpcs, SteeredRpcs;
    NothingYet();
  }

  lemma NothingYet()
    ensures EnteredInOrder([]) && Fenced([]) && StartedOnce([]) && NoDupRows([]) && NoDupSteered([])
    ensures Rpcs([]) == {} && SteeredRpcs([]) == {} && Admissions([], map[], 0)
  {
  }

  /** A run: one action and the native agent's answers at a time. */
  ghost predicate RunFrom(s: State, actions: seq<(Action, Env)>)
    decreases |actions|
  {
    actions == [] || (Enabled(s, actions[0].0) && RunFrom(Step(s, actions[0].0, actions[0].1), actions[1..]))
  }

  ghost function After(s: State, actions: seq<(Action, Env)>): State
    requires RunFrom(s, actions)
    decreases |actions|
  {
    if actions == [] then s else After(Step(s, actions[0].0, actions[0].1), actions[1..])
  }

  /** The invariant holds after every run from a fresh queue, whatever the interleaving. */
  lemma {:induction false} RunKeeps(s: State, actions: seq<(Action, Env)>)
    requires Inv(s) && RunFrom(s, actions)
    ensures Inv(After(s, actions))
    decreases |actions|
  {
    hide Inv, Step;
    if actions != [] {
      StepKeeps(s, actions[0].0, actions[0].1);
      RunKeeps(Step(s, actions[0].0, actions[0].1), actions[1..]);
    }
  }

  // ----- What the invariant says -----

  ghost predicate InQueue(s: State, r: Rpc) { exists row :: row in s.q.queue && row.rpc == r }

  ghost predicate IsRunning(s: State, r: Rpc) { s.q.run.Some? && s.q.run.value.rpc == r }

  ghost predicate IsSteered(s: State, r: Rpc) { exists entry :: entry in s.q.steered && entry.rpc == r }

  ghost function Places(s: State, r: Rpc): nat {
    (if Preparing(s.a.slots, r) then 1 else 0) + (if InQueue(s, r) then 1 else 0)
    + (if IsRunning(s, r) then 1 else 0) + (if IsSteered(s, r) then 1 else 0)
  }

  /** No orphaned prompt: after every run, each unsettled RPC sits in exactly one
      place, and each settled one in none, unless a failed steering kept its row. */
  lemma {:induction false} NoOrphan(combineQueued: bool, followUpSteer: bool, actions: seq<(Action, Env)>, r: Rpc)
    requires RunFrom(Initial(combineQueued, followUpSteer), actions)
    ensures var s := After(Initial(combineQueued, followUpSteer), actions);
            && |s.cells| == |s.a.slots|
            && (r < |s.cells| && s.cells[r].None? ==> Places(s, r) == 1)
            && (r < |s.cells| && s.cells[r].Some? && s.cells[r] != Some(Rejected([SteerFailed])) ==> Places(s, r) == 0)
            && Places(s, r) <= 1
  {
    hide Step, Enabled;
    InitialInv(combineQueued, followUpSteer);
    RunKeeps(Initial(combineQueued, followUpSteer), actions);
    hide RunFrom, Initial;
    PlacesOf(After(Initial(combineQueued, followUpSteer), actions), r);
  }

  lemma PlacesOf(s: State, r: Rpc)
    requires Core(s)
    ensures |s.cells| == |s.a.slots| && Places(s, r) <= 1
    ensures r < |s.cells| && s.cells[r].None? ==> Places(s, r) == 1
    ensures r < |s.cells| && s.cells[r].Some? && s.cells[r] != Some(Rejected([SteerFailed])) ==> Places(s, r) == 0
  {
    hide Epochs, Chain, Admissions, Ordered, StartedLeft, Serial, RowsNamed, SteeredNamed, RunNamed, Slotted, Liveness;
    assert InQueue(s, r) <==> r in Rpcs(s.q.queue);
    assert IsSteered(s, r) <==> r in SteeredRpcs(s.q.steered);
    hide Rpcs, SteeredRpcs;
  }

  /** One running slot: the in-flight prompt is the running one, its companions exist only
      beside it, and runs never overlap. */
  lemma {:induction false} OneRunningSlot(combineQueued: bool, followUpSteer: bool, actions: seq<(Action, Env)>)
    requires RunFrom(Initial(combineQueued, followUpSteer), actions)
    ensures var s := After(Initial(combineQueued, followUpSteer), actions);
            && (s.q.inflight.Some? ==> s.q.runningId == Some(s.q.inflight.value.id))
            && (s.q.steered != [] || s.q.sendNowTrigger ==> s.q.runningId.Some?)
            && OneAtATime(s.log) && StartedOnce(s.log)
            && s.a.admissions == |s.a.preparing|
  {
    hide Step, Enabled;
    InitialInv(combineQueued, followUpSteer);
    RunKeeps(Initial(combineQueued, followUpSteer), actions);
    hide RunFrom, After, Initial;
  }

  /** No stranded queue: rows behind a front that is not held are served. */
  lemma {:induction false} NotStranded(combineQueued: bool, followUpSteer: bool, actions: seq<(Action, Env)>)
    requires RunFrom(Initial(combineQueued, followUpSteer), actions)
    ensures var s := After(Initial(combineQueued, followUpSteer), actions);
            && (s.q.queue != [] && !Parked(s) && s.live ==> s.q.runningId.Some? || s.q.scheduled)
            && (s.disposed ==> s.q.queue == [])
  {
    hide Step, Enabled;
    InitialInv(combineQueued, followUpSteer);
    RunKeeps(Initial(combineQueued, followUpSteer), actions);
    hide RunFrom, After, Initial;
  }

  /** Prompts enter in submit order, none submitted before a whole-session cancellation
      enters after it, and at most one unretired slot prepares at a time. */
  lemma {:induction false} AdmissionOrder(combineQueued: bool, followUpSteer: bool, actions: seq<(Action, Env)>, i: Rpc, j: Rpc)
    requires RunFrom(Initial(combineQueued, followUpSteer), actions)
    ensures var s := After(Initial(combineQueued, followUpSteer), actions);
            && EnteredInOrder(s.log) && Fenced(s.log)
            && (i < j < |s.a.slots| && s.a.slots[i].io && !s.a.slots[i].retired ==> !s.a.slots[j].predecessorDone)
  {
    hide Step, Enabled;
    InitialInv(combineQueued, followUpSteer);
    RunKeeps(Initial(combineQueued, followUpSteer), actions);
    hide RunFrom, After, Initial;
  }

  /** Active ids are pairwise distinct. */
  lemma {:induction false} DistinctIds(combineQueued: bool, followUpSteer: bool, actions: seq<(Action, Env)>, q: Rpc, r: Rpc)
    requires RunFrom(Initial(combineQueued, followUpSteer), actions)
    requires var s := After(Initial(combineQueued, followUpSteer), actions);
             q != r && q < |s.a.slots| && r < |s.a.slots| && Places(s, q) > 0 && Places(s, r) > 0
    ensures var s := After(Initial(combineQueued, followUpSteer), actions); s.a.slots[q].id != s.a.slots[r].id
  {
    hide Step, Enabled;
    InitialInv(combineQueued, followUpSteer);
    RunKeeps(Initial(combineQueued, followUpSteer), actions);
    hide RunFrom, Initial;
    var s := After(Initial(combineQueued, followUpSteer), actions);
    hide After;
    PlacedOccupied(s, q);
    PlacedOccupied(s, r);
    CorePlaces(s);
  }

  lemma PlacedOccupied(s: State, r: Rpc)
    requires r < |s.a.slots| && Places(s, r) > 0
    ensures Occupied(s.a.slots, Holding(s), r)
  {
  }

  // ----- The promoted turn -----

  /** With combining on, the promoted turn is the maximal run of unheld, image-free
      rows behind an image-free front; otherwise it is the front alone. */
  lemma {:induction false} TurnIsMaximal(rows: seq<Row>, holds: set<Id>, combineQueued: bool)
    requires rows != []
    ensures var n := TurnSize(rows, holds, combineQueued);
            && 1 <= n <= |rows|
            && (!combineQueued || HasImage(rows[0]) ==> n == 1)
            && (combineQueued && !HasImage(rows[0]) ==>
                  && (forall i :: 1 <= i < n ==> rows[i].id !in holds && !HasImage(rows[i]))
                  && (n < |rows| ==> rows[n].id in holds || HasImage(rows[n])))
  {
    FollowersMaximal(rows[1..], holds);
  }

  lemma {:induction false} FollowersMaximal(rows: seq<Row>, holds: set<Id>)
    ensures var n := Followers(rows, holds);
            && n <= |rows|
            && (forall i :: 0 <= i < n ==> rows[i].id !in holds && !HasImage(rows[i]))
            && (n < |rows| ==> rows[n].id in holds || HasImage(rows[n]))
  {
    hide HasImage;
    if rows != [] && rows[0].id !in holds && !HasImage(rows[0]) {
      FollowersMaximal(rows[1..], holds);
      var n := Followers(rows[1..], holds);
      forall i | 0 <= i < 1 + n
        ensures rows[i].id !in holds && !HasImage(rows[i])
      {
        if i > 0 { assert rows[i] == rows[1..][i - 1]; }
      }
    }
  }

  /** A promotion that starts a turn takes exactly those rows from the front, settles the
      folded ones and leaves the rest of the queue as it was. */
  lemma {:induction false} AdvanceTakesTurn(s: State, env: Env)
    requires Core(s) && s.q.runningId.None? && s.q.queue != [] && !Parked(s)
    ensures var t := Advance(s, env);
            var n := TurnSize(s.q.queue, s.q.holds, s.combineQueued);
            && 1 <= n <= |s.q.queue| && t.q.queue == s.q.queue[n..] && t.q.holds == s.q.holds
            && t.q.runningId == Some(s.q.queue[0].id)
            && t.log == s.log + [Started(s.q.queue[0].rpc,
                 if n == 1 then s.q.queue[0].content else [Text(JsText.Join(Texts(s.q.queue[..n]), "\n\n"))],
                 if n == 1 then None else Some(Texts(s.q.queue[..n])))]
            && forall r :: 0 <= r < |s.cells| && s.cells[r].None? ==>
                 && (t.cells[r] == Some(Stopped(Cancelled)) <==> r in Rpcs(s.q.queue[1..n]))
                 && (t.cells[r].None? <==> r !in Rpcs(s.q.queue[1..n]))
  {
    TurnIsMaximal(s.q.queue, s.q.holds, s.combineQueued);
    QueuedUncombined(s, 0);
    CoreDependents(s);
    hide Core, TurnSize, Rpcs, Texts;
  }
}
