/**
 * The owner of accepted sessions: publication, withdrawal, reload and shutdown,
 * as the atomic steps between the waits of each.
 */
module SessionRegistryModel {
  /** A session record; `key` is its object identity. */
  datatype Record = Record(key: nat, client: nat, session: string)

  /** `Draining` waits for the queue and the work; a refused publication has only its queue. */
  datatype Stage = Hooks | Draining | Flushing | Disposing | Finished

  /** `waits` says that the teardown found its record borrowed by a reload, and drains only after the release. */
  datatype Teardown = Teardown(refused: bool, flushed: bool, waits: bool, stage: Stage, failures: nat)

  /** A failed cancellation hook ends the reload only once its work has settled. */
  datatype Reload = Cancelling | Settling(hooksOk: bool) | Idling | Preflush | Capturing | Retiring

  /** What happened to a record, oldest first. */
  datatype Mark = Published | Refused | Withdrawn | Drained | Flushed | Disposed

  /**
   * `borrowed` holds the records of `reloadDrains`, `sweep` the records shutdown has still to close; `trace` and
   * `preflushed` are history: each record's marks, and whether a reload flushed it.
   */
  datatype State = State(closed: bool, records: map<string, Record>, retiring: map<string, Record>,
                         releases: map<Record, Teardown>, reloads: map<Record, Reload>, borrowed: set<Record>, operations: set<nat>,
                         sweep: set<Record>, trace: map<Record, seq<Mark>>, preflushed: set<Record>)

  const Fresh := State(false, map[], map[], map[], map[], {}, {}, {}, map[], {})

  // ----- Queries -----

  predicate Listed(s: State, r: Record) {
    r.session in s.records && s.records[r.session] == r
  }

  predicate Leaving(s: State, r: Record) {
    r.session in s.retiring && s.retiring[r.session] == r
  }

  predicate AcceptsInput(s: State, r: Record) {
    !s.closed && Listed(s, r) && r !in s.reloads
  }

  // ----- Steps -----

  function Marked(s: State, r: Record, m: Mark): State
    requires r in s.trace
  {
    s.(trace := s.trace[r := s.trace[r] + [m]])
  }

  /** `publish`; `live` is whether the record's client is still connected. */
  function Publish(s: State, r: Record, live: bool): State
    requires Listed(s, r) || r !in s.trace
  {
    if Listed(s, r) then s
    else if s.closed || !live || r.session in s.records || r.session in s.retiring then
      s.(releases := s.releases[r := Teardown(true, false, false, Draining, 0)], trace := s.trace[r := [Refused]])
    else s.(records := s.records[r.session := r], trace := s.trace[r := [Published]])
  }

  /** The synchronous part of `retire`, before any hook runs. */
  function Retire(s: State, r: Record, flushed: bool): State
    requires Listed(s, r) ==> r in s.trace
  {
    if r in s.releases || !Listed(s, r) then s
    else
      Marked(s.(records := s.records - {r.session}, retiring := s.retiring[r.session := r],
                releases := s.releases[r := Teardown(false, flushed, r in s.borrowed, Hooks, 0)]), r, Withdrawn)
  }

  function NextStage(t: Teardown): Stage {
    match t.stage
    case Hooks => Draining
    case Draining => if t.refused || t.flushed then Disposing else Flushing
    case Flushing => Disposing
    case _ => Finished
  }

  function Earns(stage: Stage): seq<Mark> {
    match stage
    case Draining => [Drained]
    case Flushing => [Flushed]
    case Disposing => [Disposed]
    case _ => []
  }

  /** One awaited stage of a teardown ends; failures are kept and never skip a later stage. */
  function TeardownStep(s: State, r: Record, failures: nat): State
    requires r in s.releases && r in s.trace && !s.releases[r].stage.Finished?
  {
    var t := s.releases[r];
    s.(releases := s.releases[r := t.(stage := NextStage(t), failures := t.failures + failures)],
       trace := s.trace[r := s.trace[r] + Earns(t.stage)],
       retiring := if t.stage.Disposing? && Leaving(s, r) then s.retiring - {r.session} else s.retiring)
  }

  /** `reload` up to its cancellation hooks; refused when closed, unknown or already reloading. */
  function BeginReload(s: State, r: Record): State {
    if s.closed || !Listed(s, r) || r in s.reloads then s
    else s.(reloads := s.reloads[r := Cancelling], borrowed := s.borrowed + {r})
  }

  /** `finishPreflight` and the end of `reload`: the borrow is released and input admission returns. */
  function EndReload(s: State, r: Record): State {
    s.(reloads := s.reloads - {r}, borrowed := s.borrowed - {r})
  }

  /** One awaited phase of a reload ends, well or badly. */
  function ReloadStep(s: State, r: Record, ok: bool): State
    requires r in s.reloads && !s.reloads[r].Retiring? && (Listed(s, r) ==> r in s.trace)
  {
    match s.reloads[r]
    case Cancelling => s.(reloads := s.reloads[r := Settling(ok)])
    case Settling(hooksOk) => if hooksOk && ok && Listed(s, r) then s.(reloads := s.reloads[r := Idling]) else EndReload(s, r)
    case Idling => if ok && Listed(s, r) then s.(reloads := s.reloads[r := Preflush]) else EndReload(s, r)
    case Preflush =>
      if ok && Listed(s, r) then s.(reloads := s.reloads[r := Capturing], preflushed := s.preflushed + {r}) else EndReload(s, r)
    case Capturing =>
      if ok && Listed(s, r) then Retire(s.(reloads := s.reloads[r := Retiring],
                                           borrowed := s.borrowed - {r}), r, true) else EndReload(s, r)
  }

  /** `dispose`, before its loop closes the records it found. */
  function Shut(s: State): State {
    if s.closed then s else s.(closed := true, sweep := s.records.Values)
  }

  datatype Action =
    | DoPublish(record: Record, live: bool)
    | DoClose(record: Record)
    | DoShut
    | DoReload(record: Record)
    | DoOperation(operation: nat)
    | TeardownEnds(record: Record, failures: nat)
    | ReloadEnds(record: Record, ok: bool)
    | ReloadRetired(record: Record)
    | OperationEnds(operation: nat)

  predicate Enabled(s: State, a: Action) {
    match a
    case DoPublish(r, _) => Listed(s, r) || r !in s.trace
    case DoClose(r) => r in s.trace
    case DoReload(r) => r in s.trace
    case TeardownEnds(r, _) =>
      && r in s.releases && r in s.trace && !s.releases[r].stage.Finished?
      && (s.releases[r].stage.Draining? && s.releases[r].waits ==> r !in s.borrowed)
    case ReloadEnds(r, _) => r in s.reloads && !s.reloads[r].Retiring? && r in s.trace
    case ReloadRetired(r) => r in s.reloads && s.reloads[r].Retiring? && r in s.releases && s.releases[r].stage.Finished?
    case OperationEnds(k) => k in s.operations
    case _ => true
  }

  function Step(s: State, a: Action): State
    requires Enabled(s, a)
  {
    match a
    case DoPublish(r, live) => Publish(s, r, live)
    case DoClose(r) => Retire(s, r, false).(sweep := s.sweep - {r})
    case DoShut => Shut(s)
    case DoReload(r) => BeginReload(s, r)
    case DoOperation(k) => if s.closed then s else s.(operations := s.operations + {k})
    case TeardownEnds(r, failures) => TeardownStep(s, r, failures)
    case ReloadEnds(r, ok) => ReloadStep(s, r, ok)
    case ReloadRetired(r) => EndReload(s, r)
    case OperationEnds(k) => s.(operations := s.operations - {k})
  }
}

module SessionRegistrySafety {
  import opened Options
  import opened SessionRegistryModel

  // ----- What every reachable state satisfies -----

  /** The marks a teardown has earned by its stage. */
  function Earned(t: Teardown): seq<Mark> {
    (if t.refused then [Refused] else [Published, Withdrawn])
    + (if t.stage.Hooks? || t.stage.Draining? then [] else [Drained])
    + (if (t.stage.Disposing? || t.stage.Finished?) && !t.flushed && !t.refused then [Flushed] else [])
    + (if t.stage.Finished? then [Disposed] else [])
  }

  function At<V>(m: map<Record, V>, r: Record): Option<V> {
    if r in m then Some(m[r]) else None
  }

  /** The relation of one record's own parts. */
  ghost predicate Fits(listed: bool, leaving: bool, release: Option<Teardown>, reload: Option<Reload>,
                       borrowed: bool, marks: seq<Mark>, flushed: bool) {
    && (reload == Some(Capturing) ==> flushed) && (borrowed <==> reload.Some? && reload != Some(Retiring))
    && match release
       case None => listed && !leaving && marks == [Published] && reload != Some(Retiring)
       case Some(t) =>
         && !listed && marks == Earned(t) && (leaving <==> !t.refused && !t.stage.Finished?)
         && (t.refused ==> reload.None? && !t.flushed && !t.stage.Hooks? && !t.stage.Flushing?)
         && (t.flushed ==> flushed && !t.waits && !t.stage.Flushing?)
         && (reload == Some(Retiring) ==> t.flushed)
         && (borrowed ==> t.waits && (t.stage.Hooks? || t.stage.Draining?))
  }

  ghost predicate RecordFits(s: State, r: Record) {
    r in s.trace &&
    Fits(Listed(s, r), Leaving(s, r), At(s.releases, r), At(s.reloads, r), r in s.borrowed, s.trace[r], r in s.preflushed)
  }

  ghost predicate Filed(m: map<string, Record>, known: set<Record>) {
    forall id :: id in m ==> m[id].session == id && m[id] in known
  }

  ghost predicate Sheets(s: State) {
    && Filed(s.records, s.trace.Keys) && Filed(s.retiring, s.trace.Keys) && s.records.Keys !! s.retiring.Keys
    && s.releases.Keys <= s.trace.Keys && s.reloads.Keys <= s.trace.Keys && s.sweep <= s.trace.Keys && s.borrowed <= s.reloads.Keys
    && (s.closed ==> s.records.Values <= s.sweep)
  }

  ghost predicate AllFit(s: State) {
    forall r :: r in s.trace ==> RecordFits(s, r)
  }

  ghost predicate Inv(s: State) {
    Sheets(s) && AllFit(s)
  }

  lemma FreshInv()
    ensures Inv(Fresh)
  {
  }

  /** Nothing that concerns record `q` changes. */
  ghost predicate Same(s: State, t: State, q: Record) {
    && q in s.trace && q in t.trace && t.trace[q] == s.trace[q]
    && At(t.releases, q) == At(s.releases, q) && At(t.reloads, q) == At(s.reloads, q)
    && Listed(t, q) == Listed(s, q) && Leaving(t, q) == Leaving(s, q) 
    && (q in t.preflushed <==> q in s.preflushed) && (q in t.borrowed <==> q in s.borrowed)
  }

  lemma SameFits(s: State, t: State, q: Record)
    requires RecordFits(s, q) && Same(s, t, q)
    ensures RecordFits(t, q)
  {
    hide Fits, Listed, Leaving, At;
  }

  /** A step that concerns one record keeps every other. */
  lemma OneFits(s: State, t: State, r: Record)
    requires AllFit(s) && RecordFits(t, r)
    requires forall q :: q in t.trace && q != r ==> Same(s, t, q)
    ensures AllFit(t)
  {
    hide RecordFits;
    forall q | q in t.trace
      ensures RecordFits(t, q)
    {
      if q != r {
        assert Same(s, t, q);
        assert q in s.trace by { hide Listed, Leaving, At; }
        SameFits(s, t, q);
      }
    }
  }

  // ----- Publication -----

  lemma AcceptKeeps(s: State, r: Record)
    requires Inv(s) && r !in s.trace && !s.closed && r.session !in s.records && r.session !in s.retiring
    ensures Inv(s.(records := s.records[r.session := r], trace := s.trace[r := [Published]]))
  {
    var t := s.(records := s.records[r.session := r], trace := s.trace[r := [Published]]);
    AcceptSheets(s, r);
    hide AllFit, Sheets;
    AcceptFits(s, r);
  }

  lemma AcceptSheets(s: State, r: Record)
    requires Sheets(s) && r !in s.trace && !s.closed && r.session !in s.records && r.session !in s.retiring
    ensures Sheets(s.(records := s.records[r.session := r], trace := s.trace[r := [Published]]))
  {
  }

  lemma AcceptFits(s: State, r: Record)
    requires Inv(s) && r !in s.trace && !s.closed && r.session !in s.records && r.session !in s.retiring
    ensures AllFit(s.(records := s.records[r.session := r], trace := s.trace[r := [Published]]))
  {
    hide AllFit, RecordFits;
    var t := s.(records := s.records[r.session := r], trace := s.trace[r := [Published]]);
    assert RecordFits(t, r) by { NewFits(t, r); }
    OneFits(s, t, r);
  }

  lemma NewFits(t: State, r: Record)
    requires Listed(t, r) && !Leaving(t, r) && r !in t.releases && r !in t.reloads && r !in t.borrowed
    requires r in t.trace && t.trace[r] == [Published]
    ensures RecordFits(t, r)
  {
  }

  function Refuse(s: State, r: Record): State {
    s.(releases := s.releases[r := Teardown(true, false, false, Draining, 0)], trace := s.trace[r := [Mark.Refused]])
  }

  lemma RefuseSheets(s: State, r: Record)
    requires Sheets(s) && r !in s.trace
    ensures Sheets(Refuse(s, r))
    ensures !Listed(Refuse(s, r), r) && !Leaving(Refuse(s, r), r) && r !in s.reloads && r !in s.borrowed
  {
  }

  lemma RefuseKeeps(s: State, r: Record)
    requires Inv(s) && r !in s.trace
    ensures Inv(Refuse(s, r))
  {
    var t := Refuse(s, r);
    RefuseSheets(s, r);
    hide AllFit, Sheets, RecordFits;
    assert RecordFits(t, r) by { RefusedFits(t, r); }
    OneFits(s, t, r);
  }

  lemma RefusedFits(t: State, r: Record)
    requires !Listed(t, r) && !Leaving(t, r) && r !in t.reloads && r !in t.borrowed && r in t.trace && t.trace[r] == [Refused]
    requires r in t.releases && t.releases[r] == Teardown(true, false, false, Draining, 0)
    ensures RecordFits(t, r)
  {
    assert [Refused] + [] == [Refused];
  }

  lemma PublishKeeps(s: State, r: Record, live: bool)
    requires Inv(s) && Enabled(s, DoPublish(r, live))
    ensures Inv(Publish(s, r, live))
  {
    hide Inv;
    if Listed(s, r) { return; }
    if s.closed || !live || r.session in s.records || r.session in s.retiring { RefuseKeeps(s, r); } else { AcceptKeeps(s, r); }
  }

  // ----- Withdrawal -----

  lemma RetireSheets(s: State, r: Record, flushed: bool)
    requires Sheets(s) && r in s.trace && Listed(s, r) && r !in s.releases
    ensures Sheets(Retire(s, r, flushed)) && Sheets(Retire(s, r, flushed).(sweep := s.sweep - {r}))
  {
    var t := Retire(s, r, flushed);
    assert t.records.Values <= s.records.Values - {r};
  }

  lemma LeavingFits(t: State, r: Record, flushed: bool)
    requires !Listed(t, r) && Leaving(t, r) && r in t.trace && t.trace[r] == [Published] + [Withdrawn]
    requires r in t.releases && t.releases[r] == Teardown(false, flushed, r in t.borrowed, Hooks, 0)
    requires flushed ==> r in t.preflushed
    requires r in t.borrowed <==> r in t.reloads && !t.reloads[r].Retiring?
    requires At(t.reloads, r) == Some(Retiring) <==> flushed
    requires At(t.reloads, r) == Some(Capturing) ==> r in t.preflushed
    ensures RecordFits(t, r)
  {
    assert [Published, Withdrawn] + [] == [Published, Withdrawn];
  }

  lemma ListedFits(s: State, r: Record)
    requires Inv(s) && Listed(s, r)
    ensures r in s.trace && r !in s.releases && s.trace[r] == [Published] && !Leaving(s, r)
    ensures r in s.borrowed <==> r in s.reloads
    ensures r in s.reloads ==> !s.reloads[r].Retiring? && (s.reloads[r].Capturing? ==> r in s.preflushed)
  {
    assert RecordFits(s, r);
  }

  lemma RetireSame(s: State, r: Record, q: Record)
    requires Sheets(s) && Listed(s, r) && r in s.trace && r !in s.releases && q in s.trace && q != r
    ensures Same(s, Retire(s, r, false), q)
  {
  }

  lemma RetireOwn(s: State, r: Record)
    requires Inv(s) && Listed(s, r)
    ensures r in s.trace && Retire(s, r, false).trace.Keys == s.trace.Keys && RecordFits(Retire(s, r, false), r)
  {
    ListedFits(s, r);
    hide Inv, RecordFits;
    LeavingFits(Retire(s, r, false), r, false);
  }

  lemma RetireFits(s: State, r: Record)
    requires Inv(s) && Listed(s, r)
    ensures r in s.trace && Inv(Retire(s, r, false).(sweep := s.sweep - {r}))
  {
    ListedFits(s, r);
    RetireSheets(s, r, false);
    RetireOwn(s, r);
    var t := Retire(s, r, false);
    assert Sheets(s) && AllFit(s);
    hide AllFit, RecordFits, Sheets, Same, Retire;
    forall q | q in t.trace && q != r
      ensures Same(s, t, q)
    {
      RetireSame(s, r, q);
    }
    OneFits(s, t, r);
    SweepFits(t, t.(sweep := s.sweep - {r}));
  }

  lemma SweepFits(s: State, t: State)
    requires AllFit(s) && t == s.(closed := t.closed, sweep := t.sweep, operations := t.operations)
    ensures AllFit(t)
  {
    forall r | r in t.trace
      ensures RecordFits(t, r)
    {
      assert RecordFits(s, r);
    }
  }

  lemma CloseKeeps(s: State, r: Record)
    requires Inv(s) && Enabled(s, DoClose(r))
    ensures Inv(Step(s, DoClose(r)))
  {
    if Listed(s, r) {
      ListedFits(s, r);
      RetireFits(s, r);
    } else {
      hide AllFit;
      SweepFits(s, s.(sweep := s.sweep - {r}));
    }
  }

  lemma ShutKeeps(s: State)
    requires Inv(s)
    ensures Inv(Shut(s))
  {
    hide AllFit;
    SweepFits(s, Shut(s));
  }

  // ----- Teardown -----

  lemma ReleasedFits(s: State, r: Record)
    requires Inv(s) && r in s.releases
    ensures r in s.trace && RecordFits(s, r)
  {
  }

  lemma TeardownSheets(s: State, r: Record, failures: nat)
    requires Sheets(s) && r in s.releases && r in s.trace && !s.releases[r].stage.Finished?
    ensures Sheets(TeardownStep(s, r, failures))
  {
  }

  lemma HooksFit(s: State, r: Record, failures: nat)
    requires RecordFits(s, r) && r in s.releases && s.releases[r].stage.Hooks?
    ensures RecordFits(TeardownStep(s, r, failures), r)
  {
  }

  lemma DrainedFit(s: State, r: Record, failures: nat)
    requires RecordFits(s, r) && r in s.releases && s.releases[r].stage.Draining? && (s.releases[r].waits ==> r !in s.borrowed)
    ensures RecordFits(TeardownStep(s, r, failures), r)
  {
    var t := s.releases[r];
    var first := if t.refused then [Refused] else [Published, Withdrawn];
    assert Earned(t) == first by { assert first + [] == first; }
    assert first + [Drained] + [] == first + [Drained];
  }

  lemma FlushedFit(s: State, r: Record, failures: nat)
    requires RecordFits(s, r) && r in s.releases && s.releases[r].stage.Flushing?
    ensures RecordFits(TeardownStep(s, r, failures), r)
  {
    var first: seq<Mark> := [Published, Withdrawn];
    assert first + [Drained] + [] == first + [Drained];
    assert first + [Drained] + [Flushed] + [] == first + [Drained] + [Flushed];
  }

  lemma DisposedFit(s: State, r: Record, failures: nat)
    requires Sheets(s) && RecordFits(s, r) && r in s.releases && s.releases[r].stage.Disposing?
    ensures RecordFits(TeardownStep(s, r, failures), r)
  {
    var t := s.releases[r];
    assert Earned(t.(stage := Finished, failures := t.failures + failures)) == Earned(t) + [Disposed];
  }

  lemma TeardownFits(s: State, r: Record, failures: nat)
    requires Inv(s) && r in s.releases && r in s.trace && !s.releases[r].stage.Finished?
    requires s.releases[r].stage.Draining? && s.releases[r].waits ==> r !in s.borrowed
    ensures RecordFits(TeardownStep(s, r, failures), r)
  {
    ReleasedFits(s, r);
    hide RecordFits, AllFit, TeardownStep, Earned, Sheets;
    match s.releases[r].stage
    case Hooks => HooksFit(s, r, failures);
    case Draining => DrainedFit(s, r, failures);
    case Flushing => FlushedFit(s, r, failures);
    case Disposing => DisposedFit(s, r, failures);
  }

  lemma TeardownSame(s: State, r: Record, failures: nat, q: Record)
    requires Sheets(s) && r in s.releases && r in s.trace && !s.releases[r].stage.Finished?
    requires q in s.trace && q != r
    ensures Same(s, TeardownStep(s, r, failures), q)
  {
  }

  lemma TeardownKeeps(s: State, r: Record, failures: nat)
    requires Inv(s) && Enabled(s, TeardownEnds(r, failures))
    ensures Inv(TeardownStep(s, r, failures))
  {
    TeardownFits(s, r, failures);
    TeardownSheets(s, r, failures);
    TeardownTraces(s, r, failures);
    var t := TeardownStep(s, r, failures);
    assert Sheets(s) && AllFit(s);
    hide RecordFits, AllFit, TeardownStep, Sheets, Same;
    forall q | q in t.trace && q != r
      ensures Same(s, t, q)
    {
      TeardownSame(s, r, failures, q);
    }
    OneFits(s, t, r);
  }

  lemma TeardownTraces(s: State, r: Record, failures: nat)
    requires r in s.releases && r in s.trace && !s.releases[r].stage.Finished?
    ensures TeardownStep(s, r, failures).trace.Keys == s.trace.Keys
  {
  }

  // ----- Reload -----

  lemma BeginKeeps(s: State, r: Record)
    requires Inv(s) && Enabled(s, DoReload(r))
    ensures Inv(BeginReload(s, r))
  {
    if s.closed || !Listed(s, r) || r in s.reloads { return; }
    ListedFits(s, r);
    var t := BeginReload(s, r);
    assert Sheets(t);
    hide AllFit, RecordFits, Sheets;
    PhaseFits(s, t, r);
  }

  /** Moving a record's reload on, short of retiring, or ending it. */
  lemma PhaseFits(s: State, t: State, r: Record)
    requires AllFit(s) && r in s.trace
    requires t == s.(reloads := t.reloads, borrowed := t.borrowed, preflushed := t.preflushed)
    requires s.preflushed <= t.preflushed <= s.preflushed + {r} && t.reloads - {r} == s.reloads - {r}
    requires t.borrowed - {r} == s.borrowed - {r} && (r in t.borrowed <==> r in t.reloads)
    requires r in t.reloads ==> !t.reloads[r].Retiring? && Listed(s, r) && (t.reloads[r].Capturing? ==> r in t.preflushed)
    ensures AllFit(t)
  {
    assert RecordFits(s, r);
    assert RecordFits(t, r);
    hide RecordFits, AllFit;
    forall q | q in t.trace && q != r
      ensures Same(s, t, q)
    {
      assert q in t.reloads <==> q in t.reloads - {r};
      assert q in s.reloads <==> q in s.reloads - {r};
      assert q in t.borrowed <==> q in t.borrowed - {r};
      assert q in s.borrowed <==> q in s.borrowed - {r};
      if q in t.reloads { assert (t.reloads - {r})[q] == t.reloads[q]; }
      if q in s.reloads { assert (s.reloads - {r})[q] == s.reloads[q]; }
    }
    OneFits(s, t, r);
  }

  lemma EndKeeps(s: State, r: Record)
    requires Inv(s) && r in s.reloads
    ensures Inv(EndReload(s, r))
  {
    var t := EndReload(s, r);
    assert Sheets(t);
    hide AllFit, Sheets;
    assert t.reloads - {r} == s.reloads - {r};
    PhaseFits(s, t, r);
  }

  lemma MoveKeeps(s: State, r: Record, phase: Reload, flushed: set<Record>)
    requires Inv(s) && r in s.reloads && Listed(s, r) && !phase.Retiring?
    requires s.preflushed <= flushed <= s.preflushed + {r} && (phase.Capturing? ==> r in flushed)
    ensures Inv(s.(reloads := s.reloads[r := phase], preflushed := flushed))
  {
    var t := s.(reloads := s.reloads[r := phase], preflushed := flushed);
    assert Sheets(t);
    ListedFits(s, r);
    hide AllFit, Sheets;
    assert t.reloads - {r} == s.reloads - {r};
    PhaseFits(s, t, r);
  }

  /** A captured reload withdraws its own record, already flushed. */
  lemma CommitKeeps(s: State, r: Record)
    requires Inv(s) && r in s.reloads && s.reloads[r].Capturing? && Listed(s, r) && r in s.trace
    ensures Inv(Retire(s.(reloads := s.reloads[r := Retiring], borrowed := s.borrowed - {r}), r, true))
  {
    ListedFits(s, r);
    CommitSheets(s, r);
    hide AllFit, Sheets;
    CommitFits(s, r);
  }

  lemma CommitSheets(s: State, r: Record)
    requires Sheets(s) && r in s.reloads && Listed(s, r) && r in s.trace && r !in s.releases
    ensures Sheets(Retire(s.(reloads := s.reloads[r := Retiring], borrowed := s.borrowed - {r}), r, true))
  {
    hide Retire;
    RetireSheets(s.(reloads := s.reloads[r := Retiring], borrowed := s.borrowed - {r}), r, true);
  }

  lemma CommitOwn(s: State, r: Record)
    requires Inv(s) && r in s.reloads && s.reloads[r].Capturing? && Listed(s, r) && r in s.trace
    ensures RecordFits(Retire(s.(reloads := s.reloads[r := Retiring], borrowed := s.borrowed - {r}), r, true), r)
  {
    ListedFits(s, r);
    hide Inv, RecordFits;
    LeavingFits(Retire(s.(reloads := s.reloads[r := Retiring], borrowed := s.borrowed - {r}), r, true), r, true);
  }

  lemma CommitSame(s: State, r: Record, q: Record)
    requires Inv(s) && r in s.reloads && Listed(s, r) && r in s.trace && q in s.trace && q != r
    ensures Same(s, Retire(s.(reloads := s.reloads[r := Retiring], borrowed := s.borrowed - {r}), r, true), q)
  {
    ListedFits(s, r);
    assert Sheets(s);
    hide AllFit, RecordFits;
  }

  lemma CommitFits(s: State, r: Record)
    requires Inv(s) && r in s.reloads && s.reloads[r].Capturing? && Listed(s, r) && r in s.trace
    ensures AllFit(Retire(s.(reloads := s.reloads[r := Retiring], borrowed := s.borrowed - {r}), r, true))
  {
    var t := Retire(s.(reloads := s.reloads[r := Retiring], borrowed := s.borrowed - {r}), r, true);
    assert t.trace.Keys == s.trace.Keys by { ListedFits(s, r); }
    assert AllFit(s);
    CommitOwn(s, r);
    hide AllFit, RecordFits, Retire, Same, Sheets;
    forall q | q in t.trace && q != r
      ensures Same(s, t, q)
    {
      CommitSame(s, r, q);
    }
    OneFits(s, t, r);
  }

  lemma ReloadKeeps(s: State, r: Record, ok: bool)
    requires Inv(s) && Enabled(s, ReloadEnds(r, ok))
    ensures Inv(ReloadStep(s, r, ok))
  {
    hide Inv, Retire;
    if s.reloads[r].Cancelling? { CancelKeeps(s, r, ok); return; }
    if !ok || !Listed(s, r) || s.reloads[r] == Settling(false) { EndKeeps(s, r); return; }
    match s.reloads[r]
    case Settling(_) => MoveKeeps(s, r, Idling, s.preflushed);
    case Idling => MoveKeeps(s, r, Preflush, s.preflushed);
    case Preflush => MoveKeeps(s, r, Capturing, s.preflushed + {r});
    case Capturing => CommitKeeps(s, r);
  }

  /** Cancellation hooks run whether or not they closed the record. */
  lemma CancelKeeps(s: State, r: Record, ok: bool)
    requires Inv(s) && r in s.reloads && s.reloads[r].Cancelling? && r in s.trace
    ensures Inv(s.(reloads := s.reloads[r := Settling(ok)]))
  {
    var t := s.(reloads := s.reloads[r := Settling(ok)]);
    CancelSheets(s, r, ok);
    assert RecordFits(s, r);
    CancelOwn(s, r, ok);
    hide RecordFits, AllFit, Sheets;
    OneFits(s, t, r);
  }

  lemma CancelSheets(s: State, r: Record, ok: bool)
    requires Sheets(s) && r in s.reloads
    ensures Sheets(s.(reloads := s.reloads[r := Settling(ok)]))
  {
  }

  lemma CancelOwn(s: State, r: Record, ok: bool)
    requires RecordFits(s, r) && r in s.reloads && s.reloads[r].Cancelling?
    ensures RecordFits(s.(reloads := s.reloads[r := Settling(ok)]), r)
  {
  }

  lemma {:induction false} StepKeeps(s: State, a: Action)
    requires Inv(s) && Enabled(s, a)
    ensures Inv(Step(s, a))
  {
    hide Inv, Publish, BeginReload, TeardownStep, ReloadStep, EndReload, Shut, Retire;
    match a
    case DoPublish(r, live) => PublishKeeps(s, r, live);
    case DoClose(r) => CloseKeeps(s, r);
    case DoShut => ShutKeeps(s);
    case DoReload(r) => BeginKeeps(s, r);
    case DoOperation(k) => OperationsKeep(s, s.operations + {k});
    case TeardownEnds(r, failures) => TeardownKeeps(s, r, failures);
    case ReloadEnds(r, ok) => ReloadKeeps(s, r, ok);
    case ReloadRetired(r) => EndKeeps(s, r);
    case OperationEnds(k) => OperationsKeep(s, s.operations - {k});
  }

  lemma OperationsKeep(s: State, operations: set<nat>)
    requires Inv(s)
    ensures Inv(s.(operations := operations))
  {
    hide AllFit;
    SweepFits(s, s.(operations := operations));
  }

  // ----- Every run -----

  ghost predicate RunFrom(s: State, actions: seq<Action>)
    decreases |actions|
  {
    actions == [] || (Enabled(s, actions[0]) && RunFrom(Step(s, actions[0]), actions[1..]))
  }

  ghost function After(s: State, actions: seq<Action>): State
    requires RunFrom(s, actions)
    decreases |actions|
  {
    if actions == [] then s else After(Step(s, actions[0]), actions[1..])
  }

  lemma {:induction false} RunKeeps(s: State, actions: seq<Action>)
    requires Inv(s) && RunFrom(s, actions)
    ensures Inv(After(s, actions))
    decreases |actions|
  {
    hide Inv, Step, Enabled;
    if actions != [] {
      StepKeeps(s, actions[0]);
      RunKeeps(Step(s, actions[0]), actions[1..]);
    }
  }

  // ----- One owner for each id -----

  /** A withdrawn record's marks when everything is done: each cleanup once, in order. */
  ghost predicate Complete(marks: seq<Mark>) {
    marks == [Published, Withdrawn, Drained, Flushed, Disposed] || marks == [Published, Withdrawn, Drained, Disposed]
  }

  lemma EarnedComplete(t: Teardown)
    requires t.stage.Finished? && !t.refused
    ensures Complete(Earned(t)) && (t.flushed <==> Flushed !in Earned(t))
  {
    assert [Published, Withdrawn] + [Drained] + [] + [Disposed] == [Published, Withdrawn, Drained, Disposed];
    assert [Published, Withdrawn] + [Drained] + [Flushed] + [Disposed] == [Published, Withdrawn, Drained, Flushed, Disposed];
  }

  /**
   * In every run an id has one owner: it is published or retiring, never both,
   * a refused record is never published, and any earlier owner of a published
   * id has drained, flushed and been disposed, in that order and once.
   */
  lemma {:induction false} IdExclusive(actions: seq<Action>)
    requires RunFrom(Fresh, actions)
    ensures var s := After(Fresh, actions);
            && s.records.Keys !! s.retiring.Keys
            && forall r, q :: Listed(s, r) && q in s.trace && q.session == r.session && q != r ==>
                 q in s.releases && (s.releases[q].refused || (Complete(s.trace[q]) && (Flushed in s.trace[q] || q in s.preflushed)))
  {
    FreshInv();
    RunKeeps(Fresh, actions);
    var s := After(Fresh, actions);
    hide RunFrom, After;
    assert Sheets(s);
    forall r, q | Listed(s, r) && q in s.trace && q.session == r.session && q != r
      ensures q in s.releases && (s.releases[q].refused || (Complete(s.trace[q]) && (Flushed in s.trace[q] || q in s.preflushed)))
    {
      PastOwner(s, r, q);
    }
  }

  lemma PastOwner(s: State, r: Record, q: Record)
    requires Inv(s) && Listed(s, r) && q in s.trace && q.session == r.session && q != r
    ensures q in s.releases && (s.releases[q].refused || (Complete(s.trace[q]) && (Flushed in s.trace[q] || q in s.preflushed)))
  {
    assert RecordFits(s, q) && !Listed(s, q) && !Leaving(s, q);
    hide Inv, Earned, Complete;
    var t := s.releases[q];
    if !t.refused { EarnedComplete(t); }
  }

  /** `publish` takes a record exactly when the leader is open, its client is there and its id is free. */
  lemma PublishDecides(s: State, r: Record, live: bool)
    requires Inv(s) && r !in s.trace
    ensures var t := Publish(s, r, live);
            && (Listed(t, r) <==> !s.closed && live && r.session !in s.records && r.session !in s.retiring)
            && (Listed(t, r) <==> r !in t.releases) && (!Listed(t, r) ==> t.records == s.records && t.releases[r].refused)
            && r in t.trace && t.trace[r] == [if Listed(t, r) then Published else Mark.Refused]
  {
    hide AllFit;
    assert !Listed(s, r);
  }

  /** Marks are only ever added. */
  lemma TracesGrow(s: State, a: Action)
    requires Inv(s) && Enabled(s, a)
    ensures forall r :: r in s.trace ==> r in Step(s, a).trace && s.trace[r] <= Step(s, a).trace[r]
  {
    hide AllFit, Retire;
    match a
    case DoPublish(r, live) =>
    case TeardownEnds(r, failures) =>
    case ReloadEnds(r, ok) => RetireGrows(s.(reloads := s.reloads[r := Retiring], borrowed := s.borrowed - {r}), r, true);
    case DoClose(r) => RetireGrows(s, r, false);
    case _ =>
  }

  lemma RetireGrows(s: State, r: Record, flushed: bool)
    requires r in s.trace
    ensures forall q :: q in s.trace ==> q in Retire(s, r, flushed).trace && s.trace[q] <= Retire(s, r, flushed).trace[q]
  {
  }

  lemma {:induction false} RunGrows(s: State, actions: seq<Action>)
    requires Inv(s) && RunFrom(s, actions)
    ensures forall r :: r in s.trace ==> r in After(s, actions).trace && s.trace[r] <= After(s, actions).trace[r]
    decreases |actions|
  {
    hide Inv, Step, Enabled;
    if actions != [] {
      StepKeeps(s, actions[0]);
      TracesGrow(s, actions[0]);
      RunGrows(Step(s, actions[0]), actions[1..]);
    }
  }

  /** A record's first mark says which kind it is. */
  lemma FirstMark(s: State, r: Record)
    requires Inv(s) && r in s.trace
    ensures s.trace[r] != [] && (Published in s.trace[r] <==> s.trace[r][0] == Published)
    ensures Mark.Refused in s.trace[r] <==> s.trace[r][0] == Mark.Refused
    ensures s.trace[r][0] == Mark.Refused ==> !Listed(s, r) && !Leaving(s, r)
  {
    assert RecordFits(s, r);
    hide Inv;
  }

  /**
   * The decision made when a record is offered stands for the rest of every
   * run: it was published exactly if the leader was open, its client connected
   * and its id free, and one that was refused never holds an id.
   */
  lemma {:induction false} PublicationStands(before: seq<Action>, r: Record, live: bool, after: seq<Action>)
    requires RunFrom(Fresh, before) && r !in After(Fresh, before).trace
    requires RunFrom(Publish(After(Fresh, before), r, live), after)
    ensures var s := After(Fresh, before);
            var t := After(Publish(s, r, live), after);
            && r in t.trace
            && (Published in t.trace[r] <==> !s.closed && live && r.session !in s.records && r.session !in s.retiring)
            && (Mark.Refused in t.trace[r] <==> Published !in t.trace[r])
            && (Mark.Refused in t.trace[r] ==> !Listed(t, r) && !Leaving(t, r))
  {
    FreshInv();
    RunKeeps(Fresh, before);
    var s := After(Fresh, before);
    hide Inv, RunFrom, After, Publish, Listed;
    PublishDecides(s, r, live);
    PublishKeeps(s, r, live);
    RunKeeps(Publish(s, r, live), after);
    RunGrows(Publish(s, r, live), after);
    FirstMark(After(Publish(s, r, live), after), r);
  }

  // ----- Reload -----

  /**
   * However a reload's preflight ends short of retiring, the same owners stay
   * published and a still-published record of an open leader takes input again;
   * until then it takes none, and a second reload of it changes nothing.
   */
  lemma {:induction false} FailedReload(s: State, r: Record, ok: bool)
    requires Inv(s) && Enabled(s, ReloadEnds(r, ok))
    ensures !AcceptsInput(s, r) && BeginReload(s, r) == s
    ensures var t := ReloadStep(s, r, ok);
            r !in t.reloads ==>
              && t.records == s.records && t.retiring == s.retiring && t.releases == s.releases && r !in t.borrowed
              && (AcceptsInput(t, r) <==> !s.closed && Listed(s, r))
  {
    hide Inv, Retire;
    if s.reloads[r].Capturing? && ok && Listed(s, r) {
      RetireReloads(s.(reloads := s.reloads[r := Retiring], borrowed := s.borrowed - {r}), r);
    }
  }

  lemma RetireReloads(s: State, r: Record)
    requires Listed(s, r) ==> r in s.trace
    ensures Retire(s, r, true).reloads == s.reloads
  {
  }

  // ----- What waits for what -----

  datatype Task = ReloadTask(record: Record) | TeardownTask(record: Record) | OperationTask(operation: nat) | ShutdownTask

  predicate Unfinished(s: State, r: Record) {
    r in s.releases && !s.releases[r].stage.Finished?
  }

  predicate Outstanding(s: State, t: Task) {
    match t
    case ReloadTask(r) => r in s.reloads
    case TeardownTask(r) => Unfinished(s, r)
    case OperationTask(k) => k in s.operations
    case ShutdownTask => s.closed
  }

  /** An operation may wait for any reload or teardown that is not over. */
  predicate Waits(s: State, a: Task, b: Task) {
    match a
    case ReloadTask(r) => b == TeardownTask(r) && r in s.reloads && s.reloads[r].Retiring? && Unfinished(s, r)
    case TeardownTask(r) =>
      b == ReloadTask(r) && r in s.releases && s.releases[r].stage.Draining? && s.releases[r].waits && r in s.borrowed
    case OperationTask(k) => k in s.operations && (b.ReloadTask? || b.TeardownTask?) && Outstanding(s, b)
    case ShutdownTask => s.closed && ((b.TeardownTask? && Unfinished(s, b.record)) || (b.OperationTask? && b.operation in s.operations))
  }

  /** The action is a step of what waits. */
  predicate Belongs(t: Task, a: Action) {
    match t
    case ReloadTask(r) => (a.ReloadEnds? || a.ReloadRetired?) && a.record == r
    case TeardownTask(r) => a.TeardownEnds? && a.record == r
    case OperationTask(k) => a == OperationEnds(k)
    case ShutdownTask => false
  }

  function Rank(s: State, t: Task): nat {
    match t
    case ReloadTask(r) => if r in s.reloads && s.reloads[r].Retiring? then 2 else 0
    case TeardownTask(_) => 1
    case OperationTask(_) => 3
    case ShutdownTask => 4
  }

  /** The wait-for relation descends a rank in every reachable state, so it has no cycle. */
  lemma {:induction false} WaitsDescend(actions: seq<Action>, a: Task, b: Task)
    requires RunFrom(Fresh, actions) && Waits(After(Fresh, actions), a, b)
    ensures Rank(After(Fresh, actions), a) > Rank(After(Fresh, actions), b)
  {
    FreshInv();
    RunKeeps(Fresh, actions);
    var s := After(Fresh, actions);
    hide RunFrom, After;
    if a.TeardownTask? { assert RecordFits(s, a.record); }
  }

  /** The ranked tasks on a chain of waits never repeat. */
  lemma {:induction false} NoWaitCycle(actions: seq<Action>, chain: seq<Task>)
    requires RunFrom(Fresh, actions) && |chain| >= 2
    requires forall i :: 0 <= i < |chain| - 1 ==> Waits(After(Fresh, actions), chain[i], chain[i + 1])
    ensures Rank(After(Fresh, actions), chain[0]) > Rank(After(Fresh, actions), chain[|chain| - 1])
    ensures chain[0] != chain[|chain| - 1]
    decreases |chain|
  {
    hide Waits, Rank, RunFrom, After;
    WaitsDescend(actions, chain[|chain| - 2], chain[|chain| - 1]);
    if |chain| > 2 {
      var shorter := chain[..|chain| - 1];
      forall i | 0 <= i < |shorter| - 1
        ensures Waits(After(Fresh, actions), shorter[i], shorter[i + 1])
      {
        assert Waits(After(Fresh, actions), chain[i], chain[i + 1]);
      }
      NoWaitCycle(actions, shorter);
    }
  }

  // ----- Shutdown ends, and misses nothing -----

  /** Steps the leader or the environment takes on its own, once nothing new is asked for. */
  predicate Proceeds(s: State, a: Action) {
    a.TeardownEnds? || a.ReloadEnds? || a.ReloadRetired? || a.OperationEnds? || (a.DoClose? && a.record in s.sweep)
  }

  /** Nothing is to be swept and every teardown is through. */
  predicate TornDown(s: State) {
    s.sweep == {} && forall r :: r in s.releases ==> s.releases[r].stage.Finished?
  }

  /** An outstanding reload or teardown can move exactly if it waits for nothing. */
  lemma {:induction false} MovesUnlessWaiting(s: State, t: Task)
    requires Inv(s) && Outstanding(s, t) && (t.ReloadTask? || t.TeardownTask?)
    ensures (exists a :: Belongs(t, a) && Enabled(s, a)) <==> forall b :: !Waits(s, t, b)
  {
    assert t.record in s.trace && RecordFits(s, t.record) by { assert Sheets(s); }
    if t.ReloadTask? { ReloadMoves(s, t.record); } else { TeardownMoves(s, t.record); }
  }

  lemma ReloadMoves(s: State, r: Record)
    requires r in s.reloads && RecordFits(s, r)
    ensures (exists a :: Belongs(ReloadTask(r), a) && Enabled(s, a)) <==> forall b :: !Waits(s, ReloadTask(r), b)
  {
    if !s.reloads[r].Retiring? {
      assert Belongs(ReloadTask(r), ReloadEnds(r, true)) && Enabled(s, ReloadEnds(r, true));
    } else if !Unfinished(s, r) {
      assert Belongs(ReloadTask(r), ReloadRetired(r)) && Enabled(s, ReloadRetired(r));
    } else {
      assert Waits(s, ReloadTask(r), TeardownTask(r));
    }
  }

  lemma TeardownMoves(s: State, r: Record)
    requires Unfinished(s, r) && RecordFits(s, r)
    ensures (exists a :: Belongs(TeardownTask(r), a) && Enabled(s, a)) <==> forall b :: !Waits(s, TeardownTask(r), b)
  {
    if s.releases[r].stage.Draining? && s.releases[r].waits && r in s.borrowed {
      assert Waits(s, TeardownTask(r), ReloadTask(r));
    } else {
      assert Belongs(TeardownTask(r), TeardownEnds(r, 0)) && Enabled(s, TeardownEnds(r, 0));
    }
  }

  ghost predicate Owing(s: State) {
    s.sweep != {} || s.reloads != map[] || exists r :: Unfinished(s, r)
  }

  /**
   * Even if every operation is blocked: while a record is to be swept, reloads
   * or is torn down, one of those steps can be taken; and once nothing of the
   * kind is left, no operation waits for anything.
   */
  lemma {:induction false} NoDeadlock(s: State)
    requires Inv(s)
    ensures Owing(s) ==> exists a :: Proceeds(s, a) && !a.OperationEnds? && Enabled(s, a)
    ensures !Owing(s) ==> forall k, b :: !Waits(s, OperationTask(k), b)
  {
    assert Sheets(s) && AllFit(s);
    if s.sweep != {} {
      var r :| r in s.sweep;
      assert Proceeds(s, DoClose(r)) && Enabled(s, DoClose(r));
    } else if exists r :: r in s.reloads && !s.reloads[r].Retiring? {
      var r :| r in s.reloads && !s.reloads[r].Retiring?;
      assert Proceeds(s, ReloadEnds(r, true)) && Enabled(s, ReloadEnds(r, true));
    } else {
      hide Sheets, AllFit;
      RetiringMoves(s);
    }
  }

  /** With every reload past its preflight, a teardown is free, and then the reloads that wait for theirs. */
  lemma RetiringMoves(s: State)
    requires Sheets(s) && AllFit(s) && s.sweep == {} && forall r :: r in s.reloads ==> s.reloads[r].Retiring?
    ensures Owing(s) ==> exists a :: Proceeds(s, a) && !a.OperationEnds? && Enabled(s, a)
    ensures !Owing(s) ==> forall k, b :: !Waits(s, OperationTask(k), b)
  {
    if exists r :: Unfinished(s, r) {
      var r :| Unfinished(s, r);
      assert RecordFits(s, r);
      hide Sheets, AllFit;
      assert r !in s.borrowed;
      hide RecordFits;
      assert Proceeds(s, TeardownEnds(r, 0)) && Enabled(s, TeardownEnds(r, 0));
    } else if s.reloads != map[] {
      var r :| r in s.reloads;
      assert RecordFits(s, r);
      hide Sheets, AllFit;
      assert !Unfinished(s, r) && r in s.releases;
      hide RecordFits;
      assert Proceeds(s, ReloadRetired(r)) && Enabled(s, ReloadRetired(r));
    }
  }

  /** Once a shut-down leader has swept its records and torn them down, whatever reloads and operations
      are still about, no id is held and every record it ever had is disposed, once and last. */
  lemma {:induction false} ShutdownMissesNothing(actions: seq<Action>)
    requires RunFrom(Fresh, actions) && After(Fresh, actions).closed && TornDown(After(Fresh, actions))
    ensures var s := After(Fresh, actions);
            && s.records == map[] && s.retiring == map[]
            && forall r :: r in s.trace ==> Complete(s.trace[r]) || s.trace[r] == [Refused, Drained, Disposed]
  {
    FreshInv();
    RunKeeps(Fresh, actions);
    var s := After(Fresh, actions);
    hide RunFrom, After;
    assert Sheets(s) && AllFit(s);
    NothingListed(s);
    forall r | r in s.trace
      ensures Complete(s.trace[r]) || s.trace[r] == [Refused, Drained, Disposed]
    {
      DisposedLast(s, r);
    }
    NothingLeaving(s);
  }

  lemma NothingListed(s: State)
    requires Sheets(s) && s.closed && s.sweep == {}
    ensures s.records == map[]
  {
    assert forall id :: id in s.records ==> s.records[id] in s.records.Values;
  }

  lemma DisposedLast(s: State, r: Record)
    requires AllFit(s) && s.records == map[] && TornDown(s) && r in s.trace
    ensures Complete(s.trace[r]) || s.trace[r] == [Refused, Drained, Disposed]
    ensures !Leaving(s, r)
  {
    assert RecordFits(s, r);
    var t := s.releases[r];
    hide Complete;
    if !t.refused { EarnedComplete(t); } else { assert [Refused] + [Drained] + [] + [Disposed] == [Refused, Drained, Disposed]; }
  }

  lemma NothingLeaving(s: State)
    requires Sheets(s) && AllFit(s) && s.records == map[] && TornDown(s)
    ensures s.retiring == map[]
  {
    hide AllFit, TornDown;
    forall id | id in s.retiring
      ensures false
    {
      DisposedLast(s, s.retiring[id]);
      assert false;
    }
  }

  // ----- How much is left -----

  function StageWork(stage: Stage): nat {
    match stage
    case Hooks => 4
    case Draining => 3
    case Flushing => 2
    case Disposing => 1
    case Finished => 0
  }

  function PhaseWork(phase: Reload): nat {
    match phase
    case Cancelling => 10
    case Settling(_) => 9
    case Idling => 8
    case Preflush => 7
    case Capturing => 6
    case Retiring => 1
  }

  function Work(s: State, r: Record): nat {
    (if r in s.sweep then 5 else 0)
    + (if r in s.reloads then PhaseWork(s.reloads[r]) else 0)
    + (if r in s.releases then StageWork(s.releases[r].stage) else 0)
  }

  ghost function Pick(keys: set<Record>): Record
    requires keys != {}
  {
    var r :| r in keys;
    r
  }

  ghost function Sum(s: State, keys: set<Record>): nat {
    if keys == {} then 0 else Work(s, Pick(keys)) + Sum(s, keys - {Pick(keys)})
  }

  lemma {:induction false} SumPick(s: State, keys: set<Record>, r: Record)
    requires r in keys
    ensures Sum(s, keys) == Work(s, r) + Sum(s, keys - {r})
    decreases |keys|
  {
    hide Work;
    var q := Pick(keys);
    if q != r {
      SumPick(s, keys - {q}, r);
      SumPick(s, keys - {r}, q);
      assert keys - {q} - {r} == keys - {r} - {q};
    }
  }

  lemma {:induction false} SumSame(s: State, t: State, keys: set<Record>)
    requires forall r :: r in keys ==> Work(s, r) == Work(t, r)
    ensures Sum(s, keys) == Sum(t, keys)
    decreases |keys|
  {
    if keys != {} { SumSame(s, t, keys - {Pick(keys)}); }
  }

  ghost function Total(s: State): nat {
    |s.operations| + Sum(s, s.trace.Keys)
  }

  lemma OneShrinks(s: State, t: State, r: Record)
    requires r in s.trace && t.trace.Keys == s.trace.Keys && t.operations == s.operations
    requires Work(t, r) < Work(s, r) && forall q :: q in s.trace && q != r ==> Work(t, q) == Work(s, q)
    ensures Total(t) < Total(s)
  {
    hide Work;
    SumPick(s, s.trace.Keys, r);
    SumPick(t, s.trace.Keys, r);
    SumSame(s, t, s.trace.Keys - {r});
  }

  lemma CloseWork(s: State, r: Record)
    requires Sheets(s) && r in s.sweep && (Listed(s, r) ==> r !in s.releases)
    ensures Enabled(s, DoClose(r)) && Work(Step(s, DoClose(r)), r) < Work(s, r)
    ensures Step(s, DoClose(r)).trace.Keys == s.trace.Keys && Step(s, DoClose(r)).operations == s.operations
  {
  }

  lemma CloseOther(s: State, r: Record, q: Record)
    requires Enabled(s, DoClose(r)) && q != r
    ensures Work(Step(s, DoClose(r)), q) == Work(s, q)
  {
  }

  lemma CloseShrinks(s: State, r: Record)
    requires Inv(s) && r in s.sweep
    ensures Enabled(s, DoClose(r)) && Total(Step(s, DoClose(r))) < Total(s)
  {
    if Listed(s, r) { ListedFits(s, r); }
    hide AllFit;
    CloseWork(s, r);
    hide Sheets, Work, Step, Total;
    forall q | q in s.trace && q != r
      ensures Work(Step(s, DoClose(r)), q) == Work(s, q)
    {
      CloseOther(s, r, q);
    }
    OneShrinks(s, Step(s, DoClose(r)), r);
  }

  lemma TeardownShrinks(s: State, r: Record, failures: nat)
    requires Enabled(s, TeardownEnds(r, failures))
    ensures Total(Step(s, TeardownEnds(r, failures))) < Total(s)
  {
    OneShrinks(s, Step(s, TeardownEnds(r, failures)), r);
  }

  /** The state in which a reload withdraws its record. */
  function Committing(s: State, r: Record): State {
    s.(reloads := s.reloads[r := Retiring], borrowed := s.borrowed - {r})
  }

  lemma RetireWork(s: State, r: Record, q: Record)
    requires Listed(s, r) && r in s.trace && r !in s.releases
    ensures var t := Retire(s, r, true);
            && t.trace.Keys == s.trace.Keys && t.operations == s.operations
            && Work(t, q) == Work(s, q) + if q == r then StageWork(Hooks) else 0
  {
  }

  lemma ReloadWork(s: State, r: Record, ok: bool)
    requires Enabled(s, ReloadEnds(r, ok)) && (Listed(s, r) ==> r !in s.releases)
    ensures Work(ReloadStep(s, r, ok), r) < Work(s, r)
    ensures ReloadStep(s, r, ok).trace.Keys == s.trace.Keys && ReloadStep(s, r, ok).operations == s.operations
  {
    hide Retire;
    if Listed(s, r) && s.reloads[r].Capturing? && ok { RetireWork(Committing(s, r), r, r); }
  }

  lemma ReloadOther(s: State, r: Record, ok: bool, q: Record)
    requires Enabled(s, ReloadEnds(r, ok)) && q != r && (Listed(s, r) ==> r !in s.releases)
    ensures Work(ReloadStep(s, r, ok), q) == Work(s, q)
  {
    hide Retire, PhaseWork, StageWork;
    if Listed(s, r) && s.reloads[r].Capturing? && ok { RetireWork(Committing(s, r), r, q); }
  }

  lemma ReloadShrinks(s: State, r: Record, ok: bool)
    requires Inv(s) && Enabled(s, ReloadEnds(r, ok))
    ensures Total(Step(s, ReloadEnds(r, ok))) < Total(s)
  {
    if Listed(s, r) { ListedFits(s, r); }
    hide Inv;
    ReloadWork(s, r, ok);
    hide Work, ReloadStep, Total;
    forall q | q in s.trace && q != r
      ensures Work(ReloadStep(s, r, ok), q) == Work(s, q)
    {
      ReloadOther(s, r, ok, q);
    }
    OneShrinks(s, ReloadStep(s, r, ok), r);
  }

  lemma RetiredShrinks(s: State, r: Record)
    requires Inv(s) && Enabled(s, ReloadRetired(r))
    ensures Total(Step(s, ReloadRetired(r))) < Total(s)
  {
    assert Sheets(s);
    OneShrinks(s, Step(s, ReloadRetired(r)), r);
  }

  lemma StepShrinks(s: State, a: Action)
    requires Inv(s) && Enabled(s, a) && Proceeds(s, a)
    ensures Total(Step(s, a)) < Total(s)
  {
    hide Inv, Total;
    match a
    case DoClose(r) => CloseShrinks(s, r);
    case TeardownEnds(r, failures) => TeardownShrinks(s, r, failures);
    case ReloadEnds(r, ok) => ReloadShrinks(s, r, ok);
    case ReloadRetired(r) => RetiredShrinks(s, r);
    case OperationEnds(k) => OperationShrinks(s, k);
  }

  lemma OperationShrinks(s: State, k: nat)
    requires k in s.operations
    ensures Total(Step(s, OperationEnds(k))) < Total(s)
  {
    SumSame(s, Step(s, OperationEnds(k)), s.trace.Keys);
  }

  ghost predicate OnlyProceeds(s: State, actions: seq<Action>)
    decreases |actions|
  {
    actions == [] || (Enabled(s, actions[0]) && Proceeds(s, actions[0]) && OnlyProceeds(Step(s, actions[0]), actions[1..]))
  }

  /** Left alone, the leader comes to rest within a number of steps its state bounds. */
  lemma {:induction false} SettlesDown(s: State, actions: seq<Action>)
    requires Inv(s) && OnlyProceeds(s, actions)
    ensures |actions| <= Total(s)
    decreases |actions|
  {
    hide Inv, Step, Enabled, Proceeds, Total;
    if actions != [] {
      StepKeeps(s, actions[0]);
      StepShrinks(s, actions[0]);
      SettlesDown(Step(s, actions[0]), actions[1..]);
    }
  }
}

/** The registry's maps, updated in place by the same steps. */
module SessionRegistryEngine {
  import opened SessionRegistryModel
  import opened SessionRegistrySafety

  class SessionRegistry {
    var closed: bool
    var records: map<string, Record>
    var retiring: map<string, Record>
    var releases: map<Record, Teardown>
    var reloading: map<Record, Reload>
    var reloadDrains: set<Record>
    var operations: set<nat>
    ghost var sweep: set<Record>
    ghost var trace: map<Record, seq<Mark>>
    ghost var preflushed: set<Record>

    ghost function View(): State
      reads this
    {
      State(closed, records, retiring, releases, reloading, reloadDrains, operations, sweep, trace, preflushed)
    }

    constructor ()
      ensures View() == Fresh
    {
      closed, records, retiring, releases, reloading, reloadDrains, operations := false, map[], map[], map[], map[], {}, {};
      sweep, trace, preflushed := {}, map[], {};
    }

    method Get(r: Record) returns (listed: bool)
      ensures listed == Listed(View(), r)
    {
      listed := r.session in records && records[r.session] == r;
    }

    method Withdraw(r: Record, alreadyFlushed: bool)
      requires Listed(View(), r) ==> r in trace
      modifies `records, `retiring, `releases, `trace
      ensures View() == Retire(old(View()), r, alreadyFlushed)
    {
      var listed := Get(r);
      if r in releases || !listed { return; }
      records := records - {r.session};
      retiring := retiring[r.session := r];
      releases := releases[r := Teardown(false, alreadyFlushed, r in reloadDrains, Hooks, 0)];
      trace := trace[r := trace[r] + [Withdrawn]];
    }

    method Close(r: Record)
      requires Enabled(View(), DoClose(r))
      modifies this
      ensures View() == Step(old(View()), DoClose(r))
    {
      Withdraw(r, false);
      sweep := sweep - {r};
    }

    /** `published` is false where the source throws. */
    method PublishRecord(r: Record, live: bool) returns (published: bool)
      requires Enabled(View(), DoPublish(r, live))
      modifies this
      ensures View() == Publish(old(View()), r, live)
      ensures published ==> Listed(View(), r)
    {
      var listed := Get(r);
      if listed { return false; }
      if closed || !live || r.session in records || r.session in retiring {
        releases := releases[r := Teardown(true, false, false, Draining, 0)];
        trace := trace[r := [Refused]];
        return false;
      }
      records := records[r.session := r];
      trace := trace[r := [Published]];
      return true;
    }

    method StartReload(r: Record) returns (started: bool)
      requires Enabled(View(), DoReload(r))
      modifies this
      ensures View() == BeginReload(old(View()), r)
      ensures started == old(AcceptsInput(View(), r))
    {
      var listed := Get(r);
      if closed || !listed || r in reloading { return false; }
      reloading := reloading[r := Cancelling];
      reloadDrains := reloadDrains + {r};
      return true;
    }

    /** `finishPreflight`, then the end of `reload`. */
    method FinishReload(r: Record)
      modifies `reloadDrains, `reloading
      ensures View() == EndReload(old(View()), r)
    {
      reloadDrains := reloadDrains - {r};
      reloading := reloading - {r};
    }

    /** The borrow is released before the reload waits for its own retirement. */
    method Commit(r: Record)
      requires Listed(View(), r) ==> r in trace
      modifies this
      ensures var s := old(View()); View() == Retire(s.(reloads := s.reloads[r := Retiring],
                                                        borrowed := s.borrowed - {r}), r, true)
    {
      reloadDrains := reloadDrains - {r};
      reloading := reloading[r := Retiring];
      Withdraw(r, true);
    }

    /** The continuation of `reload` after one of its waits. */
    method ContinueReload(r: Record, ok: bool)
      requires Enabled(View(), ReloadEnds(r, ok))
      modifies this
      ensures View() == ReloadStep(old(View()), r, ok)
    {
      hide Retire;
      if reloading[r].Cancelling? {
        reloading := reloading[r := Settling(ok)];
        return;
      }
      var listed := Get(r);
      if !ok || !listed || reloading[r] == Settling(false) { FinishReload(r); return; }
      if reloading[r].Settling? { reloading := reloading[r := Idling]; }
      else if reloading[r].Idling? { reloading := reloading[r := Preflush]; }
      else if reloading[r].Preflush? {
        reloading := reloading[r := Capturing];
        preflushed := preflushed + {r};
      } else {
        Commit(r);
      }
    }

    /** The continuation of a teardown after one of its waits. */
    method ContinueTeardown(r: Record, failures: nat)
      requires Enabled(View(), TeardownEnds(r, failures))
      modifies this
      ensures View() == TeardownStep(old(View()), r, failures)
    {
      var t := releases[r];
      var next, mark := Finished, [];
      match t.stage {
        case Hooks => next := Draining;
        case Draining => next, mark := if t.refused || t.flushed then Disposing else Flushing, [Drained];
        case Flushing => next, mark := Disposing, [Flushed];
        case Disposing =>
          mark := [Disposed];
          if r.session in retiring && retiring[r.session] == r { retiring := retiring - {r.session}; }
      }
      releases := releases[r := t.(stage := next, failures := t.failures + failures)];
      trace := trace[r := trace[r] + mark];
    }

    /** `disconnect`: every record of the client is withdrawn, and no other. */
    method Disconnect(client: nat)
      requires Inv(View())
      modifies this
      ensures Inv(View()) && closed == old(closed)
      ensures Parted(old(View()), View(), client, {})
    {
      var ids := records.Keys;
      while ids != {}
        invariant Inv(View()) && closed == old(closed) && ids <= old(records).Keys && Parted(old(View()), View(), client, ids)
        decreases |ids|
      {
        hide Inv, Step;
        var id :| id in ids;
        LeftAlone(old(View()), View(), client, ids, id);
        var r := records[id];
        if r.client == client {
          WithdrawOne(old(View()), View(), client, ids, id);
          CloseKeeps(View(), r);
          Close(r);
        } else {
          hide Parted;
          Skip(old(View()), View(), client, ids, id);
        }
        ids := ids - {id};
      }
    }

    /** `dispose`: input closes first, then every record is withdrawn. A second call changes nothing. */
    method Dispose()
      requires Inv(View())
      modifies this
      ensures Inv(View()) && closed
      ensures if old(closed) then View() == old(View()) else sweep == {} && Found(old(View()), View(), {})
    {
      if closed { return; }
      hide Inv, Step, Found;
      FoundAll(View());
      ShutKeeps(View());
      closed := true;
      sweep := records.Values;
      var todo := records.Values;
      while todo != {}
        invariant Inv(View()) && closed && sweep == todo && Found(old(View()), View(), todo)
        decreases |todo|
      {
        var r :| r in todo;
        SweepOne(old(View()), View(), todo, r);
        CloseKeeps(View(), r);
        CloseSweep(View(), r);
        Close(r);
        todo := todo - {r};
      }
    }
  }

  lemma CloseSweep(s: State, r: Record)
    requires Enabled(s, DoClose(r))
    ensures Step(s, DoClose(r)).sweep == s.sweep - {r} && Step(s, DoClose(r)).closed == s.closed
  {
  }

  /** Of the ids of `s`, exactly the client's outside `ids` have been withdrawn in `t`. */
  ghost predicate Parted(s: State, t: State, client: nat, ids: set<string>) {
    && (forall id :: id in t.records <==> id in s.records && (id in ids || s.records[id].client != client))
    && (forall id :: id in t.records ==> t.records[id] == s.records[id])
    && forall id :: id in s.records && id !in ids && s.records[id].client == client ==> id in t.retiring && t.retiring[id] == s.records[id]
  }

  lemma LeftAlone(s: State, t: State, client: nat, ids: set<string>, id: string)
    requires Inv(t) && Parted(s, t, client, ids) && id in ids && ids <= s.records.Keys
    ensures id in t.records && t.records[id] == s.records[id] && t.records[id].session == id
    ensures t.records[id] in t.trace && t.records[id] !in t.releases
  {
    assert Sheets(t);
    ListedFits(t, t.records[id]);
  }

  lemma WithdrawOne(s: State, t: State, client: nat, ids: set<string>, id: string)
    requires Parted(s, t, client, ids) && id in ids && id in t.records && t.records[id] == s.records[id]
    requires var r := t.records[id]; r.session == id && r.client == client && r in t.trace && r !in t.releases
    ensures Parted(s, Step(t, DoClose(t.records[id])), client, ids - {id})
  {
  }

  lemma Skip(s: State, t: State, client: nat, ids: set<string>, id: string)
    requires Parted(s, t, client, ids) && id in ids && id in s.records && s.records[id].client != client
    ensures Parted(s, t, client, ids - {id})
  {
  }

  /** The records of `s` outside `todo` have been withdrawn in `t`; the others are still published. */
  ghost predicate Found(s: State, t: State, todo: set<Record>) {
    && todo <= s.records.Values
    && (forall id :: id in t.records ==> id in s.records && t.records[id] == s.records[id] && t.records[id] in todo)
    && forall id :: id in s.records ==>
         if s.records[id] in todo then id in t.records else id in t.retiring && t.retiring[id] == s.records[id]
  }

  lemma FoundAll(s: State)
    requires !s.closed
    ensures Found(s, Shut(s), s.records.Values)
  {
  }

  lemma SweepOne(s: State, t: State, todo: set<Record>, r: Record)
    requires Inv(s) && Inv(t) && Found(s, t, todo) && r in todo
    ensures Enabled(t, DoClose(r)) && Found(s, Step(t, DoClose(r)), todo - {r})
  {
    var id :| id in s.records && s.records[id] == r;
    assert Sheets(s) && Listed(t, r);
    ListedFits(t, r);
    hide Inv, Sheets, AllFit;
    SweepFound(s, t, todo, r);
  }

  lemma SweepFound(s: State, t: State, todo: set<Record>, r: Record)
    requires Found(s, t, todo) && r in todo && Listed(t, r) && r in t.trace && r !in t.releases
    requires forall id :: id in s.records ==> s.records[id].session == id
    ensures Found(s, Step(t, DoClose(r)), todo - {r})
  {
  }
}
