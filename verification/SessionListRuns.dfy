/**
 * The picker's inspections as they run: requests share and queue loads on two
 * lanes, a load reads some prefix of its session's log and lands later, and
 * live events, projections and retained passes happen at any point between.
 */
module SessionListRuns {
  import opened Options
  import opened SessionList
  import opened JsText

  /** A queued job waits for `after`, the job before it on its lane. */
  datatype Phase = Queued | Loading | Loaded(length: nat) | Landed(ok: bool) | Settled(ok: bool)

  /** One call of `inspect` that loads; its promise settles with the phase. */
  datatype Job = Job(id: string, revision: Option<string>, lane: nat, after: Option<nat>, phase: Phase)

  /** A call that asks again once a pending inspection of another revision settles. */
  datatype Retry = Retry(id: string, revision: Option<string>, job: nat)

  /** `inspections`, `inspectionTails` and `nextInspection`; `tails` names the last job of each lane. */
  datatype Loads = Loads(jobs: seq<Job>, inspections: map<string, nat>, tails: seq<Option<nat>>, next: nat, retries: seq<Retry>)

  /** A session's log, and what the index has been told of it: see `Reflects`. */
  datatype Session = Session(createdAt: int, log: seq<Event>, known: seq<Event>, blind: bool)

  datatype World = World(index: Index, sessions: map<string, Session>, loads: Loads)

  const NoLoads := Loads([], map[], [None, None], 0, [])

  /** Any sessions with any logs; the index knows nothing yet. */
  function Start(logs: map<string, (int, seq<Event>)>): World {
    World(Fresh, map id | id in logs :: Session(logs[id].0, logs[id].1, [], false), NoLoads)
  }

  // ----- Loads -----

  predicate Running(phase: Phase) {
    phase.Loading? || phase.Loaded? || phase.Landed?
  }

  predicate Remembered(s: Index, id: string, revision: Option<string>) {
    revision.Some? && id in s.revisions && s.revisions[id] == revision.value && Resident(s, id)
  }

  function NewJob(l: Loads, id: string, revision: Option<string>): Job
    requires |l.tails| == INSPECTION_LANES
  {
    var lane := l.next % INSPECTION_LANES;
    Job(id, revision, lane, l.tails[lane], Queued)
  }

  /** `inspect`, for a revision the index does not know: share, ask again later, or queue a load. */
  function Asked(l: Loads, id: string, revision: Option<string>): Loads
    requires |l.tails| == INSPECTION_LANES
  {
    if id in l.inspections && l.inspections[id] < |l.jobs| then
      if l.jobs[l.inspections[id]].revision == revision then l
      else l.(retries := l.retries + [Retry(id, revision, l.inspections[id])])
    else
      var job := NewJob(l, id, revision);
      l.(jobs := l.jobs + [job], inspections := l.inspections[id := |l.jobs|],
         tails := l.tails[job.lane := Some(|l.jobs|)], next := l.next + 1)
  }

  function Moved(l: Loads, j: nat, phase: Phase): Loads
    requires j < |l.jobs|
  {
    l.(jobs := l.jobs[j := l.jobs[j].(phase := phase)])
  }

  // ----- Steps -----

  datatype Action =
    | Append(id: string, event: Event, live: bool)
    | Request(id: string, revision: Option<string>)
    | RequestAgain(retry: nat)
    | Begin(job: nat)
    | Read(job: nat, length: nat)
    | Missing(job: nat)
    | Fail(job: nat)
    | LandLog(job: nat)
    | Finish(job: nat)
    | Project(id: string)
    | RetainPass(candidates: int)

  predicate InPhase(w: World, j: nat, phase: Phase) {
    j < |w.loads.jobs| && w.loads.jobs[j].phase == phase
  }

  predicate Ready(l: Loads, j: nat) {
    && j < |l.jobs| && l.jobs[j].phase.Queued?
    && (l.jobs[j].after.Some? ==> l.jobs[j].after.value < |l.jobs| && l.jobs[l.jobs[j].after.value].phase.Settled?)
  }

  predicate Enabled(w: World, a: Action) {
    var l := w.loads;
    match a
    case Append(id, _, _) => id in w.sessions
    case Request(id, _) => id in w.sessions && |l.tails| == INSPECTION_LANES
    case RequestAgain(k) =>
      && k < |l.retries| && |l.tails| == INSPECTION_LANES && l.retries[k].id in w.sessions
      && InPhase(w, l.retries[k].job, Settled(true))
    case Begin(j) => Ready(l, j)
    case Read(j, n) => InPhase(w, j, Loading) && l.jobs[j].id in w.sessions && n <= |w.sessions[l.jobs[j].id].log|
    case Missing(j) => InPhase(w, j, Loading)
    case Fail(j) => InPhase(w, j, Loading)
    case LandLog(j) =>
      && j < |l.jobs| && l.jobs[j].phase.Loaded? && l.jobs[j].id in w.sessions
      && l.jobs[j].phase.length <= |w.sessions[l.jobs[j].id].log|
    case Finish(j) => j < |l.jobs| && l.jobs[j].phase.Landed?
    case _ => true
  }

  /** `inspect` as the caller sees it. */
  function Inspecting(w: World, id: string, revision: Option<string>): World
    requires |w.loads.tails| == INSPECTION_LANES
  {
    if id !in w.loads.inspections && Remembered(w.index, id, revision) then w.(index := Touch(w.index, id))
    else w.(loads := Asked(w.loads, id, revision))
  }

  /** The events a landing load read, and those its session's log has gained since. */
  function ReadPart(w: World, j: nat): seq<Event>
    requires Enabled(w, LandLog(j))
  {
    w.sessions[w.loads.jobs[j].id].log[..w.loads.jobs[j].phase.length]
  }

  function MissedPart(w: World, j: nat): seq<Event>
    requires Enabled(w, LandLog(j))
  {
    w.sessions[w.loads.jobs[j].id].log[w.loads.jobs[j].phase.length..]
  }

  function Landing(w: World, j: nat): World
    requires Enabled(w, LandLog(j))
  {
    var job, events := w.loads.jobs[j], ReadPart(w, j);
    var x := w.sessions[job.id];
    var blind := job.id in w.index.seen && FirstPrompt(events) == "";
    w.(index := Touch(Land(w.index, job.id, x.createdAt, events, job.revision), job.id),
       sessions := w.sessions[job.id := x.(known := events, blind := blind)], loads := Moved(w.loads, j, Landed(true)))
  }

  function Step(w: World, a: Action): World
    requires Enabled(w, a)
  {
    var l := w.loads;
    match a
    case Append(id, e, live) =>
      var x := w.sessions[id];
      var grown := x.(log := x.log + [e]);
      if live then w.(index := Record(w.index, id, x.createdAt, e), sessions := w.sessions[id := grown.(known := x.known + [e])])
      else w.(sessions := w.sessions[id := grown])
    case Request(id, revision) => Inspecting(w, id, revision)
    case RequestAgain(k) =>
      Inspecting(w.(loads := l.(retries := l.retries[..k] + l.retries[k + 1..])), l.retries[k].id, l.retries[k].revision)
    case Begin(j) => w.(loads := Moved(l, j, Loading))
    case Read(j, n) => w.(loads := Moved(l, j, Loaded(n)))
    case Missing(j) => w.(index := Touch(w.index, l.jobs[j].id), loads := Moved(l, j, Landed(true)))
    case Fail(j) => w.(loads := Moved(l, j, Landed(false)))
    case LandLog(j) => Landing(w, j)
    case Finish(j) => w.(loads := Moved(l, j, Settled(l.jobs[j].phase.ok)).(inspections := l.inspections - {l.jobs[j].id}))
    case Project(id) => w.(index := Touch(w.index, id))
    case RetainPass(candidates) => w.(index := Retain(w.index, candidates))
  }

  // ----- What every run keeps of the loads -----

  /** `after` is the job before on the lane, if there is one. */
  ghost predicate Chained(jobs: seq<Job>) {
    && (forall j :: 0 <= j < |jobs| ==>
          jobs[j].lane < INSPECTION_LANES
          && (jobs[j].after.Some? ==> jobs[j].after.value < j && jobs[jobs[j].after.value].lane == jobs[j].lane))
    && forall i, j :: 0 <= i < j < |jobs| && jobs[i].lane == jobs[j].lane ==> jobs[j].after.Some? && i <= jobs[j].after.value
  }

  ghost predicate Tailed(jobs: seq<Job>, tails: seq<Option<nat>>) {
    && |tails| == INSPECTION_LANES
    && (forall lane :: 0 <= lane < |tails| && tails[lane].Some? ==>
          tails[lane].value < |jobs| && jobs[tails[lane].value].lane == lane)
    && forall i :: 0 <= i < |jobs| && jobs[i].lane < |tails| ==> tails[jobs[i].lane].Some? && i <= tails[jobs[i].lane].value
  }

  /** A job begins only when every earlier one of its lane has settled. */
  ghost predicate InTurn(jobs: seq<Job>) {
    forall i, j :: 0 <= i < j < |jobs| && jobs[i].lane == jobs[j].lane && !jobs[j].phase.Queued? ==> jobs[i].phase.Settled?
  }

  /** `inspections` names exactly the unsettled jobs, one for each session. */
  ghost predicate Shared(jobs: seq<Job>, inspections: map<string, nat>) {
    && (forall id :: id in inspections ==>
          inspections[id] < |jobs| && jobs[inspections[id]].id == id && !jobs[inspections[id]].phase.Settled?)
    && forall j :: 0 <= j < |jobs| && !jobs[j].phase.Settled? ==> jobs[j].id in inspections && inspections[jobs[j].id] == j
  }

  ghost predicate LoadsFit(l: Loads) {
    Chained(l.jobs) && Tailed(l.jobs, l.tails) && InTurn(l.jobs) && Shared(l.jobs, l.inspections)
  }

  lemma AddedChained(jobs: seq<Job>, tails: seq<Option<nat>>, job: Job)
    requires Chained(jobs) && Tailed(jobs, tails) && job.lane < INSPECTION_LANES && job.after == tails[job.lane]
    ensures Chained(jobs + [job])
  {
  }

  lemma AddedTailed(jobs: seq<Job>, tails: seq<Option<nat>>, job: Job)
    requires Tailed(jobs, tails) && job.lane < INSPECTION_LANES
    ensures Tailed(jobs + [job], tails[job.lane := Some(|jobs|)])
  {
  }

  lemma AddedInTurn(jobs: seq<Job>, job: Job)
    requires InTurn(jobs) && job.phase.Queued?
    ensures InTurn(jobs + [job])
  {
  }

  lemma AddedShared(jobs: seq<Job>, inspections: map<string, nat>, job: Job)
    requires Shared(jobs, inspections) && job.id !in inspections && !job.phase.Settled?
    ensures Shared(jobs + [job], inspections[job.id := |jobs|])
  {
  }

  lemma AskedFits(l: Loads, id: string, revision: Option<string>)
    requires LoadsFit(l)
    ensures LoadsFit(Asked(l, id, revision))
  {
    assert id in l.inspections ==> l.inspections[id] < |l.jobs|;
    assert |l.tails| == INSPECTION_LANES;
    if id in l.inspections {
      hide Chained, Tailed, InTurn, Shared;
      return;
    }
    var job := NewJob(l, id, revision);
    hide Chained, Tailed, InTurn, Shared;
    AddedChained(l.jobs, l.tails, job);
    AddedTailed(l.jobs, l.tails, job);
    AddedInTurn(l.jobs, job);
    AddedShared(l.jobs, l.inspections, job);
  }

  ghost predicate SameShape(a: seq<Job>, b: seq<Job>) {
    |a| == |b| && forall i :: 0 <= i < |a| ==> b[i] == a[i].(phase := b[i].phase)
  }

  lemma ShapeKeeps(a: seq<Job>, b: seq<Job>, tails: seq<Option<nat>>)
    requires Chained(a) && Tailed(a, tails) && SameShape(a, b)
    ensures Chained(b) && Tailed(b, tails)
  {
  }

  lemma MovedShape(jobs: seq<Job>, j: nat, phase: Phase)
    requires j < |jobs|
    ensures SameShape(jobs, jobs[j := jobs[j].(phase := phase)])
  {
  }

  /** A job moves on in its turn. */
  lemma MovedInTurn(jobs: seq<Job>, j: nat, phase: Phase)
    requires InTurn(jobs) && j < |jobs| && (jobs[j].phase.Settled? ==> phase.Settled?)
    requires !phase.Queued? ==> forall i :: 0 <= i < j && jobs[i].lane == jobs[j].lane ==> jobs[i].phase.Settled?
    ensures InTurn(jobs[j := jobs[j].(phase := phase)])
  {
  }

  lemma TurnComes(jobs: seq<Job>, j: nat)
    requires Chained(jobs) && InTurn(jobs) && j < |jobs|
    requires !jobs[j].phase.Queued? || (jobs[j].after.Some? ==> jobs[jobs[j].after.value].phase.Settled?)
    ensures forall i :: 0 <= i < j && jobs[i].lane == jobs[j].lane ==> jobs[i].phase.Settled?
  {
  }

  lemma MovedShared(jobs: seq<Job>, inspections: map<string, nat>, j: nat, phase: Phase)
    requires Shared(jobs, inspections) && j < |jobs| && !phase.Settled? && !jobs[j].phase.Settled?
    ensures Shared(jobs[j := jobs[j].(phase := phase)], inspections)
  {
  }

  lemma FinishedShared(jobs: seq<Job>, inspections: map<string, nat>, j: nat, phase: Phase)
    requires Shared(jobs, inspections) && j < |jobs| && phase.Settled? && !jobs[j].phase.Settled?
    ensures Shared(jobs[j := jobs[j].(phase := phase)], inspections - {jobs[j].id})
  {
  }

  lemma MovedFits(l: Loads, j: nat, phase: Phase)
    requires LoadsFit(l) && j < |l.jobs| && !phase.Settled? && !phase.Queued? && !l.jobs[j].phase.Settled?
    requires l.jobs[j].phase.Queued? ==> Ready(l, j)
    ensures LoadsFit(Moved(l, j, phase))
  {
    hide Chained, Tailed, InTurn, Shared, SameShape;
    TurnComes(l.jobs, j);
    MovedShape(l.jobs, j, phase);
    ShapeKeeps(l.jobs, Moved(l, j, phase).jobs, l.tails);
    MovedInTurn(l.jobs, j, phase);
    MovedShared(l.jobs, l.inspections, j, phase);
  }

  lemma FinishFits(l: Loads, j: nat)
    requires LoadsFit(l) && j < |l.jobs| && l.jobs[j].phase.Landed?
    ensures LoadsFit(Moved(l, j, Settled(l.jobs[j].phase.ok)).(inspections := l.inspections - {l.jobs[j].id}))
  {
    var phase := Settled(l.jobs[j].phase.ok);
    hide Chained, Tailed, InTurn, Shared, SameShape;
    TurnComes(l.jobs, j);
    MovedShape(l.jobs, j, phase);
    ShapeKeeps(l.jobs, Moved(l, j, phase).jobs, l.tails);
    MovedInTurn(l.jobs, j, phase);
    FinishedShared(l.jobs, l.inspections, j, phase);
  }

  lemma StepLoads(w: World, a: Action)
    requires LoadsFit(w.loads) && Enabled(w, a)
    ensures LoadsFit(Step(w, a).loads)
  {
    hide LoadsFit, Asked, Moved, Land, Record, Touch, Retain;
    match a
    case Request(id, revision) => AskedFits(w.loads, id, revision);
    case RequestAgain(k) =>
      var l := w.loads.(retries := w.loads.retries[..k] + w.loads.retries[k + 1..]);
      assert LoadsFit(l) by { SameFit(w.loads, l); }
      AskedFits(l, w.loads.retries[k].id, w.loads.retries[k].revision);
    case Begin(j) => MovedFits(w.loads, j, Loading);
    case Read(j, n) => MovedFits(w.loads, j, Loaded(n));
    case Missing(j) => MovedFits(w.loads, j, Landed(true));
    case Fail(j) => MovedFits(w.loads, j, Landed(false));
    case LandLog(j) => MovedFits(w.loads, j, Landed(true));
    case Finish(j) => FinishFits(w.loads, j);
    case _ =>
  }

  lemma SameFit(l: Loads, m: Loads)
    requires LoadsFit(l) && m == l.(retries := m.retries)
    ensures LoadsFit(m)
  {
  }

  // ----- What every run keeps of the index -----

  /** The index reflects what it was told, and has seen no prompt that the log lacks. */
  ghost predicate SessionFits(s: Index, id: string, x: Session) {
    Reflects(s, id, x.createdAt, x.known, x.blind) && (id in s.seen ==> FirstPrompt(x.log) != "")
  }

  ghost predicate IndexFits(s: Index, sessions: map<string, Session>) {
    && Inv(s) && s.limit > 0
    && forall id :: id in sessions ==> SessionFits(s, id, sessions[id])
  }

  /** Jobs and retries are of sessions there are, and a load read no more than its log holds. */
  ghost predicate JobsFit(l: Loads, sessions: map<string, Session>) {
    && (forall j :: 0 <= j < |l.jobs| ==>
          l.jobs[j].id in sessions && (l.jobs[j].phase.Loaded? ==> l.jobs[j].phase.length <= |sessions[l.jobs[j].id].log|))
    && forall k :: 0 <= k < |l.retries| ==> l.retries[k].id in sessions
  }

  ghost predicate WorldInv(w: World) {
    IndexFits(w.index, w.sessions) && LoadsFit(w.loads) && JobsFit(w.loads, w.sessions)
  }

  /** What is done for session `id` leaves the others fitting. */
  lemma OthersFit(s: Index, a: SessionList.Action, sessions: map<string, Session>, id: string, x: Session)
    requires IndexFits(s, sessions) && id in sessions && a.DoRetain? == false && a.id == id
    requires SessionFits(SessionList.Step(s, a), id, x) && SessionList.Step(s, a).limit > 0
    ensures IndexFits(SessionList.Step(s, a), sessions[id := x])
  {
    SessionList.StepKeeps(s, a);
    hide Reflects, SessionList.Step, Inv;
    forall q | q in sessions && q != id
      ensures SessionFits(SessionList.Step(s, a), q, sessions[q])
    {
      assert SessionFits(s, q, sessions[q]);
      OtherReflects(s, a, q, sessions[q].createdAt, sessions[q].known, sessions[q].blind);
      SeenOthers(s, a, q);
    }
  }

  lemma SeenOthers(s: Index, a: SessionList.Action, q: string)
    requires !a.DoRetain? && a.id != q
    ensures q in SessionList.Step(s, a).seen <==> q in s.seen
  {
    hide FirstPrompt, LastTitle, Latest, PromptOf, TitleOf, Newest, Renewed, Dropped, Ids, Find;
  }

  lemma LimitStays(s: Index, a: SessionList.Action)
    ensures SessionList.Step(s, a).limit >= s.limit
  {
    hide FirstPrompt, LastTitle, Latest, PromptOf, TitleOf, Newest, Renewed, Dropped, Ids, Find;
  }

  lemma TouchFits(s: Index, sessions: map<string, Session>, id: string)
    requires IndexFits(s, sessions)
    ensures IndexFits(Touch(s, id), sessions)
  {
    TouchKeeps(s, id);
    assert Touch(s, id).seen == s.seen && Touch(s, id).limit == s.limit;
    assert Touch(s, id).titles == s.titles && Touch(s, id).activity == s.activity;
    hide Touch, Inv, Find, FirstPrompt, LastTitle, Latest;
    forall q | q in sessions
      ensures SessionFits(Touch(s, id), q, sessions[q])
    {
      assert SessionFits(s, q, sessions[q]);
    }
  }

  lemma RetainFits(s: Index, sessions: map<string, Session>, candidates: int)
    requires IndexFits(s, sessions)
    ensures IndexFits(Retain(s, candidates), sessions)
  {
    SessionList.StepKeeps(s, DoRetain(candidates));
    hide Inv, Find, FirstPrompt, LastTitle, Latest;
    forall q | q in sessions
      ensures SessionFits(Retain(s, candidates), q, sessions[q])
    {
      assert SessionFits(s, q, sessions[q]);
    }
  }

  lemma RecordFits(s: Index, id: string, x: Session, e: Event)
    requires Inv(s) && SessionFits(s, id, x)
    ensures SessionFits(Record(s, id, x.createdAt, e), id, x.(log := x.log + [e], known := x.known + [e]))
  {
    RecordReflects(s, id, x.createdAt, x.known, x.blind, e);
    FirstPromptNext(x.known, e);
    FirstPromptNext(x.log, e);
    hide FirstPrompt, LastTitle, Latest, Record, Inv;
  }

  lemma LandFits(s: Index, id: string, x: Session, n: nat, revision: Option<string>)
    requires Inv(s) && SessionFits(s, id, x) && n <= |x.log|
    ensures var events := x.log[..n];
            SessionFits(Land(s, id, x.createdAt, events, revision), id,
                        x.(known := events, blind := id in s.seen && FirstPrompt(events) == ""))
  {
    LandReflects(s, id, x.createdAt, x.log[..n], revision);
    FirstPromptJoin(x.log[..n], x.log[n..]);
    assert x.log == x.log[..n] + x.log[n..];
    hide FirstPrompt, LastTitle, Latest, Land, Inv;
  }

  lemma AppendKeeps(w: World, id: string, e: Event, live: bool)
    requires IndexFits(w.index, w.sessions) && id in w.sessions
    ensures IndexFits(Step(w, Append(id, e, live)).index, Step(w, Append(id, e, live)).sessions)
  {
    var x := w.sessions[id];
    assert SessionFits(w.index, id, x);
    if live {
      RecordFits(w.index, id, x, e);
      LimitStays(w.index, DoRecord(id, x.createdAt, e));
      hide Inv, SessionFits, Record;
      OthersFit(w.index, DoRecord(id, x.createdAt, e), w.sessions, id, x.(log := x.log + [e], known := x.known + [e]));
    } else {
      FirstPromptNext(x.log, e);
      hide Reflects, FirstPrompt, Inv;
    }
  }

  lemma LandingKeeps(w: World, j: nat)
    requires IndexFits(w.index, w.sessions) && Enabled(w, LandLog(j))
    ensures IndexFits(Landing(w, j).index, Landing(w, j).sessions)
  {
    var job := w.loads.jobs[j];
    var x, events := w.sessions[job.id], ReadPart(w, j);
    assert SessionFits(w.index, job.id, x);
    LandFits(w.index, job.id, x, job.phase.length, job.revision);
    var y := x.(known := events, blind := job.id in w.index.seen && FirstPrompt(events) == "");
    var a := DoLand(job.id, x.createdAt, events, job.revision);
    LimitStays(w.index, a);
    hide Inv, SessionFits, Land, FirstPrompt, Touch;
    OthersFit(w.index, a, w.sessions, job.id, y);
    TouchFits(SessionList.Step(w.index, a), w.sessions[job.id := y], job.id);
  }

  lemma StepTold(w: World, a: Action)
    requires IndexFits(w.index, w.sessions) && Enabled(w, a)
    ensures IndexFits(Step(w, a).index, Step(w, a).sessions)
  {
    hide IndexFits, Record, Land, Touch, Retain, FirstPrompt, Asked, Remembered;
    match a
    case Append(id, e, live) => AppendKeeps(w, id, e, live);
    case Request(id, _) => TouchFits(w.index, w.sessions, id);
    case RequestAgain(k) => TouchFits(w.index, w.sessions, w.loads.retries[k].id);
    case Missing(j) => TouchFits(w.index, w.sessions, w.loads.jobs[j].id);
    case LandLog(j) => LandingKeeps(w, j);
    case Project(id) => TouchFits(w.index, w.sessions, id);
    case RetainPass(candidates) => RetainFits(w.index, w.sessions, candidates);
    case _ =>
  }

  lemma StepJobs(w: World, a: Action)
    requires JobsFit(w.loads, w.sessions) && Enabled(w, a)
    ensures JobsFit(Step(w, a).loads, Step(w, a).sessions)
  {
    hide Record, Land, Touch, Retain, FirstPrompt, Remembered;
  }

  lemma {:induction false} StepKeeps(w: World, a: Action)
    requires WorldInv(w) && Enabled(w, a)
    ensures WorldInv(Step(w, a))
  {
    hide IndexFits, LoadsFit, JobsFit, Step;
    StepTold(w, a);
    StepLoads(w, a);
    StepJobs(w, a);
  }

  // ----- Every run -----

  ghost predicate RunFrom(w: World, actions: seq<Action>)
    decreases |actions|
  {
    actions == [] || (Enabled(w, actions[0]) && RunFrom(Step(w, actions[0]), actions[1..]))
  }

  ghost function After(w: World, actions: seq<Action>): World
    requires RunFrom(w, actions)
    decreases |actions|
  {
    if actions == [] then w else After(Step(w, actions[0]), actions[1..])
  }

  lemma {:induction false} RunKeeps(w: World, actions: seq<Action>)
    requires WorldInv(w) && RunFrom(w, actions)
    ensures WorldInv(After(w, actions))
    decreases |actions|
  {
    hide WorldInv, Step, Enabled;
    if actions != [] {
      StepKeeps(w, actions[0]);
      RunKeeps(Step(w, actions[0]), actions[1..]);
    }
  }

  lemma StartInv(logs: map<string, (int, seq<Event>)>)
    ensures WorldInv(Start(logs))
  {
    FreshInv();
  }

  /**
   * In every run, what the picker shows of a session is the projection of what
   * the index was told: the log the last inspection read and what was recorded
   * live after it landed, without a first prompt that was evicted or lost.
   */
  lemma {:induction false} ShownExactly(logs: map<string, (int, seq<Event>)>, actions: seq<Action>, id: string)
    requires RunFrom(Start(logs), actions) && id in After(Start(logs), actions).sessions
    ensures var w := After(Start(logs), actions);
            var x := w.sessions[id];
            Shown(w.index, id, x.createdAt)
            == Projection(if Resident(w.index, id) && !x.blind then FirstPrompt(x.known) else "",
                          LastTitle(x.known), Latest(x.known, x.createdAt))
  {
    StartInv(logs);
    RunKeeps(Start(logs), actions);
    var w := After(Start(logs), actions);
    hide RunFrom, After, Start;
    assert SessionFits(w.index, id, w.sessions[id]);
  }

  /**
   * In every run, an inspection that lands leaves the index agreeing with the
   * session's log if and only if the events it missed are harmless.
   */
  lemma {:induction false} LandingAgrees(logs: map<string, (int, seq<Event>)>, actions: seq<Action>, j: nat)
    requires RunFrom(Start(logs), actions) && Enabled(After(Start(logs), actions), LandLog(j))
    ensures var w := After(Start(logs), actions);
            var id := w.loads.jobs[j].id;
            Tracks(Landing(w, j).index, id, w.sessions[id].createdAt, w.sessions[id].log)
            <==> Harmless(ReadPart(w, j), MissedPart(w, j), w.sessions[id].createdAt)
  {
    StartInv(logs);
    RunKeeps(Start(logs), actions);
    hide RunFrom, After, Start, Landing, Tracks, Harmless, WorldInv;
    LandingDecides(After(Start(logs), actions), j);
  }

  lemma LandedIndex(s: Index, id: string, createdAt: int, read: seq<Event>, missed: seq<Event>, revision: Option<string>)
    requires Inv(s) && s.limit > 0 && (id in s.seen ==> FirstPrompt(read + missed) != "")
    ensures Tracks(Touch(Land(s, id, createdAt, read, revision), id), id, createdAt, read + missed)
            <==> Harmless(read, missed, createdAt)
  {
    InspectTracks(s, id, createdAt, read, missed, revision);
    LandKeeps(s, id, createdAt, read, revision);
    hide Inv, Land, Harmless, Tracks, FirstPrompt, Touch;
    TouchTracks(Land(s, id, createdAt, read, revision), id, id, createdAt, read + missed);
  }

  lemma LandingDecides(w: World, j: nat)
    requires WorldInv(w) && Enabled(w, LandLog(j))
    ensures var id := w.loads.jobs[j].id;
            Tracks(Landing(w, j).index, id, w.sessions[id].createdAt, w.sessions[id].log)
            <==> Harmless(ReadPart(w, j), MissedPart(w, j), w.sessions[id].createdAt)
  {
    hide WorldInv, Landing, ReadPart, MissedPart, Harmless, Tracks, FirstPrompt, Touch, Land;
    var job := w.loads.jobs[j];
    FitsHere(w, job.id);
    LandingIs(w, j);
    LandedIndex(w.index, job.id, w.sessions[job.id].createdAt, ReadPart(w, j), MissedPart(w, j), job.revision);
  }

  lemma FitsHere(w: World, id: string)
    requires WorldInv(w) && id in w.sessions
    ensures Inv(w.index) && w.index.limit > 0 && (id in w.index.seen ==> FirstPrompt(w.sessions[id].log) != "")
  {
    assert SessionFits(w.index, id, w.sessions[id]);
    hide Inv, Reflects, LoadsFit, JobsFit, FirstPrompt;
  }

  lemma LandingIs(w: World, j: nat)
    requires Enabled(w, LandLog(j))
    ensures var job := w.loads.jobs[j];
            var x := w.sessions[job.id];
            && Landing(w, j).index == Touch(Land(w.index, job.id, x.createdAt, ReadPart(w, j), job.revision), job.id)
            && ReadPart(w, j) + MissedPart(w, j) == x.log
  {
    hide Touch, Land, FirstPrompt;
  }

  /** Reading an entry changes nothing an index shows. */
  lemma TouchTracks(s: Index, touched: string, id: string, createdAt: int, log: seq<Event>)
    requires Inv(s)
    ensures Tracks(Touch(s, touched), id, createdAt, log) <==> Tracks(s, id, createdAt, log)
  {
    TouchKeeps(s, touched);
    assert Touch(s, touched).seen == s.seen && Touch(s, touched).titles == s.titles && Touch(s, touched).activity == s.activity;
    hide Touch, Inv, Find, FirstPrompt, LastTitle, Latest;
  }

  /** Every inspection of the session that lands missed nothing harmful, and what its log gains is recorded. */
  ghost predicate AllHarmless(w: World, actions: seq<Action>, id: string)
    requires RunFrom(w, actions)
    decreases |actions|
  {
    actions == [] || (
      var a := actions[0];
      && (a.Append? && a.id == id ==> a.live)
      && (a.LandLog? && w.loads.jobs[a.job].id == id ==> Harmless(ReadPart(w, a.job), MissedPart(w, a.job), w.sessions[id].createdAt))
      && AllHarmless(Step(w, a), actions[1..], id))
  }

  ghost predicate TracksIt(w: World, id: string) {
    id in w.sessions && Tracks(w.index, id, w.sessions[id].createdAt, w.sessions[id].log)
  }

  lemma AppendTracks(w: World, q: string, e: Event, live: bool, id: string)
    requires WorldInv(w) && q in w.sessions && TracksIt(w, id) && (q == id ==> live)
    ensures TracksIt(Step(w, Append(q, e, live)), id)
  {
    var x := w.sessions[q];
    var a := DoRecord(q, x.createdAt, e);
    if q == id {
      RecordReflects(w.index, id, x.createdAt, x.log, false, e);
    } else if live {
      OtherReflects(w.index, a, id, w.sessions[id].createdAt, w.sessions[id].log, false);
    }
    hide Inv, Reflects, Record, LoadsFit, JobsFit, IndexFits;
  }

  lemma LandTracks(w: World, j: nat, id: string)
    requires WorldInv(w) && Enabled(w, LandLog(j)) && TracksIt(w, id)
    requires w.loads.jobs[j].id == id ==> Harmless(ReadPart(w, j), MissedPart(w, j), w.sessions[id].createdAt)
    ensures TracksIt(Landing(w, j), id)
  {
    var job := w.loads.jobs[j];
    if job.id == id {
      LandingDecides(w, j);
      hide Tracks, Harmless, WorldInv;
    } else {
      var x, read := w.sessions[job.id], ReadPart(w, j);
      var a := DoLand(job.id, x.createdAt, read, job.revision);
      OtherReflects(w.index, a, id, w.sessions[id].createdAt, w.sessions[id].log, false);
      LandKeeps(w.index, job.id, x.createdAt, read, job.revision);
      TouchTracks(Land(w.index, job.id, x.createdAt, read, job.revision), job.id, id, w.sessions[id].createdAt, w.sessions[id].log);
      hide Inv, Reflects, Land, LoadsFit, JobsFit, IndexFits, Touch;
    }
  }

  lemma WorldIndex(w: World)
    requires WorldInv(w)
    ensures Inv(w.index)
  {
  }

  lemma StepTracks(w: World, a: Action, id: string)
    requires WorldInv(w) && Enabled(w, a) && TracksIt(w, id) && (a.Append? && a.id == id ==> a.live)
    requires a.LandLog? && w.loads.jobs[a.job].id == id ==> Harmless(ReadPart(w, a.job), MissedPart(w, a.job), w.sessions[id].createdAt)
    ensures TracksIt(Step(w, a), id)
  {
    hide WorldInv, Inv, Record, Land, Touch, Retain, FirstPrompt, Asked, Remembered, Tracks, Harmless, Landing;
    WorldIndex(w);
    var createdAt, log := w.sessions[id].createdAt, w.sessions[id].log;
    match a
    case Append(q, e, live) => AppendTracks(w, q, e, live, id);
    case Request(q, _) => TouchTracks(w.index, q, id, createdAt, log);
    case RequestAgain(k) => TouchTracks(w.index, w.loads.retries[k].id, id, createdAt, log);
    case Missing(j) => TouchTracks(w.index, w.loads.jobs[j].id, id, createdAt, log);
    case LandLog(j) => LandTracks(w, j, id);
    case Project(q) => TouchTracks(w.index, q, id, createdAt, log);
    case RetainPass(candidates) => RetainTracks(w.index, candidates, id, createdAt, log);
    case _ =>
  }

  lemma RetainTracks(s: Index, candidates: int, id: string, createdAt: int, log: seq<Event>)
    requires Tracks(s, id, createdAt, log)
    ensures Tracks(Retain(s, candidates), id, createdAt, log)
  {
    hide Find, FirstPrompt, LastTitle, Latest;
  }

  /** An index that agrees with a session's log keeps agreeing through every interleaving. */
  lemma {:induction false} RunTracks(w: World, actions: seq<Action>, id: string)
    requires WorldInv(w) && RunFrom(w, actions) && TracksIt(w, id) && AllHarmless(w, actions, id)
    ensures TracksIt(After(w, actions), id)
    decreases |actions|
  {
    hide WorldInv, Step, Enabled, TracksIt, Harmless;
    if actions != [] {
      StepTracks(w, actions[0], id);
      StepKeeps(w, actions[0]);
      RunTracks(Step(w, actions[0]), actions[1..], id);
    }
  }

  /** The picker shows of the session what inspecting its whole log shows, but for a first prompt that was evicted. */
  ghost predicate ShowsWhole(w: World, id: string) {
    && id in w.sessions
    && var x, shown := w.sessions[id], Shown(w.index, id, w.sessions[id].createdAt);
    && (shown == ProjectionOf(x.log, x.createdAt) <==> Resident(w.index, id) || FirstPrompt(x.log) == "")
    && shown.title == LastTitle(x.log) && shown.updatedAt == Latest(x.log, x.createdAt)
  }

  lemma TrackedIsWhole(w: World, id: string, after: seq<Action>)
    requires WorldInv(w) && TracksIt(w, id) && RunFrom(w, after) && AllHarmless(w, after, id)
    ensures ShowsWhole(After(w, after), id)
  {
    RunTracks(w, after, id);
    var t := After(w, after);
    hide WorldInv, AllHarmless, After, RunFrom, ProjectionOf, Shown, FirstPrompt, LastTitle, Latest, Resident, Tracks;
    TracksShown(t.index, id, t.sessions[id].createdAt, t.sessions[id].log);
  }

  /**
   * An inspection that lands without having missed anything harmful, and live
   * events after it, show what inspecting the whole log shows: the title and
   * the activity always, and the first prompt unless it was evicted.
   */
  lemma {:induction false} LiveIsWhole(logs: map<string, (int, seq<Event>)>, before: seq<Action>, j: nat, after: seq<Action>)
    requires RunFrom(Start(logs), before)
    requires var w := After(Start(logs), before);
             && Enabled(w, LandLog(j)) && RunFrom(Landing(w, j), after) && AllHarmless(Landing(w, j), after, w.loads.jobs[j].id)
             && Harmless(ReadPart(w, j), MissedPart(w, j), w.sessions[w.loads.jobs[j].id].createdAt)
    ensures var w := After(Start(logs), before);
            ShowsWhole(After(Landing(w, j), after), w.loads.jobs[j].id)
  {
    LandedInRun(logs, before, j);
    var w := After(Start(logs), before);
    var id := w.loads.jobs[j].id;
    hide *;
    TrackedIsWhole(Landing(w, j), id, after);
  }

  lemma LandedInRun(logs: map<string, (int, seq<Event>)>, before: seq<Action>, j: nat)
    requires RunFrom(Start(logs), before)
    requires var w := After(Start(logs), before);
             Enabled(w, LandLog(j)) && Harmless(ReadPart(w, j), MissedPart(w, j), w.sessions[w.loads.jobs[j].id].createdAt)
    ensures var w := After(Start(logs), before);
            WorldInv(Landing(w, j)) && TracksIt(Landing(w, j), w.loads.jobs[j].id)
  {
    StartInv(logs);
    RunKeeps(Start(logs), before);
    hide WorldInv, Harmless, After, RunFrom, Start, Landing, TracksIt;
    LandedTracks(After(Start(logs), before), j);
  }

  lemma LandedTracks(w: World, j: nat)
    requires WorldInv(w) && Enabled(w, LandLog(j))
    requires Harmless(ReadPart(w, j), MissedPart(w, j), w.sessions[w.loads.jobs[j].id].createdAt)
    ensures WorldInv(Landing(w, j)) && TracksIt(Landing(w, j), w.loads.jobs[j].id)
  {
    LandingDecides(w, j);
    assert Step(w, LandLog(j)) == Landing(w, j);
    StepKeeps(w, LandLog(j));
    hide WorldInv, Harmless, Tracks, Touch, Land, Moved;
  }

  // ----- Loads in every run -----

  ghost function Underway(l: Loads, lane: nat): set<nat> {
    set j: nat | j < |l.jobs| && Running(l.jobs[j].phase) && l.jobs[j].lane == lane
  }

  ghost function AllUnderway(l: Loads): set<nat> {
    set j: nat | j < |l.jobs| && Running(l.jobs[j].phase)
  }

  lemma AtMostOne(s: set<nat>)
    requires forall i, j :: i in s && j in s ==> i == j
    ensures |s| <= 1
  {
    if s != {} {
      var x :| x in s;
      assert s == {x};
    }
  }

  /** In every run at most two loads are under way, and never two of one session, begun or waiting. */
  lemma {:induction false} TwoLoads(logs: map<string, (int, seq<Event>)>, actions: seq<Action>)
    requires RunFrom(Start(logs), actions)
    ensures var l := After(Start(logs), actions).loads;
            && |AllUnderway(l)| <= INSPECTION_LANES
            && forall i, j :: 0 <= i < j < |l.jobs| && !l.jobs[i].phase.Settled? && !l.jobs[j].phase.Settled? ==>
                 l.jobs[i].id != l.jobs[j].id
  {
    StartInv(logs);
    RunKeeps(Start(logs), actions);
    hide RunFrom, After, Start;
    LanesBound(After(Start(logs), actions).loads);
  }

  lemma LaneOne(l: Loads, lane: nat)
    requires InTurn(l.jobs)
    ensures |Underway(l, lane)| <= 1
  {
    var s := Underway(l, lane);
    assert forall i, j :: i in s && j in s ==> i == j;
    hide InTurn;
    AtMostOne(s);
  }

  lemma LanesBound(l: Loads)
    requires LoadsFit(l)
    ensures |AllUnderway(l)| <= INSPECTION_LANES
  {
    LaneOne(l, 0);
    LaneOne(l, 1);
    LanesAre(l);
    hide Underway, AllUnderway, LoadsFit;
  }

  lemma LanesAre(l: Loads)
    requires forall j :: 0 <= j < |l.jobs| ==> l.jobs[j].lane < INSPECTION_LANES
    ensures AllUnderway(l) == Underway(l, 0) + Underway(l, 1)
  {
  }

  predicate Serves(a: Action) {
    a.Begin? || a.Read? || a.LandLog? || a.Finish?
  }

  /** No load is stuck: while one has not settled, some load can begin, read, land or finish. */
  lemma {:induction false} NoStuckLoad(w: World, j: nat)
    requires WorldInv(w) && j < |w.loads.jobs| && !w.loads.jobs[j].phase.Settled?
    ensures exists a :: Serves(a) && Enabled(w, a)
    decreases j
  {
    var l := w.loads;
    match l.jobs[j].phase
    case Queued =>
      if l.jobs[j].after.Some? && !l.jobs[l.jobs[j].after.value].phase.Settled? {
        NoStuckLoad(w, l.jobs[j].after.value);
      } else {
        assert Serves(Begin(j)) && Enabled(w, Begin(j));
      }
    case Loading => assert Serves(Read(j, 0)) && Enabled(w, Read(j, 0));
    case Loaded(n) => assert Serves(LandLog(j)) && Enabled(w, LandLog(j));
    case Landed(_) => assert Serves(Finish(j)) && Enabled(w, Finish(j));
  }

  // ----- Harmful landings happen -----

  /** Whatever log a load read, any one event may be recorded before it lands. */
  lemma {:induction false} OneMissed(id: string, createdAt: int, log: seq<Event>, e: Event) returns (actions: seq<Action>)
    ensures var logs := map[id := (createdAt, log)];
            && RunFrom(Start(logs), actions)
            && var w := After(Start(logs), actions);
            && Enabled(w, LandLog(0)) && w.loads.jobs[0].id == id && ReadPart(w, 0) == log && MissedPart(w, 0) == [e]
            && w.sessions[id].log == log + [e] && w.sessions[id].createdAt == createdAt
  {
    var w0 := Start(map[id := (createdAt, log)]);
    var a, b, c, d := Request(id, None), Begin(0), Read(0, |log|), Append(id, e, true);
    hide Record;
    var w1 := Step(w0, a);
    assert w1.loads.jobs == [Job(id, None, 0, None, Queued)];
    var w2 := Step(w1, b);
    var w3 := Step(w2, c);
    var w4 := Step(w3, d);
    assert w4.sessions[id].log == log + [e] && w4.loads.jobs == [Job(id, None, 0, None, Loaded(|log|))];
    assert (log + [e])[..|log|] == log && (log + [e])[|log|..] == [e];
    actions := [a, b, c, d];
    FourSteps(w0, a, b, c, d);
  }

  lemma FourSteps(w: World, a: Action, b: Action, c: Action, d: Action)
    requires Enabled(w, a) && Enabled(Step(w, a), b) && Enabled(Step(Step(w, a), b), c) && Enabled(Step(Step(Step(w, a), b), c), d)
    ensures RunFrom(w, [a, b, c, d]) && After(w, [a, b, c, d]) == Step(Step(Step(Step(w, a), b), c), d)
  {
    hide Step, Enabled;
    assert [a, b, c, d][1..] == [b, c, d] && [b, c, d][1..] == [c, d] && [c, d][1..] == [d] && [d][1..] == [];
    var w1 := Step(w, a);
    var w2 := Step(w1, b);
    var w3 := Step(w2, c);
    assert RunFrom(w3, [d]) && After(w3, [d]) == Step(w3, d);
    assert RunFrom(w2, [c, d]) && After(w2, [c, d]) == After(w3, [d]);
    assert RunFrom(w1, [b, c, d]) && After(w1, [b, c, d]) == After(w2, [c, d]);
  }

  /** One missed title, one missed later event and one missed first prompt each spoil a landing. */
  lemma {:induction false} LostTitleTimePrompt(createdAt: int, older: string, newer: string)
    requires Trim(older) != "" && Trim(newer) != "" && Trim(older) != Trim(newer)
    ensures !Harmless([Event(createdAt, Title(Some(older)))], [Event(createdAt, Title(Some(newer)))], createdAt)
    ensures !Harmless([Event(createdAt, Other)], [Event(createdAt + 1, Other)], createdAt)
    ensures !Harmless([Event(createdAt, Other)], [Event(createdAt, Message(true, [Some(newer)]))], createdAt)
  {
    var a, b := Event(createdAt, Title(Some(older))), Event(createdAt, Title(Some(newer)));
    assert [a][..0] == [] && [b][..0] == [];
    assert TitleOf(a) == Trim(older) && TitleOf(b) == Trim(newer);
    assert LastTitle([a]) == Trim(older) && LastTitle([b]) == Trim(newer);
    var c, d := Event(createdAt, Other), Event(createdAt, Message(true, [Some(newer)]));
    assert [c][..0] == [] && [c][1..] == [];
    assert Latest([c], createdAt) == createdAt;
    assert [Event(createdAt + 1, Other)][0].time > createdAt;
    assert PromptOf(c) == "" && PromptOf(d) == Trim(newer);
    FirstPromptNext([], c);
    FirstPromptNext([], d);
    assert [] + [c] == [c] && [] + [d] == [d];
    assert FirstPrompt([c]) == "" && FirstPrompt([d]) == Trim(newer);
  }

  // ----- The maps in place -----

  lemma PendingKnown(l: Loads)
    requires LoadsFit(l)
    ensures |l.tails| == INSPECTION_LANES && forall id :: id in l.inspections ==> l.inspections[id] < |l.jobs|
  {
    hide Chained, InTurn;
  }

  class Inspections {
    var jobs: seq<Job>
    var inspections: map<string, nat>
    var inspectionTails: seq<Option<nat>>
    var nextInspection: nat
    var retries: seq<Retry>

    ghost function View(): Loads
      reads this
    {
      Loads(jobs, inspections, inspectionTails, nextInspection, retries)
    }

    constructor ()
      ensures View() == NoLoads
    {
      jobs, inspections, inspectionTails, nextInspection, retries := [], map[], [None, None], 0, [];
    }

    /** The part of `inspect` that shares, chains or queues. */
    method Inspect(id: string, revision: Option<string>)
      requires LoadsFit(View())
      modifies this
      ensures View() == Asked(old(View()), id, revision) && LoadsFit(View())
    {
      hide LoadsFit;
      AskedFits(View(), id, revision);
      PendingKnown(View());
      if id in inspections {
        var pending := inspections[id];
        if jobs[pending].revision != revision { retries := retries + [Retry(id, revision, pending)]; }
        return;
      }
      var lane := nextInspection % INSPECTION_LANES;
      nextInspection := nextInspection + 1;
      var result := |jobs|;
      jobs := jobs + [Job(id, revision, lane, inspectionTails[lane], Queued)];
      inspections := inspections[id := result];
      inspectionTails := inspectionTails[lane := Some(result)];
    }

    /** The `finally` of a result: its session may load again. */
    method Settle(j: nat)
      requires LoadsFit(View()) && j < |jobs| && jobs[j].phase.Landed?
      modifies this
      ensures var l := old(View());
              View() == Moved(l, j, Settled(l.jobs[j].phase.ok)).(inspections := l.inspections - {l.jobs[j].id}) && LoadsFit(View())
    {
      hide LoadsFit;
      FinishFits(View(), j);
      inspections := inspections - {jobs[j].id};
      jobs := jobs[j := jobs[j].(phase := Settled(jobs[j].phase.ok))];
    }
  }
}
