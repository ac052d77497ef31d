/**
 * Which load answers a request of the picker, read off the loads themselves
 * rather than off the maps the bridge keeps, and what a remembered revision is
 * worth.
 */
module SessionListRequests {
  import opened Options
  import opened SessionListRuns
  import L = SessionList

  /** A load of this session that has not settled. */
  predicate Pending(jobs: seq<Job>, id: string, j: nat) {
    j < |jobs| && jobs[j].id == id && !jobs[j].phase.Settled?
  }

  /** Loads take turns on the two lanes. */
  ghost predicate TakeTurns(l: Loads) {
    && l.next == |l.jobs|
    && forall j :: 0 <= j < |l.jobs| ==> l.jobs[j].lane == j % L.INSPECTION_LANES
  }

  /** A landed load of this session that was asked for at this revision. */
  predicate LoadedAt(jobs: seq<Job>, id: string, revision: string, j: nat) {
    && j < |jobs| && jobs[j].id == id && jobs[j].revision == Some(revision)
    && (jobs[j].phase == Landed(true) || jobs[j].phase == Settled(true))
  }

  ghost predicate AllLoaded(s: L.Index, jobs: seq<Job>) {
    forall id :: id in s.revisions ==> exists j :: LoadedAt(jobs, id, s.revisions[id], j)
  }

  // ----- Every run keeps them -----

  lemma AskedTurns(l: Loads, id: string, revision: Option<string>)
    requires TakeTurns(l) && |l.tails| == L.INSPECTION_LANES
    ensures TakeTurns(Asked(l, id, revision))
  {
  }

  lemma StepTurns(w: World, a: Action)
    requires LoadsFit(w.loads) && TakeTurns(w.loads) && Enabled(w, a)
    ensures TakeTurns(Step(w, a).loads)
  {
    hide LoadsFit, L.Land, L.Record, L.Touch, L.Retain, Remembered, Asked, L.FirstPrompt;
    match a
    case Request(id, revision) => AskedTurns(w.loads, id, revision);
    case RequestAgain(k) =>
      var l := w.loads.(retries := w.loads.retries[..k] + w.loads.retries[k + 1..]);
      AskedTurns(l, w.loads.retries[k].id, w.loads.retries[k].revision);
    case _ =>
  }

  /** Only a landing remembers a revision, and only the one its load was asked for. */
  lemma LandRemembers(s: L.Index, id: string, createdAt: int, log: seq<L.Event>, revision: Option<string>)
    requires L.Inv(s)
    ensures var t := L.Land(s, id, createdAt, log, revision);
            && (forall x :: x in t.revisions ==> if x == id then revision == Some(t.revisions[x])
                                                 else x in s.revisions && t.revisions[x] == s.revisions[x])
            && (s.limit > 0 && revision.Some? ==> Remembered(t, id, revision))
  {
    if s.limit > 0 { L.CacheFind(s.(revisions := s.revisions - {id}), id, L.FirstPrompt(log), id); }
    hide L.FirstPrompt, L.LastTitle, L.Latest, L.Find, L.Inv, L.Newest, L.Renewed, L.Ids, L.Dropped;
  }

  lemma RecordForgets(s: L.Index, id: string, createdAt: int, e: L.Event)
    ensures forall x :: x in L.Record(s, id, createdAt, e).revisions ==>
              x in s.revisions && L.Record(s, id, createdAt, e).revisions[x] == s.revisions[x]
  {
    hide L.PromptOf, L.TitleOf, L.Newest, L.Renewed, L.Ids, L.Dropped;
  }

  /** A landed load stays one. */
  lemma StaysLoaded(w: World, a: Action, id: string, revision: string, j: nat)
    requires Enabled(w, a) && LoadedAt(w.loads.jobs, id, revision, j)
    ensures LoadedAt(Step(w, a).loads.jobs, id, revision, j)
  {
    hide L.Land, L.Record, L.Touch, L.Retain, Remembered, L.FirstPrompt;
  }

  lemma StepForgets(w: World, a: Action, id: string)
    requires Enabled(w, a) && !a.LandLog? && id in Step(w, a).index.revisions
    ensures id in w.index.revisions && Step(w, a).index.revisions[id] == w.index.revisions[id]
  {
    if a.Append? && a.live { RecordForgets(w.index, a.id, w.sessions[a.id].createdAt, a.event); }
    hide L.Land, L.Record, Remembered, L.FirstPrompt, Asked, L.Renewed, L.Find;
  }

  lemma StepLoaded(w: World, a: Action)
    requires L.Inv(w.index) && Enabled(w, a) && AllLoaded(w.index, w.loads.jobs)
    ensures AllLoaded(Step(w, a).index, Step(w, a).loads.jobs)
  {
    var t := Step(w, a);
    hide L.Inv, Enabled, Step, LoadedAt;
    forall id | id in t.index.revisions
      ensures exists j :: LoadedAt(t.loads.jobs, id, t.index.revisions[id], j)
    {
      if a.LandLog? && LandsHere(w, a.job, id) {
        LandingLoads(w, a.job, id);
      } else {
        RevisionStays(w, a, id);
        var j :| LoadedAt(w.loads.jobs, id, w.index.revisions[id], j);
        StaysLoaded(w, a, id, w.index.revisions[id], j);
      }
    }
  }

  predicate LandsHere(w: World, j: nat, id: string) {
    j < |w.loads.jobs| && w.loads.jobs[j].id == id
  }

  lemma LandingLoads(w: World, j: nat, id: string)
    requires L.Inv(w.index) && Enabled(w, LandLog(j)) && LandsHere(w, j, id) && id in Step(w, LandLog(j)).index.revisions
    ensures LoadedAt(Step(w, LandLog(j)).loads.jobs, id, Step(w, LandLog(j)).index.revisions[id], j)
  {
    LandRemembers(w.index, id, w.sessions[id].createdAt, ReadPart(w, j), w.loads.jobs[j].revision);
    hide L.Land, L.Inv, L.FirstPrompt, L.Renewed, L.Find, Remembered;
  }

  lemma RevisionStays(w: World, a: Action, id: string)
    requires L.Inv(w.index) && Enabled(w, a) && id in Step(w, a).index.revisions && !(a.LandLog? && LandsHere(w, a.job, id))
    ensures id in w.index.revisions && Step(w, a).index.revisions[id] == w.index.revisions[id]
  {
    if a.LandLog? {
      var job := w.loads.jobs[a.job];
      LandRemembers(w.index, job.id, w.sessions[job.id].createdAt, ReadPart(w, a.job), job.revision);
      hide L.Land, L.Inv, L.FirstPrompt, L.Renewed, L.Find, Remembered;
    } else {
      StepForgets(w, a, id);
    }
  }

  ghost predicate Kept(w: World) {
    WorldInv(w) && TakeTurns(w.loads) && AllLoaded(w.index, w.loads.jobs)
  }

  lemma StepKept(w: World, a: Action)
    requires Kept(w) && Enabled(w, a)
    ensures Kept(Step(w, a))
  {
    hide TakeTurns, AllLoaded, LoadsFit, JobsFit, Step, L.Inv;
    StepKeeps(w, a);
    StepTurns(w, a);
    StepLoaded(w, a);
  }

  lemma {:induction false} RunKept(w: World, actions: seq<Action>)
    requires Kept(w) && RunFrom(w, actions)
    ensures Kept(After(w, actions))
    decreases |actions|
  {
    hide Kept, Step, Enabled;
    if actions != [] {
      StepKept(w, actions[0]);
      RunKept(Step(w, actions[0]), actions[1..]);
    }
  }

  lemma StartKept(logs: map<string, (int, seq<L.Event>)>)
    ensures Kept(Start(logs))
  {
    StartInv(logs);
    hide WorldInv;
  }

  // ----- What a request gets -----

  /**
   * The answer to a request, from the loads alone: a load of the session that
   * has not settled is shared if it is of this revision and else waited for; a
   * remembered revision is answered at once; otherwise one load joins, behind
   * the last but one.
   */
  ghost predicate Answered(w: World, t: World, id: string, revision: Option<string>) {
    var jobs := w.loads.jobs;
    && t.sessions == w.sessions
    && (forall j: nat :: Pending(jobs, id, j) ==>
          && t.index == w.index && t.loads.jobs == jobs
          && t.loads.retries == w.loads.retries + if jobs[j].revision == revision then [] else [Retry(id, revision, j)])
    && ((forall j: nat :: !Pending(jobs, id, j)) && Remembered(w.index, id, revision) ==>
          t.index == L.Touch(w.index, id) && t.loads == w.loads)
    && ((forall j: nat :: !Pending(jobs, id, j)) && !Remembered(w.index, id, revision) ==>
          && t.index == w.index && t.loads.retries == w.loads.retries
          && t.loads.jobs == jobs + [Job(id, revision, |jobs| % 2, if |jobs| < 2 then None else Some(|jobs| - 2), Queued)])
  }

  lemma TailIs(l: Loads)
    requires Tailed(l.jobs, l.tails) && TakeTurns(l)
    ensures l.tails[|l.jobs| % 2] == if |l.jobs| < 2 then None else Some(|l.jobs| - 2)
  {
    var n := |l.jobs|;
    if n >= 2 { assert l.jobs[n - 2].lane == n % 2; }
  }

  lemma PendingIs(l: Loads, id: string)
    requires LoadsFit(l)
    ensures forall j: nat :: Pending(l.jobs, id, j) <==> id in l.inspections && j == l.inspections[id]
    ensures id in l.inspections ==> Pending(l.jobs, id, l.inspections[id])
  {
    hide Chained, Tailed, InTurn;
  }

  /** `Asked`, read off the loads. */
  lemma AskedShares(l: Loads, id: string, revision: Option<string>, j: nat)
    requires LoadsFit(l) && Pending(l.jobs, id, j)
    ensures id in l.inspections && Asked(l, id, revision).jobs == l.jobs
    ensures Asked(l, id, revision).retries == l.retries + if l.jobs[j].revision == revision then [] else [Retry(id, revision, j)]
  {
    PendingIs(l, id);
    hide LoadsFit;
    assert l.retries + [] == l.retries;
  }

  lemma AskedLoads(l: Loads, id: string, revision: Option<string>)
    requires LoadsFit(l) && TakeTurns(l) && forall j: nat :: !Pending(l.jobs, id, j)
    ensures id !in l.inspections && |l.tails| == L.INSPECTION_LANES && Asked(l, id, revision).retries == l.retries
    ensures Asked(l, id, revision).jobs
            == l.jobs + [Job(id, revision, |l.jobs| % 2, if |l.jobs| < 2 then None else Some(|l.jobs| - 2), Queued)]
  {
    PendingIs(l, id);
    TailIs(l);
    assert |l.tails| == L.INSPECTION_LANES && l.next == |l.jobs|;
    hide LoadsFit, TakeTurns, Pending;
  }

  lemma InspectingAnswers(w: World, id: string, revision: Option<string>)
    requires LoadsFit(w.loads) && TakeTurns(w.loads) && |w.loads.tails| == L.INSPECTION_LANES
    ensures Answered(w, Inspecting(w, id, revision), id, revision)
  {
    PendingIs(w.loads, id);
    if id in w.loads.inspections {
      var j := w.loads.inspections[id];
      AskedShares(w.loads, id, revision, j);
      hide LoadsFit, TakeTurns, Remembered, L.Touch, Asked;
      assert Pending(w.loads.jobs, id, j);
      hide Pending;
    } else {
      assert forall j: nat :: !Pending(w.loads.jobs, id, j);
      AskedLoads(w.loads, id, revision);
      hide LoadsFit, TakeTurns, Remembered, L.Touch, Asked, Pending;
    }
  }

  /** The request a step makes, and the state it makes it in: a repeated one is no longer to be repeated. */
  function Asking(w: World, a: Action): (World, string, Option<string>)
    requires (a.Request? || a.RequestAgain?) && Enabled(w, a)
  {
    var l := w.loads;
    if a.Request? then (w, a.id, a.revision)
    else
      (w.(loads := l.(retries := l.retries[..a.retry] + l.retries[a.retry + 1..])), l.retries[a.retry].id, l.retries[a.retry].revision)
  }

  lemma StepAnswers(w: World, a: Action)
    requires LoadsFit(w.loads) && TakeTurns(w.loads) && (a.Request? || a.RequestAgain?) && Enabled(w, a)
    ensures var asking := Asking(w, a);
            Answered(asking.0, Step(w, a), asking.1, asking.2)
  {
    hide LoadsFit, Answered, Inspecting;
    var asking := Asking(w, a);
    SameFit(w.loads, asking.0.loads);
    SameTurns(w.loads, asking.0.loads);
    hide TakeTurns;
    InspectingAnswers(asking.0, asking.1, asking.2);
  }

  /** In every run each request, the first or a repeated one, gets the answer the loads call for. */
  lemma {:induction false} RequestAnswered(logs: map<string, (int, seq<L.Event>)>, actions: seq<Action>, a: Action)
    requires RunFrom(Start(logs), actions) && Enabled(After(Start(logs), actions), a) && (a.Request? || a.RequestAgain?)
    ensures var asking := Asking(After(Start(logs), actions), a);
            Answered(asking.0, Step(After(Start(logs), actions), a), asking.1, asking.2)
  {
    StartKept(logs);
    RunKept(Start(logs), actions);
    var w := After(Start(logs), actions);
    hide RunFrom, After, Start, LoadsFit, IndexFits, JobsFit, TakeTurns, AllLoaded, Asking, Answered, Step, Enabled;
    StepAnswers(w, a);
  }

  lemma SameTurns(l: Loads, m: Loads)
    requires TakeTurns(l) && m == l.(retries := m.retries)
    ensures TakeTurns(m)
  {
  }

  /** In every run a request answered without a load asks for the very revision a load was asked for and landed with. */
  lemma {:induction false} RememberedWasLoaded(logs: map<string, (int, seq<L.Event>)>, actions: seq<Action>, id: string, r: string)
    requires RunFrom(Start(logs), actions) && Remembered(After(Start(logs), actions).index, id, Some(r))
    ensures exists j :: LoadedAt(After(Start(logs), actions).loads.jobs, id, r, j)
  {
    StartKept(logs);
    RunKept(Start(logs), actions);
    var w := After(Start(logs), actions);
    hide RunFrom, After, Start, WorldInv, TakeTurns, LoadedAt, L.Resident;
    assert id in w.index.revisions && w.index.revisions[id] == r;
  }

  lemma LandingRemembers(w: World, j: nat)
    requires WorldInv(w) && Enabled(w, LandLog(j))
    ensures w.loads.jobs[j].revision.Some? ==>
              Remembered(Step(w, LandLog(j)).index, w.loads.jobs[j].id, w.loads.jobs[j].revision)
  {
    assert L.Inv(w.index) && w.index.limit > 0;
    hide WorldInv;
    var job := w.loads.jobs[j];
    var createdAt, read := w.sessions[job.id].createdAt, ReadPart(w, j);
    LandRemembers(w.index, job.id, createdAt, read, job.revision);
    L.LandKeeps(w.index, job.id, createdAt, read, job.revision);
    L.TouchKeeps(L.Land(w.index, job.id, createdAt, read, job.revision), job.id);
    hide L.Inv, L.Land, L.FirstPrompt, L.Find, L.Renewed, L.Ids;
  }

  /** In every run a load that lands is remembered at its own revision. */
  lemma {:induction false} LandedIsRemembered(logs: map<string, (int, seq<L.Event>)>, actions: seq<Action>, j: nat)
    requires RunFrom(Start(logs), actions) && Enabled(After(Start(logs), actions), LandLog(j))
    ensures var w := After(Start(logs), actions);
            w.loads.jobs[j].revision.Some? ==>
              Remembered(Step(w, LandLog(j)).index, w.loads.jobs[j].id, w.loads.jobs[j].revision)
  {
    StartInv(logs);
    RunKeeps(Start(logs), actions);
    hide RunFrom, After, Start, WorldInv, Step, Remembered;
    LandingRemembers(After(Start(logs), actions), j);
  }
}
