/**
 * Coalesced refreshes: many requests share few reads, and no request is left
 * without a read that began after it, but for the starts that are refused and
 * the reads that stop or fail. `requests` counts the requests made and
 * `covered` those made before the latest read began.
 */
module ChildRefresh {
  import opened Options

  /** `Starting` has not begun its first pass; `Closing` has left the loop, and its late clean-up may still come. */
  datatype Phase = Starting | Reading | Closing | Gone

  /** One `state` of `childRefreshes`. */
  datatype Refresh = Refresh(phase: Phase, dirty: bool)

  /** Every refresh of one record; `entry` is the one `childRefreshes` names. */
  datatype State = State(all: seq<Refresh>, entry: Option<nat>, requests: nat, covered: nat)

  const Fresh := State([], None, 0, 0)

  /**
   * `EndPass` ends one pass, failed or not. `Stop` is a refresh whose loop test
   * finds the record dead or its scope cancelled, or whose start is refused.
   * `CleanUp` is the last continuation of a refresh that left the loop; one
   * that was rejected deletes the entry once more.
   */
  datatype Action = Request | BeginPass(refresh: nat) | EndPass(refresh: nat) | Stop(refresh: nat)
                  | CleanUp(refresh: nat, rejected: bool)

  predicate Running(s: State, i: nat) {
    i < |s.all| && (s.all[i].phase.Starting? || s.all[i].phase.Reading?)
  }

  predicate Enabled(s: State, a: Action) {
    match a
    case Request => true
    case BeginPass(i) => i < |s.all| && s.all[i].phase.Starting?
    case EndPass(i) => i < |s.all| && s.all[i].phase.Reading?
    case Stop(i) => Running(s, i)
    case CleanUp(i, _) => i < |s.all| && s.all[i].phase.Closing?
  }

  function Pass(s: State, i: nat): State
    requires i < |s.all|
  {
    s.(all := s.all[i := Refresh(Reading, false)], covered := s.requests)
  }

  function Left(s: State, i: nat): State
    requires i < |s.all|
  {
    s.(all := s.all[i := s.all[i].(phase := Closing)], entry := None)
  }

  function Step(s: State, a: Action): State
    requires Enabled(s, a)
  {
    match a
    case Request =>
      var t := s.(requests := s.requests + 1);
      if s.entry.Some? && s.entry.value < |s.all|
      then t.(all := s.all[s.entry.value := s.all[s.entry.value].(dirty := true)])
      else t.(all := s.all + [Refresh(Starting, true)], entry := Some(|s.all|))
    case BeginPass(i) => Pass(s, i)
    case EndPass(i) => if s.all[i].dirty then Pass(s, i) else Left(s, i)
    case Stop(i) => Left(s, i)
    case CleanUp(i, rejected) =>
      s.(all := s.all[i := s.all[i].(phase := Gone)], entry := if rejected then None else s.entry)
  }

  /** The entry names a refresh that runs; one that has not begun is dirty. */
  ghost predicate Inv(s: State) {
    && (s.entry.Some? ==> Running(s, s.entry.value))
    && (forall i :: 0 <= i < |s.all| && s.all[i].phase.Starting? ==> s.all[i].dirty)
    && s.covered <= s.requests
  }

  lemma StepKeeps(s: State, a: Action)
    requires Inv(s) && Enabled(s, a)
    ensures Inv(Step(s, a))
  {
  }

  ghost predicate RunFrom(s: State, actions: seq<Action>)
    decreases |actions|
  {
    actions == [] || (Enabled(s, actions[0]) && RunFrom(Step(s, actions[0]), actions[1..]))
  }

  ghost function After(s: State, actions: seq<Action>): State
    requires RunFrom(s, actions)
    decreases |actions|
  {
    if actions == [] then s else After(Step(s, actions[0]), actions[1..])
  }

  lemma {:induction false} RunKeeps(s: State, actions: seq<Action>)
    requires Inv(s) && RunFrom(s, actions)
    ensures Inv(After(s, actions))
    decreases |actions|
  {
    hide Inv, Step;
    if actions != [] {
      StepKeeps(s, actions[0]);
      RunKeeps(Step(s, actions[0]), actions[1..]);
    }
  }

  /** A run is a shorter run and its last step. */
  lemma {:induction false} RunLast(s: State, actions: seq<Action>)
    requires RunFrom(s, actions) && actions != []
    ensures var before, a := actions[..|actions| - 1], actions[|actions| - 1];
            RunFrom(s, before) && Enabled(After(s, before), a) && After(s, actions) == Step(After(s, before), a)
    decreases |actions|
  {
    hide Step, Enabled;
    if |actions| > 1 {
      assert actions[..|actions| - 1][1..] == actions[1..][..|actions| - 2];
      RunLast(Step(s, actions[0]), actions[1..]);
    }
  }

  // ----- Lost requests -----

  /** A refresh stops that owes a request no pass has begun after. */
  predicate Drops(s: State, a: Action) {
    a.Stop? && Running(s, a.refresh) && s.all[a.refresh].dirty && s.covered < s.requests
  }

  predicate Begins(s: State, a: Action) {
    a.BeginPass? || (a.EndPass? && a.refresh < |s.all| && s.all[a.refresh].dirty)
  }

  /** Since the last pass began, a refresh stopped that owed a request. */
  ghost predicate Dropped(actions: seq<Action>)
    requires RunFrom(Fresh, actions)
    decreases |actions|
  {
    actions != [] &&
    var before, a := actions[..|actions| - 1], actions[|actions| - 1];
    RunLast(Fresh, actions);
    var s := After(Fresh, before);
    Drops(s, a) || (!Begins(s, a) && Dropped(before))
  }

  ghost predicate Owing(s: State) {
    exists i: nat :: Running(s, i) && s.all[i].dirty
  }

  /** What is not covered is owed by a running refresh, or was dropped. */
  ghost predicate Accounted(s: State, dropped: bool) {
    && (s.covered < s.requests ==> Owing(s) || dropped)
    && (dropped ==> s.covered < s.requests)
  }

  lemma StepAccounted(s: State, a: Action, dropped: bool)
    requires Inv(s) && Enabled(s, a) && Accounted(s, dropped)
    ensures Accounted(Step(s, a), Drops(s, a) || (!Begins(s, a) && dropped))
  {
    var t := Step(s, a);
    if a.Request? {
      var i := if s.entry.Some? then s.entry.value else |s.all|;
      assert Running(t, i) && t.all[i].dirty;
    } else if s.covered < s.requests && !Begins(s, a) && !Drops(s, a) && Owing(s) {
      var i: nat :| Running(s, i) && s.all[i].dirty;
      assert Running(t, i) && t.all[i].dirty;
    }
  }

  lemma {:induction false} RunAccounted(actions: seq<Action>)
    requires RunFrom(Fresh, actions)
    ensures Inv(After(Fresh, actions)) && Accounted(After(Fresh, actions), Dropped(actions))
    decreases |actions|
  {
    hide Accounted, Step, Enabled, Drops, Begins;
    RunKeeps(Fresh, actions);
    if actions == [] {
      assert Accounted(Fresh, false) by { FreshAccounted(); }
    } else {
      RunLast(Fresh, actions);
      RunAccounted(actions[..|actions| - 1]);
      StepAccounted(After(Fresh, actions[..|actions| - 1]), actions[|actions| - 1], Dropped(actions[..|actions| - 1]));
    }
  }

  lemma FreshAccounted()
    ensures Accounted(Fresh, false)
  {
  }

  /**
   * In every run, what no pass has begun after is owed by a refresh that runs
   * and is dirty, or was dropped; at rest, a pass began after the last request
   * if and only if no refresh that owed a request stopped since.
   */
  lemma {:induction false} NoLostRequest(actions: seq<Action>)
    requires RunFrom(Fresh, actions)
    ensures var s := After(Fresh, actions);
            && (s.covered < s.requests ==> Owing(s) || Dropped(actions))
            && (!Owing(s) ==> (s.covered == s.requests <==> !Dropped(actions)))
  {
    RunAccounted(actions);
    hide RunFrom, After, Owing, Dropped;
  }

  lemma Prepend(s: State, a: Action, rest: seq<Action>)
    requires Enabled(s, a) && RunFrom(Step(s, a), rest)
    ensures RunFrom(s, [a] + rest) && After(s, [a] + rest) == After(Step(s, a), rest)
  {
    hide Step, Enabled;
    assert ([a] + rest)[1..] == rest;
  }

  const Refused := [Request] + ([Stop(0)] + ([CleanUp(0, false)] + []))

  /** A refresh whose start is refused, as during a reload that then fails: its request is never read. */
  lemma {:induction false} RefusalLosesRequest()
    ensures RunFrom(Fresh, Refused) && Dropped(Refused) && !Owing(After(Fresh, Refused))
    ensures After(Fresh, Refused).requests == 1 && After(Fresh, Refused).covered == 0
  {
    var t := State([Refresh(Starting, true)], Some(0), 1, 0);
    var u := State([Refresh(Closing, true)], None, 1, 0);
    var v := State([Refresh(Gone, true)], None, 1, 0);
    assert Step(Fresh, Request) == t && Step(t, Stop(0)) == u && Step(u, CleanUp(0, false)) == v;
    assert !Owing(v);
    hide Step, Dropped, Owing;
    Prepend(u, CleanUp(0, false), []);
    Prepend(t, Stop(0), [CleanUp(0, false)] + []);
    Prepend(Fresh, Request, [Stop(0)] + ([CleanUp(0, false)] + []));
    RunAccounted(Refused);
  }

  // ----- One at a time -----

  /** A late clean-up deletes the entry of a refresh begun since. */
  predicate Strips(s: State, a: Action) {
    a.CleanUp? && a.rejected && s.entry.Some?
  }

  /** The refresh that runs is the one requests find; it is dirty exactly if it owes one. */
  ghost predicate Single(s: State) {
    forall i: nat :: Running(s, i) ==> s.entry == Some(i) && (s.all[i].dirty <==> s.covered < s.requests)
  }

  /** The refresh that runs stays the one requests find exactly until a late clean-up strips it. */
  lemma {:induction false} StepSingle(s: State, a: Action)
    requires Inv(s) && Enabled(s, a) && Single(s)
    ensures Single(Step(s, a)) <==> !Strips(s, a)
  {
    if Strips(s, a) {
      assert Running(s, s.entry.value) && Running(Step(s, a), s.entry.value);
    }
  }

  ghost predicate Unstripped(s: State, actions: seq<Action>)
    requires RunFrom(s, actions)
    decreases |actions|
  {
    actions == [] || (!Strips(s, actions[0]) && Unstripped(Step(s, actions[0]), actions[1..]))
  }

  lemma {:induction false} RunSingle(s: State, actions: seq<Action>)
    requires Inv(s) && Single(s) && RunFrom(s, actions) && Unstripped(s, actions)
    ensures Single(After(s, actions))
    decreases |actions|
  {
    hide Inv, Single, Step, Strips;
    if actions != [] {
      StepKeeps(s, actions[0]);
      StepSingle(s, actions[0]);
      RunSingle(Step(s, actions[0]), actions[1..]);
    }
  }

  /** Two refreshes run, or the next request would begin one beside another. */
  ghost predicate Overlaps(s: State) {
    || (exists i: nat, j: nat :: Running(s, i) && Running(s, j) && i != j)
    || (s.entry.None? && exists i: nat :: Running(s, i))
  }

  /** In every run without such a clean-up at most one refresh runs, and requests find it; the clean-up itself ends that. */
  lemma {:induction false} OneAtATime(actions: seq<Action>)
    requires RunFrom(Fresh, actions) && Unstripped(Fresh, actions)
    ensures var s := After(Fresh, actions);
            && !Overlaps(s)
            && forall a :: Enabled(s, a) ==> (Overlaps(Step(s, a)) <==> Strips(s, a))
  {
    RunKeeps(Fresh, actions);
    RunSingle(Fresh, actions);
    var s := After(Fresh, actions);
    hide RunFrom, After, Unstripped;
    SingleApart(s);
    forall a | Enabled(s, a)
      ensures Overlaps(Step(s, a)) <==> Strips(s, a)
    {
      StepSingle(s, a);
      if Strips(s, a) {
        assert Running(Step(s, a), s.entry.value);
      } else {
        hide Step, Strips;
        SingleApart(Step(s, a));
      }
    }
  }

  lemma SingleApart(s: State)
    requires Single(s)
    ensures !Overlaps(s)
  {
  }

  const Cancelled := State([Refresh(Closing, false)], None, 1, 1)
  const Hidden := State([Refresh(Gone, false), Refresh(Starting, true)], None, 2, 1)
  const Beside := State([Refresh(Gone, false), Refresh(Reading, false), Refresh(Reading, false)], Some(2), 3, 3)

  const Leaves := [Request] + ([BeginPass(0)] + ([Stop(0)] + []))
  const Hides := [Request] + ([CleanUp(0, true)] + [])
  const Joins := [Request] + ([BeginPass(1)] + ([BeginPass(2)] + []))

  lemma CancelledLeaves()
    ensures RunFrom(Fresh, Leaves) && After(Fresh, Leaves) == Cancelled
  {
    var t := State([Refresh(Starting, true)], Some(0), 1, 0);
    var u := State([Refresh(Reading, false)], Some(0), 1, 1);
    assert Step(Fresh, Request) == t && Step(t, BeginPass(0)) == u && Step(u, Stop(0)) == Cancelled;
    hide Step;
    Prepend(u, Stop(0), []);
    Prepend(t, BeginPass(0), [Stop(0)] + []);
    Prepend(Fresh, Request, [BeginPass(0)] + ([Stop(0)] + []));
  }

  lemma CleanUpHides()
    ensures RunFrom(Cancelled, Hides) && After(Cancelled, Hides) == Hidden
  {
    var t := State([Refresh(Closing, false), Refresh(Starting, true)], Some(1), 2, 1);
    assert Step(Cancelled, Request) == t && Step(t, CleanUp(0, true)) == Hidden;
    hide Step;
    Prepend(t, CleanUp(0, true), []);
    Prepend(Cancelled, Request, [CleanUp(0, true)] + []);
  }

  lemma AnotherJoins()
    ensures RunFrom(Hidden, Joins) && After(Hidden, Joins) == Beside
  {
    var t := State([Refresh(Gone, false), Refresh(Starting, true), Refresh(Starting, true)], Some(2), 3, 1);
    var u := State([Refresh(Gone, false), Refresh(Reading, false), Refresh(Starting, true)], Some(2), 3, 3);
    assert Step(Hidden, Request) == t && Step(t, BeginPass(1)) == u && Step(u, BeginPass(2)) == Beside;
    hide Step;
    Prepend(u, BeginPass(2), []);
    Prepend(t, BeginPass(1), [BeginPass(2)] + []);
    Prepend(Hidden, Request, [BeginPass(1)] + ([BeginPass(2)] + []));
  }

  lemma {:induction false} RunJoin(s: State, a: seq<Action>, b: seq<Action>)
    requires RunFrom(s, a) && RunFrom(After(s, a), b)
    ensures RunFrom(s, a + b) && After(s, a + b) == After(After(s, a), b)
    decreases |a|
  {
    hide Step, Enabled;
    if a == [] {
      assert a + b == b;
    } else {
      assert (a + b)[0] == a[0] && (a + b)[1..] == a[1..] + b;
      RunJoin(Step(s, a[0]), a[1..], b);
    }
  }

  /** A cancelled refresh leaves, another begins, the first one's clean-up hides it, and a third begins beside it. */
  lemma {:induction false} LateCleanUpOverlaps()
    ensures var actions := Leaves + (Hides + Joins);
            RunFrom(Fresh, actions) && After(Fresh, actions) == Beside && Overlaps(Beside)
  {
    assert Running(Beside, 1) && Running(Beside, 2);
    CancelledLeaves();
    CleanUpHides();
    AnotherJoins();
    hide RunFrom, After;
    RunJoin(Cancelled, Hides, Joins);
    RunJoin(Fresh, Leaves, Hides + Joins);
  }

  class ChildRefreshes {
    var refreshes: seq<Refresh>
    var entry: Option<nat>
    ghost var requests: nat
    ghost var covered: nat

    ghost function View(): State
      reads this
    {
      State(refreshes, entry, requests, covered)
    }

    constructor ()
      ensures View() == Fresh
    {
      refreshes, entry, requests, covered := [], None, 0, 0;
    }

    method RefreshChildren()
      requires Inv(View())
      modifies this
      ensures View() == Step(old(View()), Request)
    {
      requests := requests + 1;
      if entry.Some? {
        refreshes := refreshes[entry.value := refreshes[entry.value].(dirty := true)];
        return;
      }
      entry := Some(|refreshes|);
      refreshes := refreshes + [Refresh(Starting, true)];
    }

    /** The loop's test, and the pass it lets begin; leaving the loop deletes the entry. */
    method Continue(i: nat, live: bool) returns (again: bool)
      requires Inv(View()) && Running(View(), i)
      modifies this
      ensures again == (old(refreshes)[i].dirty && live)
      ensures View() == Step(old(View()), if !live then Stop(i) else if old(refreshes)[i].phase.Starting? then BeginPass(i) else EndPass(i))
    {
      again := refreshes[i].dirty && live;
      if again {
        refreshes := refreshes[i := Refresh(Reading, false)];
        covered := requests;
      } else {
        refreshes := refreshes[i := refreshes[i].(phase := Closing)];
        entry := None;
      }
    }

    /** What follows the loop: a rejection deletes the entry, whoever it names by then. */
    method Ended(i: nat, rejected: bool)
      requires Enabled(View(), CleanUp(i, rejected))
      modifies this
      ensures View() == Step(old(View()), CleanUp(i, rejected))
    {
      refreshes := refreshes[i := refreshes[i].(phase := Gone)];
      if rejected { entry := None; }
    }
  }
}

/** The command roster: a read that a request overtook is read again before it is published. */
module CommandRefresh {

  datatype Phase = Idle | Starting | Reading

  /** `published` lists, for each roster sent, how many requests its read had seen when it began. */
  datatype State = State(phase: Phase, dirty: bool, requests: nat, covered: nat, published: seq<nat>)

  const Fresh := State(Idle, false, 0, 0, [])

  /**
   * The start is refused while the record takes no input. A read ends well,
   * finds its client gone, or fails; `asked` counts the requests that sending
   * the roster made.
   */
  datatype Action = Request | StartRefused | BeginRead | ReadDone(asked: nat) | ClientGone | ReadFails

  predicate Enabled(s: State, a: Action) {
    match a
    case Request => true
    case StartRefused => s.phase.Starting?
    case BeginRead => s.phase.Starting?
    case _ => s.phase.Reading?
  }

  function Again(s: State): State {
    s.(dirty := false, covered := s.requests)
  }

  function Step(s: State, a: Action): State
    requires Enabled(s, a)
  {
    match a
    case Request =>
      if s.phase.Idle? then s.(phase := Starting, dirty := false, requests := s.requests + 1)
      else s.(dirty := true, requests := s.requests + 1)
    case StartRefused => s.(phase := Idle, dirty := false)
    case BeginRead => s.(phase := Reading, dirty := false, covered := s.requests)
    case ReadDone(asked) =>
      if s.dirty then Again(s)
      else
        var t := s.(published := s.published + [s.covered]);
        if asked > 0 then Again(t.(requests := t.requests + asked)) else t.(phase := Idle)
    case ClientGone => if s.dirty then Again(s) else s.(phase := Idle)
    case ReadFails => s.(phase := Idle, dirty := false)
  }

  predicate Inv(s: State) {
    && s.covered <= s.requests && (s.phase.Reading? ==> (s.dirty <==> s.covered < s.requests))
    && (s.phase.Idle? ==> !s.dirty)
    && (forall i :: 0 <= i < |s.published| ==> s.published[i] <= s.covered)
    && (forall i, j :: 0 <= i < j < |s.published| ==> s.published[i] < s.published[j])
    && (s.phase.Reading? && s.published != [] ==> s.published[|s.published| - 1] < s.covered)
    && (s.phase.Starting? ==> s.covered < s.requests)
  }

  ghost predicate RunFrom(s: State, actions: seq<Action>)
    decreases |actions|
  {
    actions == [] || (Enabled(s, actions[0]) && RunFrom(Step(s, actions[0]), actions[1..]))
  }

  ghost function After(s: State, actions: seq<Action>): State
    requires RunFrom(s, actions)
    decreases |actions|
  {
    if actions == [] then s else After(Step(s, actions[0]), actions[1..])
  }

  lemma StepKeeps(s: State, a: Action)
    requires Inv(s) && Enabled(s, a)
    ensures Inv(Step(s, a))
  {
  }

  lemma {:induction false} RunKeeps(s: State, actions: seq<Action>)
    requires Inv(s) && RunFrom(s, actions)
    ensures Inv(After(s, actions))
    decreases |actions|
  {
    hide Inv, Step;
    if actions != [] {
      StepKeeps(s, actions[0]);
      RunKeeps(Step(s, actions[0]), actions[1..]);
    }
  }

  /** A run is a shorter run and one more step. */
  lemma {:induction false} RunSplits(s: State, actions: seq<Action>, k: nat)
    requires RunFrom(s, actions) && k < |actions|
    ensures RunFrom(s, actions[..k]) && RunFrom(s, actions[..k + 1]) && Enabled(After(s, actions[..k]), actions[k])
    ensures After(s, actions[..k + 1]) == Step(After(s, actions[..k]), actions[k])
    decreases k
  {
    hide Step, Enabled;
    var first, rest := actions[0], actions[1..];
    assert actions[..k + 1][1..] == rest[..k] && actions[..k + 1][0] == first;
    if k > 0 {
      assert actions[..k][1..] == rest[..k - 1] && actions[..k][0] == first;
      RunSplits(Step(s, first), rest, k - 1);
    }
  }

  /** The run ends with a refused start, or with a read that fails after a request overtook it. */
  ghost predicate EndsLosing(actions: seq<Action>)
    requires RunFrom(Fresh, actions)
  {
    actions != [] &&
    var a := actions[|actions| - 1];
    RunSplits(Fresh, actions, |actions| - 1);
    a.StartRefused? || (a.ReadFails? && After(Fresh, actions[..|actions| - 1]).dirty)
  }

  /**
   * At rest every request was followed by a read that began after it, exactly
   * unless the run ended with a refused start, or with a read that failed
   * after a request overtook it.
   */
  lemma {:induction false} NoLostRequest(actions: seq<Action>)
    requires RunFrom(Fresh, actions)
    ensures var s := After(Fresh, actions);
            s.phase.Idle? ==> (s.covered == s.requests <==> !EndsLosing(actions))
  {
    if actions != [] {
      var last := |actions| - 1;
      RunSplits(Fresh, actions, last);
      RunKeeps(Fresh, actions[..last]);
      assert actions[..last + 1] == actions;
      hide After, RunFrom;
    }
  }

  /** At rest the client has the roster of the last request exactly if the run ended with a read that succeeded. */
  lemma {:induction false} RosterAtRest(actions: seq<Action>)
    requires RunFrom(Fresh, actions) && actions != []
    ensures var s := After(Fresh, actions);
            s.phase.Idle? ==>
              (s.published != [] && s.published[|s.published| - 1] == s.requests <==> actions[|actions| - 1].ReadDone?)
  {
    var last := |actions| - 1;
    RunSplits(Fresh, actions, last);
    RunKeeps(Fresh, actions[..last]);
    assert actions[..last + 1] == actions;
    hide After, RunFrom;
  }

  const Refusing := [Request, StartRefused]

  /** A start refused, as during a reload that then fails: the only request is never read. */
  lemma {:induction false} RefusalLosesRequest()
    ensures RunFrom(Fresh, Refusing) && EndsLosing(Refusing)
    ensures After(Fresh, Refusing) == State(Idle, false, 1, 0, [])
  {
    assert Refusing[1..] == [StartRefused] && [StartRefused][1..] == [];
    RunSplits(Fresh, Refusing, 1);
  }

  const Overtaking := [Request, BeginRead, Request, ReadFails]

  /** A read that fails after a request overtook it: that request is never read, and nothing is left to read it. */
  lemma {:induction false} FailureLosesRequest()
    ensures RunFrom(Fresh, Overtaking) && EndsLosing(Overtaking)
    ensures After(Fresh, Overtaking) == State(Idle, false, 2, 1, [])
  {
    var a := Overtaking;
    assert a[1..] == [BeginRead, Request, ReadFails] && a[1..][1..] == [Request, ReadFails] && a[1..][1..][1..] == [ReadFails];
    assert [ReadFails][1..] == [];
    RunSplits(Fresh, a, 3);
    assert a[..3] == [Request, BeginRead, Request] && [BeginRead, Request][1..] == [Request] && [Request][1..] == [];
    assert a[..3][1..] == [BeginRead, Request];
  }

  /** In every run a roster is sent only if no request came since its read began, so each is newer than the one before. */
  lemma {:induction false} PublishedIsCurrent(actions: seq<Action>, k: nat)
    requires RunFrom(Fresh, actions) && k < |actions|
    ensures RunFrom(Fresh, actions[..k]) && RunFrom(Fresh, actions[..k + 1])
    ensures var s, t := After(Fresh, actions[..k]), After(Fresh, actions[..k + 1]);
            && (t.published == s.published || (actions[k].ReadDone? && t.published == s.published + [s.requests]))
            && forall i, j :: 0 <= i < j < |t.published| ==> t.published[i] < t.published[j]
  {
    RunSplits(Fresh, actions, k);
    RunKeeps(Fresh, actions[..k]);
    StepKeeps(After(Fresh, actions[..k]), actions[k]);
    hide After, RunFrom;
  }

  class Refresh {
    var phase: Phase
    var dirty: bool
    ghost var requests: nat
    ghost var covered: nat
    ghost var published: seq<nat>

    ghost function View(): State
      reads this
    {
      State(phase, dirty, requests, covered, published)
    }

    constructor ()
      ensures View() == Fresh
    {
      phase, dirty, requests, covered, published := Idle, false, 0, 0, [];
    }

    method RefreshRoster()
      modifies this
      ensures View() == Step(old(View()), Request)
    {
      requests := requests + 1;
      dirty := !phase.Idle?;
      if phase.Idle? { phase := Starting; }
    }

    /** The session's work refused the read: the entry is deleted. */
    method Refused()
      requires phase.Starting?
      modifies this
      ensures View() == Step(old(View()), StartRefused)
    {
      phase, dirty := Idle, false;
    }

    /** The turn of the loop that clears `dirty` and starts to read. */
    method Read()
      requires !phase.Idle?
      modifies this
      ensures View() == old(View()).(phase := Reading, dirty := false, covered := requests)
    {
      phase, dirty, covered := Reading, false, requests;
    }

    /** What follows a read that succeeded: publish unless overtaken, then read again or rest. */
    method AfterRead(clientOpen: bool, asked: nat)
      requires phase.Reading?
      modifies this
      ensures View() == Step(old(View()), if clientOpen then ReadDone(asked) else ClientGone)
    {
      if dirty {
        Read();
        return;
      }
      if !clientOpen {
        phase := Idle;
        return;
      }
      published := published + [covered];
      for i := 0 to asked
        invariant phase.Reading? && covered == old(covered) && published == old(published) + [covered]
        invariant requests == old(requests) + i && dirty == (i > 0)
      {
        RefreshRoster();
      }
      if dirty { Read(); } else { phase := Idle; }
    }
  }
}

/** Reminders: one read runs and at most one more waits for it. */
module ReminderReads {
  import opened Options

  /** `Turned` was refused by the session's work and is still the entry, as if it waited. */
  datatype Phase = Waiting | Running | Done | Turned

  /** One call's state, and what it chained itself after. */
  datatype Read = Read(phase: Phase, after: Option<nat>)

  /** `accepting` says whether the session's work takes reads; `latest` is the record's entry in `reminderReads`. */
  datatype State = State(accepting: bool, chain: seq<Read>, latest: Option<nat>, requests: nat, covered: nat)

  const Fresh := State(true, [], None, 0, 0)

  /**
   * `Start` is a read whose turn has come: it reads if its session is still
   * `live` to it. `Clear` forgets a read that was turned away. `Halt` and
   * `Resume` are a reload's preflight, which waits for the session's work.
   */
  datatype Action = Request | Start(read: nat, live: bool) | Finish(read: nat) | Clear(read: nat) | Halt | Resume

  predicate Pending(phase: Phase) {
    phase.Waiting? || phase.Running?
  }

  predicate Enabled(s: State, a: Action) {
    match a
    case Request => true
    case Start(i, _) =>
      && i < |s.chain| && s.chain[i].phase.Waiting?
      && (s.chain[i].after.Some? ==> s.chain[i].after.value < |s.chain| && s.chain[s.chain[i].after.value].phase.Done?)
    case Finish(i) => i < |s.chain| && s.chain[i].phase.Running?
    case Clear(i) => i < |s.chain| && s.chain[i].phase.Turned?
    case Halt => s.accepting
    case Resume => !s.accepting && forall i :: 0 <= i < |s.chain| ==> !Pending(s.chain[i].phase)
  }

  /** A call that finds the entry waiting shares it. */
  predicate Shares(s: State) {
    s.latest.Some? && s.latest.value < |s.chain| && (s.chain[s.latest.value].phase.Waiting? || s.chain[s.latest.value].phase.Turned?)
  }

  function Ended(s: State, i: nat): State
    requires i < |s.chain|
  {
    s.(chain := s.chain[i := s.chain[i].(phase := Done)], latest := if s.latest == Some(i) then None else s.latest)
  }

  function Step(s: State, a: Action): State
    requires Enabled(s, a)
  {
    match a
    case Request =>
      var t := s.(requests := s.requests + 1);
      if Shares(s) then t
      else t.(chain := s.chain + [Read(if s.accepting then Waiting else Turned, s.latest)], latest := Some(|s.chain|))
    case Start(i, live) =>
      s.(chain := s.chain[i := s.chain[i].(phase := Running)], covered := if live then s.requests else s.covered)
    case Finish(i) => Ended(s, i)
    case Clear(i) => Ended(s, i)
    case Halt => s.(accepting := false)
    case Resume => s.(accepting := true)
  }

  /** The entry is the last read, and is not done; only it may wait or be turned away, and then it owes a request. */
  ghost predicate Entered(s: State) {
    var n := |s.chain|;
    && (s.latest.Some? ==> n > 0 && s.latest.value == n - 1 && !s.chain[n - 1].phase.Done?)
    && (forall i :: 0 <= i < n && (s.chain[i].phase.Waiting? || s.chain[i].phase.Turned?) ==> s.latest == Some(i) && s.covered < s.requests)
    && s.covered <= s.requests
  }

  /** Reads chain after earlier ones that were not turned away. */
  ghost predicate Chained(s: State) {
    forall i :: 0 <= i < |s.chain| && s.chain[i].after.Some? ==>
      s.chain[i].after.value < i && !s.chain[s.chain[i].after.value].phase.Turned?
  }

  /** The entry waits for read `i`. */
  ghost predicate Queued(s: State, i: nat) {
    s.latest.Some? && s.latest.value < |s.chain| && s.chain[s.latest.value] == Read(Waiting, Some(i))
  }

  /** One read runs; what waits, waits for it; while reads are taken it is the entry or the one before. */
  ghost predicate InTurn(s: State) {
    var n := |s.chain|;
    && (forall i, j :: 0 <= i < n && 0 <= j < n && s.chain[i].phase.Running? && s.chain[j].phase.Running? ==> i == j)
    && (forall i, j :: 0 <= i < n && 0 <= j < n && s.chain[i].phase.Running? && s.chain[j].phase.Waiting? ==> s.chain[j].after == Some(i))
    && (s.accepting ==> forall i :: 0 <= i < n && s.chain[i].phase.Running? ==> s.latest == Some(i) || Queued(s, i))
  }

  ghost predicate Inv(s: State) {
    Entered(s) && Chained(s) && InTurn(s)
  }

  lemma StepEntered(s: State, a: Action)
    requires Entered(s) && Enabled(s, a)
    ensures Entered(Step(s, a))
  {
  }

  lemma StepChained(s: State, a: Action)
    requires Entered(s) && Chained(s) && Enabled(s, a)
    ensures Chained(Step(s, a))
  {
  }

  lemma RequestInTurn(s: State)
    requires Entered(s) && InTurn(s)
    ensures InTurn(Step(s, Request))
  {
    var t := Step(s, Request);
    if !Shares(s) {
      var n := |s.chain|;
      assert forall i :: 0 <= i < n ==> t.chain[i] == s.chain[i] && !s.chain[i].phase.Waiting?;
      assert s.accepting ==> forall i :: 0 <= i < n && s.chain[i].phase.Running? ==> s.latest == Some(i) && Queued(t, i);
    }
  }

  lemma StartInTurn(s: State, i: nat, live: bool)
    requires Entered(s) && InTurn(s) && Enabled(s, Start(i, live))
    ensures InTurn(Step(s, Start(i, live)))
  {
    assert forall j :: 0 <= j < |s.chain| ==> !s.chain[j].phase.Running?;
    assert s.latest == Some(i);
  }

  lemma EndInTurn(s: State, i: nat)
    requires Entered(s) && InTurn(s) && i < |s.chain| && (s.chain[i].phase.Running? || s.chain[i].phase.Turned?)
    ensures InTurn(Ended(s, i))
  {
    var t := Ended(s, i);
    assert forall j :: 0 <= j < |s.chain| && j != i ==> t.chain[j] == s.chain[j];
  }

  lemma StepInTurn(s: State, a: Action)
    requires Entered(s) && InTurn(s) && Enabled(s, a)
    ensures InTurn(Step(s, a))
  {
    match a
    case Request => RequestInTurn(s);
    case Start(i, live) => StartInTurn(s, i, live);
    case Finish(i) => EndInTurn(s, i);
    case Clear(i) => EndInTurn(s, i);
    case Halt =>
    case Resume =>
  }

  lemma StepKeeps(s: State, a: Action)
    requires Inv(s) && Enabled(s, a)
    ensures Inv(Step(s, a))
  {
    StepEntered(s, a);
    StepChained(s, a);
    StepInTurn(s, a);
    hide Entered, Chained, InTurn, Step;
  }

  ghost predicate RunFrom(s: State, actions: seq<Action>)
    decreases |actions|
  {
    actions == [] || (Enabled(s, actions[0]) && RunFrom(Step(s, actions[0]), actions[1..]))
  }

  ghost function After(s: State, actions: seq<Action>): State
    requires RunFrom(s, actions)
    decreases |actions|
  {
    if actions == [] then s else After(Step(s, actions[0]), actions[1..])
  }

  /** A run is a shorter run and its last step. */
  lemma {:induction false} RunLast(s: State, actions: seq<Action>)
    requires RunFrom(s, actions) && actions != []
    ensures var before, a := actions[..|actions| - 1], actions[|actions| - 1];
            RunFrom(s, before) && Enabled(After(s, before), a) && After(s, actions) == Step(After(s, before), a)
    decreases |actions|
  {
    hide Step, Enabled;
    if |actions| > 1 {
      assert actions[..|actions| - 1][1..] == actions[1..][..|actions| - 2];
      RunLast(Step(s, actions[0]), actions[1..]);
    }
  }

  /** The last read that had its turn, or was turned away, did read. */
  predicate Served(actions: seq<Action>) {
    actions == [] ||
    match actions[|actions| - 1]
    case Start(_, live) => live
    case Clear(_) => false
    case _ => Served(actions[..|actions| - 1])
  }

  ghost predicate Outstanding(s: State) {
    exists i :: 0 <= i < |s.chain| && (s.chain[i].phase.Waiting? || s.chain[i].phase.Turned?)
  }

  ghost predicate Accounted(s: State, served: bool) {
    !Outstanding(s) ==> (s.covered == s.requests <==> served)
  }

  lemma StepAccounted(s: State, a: Action, served: bool)
    requires Inv(s) && Enabled(s, a) && Accounted(s, served)
    ensures Accounted(Step(s, a), match a case Start(_, live) => live case Clear(_) => false case _ => served)
  {
    var t := Step(s, a);
    if a.Request? {
      var i := if Shares(s) then s.latest.value else |s.chain|;
      assert t.chain[i].phase.Waiting? || t.chain[i].phase.Turned?;
    } else if Outstanding(s) && !a.Start? && !a.Clear? {
      var i :| 0 <= i < |s.chain| && (s.chain[i].phase.Waiting? || s.chain[i].phase.Turned?);
      assert t.chain[i] == s.chain[i];
    } else if !Outstanding(t) && !a.Start? && !a.Clear? {
      assert s.covered == t.covered && s.requests == t.requests;
    }
  }

  lemma {:induction false} RunAccounted(actions: seq<Action>)
    requires RunFrom(Fresh, actions)
    ensures Inv(After(Fresh, actions)) && Accounted(After(Fresh, actions), Served(actions))
    decreases |actions|
  {
    hide Accounted, Inv, Step, Enabled;
    if actions == [] {
      FreshFits();
    } else {
      var before, a := actions[..|actions| - 1], actions[|actions| - 1];
      RunLast(Fresh, actions);
      RunAccounted(before);
      StepKeeps(After(Fresh, before), a);
      StepAccounted(After(Fresh, before), a, Served(before));
    }
  }

  lemma FreshFits()
    ensures Inv(Fresh) && Accounted(Fresh, true)
  {
  }

  ghost function InPhase(s: State, phase: Phase): set<nat> {
    set i: nat | i < |s.chain| && s.chain[i].phase == phase
  }

  /**
   * In every run at most one read is under way and at most one waits, which
   * can have its turn once the other has finished. When nothing is owed any
   * more, a read began after the last request if and only if the last read to
   * be decided had its turn and read, and was not turned away.
   */
  lemma {:induction false} NoLostRequest(actions: seq<Action>)
    requires RunFrom(Fresh, actions)
    ensures var s := After(Fresh, actions);
            && (forall i, j :: i in InPhase(s, Running) && j in InPhase(s, Running) ==> i == j)
            && (forall i, j :: i in InPhase(s, Waiting) && j in InPhase(s, Waiting) ==> i == j)
            && (forall i, live :: i in InPhase(s, Waiting) && InPhase(s, Running) == {} ==> Enabled(s, Start(i, live)))
            && (InPhase(s, Waiting) == {} && InPhase(s, Turned) == {} ==> (s.covered == s.requests <==> Served(actions)))
  {
    RunAccounted(actions);
    var s := After(Fresh, actions);
    hide RunFrom, After, Served;
    forall i, live | i in InPhase(s, Waiting) && InPhase(s, Running) == {}
      ensures Enabled(s, Start(i, live))
    {
      if s.chain[i].after.Some? {
        var k := s.chain[i].after.value;
        assert k !in InPhase(s, Running);
        assert !s.chain[k].phase.Waiting?;
      }
    }
    if InPhase(s, Waiting) == {} && InPhase(s, Turned) == {} {
      forall i | 0 <= i < |s.chain|
        ensures !s.chain[i].phase.Waiting? && !s.chain[i].phase.Turned?
      {
        assert i !in InPhase(s, Waiting) && i !in InPhase(s, Turned);
      }
    }
  }

  const TurnedAway := [Halt, Request, Clear(0), Resume]

  /** A request during a reload that then fails: reads are taken again, and its read never begins. */
  lemma {:induction false} RefusalLosesRequest()
    ensures RunFrom(Fresh, TurnedAway) && !Served(TurnedAway)
    ensures After(Fresh, TurnedAway) == State(true, [Read(Done, None)], None, 1, 0)
  {
    var actions := TurnedAway;
    var s1 := State(false, [], None, 0, 0);
    var s2 := State(false, [Read(Turned, None)], Some(0), 1, 0);
    var s3 := State(false, [Read(Done, None)], None, 1, 0);
    var s4 := State(true, [Read(Done, None)], None, 1, 0);
    assert Step(Fresh, Halt) == s1 && Step(s1, Request) == s2 && Step(s2, Clear(0)) == s3;
    assert Enabled(s3, Resume) && Step(s3, Resume) == s4;
    assert Served(actions) == Served(actions[..3]) && !Served(actions[..3]);
    hide Step, Enabled, Served;
    assert actions[3..] == [Resume] && actions[3..][1..] == [] && actions[2..][1..] == actions[3..] && actions[1..][1..] == actions[2..];
    assert RunFrom(s4, []) && RunFrom(s3, actions[3..]) && After(s3, actions[3..]) == After(s4, []) == s4;
    assert RunFrom(s2, actions[2..]) && After(s2, actions[2..]) == s4;
    assert RunFrom(s1, actions[1..]) && After(s1, actions[1..]) == s4;
  }

  class Reminders {
    var accepting: bool
    var chain: seq<Read>
    var latest: Option<nat>
    ghost var requests: nat
    ghost var covered: nat

    ghost function View(): State
      reads this
    {
      State(accepting, chain, latest, requests, covered)
    }

    constructor ()
      ensures View() == Fresh
    {
      accepting, chain, latest, requests, covered := true, [], None, 0, 0;
    }

    method EmitReminders()
      requires Inv(View())
      modifies this
      ensures View() == Step(old(View()), Request)
    {
      requests := requests + 1;
      if latest.Some? && (chain[latest.value].phase.Waiting? || chain[latest.value].phase.Turned?) { return; }
      chain := chain + [Read(if accepting then Waiting else Turned, latest)];
      latest := Some(|chain| - 1);
    }

    method Begin(i: nat, live: bool)
      requires Enabled(View(), Start(i, live))
      modifies this
      ensures View() == Step(old(View()), Start(i, live))
    {
      chain := chain[i := chain[i].(phase := Running)];
      if live { covered := requests; }
    }

    /** The read settled, or was turned away: it is forgotten if it is still the entry. */
    method Settled(i: nat)
      requires Enabled(View(), Finish(i)) || Enabled(View(), Clear(i))
      modifies this
      ensures View() == Ended(old(View()), i)
    {
      chain := chain[i := chain[i].(phase := Done)];
      if latest == Some(i) { latest := None; }
    }
  }
}
