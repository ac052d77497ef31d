/**
 * What a reload does to its record, told from the outcomes of its phases: the
 * record is withdrawn exactly if everything went well while it was the owner.
 */
module SessionRegistryReloads {
  import opened Options
  import opened SessionRegistryModel
  import opened SessionRegistrySafety

  /** How the phases of `r`'s reload ended: its hooks, the settling of its work, its idling, its flush and its capture. */
  function Ends(actions: seq<Action>, r: Record): seq<bool> {
    if actions == [] then []
    else (if actions[0].ReloadEnds? && actions[0].record == r then [actions[0].ok] else []) + Ends(actions[1..], r)
  }

  ghost predicate AllWell(ends: seq<bool>) {
    forall i :: 0 <= i < |ends| ==> ends[i]
  }

  const PHASES := 5

  function PhaseNumber(phase: Reload): nat {
    match phase
    case Cancelling => 0
    case Settling(_) => 1
    case Idling => 2
    case Preflush => 3
    case Capturing => 4
    case Retiring => 5
  }

  /** While the reload goes on, `ends` are its phases so far. */
  ghost predicate Phased(s: State, r: Record, ends: seq<bool>) {
    r in s.reloads && !s.reloads[r].Retiring? ==>
      && |ends| == PhaseNumber(s.reloads[r])
      && if s.reloads[r].Settling? then ends == [s.reloads[r].hooksOk] else AllWell(ends)
  }

  lemma StepPhased(s: State, a: Action, r: Record, ends: seq<bool>)
    requires Inv(s) && Enabled(s, a) && a != DoReload(r) && Phased(s, r, ends)
    ensures Phased(Step(s, a), r, if a.ReloadEnds? && a.record == r then ends + [a.ok] else ends)
  {
    hide Inv;
    match a
    case DoPublish(_, _) =>
    case DoClose(q) =>
    case DoReload(q) =>
    case TeardownEnds(q, _) =>
    case ReloadEnds(q, ok) =>
      if q == r { OwnEnds(s, r, ok, ends); } else { OtherEnds(s, q, ok, r); }
    case _ =>
  }

  lemma OwnEnds(s: State, r: Record, ok: bool, ends: seq<bool>)
    requires Enabled(s, ReloadEnds(r, ok)) && Phased(s, r, ends)
    ensures Phased(ReloadStep(s, r, ok), r, ends + [ok])
  {
    WellNext(ends, ok);
    if ends == [] { assert ends + [ok] == [ok]; }
    hide Retire;
    if s.reloads[r].Capturing? && ok && Listed(s, r) {
      RetireReloads(s.(reloads := s.reloads[r := Retiring], borrowed := s.borrowed - {r}), r);
    }
  }

  lemma OtherEnds(s: State, q: Record, ok: bool, r: Record)
    requires Enabled(s, ReloadEnds(q, ok)) && q != r
    ensures r in ReloadStep(s, q, ok).reloads <==> r in s.reloads
    ensures r in s.reloads ==> ReloadStep(s, q, ok).reloads[r] == s.reloads[r]
  {
    if s.reloads[q].Capturing? && ok && Listed(s, q) {
      RetireReloads(s.(reloads := s.reloads[q := Retiring], borrowed := s.borrowed - {q}), q);
    }
    hide Retire;
  }

  lemma {:induction false} RunPhased(s: State, actions: seq<Action>, r: Record, ends: seq<bool>)
    requires Inv(s) && RunFrom(s, actions) && DoReload(r) !in actions && Phased(s, r, ends)
    ensures Phased(After(s, actions), r, ends + Ends(actions, r))
    decreases |actions|
  {
    hide Inv, Phased, Step, Enabled;
    if actions == [] {
      assert ends + [] == ends;
    } else {
      var a, rest := actions[0], actions[1..];
      assert a in actions && forall b :: b in rest ==> b in actions;
      StepKeeps(s, a);
      StepPhased(s, a, r, ends);
      if a.ReloadEnds? && a.record == r {
        RunPhased(Step(s, a), rest, r, ends + [a.ok]);
        assert ends + [a.ok] + Ends(rest, r) == ends + ([a.ok] + Ends(rest, r));
      } else {
        RunPhased(Step(s, a), rest, r, ends);
        assert [] + Ends(rest, r) == Ends(rest, r);
      }
    }
  }

  /** A reload that has got past its second phase has had no failure; before, only its hooks may have failed. */
  ghost predicate Promising(ends: seq<bool>) {
    |ends| == 1 || AllWell(ends)
  }

  /** What the end of a phase does: the reload goes on, ends, or withdraws its record. */
  lemma PhaseDecides(s: State, r: Record, ok: bool, ends: seq<bool>)
    requires Inv(s) && Enabled(s, ReloadEnds(r, ok)) && Phased(s, r, ends)
    ensures var t := ReloadStep(s, r, ok);
            && Promising(ends)
            && (r !in t.reloads <==> ends != [] && !(AllWell(ends) && ok && Listed(s, r)))
            && (Listed(s, r) && !Listed(t, r) <==> |ends| + 1 == PHASES && AllWell(ends + [ok]) && Listed(s, r))
            && (Listed(s, r) && !Listed(t, r) ==>
                  Withdrawing(t, r) && Leaving(t, r) && r in t.trace && t.trace[r] == [Published, Withdrawn])
  {
    assert ends == [] <==> s.reloads[r].Cancelling?;
    assert |ends| == 1 <==> s.reloads[r].Settling?;
    assert |ends| + 1 == PHASES <==> s.reloads[r].Capturing?;
    WellNext(ends, ok);
    if |ends| == 1 { assert AllWell(ends) <==> ends[0]; }
    hide Phased, AllWell;
    if s.reloads[r].Capturing? && ok && Listed(s, r) {
      Commits(s, r);
    } else {
      hide Inv, Retire, Withdrawing;
    }
  }

  lemma WellNext(ends: seq<bool>, ok: bool)
    ensures AllWell(ends + [ok]) <==> AllWell(ends) && ok
  {
    var more := ends + [ok];
    assert forall i :: 0 <= i < |ends| ==> more[i] == ends[i];
    assert more[|ends|] == ok;
  }

  lemma Commits(s: State, r: Record)
    requires Inv(s) && r in s.trace && r in s.reloads && s.reloads[r].Capturing? && Listed(s, r)
    ensures var t := ReloadStep(s, r, true);
            && !Listed(t, r) && Leaving(t, r) && r in t.reloads
            && Withdrawing(t, r) && r in t.trace && t.trace[r] == [Published, Withdrawn]
  {
    ListedFits(s, r);
    hide Inv;
    assert [Published] + [Withdrawn] == [Published, Withdrawn];
  }

  /** The record leaves without a second flush: its reload flushed it. */
  ghost predicate Withdrawing(s: State, r: Record) {
    r in s.releases && s.releases[r].flushed && !s.releases[r].refused && r in s.preflushed
  }

  /** Teardowns are never forgotten, and withdrawing another record starts another. */
  lemma RetireKept(s: State, q: Record, flushed: bool, r: Record)
    requires (Listed(s, q) ==> q in s.trace) && r in s.releases
    ensures var t := Retire(s, q, flushed); r in t.releases && t.releases[r] == s.releases[r] && t.preflushed == s.preflushed
  {
  }

  lemma ReloadKept(s: State, q: Record, ok: bool, r: Record)
    requires Enabled(s, ReloadEnds(q, ok)) && r in s.releases
    ensures var t := ReloadStep(s, q, ok); r in t.releases && t.releases[r] == s.releases[r] && s.preflushed <= t.preflushed
  {
    if s.reloads[q].Capturing? && ok && Listed(s, q) {
      RetireKept(s.(reloads := s.reloads[q := Retiring], borrowed := s.borrowed - {q}), q, true, r);
    }
    hide Retire;
  }

  lemma PublishKept(s: State, q: Record, live: bool, r: Record)
    requires Enabled(s, DoPublish(q, live)) && r in s.releases && r in s.trace
    ensures var t := Publish(s, q, live); r in t.releases && t.releases[r] == s.releases[r] && t.preflushed == s.preflushed
  {
  }

  lemma TeardownKept(s: State, q: Record, failures: nat, r: Record)
    requires Enabled(s, TeardownEnds(q, failures)) && r in s.releases
    ensures var t := TeardownStep(s, q, failures);
            && r in t.releases && t.releases[r].flushed == s.releases[r].flushed && t.releases[r].refused == s.releases[r].refused
            && t.preflushed == s.preflushed
  {
  }

  lemma StepWithdrawing(s: State, a: Action, r: Record)
    requires Inv(s) && Enabled(s, a) && Withdrawing(s, r)
    ensures Withdrawing(Step(s, a), r)
  {
    ReleasedFits(s, r);
    hide Inv, RecordFits, Publish, TeardownStep, ReloadStep, Retire;
    match a
    case DoPublish(q, live) => PublishKept(s, q, live, r);
    case TeardownEnds(q, failures) => TeardownKept(s, q, failures, r);
    case ReloadEnds(q, ok) => ReloadKept(s, q, ok, r);
    case DoClose(q) => WithdrawKept(s, q, r);
    case _ =>
  }

  lemma WithdrawKept(s: State, q: Record, r: Record)
    requires q in s.trace && Withdrawing(s, r)
    ensures Withdrawing(Retire(s, q, false).(sweep := s.sweep - {q}), r)
  {
    RetireKept(s, q, false, r);
    hide Retire;
  }

  lemma {:induction false} RunWithdrawing(s: State, actions: seq<Action>, r: Record)
    requires Inv(s) && RunFrom(s, actions) && Withdrawing(s, r)
    ensures Withdrawing(After(s, actions), r)
    decreases |actions|
  {
    hide Inv, Withdrawing, Step, Enabled;
    if actions != [] {
      StepKeeps(s, actions[0]);
      StepWithdrawing(s, actions[0], r);
      RunWithdrawing(Step(s, actions[0]), actions[1..], r);
    }
  }

  const FlushedBefore := [Published, Withdrawn, Drained, Disposed]

  /** Its id is kept until it has drained and been disposed. */
  lemma KeepsId(s: State, r: Record)
    requires Inv(s) && Withdrawing(s, r)
    ensures r in s.trace && (!Leaving(s, r) ==> s.trace[r] == FlushedBefore)
    ensures forall q :: (Listed(s, q) || Leaving(s, q)) && q.session == r.session && q != r ==> s.trace[r] == FlushedBefore
  {
    assert RecordFits(s, r) && Sheets(s);
    hide AllFit;
    assert [Published, Withdrawn] + [Drained] + [] + [Disposed] == FlushedBefore;
  }

  /**
   * The end of a reload's phase, in every run: the record is withdrawn exactly
   * if this is its last phase, all went well, and it is still the owner. Then
   * it is retiring, flushed by its reload, and nobody has its id before it has
   * drained and been disposed, whatever follows. From its second phase on the
   * reload ends exactly if this or an earlier phase failed or the record has
   * lost its place.
   */
  lemma {:induction false} ReloadWithdraws(before: seq<Action>, r: Record, during: seq<Action>, ok: bool, after: seq<Action>)
    requires RunFrom(Fresh, before) && AcceptsInput(After(Fresh, before), r) && Enabled(After(Fresh, before), DoReload(r))
    requires var begun := Step(After(Fresh, before), DoReload(r));
             && RunFrom(begun, during) && DoReload(r) !in during && Enabled(After(begun, during), ReloadEnds(r, ok))
             && RunFrom(Step(After(begun, during), ReloadEnds(r, ok)), after)
    ensures var s := After(Step(After(Fresh, before), DoReload(r)), during);
            var t := Step(s, ReloadEnds(r, ok));
            var ends, withdrawn := Ends(during, r), Listed(s, r) && !Listed(t, r);
            && (withdrawn <==> |ends| + 1 == PHASES && AllWell(ends + [ok]) && Listed(s, r))
            && (r !in t.reloads <==> ends != [] && !(AllWell(ends + [ok]) && Listed(s, r)))
            && (withdrawn ==> Leaving(t, r) && r in t.trace && t.trace[r] == [Published, Withdrawn])
            && (withdrawn ==>
                  var u := After(t, after);
                  && r in u.trace && (!Leaving(u, r) ==> u.trace[r] == FlushedBefore)
                  && forall q :: (Listed(u, q) || Leaving(u, q)) && q.session == r.session && q != r ==> u.trace[r] == FlushedBefore)
  {
    FreshInv();
    RunKeeps(Fresh, before);
    var begun := Step(After(Fresh, before), DoReload(r));
    StepKeeps(After(Fresh, before), DoReload(r));
    assert Phased(begun, r, []);
    hide RunFrom, After, Inv, Phased, ReloadStep, AllWell, Withdrawing;
    RunKeeps(begun, during);
    RunPhased(begun, during, r, []);
    assert [] + Ends(during, r) == Ends(during, r);
    ReloadFrom(After(begun, during), r, ok, Ends(during, r), after);
  }

  lemma ReloadFrom(s: State, r: Record, ok: bool, ends: seq<bool>, after: seq<Action>)
    requires Inv(s) && Enabled(s, ReloadEnds(r, ok)) && Phased(s, r, ends) && RunFrom(Step(s, ReloadEnds(r, ok)), after)
    ensures var t := Step(s, ReloadEnds(r, ok));
            var withdrawn := Listed(s, r) && !Listed(t, r);
            && (withdrawn <==> |ends| + 1 == PHASES && AllWell(ends + [ok]) && Listed(s, r))
            && (r !in t.reloads <==> ends != [] && !(AllWell(ends + [ok]) && Listed(s, r)))
            && (withdrawn ==> Leaving(t, r) && r in t.trace && t.trace[r] == [Published, Withdrawn])
            && (withdrawn ==>
                  var u := After(t, after);
                  && r in u.trace && (!Leaving(u, r) ==> u.trace[r] == FlushedBefore)
                  && forall q :: (Listed(u, q) || Leaving(u, q)) && q.session == r.session && q != r ==> u.trace[r] == FlushedBefore)
  {
    var t := Step(s, ReloadEnds(r, ok));
    PhaseDecides(s, r, ok, ends);
    WellNext(ends, ok);
    StepKeeps(s, ReloadEnds(r, ok));
    hide RunFrom, After, Inv, Phased, ReloadStep, AllWell, Withdrawing;
    if Listed(s, r) && !Listed(t, r) {
      KeepsId(t, r);
      RunKeeps(t, after);
      RunWithdrawing(t, after, r);
      KeepsId(After(t, after), r);
    }
  }

  // ----- No failure of a teardown is lost -----

  /** The failures that the stages of `r`'s teardown report. */
  function Reported(actions: seq<Action>, r: Record): nat {
    if actions == [] then 0
    else (if actions[0].TeardownEnds? && actions[0].record == r then actions[0].failures else 0) + Reported(actions[1..], r)
  }

  function Collected(s: State, r: Record): nat {
    if r in s.releases then s.releases[r].failures else 0
  }

  lemma RetireCollects(s: State, q: Record, flushed: bool, r: Record)
    requires Listed(s, q) ==> q in s.trace
    ensures Collected(Retire(s, q, flushed), r) == Collected(s, r)
  {
  }

  lemma ReloadCollects(s: State, q: Record, ok: bool, r: Record)
    requires Enabled(s, ReloadEnds(q, ok))
    ensures Collected(ReloadStep(s, q, ok), r) == Collected(s, r)
  {
    hide Retire;
    if s.reloads[q].Capturing? && ok && Listed(s, q) { RetireCollects(Committing(s, q), q, true, r); }
  }

  lemma StepCollects(s: State, a: Action, r: Record)
    requires Inv(s) && Enabled(s, a)
    ensures Collected(Step(s, a), r) == Collected(s, r) + if a.TeardownEnds? && a.record == r then a.failures else 0
  {
    hide Inv, Publish, Retire, ReloadStep;
    match a
    case DoPublish(q, live) => PublishCollects(s, q, live, r);
    case DoClose(q) => RetireCollects(s, q, false, r);
    case ReloadEnds(q, ok) => ReloadCollects(s, q, ok, r);
    case _ =>
  }

  lemma PublishCollects(s: State, q: Record, live: bool, r: Record)
    requires Inv(s) && Enabled(s, DoPublish(q, live))
    ensures Collected(Publish(s, q, live), r) == Collected(s, r)
  {
    assert Sheets(s);
    hide AllFit;
  }

  lemma {:induction false} RunCollects(s: State, actions: seq<Action>, r: Record)
    requires Inv(s) && RunFrom(s, actions)
    ensures Collected(After(s, actions), r) == Collected(s, r) + Reported(actions, r)
    decreases |actions|
  {
    hide Inv, Step, Enabled, Collected;
    if actions != [] {
      StepKeeps(s, actions[0]);
      StepCollects(s, actions[0], r);
      RunCollects(Step(s, actions[0]), actions[1..], r);
    }
  }

  /** In every run a teardown keeps every failure its stages met, so that it fails exactly if one did. */
  lemma {:induction false} NoFailureLost(actions: seq<Action>, r: Record)
    requires RunFrom(Fresh, actions)
    ensures Collected(After(Fresh, actions), r) == Reported(actions, r)
  {
    FreshInv();
    RunCollects(Fresh, actions, r);
  }
}
