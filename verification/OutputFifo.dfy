/**
 * The ordered output of a session: plain updates, updates whose content is
 * still being loaded, and the drain that sends them in call order.
 */
module OutputFifo {
  import opened Options

  datatype Body = Plain(text: string) | Promised

  /** One accepted call of `update`, with the prompt id captured when it was made. */
  datatype Call = Call(stamp: Option<string>, replay: bool, body: Body)

  /** A queued emitter: the call it closes over and that call's position among all calls. */
  datatype Item = Item(ticket: nat, call: Call)

  datatype Wire =
    | Update(eventSeq: nat, ticket: nat, stamp: Option<string>, replay: bool, text: string)
    | Notification(eventSeq: nat)

  /** Where the drain is; `Idle` is `outputTail === undefined`. */
  datatype Phase = Idle | Scheduled | Between | AtItem(item: Item) | ItemDone

  /**
   * `waiting` is the live part of the queue. The rest is history: the accepted
   * calls, what was sent, and the tickets whose projection failed or that came
   * due once the output was closed.
   */
  datatype State = State(open: bool, eventSeq: nat, waiting: seq<Item>, phase: Phase,
                         calls: seq<Call>, wire: seq<Wire>, failed: set<nat>, late: set<nat>)

  const Fresh := State(true, 1, [], Idle, [], [], {}, {})

  datatype Action =
    | Call_(call: Call)
    | Notify
    | Begin
    | Take
    | Settle(outcome: Option<string>)
    | Next
    | Finish
    | Close

  predicate Enabled(s: State, a: Action) {
    match a
    case Begin => s.phase.Scheduled?
    case Take => s.phase.Between? && s.waiting != []
    case Settle(_) => s.phase.AtItem?
    case Next => s.phase.ItemDone?
    case Finish => s.phase.Between? && s.waiting == []
    case _ => true
  }

  function Emit(s: State, item: Item, text: string): State {
    s.(eventSeq := s.eventSeq + 1, wire := s.wire + [Update(s.eventSeq, item.ticket, item.call.stamp, item.call.replay, text)])
  }

  function Push(s: State, item: Item): State {
    s.(waiting := s.waiting + [item], phase := if s.phase.Idle? then Scheduled else s.phase)
  }

  function Called(s: State, call: Call): State {
    if !s.open then s
    else
      var item := Item(|s.calls|, call);
      var t := s.(calls := s.calls + [call]);
      if call.body.Promised? || !s.phase.Idle? || call.replay then Push(t, item) else Emit(t, item, call.body.text)
  }

  /** What an item has to send once it is due. */
  function Text(item: Item, outcome: Option<string>): Option<string> {
    match item.call.body
    case Plain(text) => Some(text)
    case Promised => outcome
  }

  function Settled(s: State, item: Item, outcome: Option<string>): State {
    var text := Text(item, outcome);
    var t := s.(phase := ItemDone);
    if text.None? then t.(failed := t.failed + {item.ticket})
    else if !s.open then t.(late := t.late + {item.ticket})
    else Emit(t, item, text.value)
  }

  function Step(s: State, a: Action): State
    requires Enabled(s, a)
  {
    match a
    case Call_(call) => Called(s, call)
    case Notify => if !s.open then s else s.(eventSeq := s.eventSeq + 1, wire := s.wire + [Notification(s.eventSeq)])
    case Begin => s.(phase := Between)
    case Take => s.(phase := AtItem(s.waiting[0]), waiting := s.waiting[1..])
    case Settle(outcome) => Settled(s, s.phase.item, outcome)
    case Next => s.(phase := Between)
    case Finish => s.(phase := Idle)
    case Close => s.(open := false)
  }

  // ----- Order and conservation -----

  function Sent(wire: seq<Wire>): seq<nat> {
    if wire == [] then []
    else
      var last := wire[|wire| - 1];
      Sent(wire[..|wire| - 1]) + (if last.Update? then [last.ticket] else [])
  }

  function Tickets(items: seq<Item>): seq<nat> {
    seq(|items|, i requires 0 <= i < |items| => items[i].ticket)
  }

  function Current(phase: Phase): seq<nat> {
    if phase.AtItem? then [phase.item.ticket] else []
  }

  /** Everything sent, being sent or still waiting, in that order. */
  function Line(s: State): seq<nat> {
    Sent(s.wire) + Current(s.phase) + Tickets(s.waiting)
  }

  ghost predicate Ascending(line: seq<nat>) {
    forall i, j :: 0 <= i < j < |line| ==> line[i] < line[j]
  }

  /** Each accepted call is in line, failed or came too late: one of the three. */
  ghost predicate Accounted(line: seq<nat>, failed: set<nat>, late: set<nat>, n: nat) {
    && (forall t :: t in line ==> t < n && t !in failed && t !in late)
    && (forall t :: t in failed ==> t < n && t !in late)
    && (forall t :: t in late ==> t < n)
    && (forall t: nat :: t < n ==> t in line || t in failed || t in late)
  }

  ghost predicate Faithful(wire: seq<Wire>, calls: seq<Call>) {
    forall i :: 0 <= i < |wire| && wire[i].Update? ==>
      && wire[i].ticket < |calls|
      && wire[i].stamp == calls[wire[i].ticket].stamp && wire[i].replay == calls[wire[i].ticket].replay
      && (calls[wire[i].ticket].body.Plain? ==> wire[i].text == calls[wire[i].ticket].body.text)
  }

  ghost predicate Counted(wire: seq<Wire>, eventSeq: nat) {
    eventSeq == |wire| + 1 && forall i :: 0 <= i < |wire| ==> wire[i].eventSeq == i + 1
  }

  predicate Holds(item: Item, calls: seq<Call>) {
    item.ticket < |calls| && item.call == calls[item.ticket]
  }

  ghost predicate Queued(waiting: seq<Item>, phase: Phase, calls: seq<Call>) {
    && (forall i :: 0 <= i < |waiting| ==> Holds(waiting[i], calls))
    && (phase.AtItem? ==> Holds(phase.item, calls)) && (phase.Idle? ==> waiting == [])
  }

  /** Only loading can fail, and only a closed output comes too late. */
  ghost predicate Excused(open: bool, failed: set<nat>, late: set<nat>, calls: seq<Call>) {
    (late != {} ==> !open) && forall t :: t in failed ==> t < |calls| && calls[t].body.Promised?
  }

  ghost predicate Inv(s: State) {
    && Ascending(Line(s)) && Accounted(Line(s), s.failed, s.late, |s.calls|) && Faithful(s.wire, s.calls)
    && Counted(s.wire, s.eventSeq) && Queued(s.waiting, s.phase, s.calls) && Excused(s.open, s.failed, s.late, s.calls)
  }

  lemma SentOne(wire: seq<Wire>, w: Wire)
    ensures Sent(wire + [w]) == Sent(wire) + if w.Update? then [w.ticket] else []
  {
    assert (wire + [w])[..|wire|] == wire;
  }

  lemma LineAdds(line: seq<nat>, failed: set<nat>, late: set<nat>, n: nat)
    requires Ascending(line) && Accounted(line, failed, late, n)
    ensures Ascending(line + [n]) && Accounted(line + [n], failed, late, n + 1)
  {
    assert forall t :: t in line ==> t in line + [n];
    assert (line + [n])[|line|] == n;
    assert forall i :: 0 <= i < |line| ==> line[i] in line;
  }

  lemma PushLine(s: State, call: Call)
    requires Inv(s) && s.open
    ensures Line(Push(s.(calls := s.calls + [call]), Item(|s.calls|, call))) == Line(s) + [|s.calls|]
  {
    hide Sent, Inv;
    var t := Tickets(s.waiting + [Item(|s.calls|, call)]);
    assert t == Tickets(s.waiting) + [|s.calls|];
  }

  lemma CallLine(s: State, call: Call)
    requires Inv(s) && s.open
    ensures Line(Called(s, call)) == Line(s) + [|s.calls|]
  {
    if call.body.Promised? || !s.phase.Idle? || call.replay {
      PushLine(s, call);
    } else {
      SentOne(s.wire, Update(s.eventSeq, |s.calls|, call.stamp, call.replay, call.body.text));
    }
  }

  lemma CallKeeps(s: State, call: Call)
    requires Inv(s) && s.open
    ensures Inv(Called(s, call))
  {
    CallLine(s, call);
    hide Line, Faithful, Counted, Queued, Excused;
    LineAdds(Line(s), s.failed, s.late, |s.calls|);
    CallFits(s, call);
    hide Ascending, Accounted, Called;
    assert Called(s, call).failed == s.failed && Called(s, call).late == s.late && Called(s, call).calls == s.calls + [call] by {
      CallAdds(s, call);
    }
  }

  lemma CallAdds(s: State, call: Call)
    requires s.open
    ensures var t := Called(s, call); t.failed == s.failed && t.late == s.late && t.calls == s.calls + [call] && t.open
  {
  }

  lemma CallFits(s: State, call: Call)
    requires Inv(s) && s.open
    ensures var t := Called(s, call);
            Faithful(t.wire, t.calls) && Counted(t.wire, t.eventSeq) && Queued(t.waiting, t.phase, t.calls)
            && Excused(t.open, t.failed, t.late, t.calls)
  {
    hide Line, Ascending, Accounted;
  }

  lemma TakeLine(s: State)
    requires Enabled(s, Take)
    ensures Line(Step(s, Take)) == Line(s)
  {
    hide Sent;
    assert Tickets(s.waiting) == [s.waiting[0].ticket] + Tickets(s.waiting[1..]);
    assert Line(s) == Sent(s.wire) + ([s.waiting[0].ticket] + Tickets(s.waiting[1..]));
  }

  lemma SendLine(s: State, text: string)
    requires s.phase.AtItem?
    ensures Line(Emit(s.(phase := ItemDone), s.phase.item, text)) == Line(s)
  {
    SentOne(s.wire, Update(s.eventSeq, s.phase.item.ticket, s.phase.item.call.stamp, s.phase.item.call.replay, text));
    hide Sent;
  }

  /** A ticket that leaves the line unsent. */
  lemma LineLoses(before: seq<nat>, t: nat, after: seq<nat>, failed: set<nat>, late: set<nat>, n: nat)
    requires Ascending(before + [t] + after) && Accounted(before + [t] + after, failed, late, n)
    ensures Ascending(before + after)
    ensures Accounted(before + after, failed + {t}, late, n) && Accounted(before + after, failed, late + {t}, n)
  {
    var line, left := before + [t] + after, before + after;
    assert line[|before|] == t;
    forall i, j | 0 <= i < j < |left|
      ensures left[i] < left[j]
    {
      assert line[Shifted(before, i)] == left[i] && line[Shifted(before, j)] == left[j];
    }
    forall i | 0 <= i < |left|
      ensures left[i] in line && left[i] != t
    {
      assert line[Shifted(before, i)] == left[i];
    }
    assert forall x :: x in line ==> x in left || x == t;
  }

  ghost function Shifted(before: seq<nat>, i: nat): nat {
    if i < |before| then i else i + 1
  }

  lemma DropLine(s: State)
    requires s.phase.AtItem?
    ensures Line(s) == Sent(s.wire) + [s.phase.item.ticket] + Tickets(s.waiting)
    ensures Line(s.(phase := ItemDone)) == Sent(s.wire) + Tickets(s.waiting)
  {
    hide Sent;
    assert Sent(s.wire) + [] == Sent(s.wire);
  }

  lemma SettleKeeps(s: State, outcome: Option<string>)
    requires Inv(s) && s.phase.AtItem?
    ensures Inv(Settled(s, s.phase.item, outcome))
  {
    var item, text := s.phase.item, Text(s.phase.item, outcome);
    if text.Some? && s.open {
      SendLine(s, text.value);
      hide Line, Ascending, Accounted;
      return;
    }
    DropLine(s);
    hide Line, Counted, Faithful;
    LineLoses(Sent(s.wire), item.ticket, Tickets(s.waiting), s.failed, s.late, |s.calls|);
    hide Ascending, Accounted;
    var t := s.(phase := ItemDone);
    assert Line(Settled(s, item, outcome)) == Line(t) by { LineSame(Settled(s, item, outcome), t); }
  }

  lemma LineSame(s: State, t: State)
    requires s.wire == t.wire && s.waiting == t.waiting && Current(s.phase) == Current(t.phase)
    ensures Line(s) == Line(t)
  {
  }

  lemma NotifyKeeps(s: State)
    requires Inv(s) && s.open
    ensures Inv(Step(s, Notify))
  {
    SentOne(s.wire, Notification(s.eventSeq));
    assert Sent(s.wire) + [] == Sent(s.wire);
    assert Line(Step(s, Notify)) == Line(s);
    hide Line, Ascending, Accounted;
  }

  lemma PhaseKeeps(s: State, a: Action)
    requires Inv(s) && Enabled(s, a) && (a.Begin? || a.Take? || a.Next? || a.Finish? || a.Close?)
    ensures Inv(Step(s, a))
  {
    if a.Take? { TakeLine(s); } else { LineSame(s, Step(s, a)); }
    hide Line, Ascending, Accounted, Faithful, Counted;
  }

  lemma {:induction false} StepKeeps(s: State, a: Action)
    requires Inv(s) && Enabled(s, a)
    ensures Inv(Step(s, a))
  {
    hide Inv, Called, Settled;
    match a
    case Call_(call) => if s.open { CallKeeps(s, call); } else { assert Called(s, call) == s by { ClosedCall(s, call); } }
    case Notify => if s.open { NotifyKeeps(s); }
    case Settle(outcome) => SettleKeeps(s, outcome);
    case _ => PhaseKeeps(s, a);
  }

  lemma ClosedCall(s: State, call: Call)
    requires !s.open
    ensures Called(s, call) == s
  {
  }

  // ----- Every run -----

  ghost predicate RunFrom(s: State, actions: seq<Action>)
    decreases |actions|
  {
    actions == [] || (Enabled(s, actions[0]) && RunFrom(Step(s, actions[0]), actions[1..]))
  }

  ghost function After(s: State, actions: seq<Action>): State
    requires RunFrom(s, actions)
    decreases |actions|
  {
    if actions == [] then s else After(Step(s, actions[0]), actions[1..])
  }

  lemma {:induction false} RunKeeps(s: State, actions: seq<Action>)
    requires Inv(s) && RunFrom(s, actions)
    ensures Inv(After(s, actions))
    decreases |actions|
  {
    hide Inv, Step;
    if actions != [] {
      StepKeeps(s, actions[0]);
      RunKeeps(Step(s, actions[0]), actions[1..]);
    }
  }

  /** The tickets below `n` that did not fail, ascending. */
  function Rest(n: nat, failed: set<nat>): seq<nat> {
    if n == 0 then [] else Rest(n - 1, failed) + (if n - 1 in failed then [] else [n - 1])
  }

  lemma {:induction false} RestAscends(n: nat, failed: set<nat>)
    ensures Ascending(Rest(n, failed))
    ensures forall t :: t in Rest(n, failed) <==> 0 <= t < n && t !in failed
  {
    if n > 0 {
      RestAscends(n - 1, failed);
      var before := Rest(n - 1, failed);
      assert before + [] == before;
      assert forall i :: 0 <= i < |before| ==> before[i] in before;
    }
  }

  ghost predicate SameMembers(a: seq<nat>, b: seq<nat>) {
    forall t: nat :: t in a <==> t in b
  }

  lemma LastApart(a: seq<nat>)
    requires a != [] && Ascending(a)
    ensures forall t :: t in a[..|a| - 1] <==> t in a && t != a[|a| - 1]
  {
    assert a == a[..|a| - 1] + [a[|a| - 1]];
  }

  lemma SameLast(a: seq<nat>, b: seq<nat>)
    requires a != [] && b != [] && Ascending(a) && Ascending(b) && SameMembers(a, b)
    ensures a[|a| - 1] == b[|b| - 1]
    ensures SameMembers(a[..|a| - 1], b[..|b| - 1])
  {
    assert a[|a| - 1] in b && b[|b| - 1] in a;
    var x, y := a[|a| - 1], b[|b| - 1];
    assert x == y;
    LastApart(a);
    LastApart(b);
    var a', b' := a[..|a| - 1], b[..|b| - 1];
    forall t: nat
      ensures t in a' <==> t in b'
    {
      assert t in a <==> t in b;
    }
  }

  lemma MembersNeed(a: seq<nat>, b: seq<nat>)
    requires SameMembers(a, b) && b != []
    ensures a != []
  {
    assert b[0] in b && b[0] in a;
  }

  /** Ascending lists of the same tickets are the same list. */
  lemma {:induction false} SameLine(a: seq<nat>, b: seq<nat>)
    requires Ascending(a) && Ascending(b) && SameMembers(a, b)
    ensures a == b
    decreases |a|
  {
    if b != [] { MembersNeed(a, b); }
    if a == [] { return; }
    assert a[0] in b;
    SameLast(a, b);
    hide SameMembers;
    SameLine(a[..|a| - 1], b[..|b| - 1]);
    assert a == a[..|a| - 1] + [a[|a| - 1]] && b == b[..|b| - 1] + [b[|b| - 1]];
  }

  /**
   * In every run: what was sent keeps call order, wire positions count up
   * without gap or repeat, and each accepted call is in line once or dropped
   * for a reason.
   */
  lemma {:induction false} SentInOrder(actions: seq<Action>)
    requires RunFrom(Fresh, actions)
    ensures var s := After(Fresh, actions);
            && Ascending(Sent(s.wire)) && Counted(s.wire, s.eventSeq) && Faithful(s.wire, s.calls)
            && Ascending(Line(s)) && Accounted(Line(s), s.failed, s.late, |s.calls|) && Excused(s.open, s.failed, s.late, s.calls)
  {
    FreshInv();
    RunKeeps(Fresh, actions);
    var s := After(Fresh, actions);
    hide RunFrom, After, Faithful, Counted, Sent;
    assert forall i :: 0 <= i < |Sent(s.wire)| ==> Line(s)[i] == Sent(s.wire)[i];
  }

  lemma FreshInv()
    ensures Inv(Fresh)
  {
  }

  /** Once the drain rests on an open output, every call was sent but those whose content failed to load. */
  lemma {:induction false} NothingMissing(actions: seq<Action>)
    requires RunFrom(Fresh, actions) && After(Fresh, actions).phase.Idle? && After(Fresh, actions).open
    ensures var s := After(Fresh, actions); Sent(s.wire) == Rest(|s.calls|, s.failed)
    ensures var s := After(Fresh, actions); forall t :: t in s.failed ==> t < |s.calls| && s.calls[t].body.Promised?
  {
    FreshInv();
    RunKeeps(Fresh, actions);
    hide RunFrom, After, Inv;
    RestingLine(After(Fresh, actions));
  }

  /**
   * A call on an open output is sent at once exactly if it is plain, live and
   * finds the drain at rest; otherwise the drain owes it. A closed output
   * takes no calls.
   */
  lemma {:induction false} SentAtOnce(s: State, call: Call)
    ensures var t, direct := Step(s, Call_(call)), s.open && s.phase.Idle? && call.body.Plain? && !call.replay;
            && |t.calls| == |s.calls| + (if s.open then 1 else 0)
            && Sent(t.wire) == Sent(s.wire) + (if direct then [|s.calls|] else [])
            && (s.open && !direct ==> !t.phase.Idle? && |s.calls| in Tickets(t.waiting))
            && (!s.open ==> t == s)
  {
    assert Sent(s.wire) + [] == Sent(s.wire);
    if s.open && s.phase.Idle? && call.body.Plain? && !call.replay {
      SentOne(s.wire, Update(s.eventSeq, |s.calls|, call.stamp, call.replay, call.body.text));
    } else if s.open {
      var t := Called(s, call);
      assert Tickets(t.waiting)[|s.waiting|] == |s.calls|;
    }
  }

  lemma RestingLine(s: State)
    requires Inv(s) && s.phase.Idle? && s.open
    ensures Sent(s.wire) == Rest(|s.calls|, s.failed)
    ensures forall t :: t in s.failed ==> t < |s.calls| && s.calls[t].body.Promised?
  {
    hide Faithful, Counted, Sent;
    assert Line(s) == Sent(s.wire);
    RestAscends(|s.calls|, s.failed);
    hide Rest, Line;
    var sent, rest := Sent(s.wire), Rest(|s.calls|, s.failed);
    forall t: nat
      ensures t in sent <==> t in rest
    {
    }
    hide Ascending, Accounted;
    SameLine(sent, rest);
  }

  // ----- What each call comes to, from the actions alone -----

  function Notified(wire: seq<Wire>): nat {
    if wire == [] then 0 else Notified(wire[..|wire| - 1]) + if wire[|wire| - 1].Notification? then 1 else 0
  }

  /** What a queued call came to: the content its loading delivered, if any, and whether the output was open by then. */
  datatype Due = Due(content: Option<string>, open: bool)

  /** What the actions alone tell: the calls and notifications made while the output was open, and each outcome. */
  datatype Story = Story(open: bool, calls: seq<Call>, notices: nat, outcomes: map<nat, Due>)

  /** `at` is the ticket whose turn it is. */
  function Tell(x: Story, a: Action, at: Option<nat>): Story {
    match a
    case Call_(call) => if x.open then x.(calls := x.calls + [call]) else x
    case Notify => if x.open then x.(notices := x.notices + 1) else x
    case Settle(outcome) => if at.Some? then x.(outcomes := x.outcomes[at.value := Due(outcome, x.open)]) else x
    case Close => x.(open := false)
    case _ => x
  }

  function InTurn(s: State): Option<nat> {
    if s.phase.AtItem? then Some(s.phase.item.ticket) else None
  }

  ghost function StoryFrom(s: State, x: Story, actions: seq<Action>): Story
    requires RunFrom(s, actions)
    decreases |actions|
  {
    if actions == [] then x else StoryFrom(Step(s, actions[0]), Tell(x, actions[0], InTurn(s)), actions[1..])
  }

  const Untold := Story(true, [], 0, map[])

  /** Plain content is there from the start; promised content is what its loading delivered. */
  predicate Carries(call: Call, given: map<nat, Due>, t: nat, text: string) {
    match call.body
    case Plain(content) => text == content
    case Promised => t in given && given[t].content == Some(text)
  }

  predicate FailsToLoad(call: Call, given: map<nat, Due>, t: nat) {
    call.body.Promised? && t in given && given[t].content.None?
  }

  /** Each call of `calls` that was sent, failed or came too late did so as `given` says. */
  ghost predicate AsGiven(wire: seq<Wire>, failed: set<nat>, late: set<nat>, calls: seq<Call>, given: map<nat, Due>) {
    && (forall i :: 0 <= i < |wire| && wire[i].Update? ==>
          wire[i].ticket < |calls| && Carries(calls[wire[i].ticket], given, wire[i].ticket, wire[i].text))
    && (forall t: nat :: t in failed <==> t < |calls| && FailsToLoad(calls[t], given, t))
    && (forall t: nat :: t in late <==> t < |calls| && t in given && !given[t].open && !FailsToLoad(calls[t], given, t))
  }

  /** What is in line has no outcome yet. */
  ghost predicate Ungiven(s: State, given: map<nat, Due>) {
    && (s.phase.AtItem? ==> s.phase.item.ticket !in given)
    && (forall i :: 0 <= i < |s.waiting| ==> s.waiting[i].ticket !in given)
    && forall t :: t in given ==> t < |s.calls|
  }

  ghost predicate Told(s: State, x: Story) {
    && s.open == x.open && s.calls == x.calls && Notified(s.wire) == x.notices
    && AsGiven(s.wire, s.failed, s.late, s.calls, x.outcomes) && Ungiven(s, x.outcomes)
  }

  lemma NotifiedOne(wire: seq<Wire>, w: Wire)
    ensures Notified(wire + [w]) == Notified(wire) + if w.Notification? then 1 else 0
  {
    assert (wire + [w])[..|wire|] == wire;
  }

  lemma {:induction false} SentHas(wire: seq<Wire>, i: nat)
    requires i < |wire| && wire[i].Update?
    ensures wire[i].ticket in Sent(wire)
  {
    if i < |wire| - 1 { SentHas(wire[..|wire| - 1], i); }
  }

  /** The ticket being settled is no other's. */
  lemma Apart(s: State)
    requires Inv(s) && s.phase.AtItem?
    ensures forall i :: 0 <= i < |s.waiting| ==> s.waiting[i].ticket != s.phase.item.ticket
    ensures forall i :: 0 <= i < |s.wire| && s.wire[i].Update? ==> s.wire[i].ticket != s.phase.item.ticket
    ensures Holds(s.phase.item, s.calls)
  {
    var sent := Sent(s.wire);
    var line := Line(s);
    assert line[|sent|] == s.phase.item.ticket;
    hide Accounted, Faithful, Counted, Excused;
    forall i | 0 <= i < |s.waiting|
      ensures s.waiting[i].ticket != s.phase.item.ticket
    {
      assert line[|sent| + 1 + i] == s.waiting[i].ticket;
    }
    forall i | 0 <= i < |s.wire| && s.wire[i].Update?
      ensures s.wire[i].ticket != s.phase.item.ticket
    {
      SentHas(s.wire, i);
      var k :| 0 <= k < |sent| && sent[k] == s.wire[i].ticket;
      assert line[k] == sent[k];
    }
  }

  /** One more call, without an outcome. */
  lemma GivenGrows(wire: seq<Wire>, failed: set<nat>, late: set<nat>, calls: seq<Call>, given: map<nat, Due>, call: Call)
    requires AsGiven(wire, failed, late, calls, given) && |calls| !in given
    ensures AsGiven(wire, failed, late, calls + [call], given)
  {
  }

  lemma CallTold(s: State, x: Story, call: Call)
    requires Told(s, x)
    ensures Told(Called(s, call), Tell(x, Call_(call), InTurn(s)))
  {
    if !s.open { return; }
    GivenGrows(s.wire, s.failed, s.late, s.calls, x.outcomes, call);
    CallUngiven(s, x.outcomes, call);
    hide Notified, Ungiven;
    if call.body.Promised? || !s.phase.Idle? || call.replay {
      hide AsGiven;
    } else {
      var w := Update(s.eventSeq, |s.calls|, call.stamp, call.replay, call.body.text);
      NotifiedOne(s.wire, w);
      GivenSent(s.wire, s.failed, s.late, s.calls + [call], x.outcomes, w);
      hide AsGiven;
    }
  }

  lemma CallUngiven(s: State, given: map<nat, Due>, call: Call)
    requires Ungiven(s, given)
    ensures Ungiven(Called(s, call), given)
  {
  }

  lemma GivenSent(wire: seq<Wire>, failed: set<nat>, late: set<nat>, calls: seq<Call>, given: map<nat, Due>, w: Wire)
    requires AsGiven(wire, failed, late, calls, given)
    requires w.Update? ==> w.ticket < |calls| && Carries(calls[w.ticket], given, w.ticket, w.text)
    ensures AsGiven(wire + [w], failed, late, calls, given)
  {
  }

  /** An outcome for a ticket that nothing was sent for. */
  lemma OutcomeGiven(s: State, item: Item, given: map<nat, Due>, due: Due)
    requires AsGiven(s.wire, s.failed, s.late, s.calls, given) && item.ticket !in given && Holds(item, s.calls)
    requires forall i :: 0 <= i < |s.wire| && s.wire[i].Update? ==> s.wire[i].ticket != item.ticket
    ensures var more, fails := given[item.ticket := due], item.call.body.Promised? && due.content.None?;
            AsGiven(s.wire, if fails then s.failed + {item.ticket} else s.failed,
                    if !fails && !due.open then s.late + {item.ticket} else s.late, s.calls, more)
  {
  }

  lemma SettleTold(s: State, x: Story, outcome: Option<string>)
    requires Inv(s) && s.phase.AtItem? && Told(s, x)
    ensures Told(Settled(s, s.phase.item, outcome), Tell(x, Settle(outcome), InTurn(s)))
  {
    var item := s.phase.item;
    var more := x.outcomes[item.ticket := Due(outcome, s.open)];
    Apart(s);
    hide Inv;
    OutcomeGiven(s, item, x.outcomes, Due(outcome, s.open));
    if Text(item, outcome).Some? && s.open {
      var w := Update(s.eventSeq, item.ticket, item.call.stamp, item.call.replay, Text(item, outcome).value);
      NotifiedOne(s.wire, w);
      hide AsGiven, Notified;
      GivenSent(s.wire, s.failed, s.late, s.calls, more, w);
    }
    hide AsGiven, Notified, Carries;
  }

  lemma StepTold(s: State, x: Story, a: Action)
    requires Inv(s) && Enabled(s, a) && Told(s, x)
    ensures Told(Step(s, a), Tell(x, a, InTurn(s)))
  {
    hide Inv;
    if a.Call_? {
      hide Called, Told;
      CallTold(s, x, a.call);
    } else if a.Settle? {
      hide Settled, Told;
      SettleTold(s, x, a.outcome);
    } else if a.Notify? && s.open {
      NotifiedOne(s.wire, Notification(s.eventSeq));
      GivenSent(s.wire, s.failed, s.late, s.calls, x.outcomes, Notification(s.eventSeq));
      hide AsGiven, Notified;
    } else {
      hide AsGiven, Notified;
    }
  }

  lemma {:induction false} RunTold(s: State, x: Story, actions: seq<Action>)
    requires Inv(s) && Told(s, x) && RunFrom(s, actions)
    ensures Told(After(s, actions), StoryFrom(s, x, actions))
    decreases |actions|
  {
    hide Inv, Told, Step, Enabled, Tell;
    if actions != [] {
      StepKeeps(s, actions[0]);
      StepTold(s, x, actions[0]);
      RunTold(Step(s, actions[0]), Tell(x, actions[0], InTurn(s)), actions[1..]);
    }
  }

  /**
   * Each accepted call reaches the client as it was made: under its stamp and
   * replay mark, with its own text or with what its loading delivered. It fails
   * exactly if its loading delivered nothing, and comes too late exactly if the
   * output was closed by the time its content was there. Every notification
   * made while the output was open is sent.
   */
  ghost predicate AsMade(s: State, x: Story) {
    var calls, given := x.calls, x.outcomes;
    && |s.calls| == |calls| && Notified(s.wire) == x.notices
    && (forall i :: 0 <= i < |s.wire| && s.wire[i].Update? ==>
          var w := s.wire[i];
          && w.ticket < |calls| && w.stamp == calls[w.ticket].stamp && w.replay == calls[w.ticket].replay
          && Carries(calls[w.ticket], given, w.ticket, w.text))
    && (forall t: nat :: t in s.failed <==> t < |calls| && FailsToLoad(calls[t], given, t))
    && (forall t: nat :: t in s.late <==> t < |calls| && t in given && !given[t].open && !FailsToLoad(calls[t], given, t))
  }

  lemma ToldAsMade(s: State, x: Story)
    requires Inv(s) && Told(s, x)
    ensures AsMade(s, x)
  {
    hide Line, Notified, Ascending, Accounted, Counted, Queued, Excused, Carries, FailsToLoad, Ungiven;
  }

  lemma FreshTold()
    ensures Told(Fresh, Untold)
  {
  }

  /** In every run calls and notifications reach the client as they were made. */
  lemma {:induction false} DeliveredAsMade(actions: seq<Action>)
    requires RunFrom(Fresh, actions)
    ensures AsMade(After(Fresh, actions), StoryFrom(Fresh, Untold, actions))
  {
    FreshInv();
    FreshTold();
    hide RunFrom, After, StoryFrom, Told, Inv, AsMade;
    RunTold(Fresh, Untold, actions);
    RunKeeps(Fresh, actions);
    ToldAsMade(After(Fresh, actions), StoryFrom(Fresh, Untold, actions));
  }

  // ----- The drain ends -----

  predicate Draining(a: Action) {
    a.Begin? || a.Take? || a.Settle? || a.Next? || a.Finish?
  }

  function Work(s: State): nat {
    3 * |s.waiting| + match s.phase
                      case Idle => 0
                      case Scheduled => 2
                      case Between => 1
                      case AtItem(_) => 3
                      case ItemDone => 2
  }

  /** A drain step is possible until the drain rests, and each one shortens what is left. */
  lemma {:induction false} DrainGoesOn(s: State)
    requires Inv(s)
    ensures s.phase.Idle? ==> s.waiting == []
    ensures !s.phase.Idle? ==> exists a :: Draining(a) && Enabled(s, a)
    ensures forall a :: Draining(a) && Enabled(s, a) ==> Work(Step(s, a)) < Work(s)
  {
    hide Ascending, Accounted, Faithful, Counted, Line, Excused;
    var a := match s.phase
      case Scheduled => Begin
      case Between => if s.waiting == [] then Finish else Take
      case AtItem(_) => Settle(None)
      case _ => Next;
    assert !s.phase.Idle? ==> Draining(a) && Enabled(s, a);
  }

  lemma {:induction false} DrainEnds(s: State, actions: seq<Action>)
    requires RunFrom(s, actions) && forall a :: a in actions ==> Draining(a)
    ensures |actions| <= Work(s)
    decreases |actions|
  {
    if actions != [] {
      var t := Step(s, actions[0]);
      assert actions[0] in actions;
      assert Work(t) < Work(s);
      hide Step;
      DrainEnds(t, actions[1..]);
    }
  }

  // ----- The queue that holds it -----

  predicate Filled(slots: seq<Option<Item>>) {
    forall i :: 0 <= i < |slots| ==> slots[i].Some?
  }

  function Items(slots: seq<Option<Item>>): (items: seq<Item>)
    requires Filled(slots)
    ensures |items| == |slots| && forall i :: 0 <= i < |items| ==> slots[i] == Some(items[i])
  {
    seq(|slots|, i requires 0 <= i < |slots| => slots[i].value)
  }

  class OutputQueue {
    var open: bool
    var eventSeq: nat
    var outputQueue: seq<Option<Item>>
    var outputHead: nat
    var phase: Phase
    var calls: seq<Call>
    var wire: seq<Wire>
    ghost var failed: set<nat>
    ghost var late: set<nat>

    /** Consumed slots are empty and never more than 1024 or about half of the queue; the rest is live. */
    ghost predicate Valid()
      reads this
    {
      && outputHead <= |outputQueue| && Filled(outputQueue[outputHead..])
      && (forall i :: 0 <= i < outputHead ==> outputQueue[i].None?)
      && (phase.Idle? || phase.Scheduled? ==> outputHead == 0)
      && (phase.Between? ==> outputHead < 1024 || 2 * outputHead < |outputQueue|)
      && (outputHead <= 1024 || 2 * outputHead <= |outputQueue| + 1)
    }

    ghost function View(): State
      reads this
      requires Valid()
    {
      State(open, eventSeq, Items(outputQueue[outputHead..]), phase, calls, wire, failed, late)
    }

    constructor ()
      ensures Valid() && View() == Fresh
    {
      open, eventSeq, outputQueue, outputHead, phase := true, 1, [], 0, Idle;
      calls, wire, failed, late := [], [], {}, {};
    }

    method Send(item: Item, text: string)
      requires Valid()
      modifies `eventSeq, `wire
      ensures Valid() && View() == Emit(old(View()), item, text)
    {
      wire := wire + [Wire.Update(eventSeq, item.ticket, item.call.stamp, item.call.replay, text)];
      eventSeq := eventSeq + 1;
    }

    method Enqueue(item: Item)
      requires Valid()
      modifies `outputQueue, `phase
      ensures Valid() && View() == Push(old(View()), item)
    {
      outputQueue := outputQueue + [Some(item)];
      assert outputQueue[outputHead..] == old(outputQueue)[outputHead..] + [Some(item)];
      if phase.Idle? { phase := Scheduled; }
    }

    method Update(call: Call)
      requires Valid()
      modifies this
      ensures Valid() && View() == Called(old(View()), call)
    {
      if !open { return; }
      var item := Item(|calls|, call);
      calls := calls + [call];
      if call.body.Promised? || !phase.Idle? || call.replay { Enqueue(item); } else { Send(item, call.body.text); }
    }

    method Notify()
      requires Valid()
      modifies this
      ensures Valid() && View() == Step(old(View()), Action.Notify)
    {
      if !open { return; }
      wire := wire + [Notification(eventSeq)];
      eventSeq := eventSeq + 1;
    }

    /** The drain's microtask starts. */
    method Begin()
      requires Valid() && phase.Scheduled?
      modifies `phase
      ensures Valid() && View() == Step(old(View()), Action.Begin)
    {
      phase := Between;
    }

    /** One turn of the drain loop: empty the slot at the head and start on its item. */
    method Take() returns (taken: bool)
      requires Valid() && phase.Between?
      modifies `outputQueue, `outputHead, `phase
      ensures Valid() && taken == (old(View()).waiting != [])
      ensures View() == if taken then Step(old(View()), Action.Take) else Step(old(View()), Action.Finish)
    {
      taken := outputHead < |outputQueue|;
      if taken {
        var next := outputQueue[outputHead];
        outputQueue := outputQueue[outputHead := None];
        outputHead := outputHead + 1;
        phase := AtItem(next.value);
      } else {
        outputQueue, outputHead, phase := [], 0, Idle;
      }
    }

    /** The item is due: its text is known, or its projection failed. */
    method Settle(outcome: Option<string>)
      requires Valid() && phase.AtItem?
      modifies this
      ensures Valid() && View() == Settled(old(View()), old(phase.item), outcome)
    {
      var item := phase.item;
      phase := ItemDone;
      var text := if item.call.body.Plain? then Some(item.call.body.text) else outcome;
      if text.None? { failed := failed + {item.ticket}; }
      else if open { Send(item, text.value); }
      else { late := late + {item.ticket}; }
    }

    /** Release consumed slots once they are many and at least half. */
    method Compact()
      requires Valid() && phase.ItemDone?
      modifies `outputQueue, `outputHead, `phase
      ensures Valid() && View() == Step(old(View()), Action.Next)
    {
      if outputHead >= 1024 && 2 * outputHead >= |outputQueue| {
        outputQueue := outputQueue[outputHead..];
        outputHead := 0;
      }
      phase := Between;
    }

    method Close()
      requires Valid()
      modifies `open
      ensures Valid() && View() == Step(old(View()), Action.Close)
    {
      open := false;
    }
  }
}
