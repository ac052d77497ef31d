/**
 * The token meters of a session: one running fold, with same-step replacement
 * and retry fences, over the events that replay and live delivery admit.
 */
module TokenMeters {
  import opened Options

  datatype Usage = Usage(input: nat, output: nat, cacheRead: Option<nat>, cacheWrite: Option<nat>)

  datatype Record = UsageRecord(usage: Usage) | OtherRecord

  datatype Event =
    | Message(seqNo: nat, turn: int, step: int, explicit: Option<Usage>, stream: seq<Record>)
    | Attempt(seqNo: nat, turn: int, step: int, stream: seq<Record>)
    | RetryStarted(seqNo: nat, turn: int, step: int)
    | OtherEvent(seqNo: nat)

  datatype Totals = Totals(input: int, output: int, cacheRead: int, cacheWrite: int)

  const Zero := Totals(0, 0, 0, 0)

  function OrZero(n: Option<nat>): nat {
    if n.Some? then n.value else 0
  }

  function Weight(u: Usage): Totals {
    Totals(u.input, u.output, OrZero(u.cacheRead), OrZero(u.cacheWrite))
  }

  function Plus(a: Totals, b: Totals): Totals {
    Totals(a.input + b.input, a.output + b.output, a.cacheRead + b.cacheRead, a.cacheWrite + b.cacheWrite)
  }

  function Minus(a: Totals, b: Totals): Totals {
    Totals(a.input - b.input, a.output - b.output, a.cacheRead - b.cacheRead, a.cacheWrite - b.cacheWrite)
  }

  // ----- The usage of one event -----

  /** The last usage record of a stream. */
  function LastSample(stream: seq<Record>): Option<Usage> {
    if stream == [] then None
    else if stream[|stream| - 1].UsageRecord? then Some(stream[|stream| - 1].usage)
    else LastSample(stream[..|stream| - 1])
  }

  function EventUsage(e: Event): Option<Usage> {
    match e
    case Message(_, _, _, explicit, stream) => if explicit.Some? then explicit else LastSample(stream)
    case Attempt(_, _, _, stream) => LastSample(stream)
    case _ => None
  }

  /** `usage` is that of the last usage record, or there is none. */
  ghost predicate LastOf(stream: seq<Record>, usage: Option<Usage>) {
    if usage.None? then forall i :: 0 <= i < |stream| ==> !stream[i].UsageRecord?
    else exists i :: 0 <= i < |stream| && stream[i] == UsageRecord(usage.value) && forall j :: i < j < |stream| ==> !stream[j].UsageRecord?
  }

  /**
   * `assistantEventUsage`: the usage a message states, else the last its stream
   * reports, and for an attempt always that one; other events bear none.
   */
  method AssistantEventUsage(e: Event) returns (usage: Option<Usage>)
    ensures usage == EventUsage(e)
    ensures e.Message? && e.explicit.Some? ==> usage == e.explicit
    ensures (e.Message? && e.explicit.None?) || e.Attempt? ==> LastOf(e.stream, usage)
    ensures !e.Message? && !e.Attempt? ==> usage == None
  {
    if e.Message? && e.explicit.Some? { return e.explicit; }
    if !e.Message? && !e.Attempt? { return None; }
    var index := |e.stream|;
    assert e.stream[..index] == e.stream;
    while index > 0
      invariant 0 <= index <= |e.stream| && LastSample(e.stream) == LastSample(e.stream[..index])
      invariant forall j :: index <= j < |e.stream| ==> !e.stream[j].UsageRecord?
    {
      index := index - 1;
      assert e.stream[..index + 1][..index] == e.stream[..index];
      if e.stream[index].UsageRecord? { return Some(e.stream[index].usage); }
    }
    return None;
  }

  // ----- The fold -----

  datatype Last = Last(turn: int, step: int, usage: Usage)

  datatype Meter = Meter(last: Option<Last>, totals: Totals)

  const Empty := Meter(None, Zero)

  /** `noteEvent`, for what the meters see of it. */
  function Note(m: Meter, e: Event): Meter {
    var last := if e.RetryStarted? && m.last.Some? && m.last.value.turn == e.turn && m.last.value.step == e.step then None else m.last;
    var usage := EventUsage(e);
    if usage.None? then Meter(last, m.totals)
    else
      var previous :=
        if last.Some? && last.value.turn == e.turn && last.value.step == e.step then Weight(last.value.usage) else Zero;
      Meter(Some(Last(e.turn, e.step, usage.value)), Plus(m.totals, Minus(Weight(usage.value), previous)))
  }

  function Fold(log: seq<Event>): Meter {
    if log == [] then Empty else Note(Fold(log[..|log| - 1]), log[|log| - 1])
  }

  // ----- What the totals mean -----

  predicate Bears(e: Event) {
    EventUsage(e).Some?
  }

  predicate SameStep(a: Event, b: Event) {
    !a.OtherEvent? && !b.OtherEvent? && a.turn == b.turn && a.step == b.step
  }

  predicate Fences(e: Event, a: Event) {
    e.RetryStarted? && SameStep(e, a)
  }

  /** Neither another usage nor a's own retry fence in between. */
  ghost predicate Clear(log: seq<Event>, i: nat, j: nat) {
    i < j <= |log| && forall k :: i < k < j ==> !Bears(log[k]) && !Fences(log[k], log[i])
  }

  /** The next usage-bearing settlement replaces this one. */
  ghost predicate Superseded(log: seq<Event>, i: nat) {
    exists j :: i < j < |log| && Bears(log[j]) && SameStep(log[i], log[j]) && Clear(log, i, j)
  }

  /** Settlement `i` is the last usage of its run. */
  ghost predicate Counts(log: seq<Event>, i: nat) {
    i < |log| && Bears(log[i]) && !Superseded(log, i)
  }

  ghost function Share(log: seq<Event>, i: nat): Totals {
    if Counts(log, i) then Weight(EventUsage(log[i]).value) else Zero
  }

  ghost function Sum(log: seq<Event>, n: nat): Totals {
    if n == 0 then Zero else Plus(Sum(log, n - 1), Share(log, n - 1))
  }

  /** Settlement `i` is what `lastUsage` remembers. */
  ghost predicate Open(log: seq<Event>, i: nat) {
    i < |log| && Bears(log[i]) && Clear(log, i, |log|)
  }

  function Noted(e: Event): Last
    requires Bears(e)
  {
    Last(e.turn, e.step, EventUsage(e).value)
  }

  ghost predicate Remembers(log: seq<Event>, last: Option<Last>) {
    && (last.None? ==> forall i: nat :: !Open(log, i))
    && (last.Some? ==> exists i: nat :: Open(log, i) && last.value == Noted(log[i]))
  }

  lemma OpenOnce(log: seq<Event>, i: nat, j: nat)
    requires Open(log, i) && Open(log, j)
    ensures i == j
  {
  }

  lemma OpenCounts(log: seq<Event>, i: nat)
    requires Open(log, i)
    ensures Counts(log, i)
  {
    hide EventUsage;
  }

  /** How an event extends the open settlement. */
  lemma OpenNext(log: seq<Event>, e: Event, i: nat)
    ensures Open(log + [e], i) <==>
            if Bears(e) then i == |log| else i < |log| && Open(log, i) && !Fences(e, log[i])
  {
    hide EventUsage, Bears, SameStep, Fences;
    var longer := log + [e];
    assert forall k :: 0 <= k < |log| ==> longer[k] == log[k];
    assert longer[|log|] == e;
    if i < |log| && Clear(log, i, |log|) && !Bears(e) && !Fences(e, log[i]) {
      assert Clear(longer, i, |longer|);
    }
    if Open(longer, i) && i < |log| {
      assert !Bears(longer[|log|]) && !Fences(longer[|log|], longer[i]);
      assert Clear(log, i, |log|);
    }
  }

  /** An event takes the count of the open settlement of its own step, and of no other. */
  lemma CountsNext(log: seq<Event>, e: Event, i: nat)
    requires i < |log|
    ensures Counts(log + [e], i) <==> Counts(log, i) && !(Bears(e) && SameStep(log[i], e) && Open(log, i))
  {
    hide EventUsage, Bears, SameStep, Fences;
    var longer := log + [e];
    assert forall k :: 0 <= k < |log| ==> longer[k] == log[k];
    assert longer[|log|] == e;
    if Superseded(log, i) {
      var j :| i < j < |log| && Bears(log[j]) && SameStep(log[i], log[j]) && Clear(log, i, j);
      assert Clear(longer, i, j);
    }
    if Open(log, i) && Bears(e) && SameStep(log[i], e) {
      assert Clear(longer, i, |log|);
      assert Bears(longer[|log|]) && SameStep(longer[i], longer[|log|]);
    }
    if Superseded(longer, i) {
      var j :| i < j < |longer| && Bears(longer[j]) && SameStep(longer[i], longer[j]) && Clear(longer, i, j);
      assert Clear(log, i, j);
    }
  }

  ghost predicate Replaces(log: seq<Event>, e: Event, i: nat) {
    i < |log| && Bears(e) && SameStep(log[i], e) && Open(log, i)
  }

  /** Summing the old positions again, without the one that lost its count. */
  lemma {:induction false} SumNext(log: seq<Event>, e: Event, n: nat, lost: Option<nat>)
    requires n <= |log|
    requires forall i: nat :: i < |log| ==> (lost == Some(i) <==> Replaces(log, e, i))
    ensures Sum(log + [e], n) == if lost.Some? && lost.value < n then Minus(Sum(log, n), Share(log, lost.value)) else Sum(log, n)
    decreases n
  {
    hide EventUsage, SameStep, Open, Weight, Counts;
    if n == 0 { return; }
    SumNext(log, e, n - 1, lost);
    CountsNext(log, e, n - 1);
    if lost == Some(n - 1) { OpenCounts(log, n - 1); }
  }

  lemma NoteRemembers(log: seq<Event>, e: Event, m: Meter)
    requires Remembers(log, m.last)
    ensures Remembers(log + [e], Note(m, e).last)
  {
    forall i: nat
      ensures Open(log + [e], i) <==> if Bears(e) then i == |log| else i < |log| && Open(log, i) && !Fences(e, log[i])
    {
      OpenNext(log, e, i);
    }
    hide Open, EventUsage;
    if Bears(e) {
      assert Open(log + [e], |log|);
    } else if m.last.Some? {
      var i: nat :| Open(log, i) && m.last.value == Noted(log[i]);
      forall j: nat | Open(log, j)
        ensures j == i
      {
        OpenOnce(log, i, j);
      }
    }
  }

  lemma WeightOf(log: seq<Event>, i: nat)
    requires Open(log, i)
    ensures Share(log, i) == Weight(Noted(log[i]).usage)
  {
    OpenCounts(log, i);
  }

  lemma LastShare(log: seq<Event>, e: Event)
    ensures Share(log + [e], |log|) == if Bears(e) then Weight(EventUsage(e).value) else Zero
  {
    hide EventUsage;
    assert (log + [e])[|log|] == e;
  }

  lemma {:induction false} SumSame(log: seq<Event>, e: Event)
    ensures Sum(log + [e], |log| + 1) == Plus(Sum(log + [e], |log|), Share(log + [e], |log|))
  {
  }

  /** The event of a step the meter remembers replaces that settlement's share. */
  lemma NoteReplaces(log: seq<Event>, e: Event, m: Meter, i: nat)
    requires m.totals == Sum(log, |log|) && Replaces(log, e, i) && m.last == Some(Noted(log[i]))
    ensures Note(m, e).totals == Sum(log + [e], |log| + 1)
  {
    forall j: nat | j < |log|
      ensures Some(i) == Some(j) <==> Replaces(log, e, j)
    {
      if Open(log, j) { OpenOnce(log, i, j); }
    }
    SumNext(log, e, |log|, Some(i));
    SumSame(log, e);
    LastShare(log, e);
    WeightOf(log, i);
    hide Sum, Share, Open;
  }

  lemma NotePlus(log: seq<Event>, e: Event, m: Meter)
    requires Remembers(log, m.last) && forall i: nat :: !Replaces(log, e, i)
    ensures Note(m, e).totals == Plus(m.totals, if Bears(e) then Weight(EventUsage(e).value) else Zero)
  {
    hide Clear, Weight;
    if m.last.Some? && Bears(e) {
      var i: nat :| Open(log, i) && m.last.value == Noted(log[i]);
      assert !Replaces(log, e, i);
    }
  }

  lemma NoteAdds(log: seq<Event>, e: Event, m: Meter)
    requires Remembers(log, m.last) && m.totals == Sum(log, |log|) && forall i: nat :: !Replaces(log, e, i)
    ensures Note(m, e).totals == Sum(log + [e], |log| + 1)
  {
    NotePlus(log, e, m);
    SumNext(log, e, |log|, None);
    SumSame(log, e);
    LastShare(log, e);
  }

  lemma {:induction false} FoldIsSum(log: seq<Event>)
    ensures Fold(log).totals == Sum(log, |log|) && Remembers(log, Fold(log).last)
    decreases |log|
  {
    if log == [] { return; }
    var rest, e := log[..|log| - 1], log[|log| - 1];
    assert log == rest + [e];
    FoldIsSum(rest);
    var m := Fold(rest);
    NoteRemembers(rest, e, m);
    hide Remembers, Sum, Note;
    NoteSums(rest, e, m);
  }

  /** One kind of token, summed over the last usage of each run. */
  ghost function Counted(log: seq<Event>, n: nat, kind: Usage -> int): int {
    if n == 0 then 0 else Counted(log, n - 1, kind) + if Counts(log, n - 1) then kind(EventUsage(log[n - 1]).value) else 0
  }

  lemma {:induction false} SumByKind(log: seq<Event>, n: nat, weigh: Totals -> int, kind: Usage -> int)
    requires weigh(Zero) == 0 && (forall a, b :: weigh(Plus(a, b)) == weigh(a) + weigh(b)) && forall u :: weigh(Weight(u)) == kind(u)
    ensures weigh(Sum(log, n)) == Counted(log, n, kind)
    decreases n
  {
    if n == 0 { return; }
    SumByKind(log, n - 1, weigh, kind);
    hide Counts, Weight, Plus;
    var before, share := Sum(log, n - 1), Share(log, n - 1);
    assert Sum(log, n) == Plus(before, share);
    assert weigh(Plus(before, share)) == weigh(before) + weigh(share);
    if Counts(log, n - 1) {
      var u := EventUsage(log[n - 1]).value;
      assert weigh(Weight(u)) == kind(u);
    }
  }

  /** Each of the four counters is the sum of its own kind of token; a cache count that is not reported is none. */
  lemma {:induction false} EachKindCounted(log: seq<Event>)
    ensures var totals, n := Fold(log).totals, |log|;
            && totals.input == Counted(log, n, (u: Usage) => u.input)
            && totals.output == Counted(log, n, (u: Usage) => u.output)
            && totals.cacheRead == Counted(log, n, (u: Usage) => match u.cacheRead case Some(tokens) => tokens case None => 0)
            && totals.cacheWrite == Counted(log, n, (u: Usage) => match u.cacheWrite case Some(tokens) => tokens case None => 0)
  {
    FoldIsSum(log);
    hide Counted, Sum, Fold, Remembers;
    SumByKind(log, |log|, (t: Totals) => t.input, (u: Usage) => u.input);
    SumByKind(log, |log|, (t: Totals) => t.output, (u: Usage) => u.output);
    SumByKind(log, |log|, (t: Totals) => t.cacheRead, (u: Usage) => match u.cacheRead case Some(tokens) => tokens case None => 0);
    SumByKind(log, |log|, (t: Totals) => t.cacheWrite, (u: Usage) => match u.cacheWrite case Some(tokens) => tokens case None => 0);
  }

  lemma NoteSums(log: seq<Event>, e: Event, m: Meter)
    requires Remembers(log, m.last) && m.totals == Sum(log, |log|)
    ensures Note(m, e).totals == Sum(log + [e], |log| + 1)
  {
    hide Sum, EventUsage, Note, Clear;
    if exists i: nat :: Replaces(log, e, i) {
      var i: nat :| Replaces(log, e, i);
      forall j: nat | Open(log, j)
        ensures j == i
      {
        OpenOnce(log, i, j);
      }
      NoteReplaces(log, e, m, i);
    } else {
      NoteAdds(log, e, m);
    }
  }

  // ----- Delivery: replay, live events and settlements held for their end frame -----

  /** `folded` and `admitted` are history: what the meter noted, and what was admitted, in order. */
  datatype Feed = Feed(open: bool, lastSeq: int, pending: seq<Event>, meter: Meter, folded: seq<Event>, admitted: seq<Event>)

  const FreshFeed := Feed(true, -1, [], Empty, [], [])

  /** `waits` says whether the open stream holds a live settlement back. */
  datatype Action = Live(event: Event, waits: bool) | Replay(event: Event) | Drain | Close

  predicate Admits(s: Feed, a: Action) {
    s.open && (a.Live? || a.Replay?) && a.event.seqNo > s.lastSeq
  }

  function Folded(s: Feed, e: Event): Feed {
    s.(meter := Note(s.meter, e), folded := s.folded + [e])
  }

  function FoldPending(s: Feed): Feed
    decreases |s.pending|
  {
    if s.pending == [] then s else FoldPending(Folded(s, s.pending[0]).(pending := s.pending[1..]))
  }

  function Step(s: Feed, a: Action): Feed {
    match a
    case Drain => if s.open then FoldPending(s) else s
    case Close => s.(open := false, pending := [])
    case _ =>
      if !Admits(s, a) then s
      else
        var t := s.(lastSeq := a.event.seqNo, admitted := s.admitted + [a.event]);
        if a.Live? && a.waits then t.(pending := s.pending + [a.event]) else Folded(t, a.event)
  }

  ghost predicate Rising(log: seq<Event>, bound: int) {
    && (forall i, j :: 0 <= i < j < |log| ==> log[i].seqNo < log[j].seqNo)
    && (forall i :: 0 <= i < |log| ==> log[i].seqNo <= bound)
  }

  /** Everything admitted is folded or still held back, each event once; a closed feed drops what it holds. */
  ghost predicate FeedInv(s: Feed) {
    && s.meter == Fold(s.folded) && s.lastSeq >= -1 && Rising(s.admitted, s.lastSeq) && Rising(s.pending, s.lastSeq)
    && Conserved(s.folded, s.pending, s.admitted, s.open)
  }

  ghost predicate Conserved(folded: seq<Event>, pending: seq<Event>, admitted: seq<Event>, open: bool) {
    && multiset(folded) + multiset(pending) <= multiset(admitted)
    && (open ==> multiset(folded) + multiset(pending) == multiset(admitted))
  }

  lemma ConservedNext(folded: seq<Event>, pending: seq<Event>, admitted: seq<Event>, open: bool, e: Event)
    requires Conserved(folded, pending, admitted, open)
    ensures Conserved(folded + [e], pending, admitted + [e], open) && Conserved(folded, pending + [e], admitted + [e], open)
    ensures Conserved(folded + pending, [], admitted, open) && Conserved(folded, [], admitted, false)
  {
  }

  lemma FoldMore(folded: seq<Event>, e: Event)
    ensures Fold(folded + [e]) == Note(Fold(folded), e)
  {
    assert (folded + [e])[..|folded|] == folded;
  }

  lemma {:induction false} FoldPendingIs(s: Feed)
    requires s.meter == Fold(s.folded)
    ensures FoldPending(s) == s.(pending := [], folded := s.folded + s.pending, meter := Fold(s.folded + s.pending))
    decreases |s.pending|
  {
    hide Fold, Note;
    if s.pending == [] {
      assert s.folded + s.pending == s.folded;
    } else {
      FoldMore(s.folded, s.pending[0]);
      FoldPendingIs(Folded(s, s.pending[0]).(pending := s.pending[1..]));
      assert s.folded + [s.pending[0]] + s.pending[1..] == s.folded + s.pending;
    }
  }

  lemma RisingNext(log: seq<Event>, bound: int, e: Event)
    requires Rising(log, bound) && e.seqNo > bound
    ensures Rising(log + [e], e.seqNo) && Rising(log, e.seqNo)
  {
  }

  lemma AdmitKeeps(s: Feed, a: Action)
    requires FeedInv(s) && Admits(s, a)
    ensures FeedInv(Step(s, a))
  {
    hide Conserved, Fold, Note, Rising;
    RisingNext(s.admitted, s.lastSeq, a.event);
    RisingNext(s.pending, s.lastSeq, a.event);
    ConservedNext(s.folded, s.pending, s.admitted, s.open, a.event);
    FoldMore(s.folded, a.event);
  }

  lemma DrainKeeps(s: Feed)
    requires FeedInv(s)
    ensures FeedInv(FoldPending(s))
  {
    hide Conserved, Fold, Note, FoldPending;
    ConservedNext(s.folded, s.pending, s.admitted, s.open, OtherEvent(0));
    FoldPendingIs(s);
  }

  lemma StepKeeps(s: Feed, a: Action)
    requires FeedInv(s)
    ensures FeedInv(Step(s, a))
  {
    hide Conserved, Fold, Note, FoldPending, Rising;
    if Admits(s, a) { AdmitKeeps(s, a); }
    else if a.Drain? { DrainKeeps(s); }
    else if a.Close? {
      CloseKeeps(s);
    }
  }

  lemma CloseKeeps(s: Feed)
    requires FeedInv(s)
    ensures FeedInv(Step(s, Close))
  {
    hide Fold;
    ConservedNext(s.folded, s.pending, s.admitted, s.open, OtherEvent(0));
  }

  function Run(s: Feed, actions: seq<Action>): Feed
    decreases |actions|
  {
    if actions == [] then s else Run(Step(s, actions[0]), actions[1..])
  }

  lemma {:induction false} RunKeeps(s: Feed, actions: seq<Action>)
    requires FeedInv(s)
    ensures FeedInv(Run(s, actions))
    decreases |actions|
  {
    hide FeedInv, Step;
    if actions != [] {
      StepKeeps(s, actions[0]);
      RunKeeps(Step(s, actions[0]), actions[1..]);
    }
  }

  lemma FreshFeedInv()
    ensures FeedInv(FreshFeed)
  {
  }

  lemma {:induction false} RisingOnce(log: seq<Event>, bound: int, e: Event)
    requires Rising(log, bound)
    ensures multiset(log)[e] <= 1
    decreases |log|
  {
    if log == [] { return; }
    var rest, last := log[..|log| - 1], log[|log| - 1];
    assert log == rest + [last];
    RisingOnce(rest, bound, e);
    assert last !in rest;
    hide Rising;
  }

  /**
   * However replay and live delivery overlap, the totals are the sum over the
   * folded events of the last usage of each run, and no event is folded twice.
   */
  lemma {:induction false} TotalsAreSum(actions: seq<Action>)
    ensures var s := Run(FreshFeed, actions);
            s.meter.totals == Sum(s.folded, |s.folded|) && forall e :: multiset(s.folded)[e] <= 1
  {
    FreshFeedInv();
    RunKeeps(FreshFeed, actions);
    var s := Run(FreshFeed, actions);
    hide Run, Fold, Sum;
    FoldIsSum(s.folded);
    forall e
      ensures multiset(s.folded)[e] <= 1
    {
      RisingOnce(s.admitted, s.lastSeq, e);
    }
  }

  // ----- Continuing the restored prefix -----

  /** Every delivered event is the log's own, and none skips ahead of what was admitted. */
  ghost predicate Continues(s: Feed, actions: seq<Action>, log: seq<Event>)
    decreases |actions|
  {
    actions == [] || (
      && (actions[0].Live? || actions[0].Replay? ==>
            actions[0].event in log && actions[0].event.seqNo <= s.lastSeq + 1)
      && Continues(Step(s, actions[0]), actions[1..], log))
  }

  ghost predicate Numbered(log: seq<Event>) {
    forall i :: 0 <= i < |log| ==> log[i].seqNo == i
  }

  ghost predicate Prefix(s: Feed, log: seq<Event>) {
    -1 <= s.lastSeq < |log| && s.admitted == log[..s.lastSeq + 1]
  }

  lemma FoldPendingLeaves(s: Feed)
    ensures FoldPending(s).admitted == s.admitted && FoldPending(s).lastSeq == s.lastSeq && FoldPending(s).open == s.open
    decreases |s.pending|
  {
    hide Note;
    if s.pending != [] { FoldPendingLeaves(Folded(s, s.pending[0]).(pending := s.pending[1..])); }
  }

  lemma StepContinues(s: Feed, a: Action, log: seq<Event>)
    requires Numbered(log) && Prefix(s, log)
    requires a.Live? || a.Replay? ==> a.event in log && a.event.seqNo <= s.lastSeq + 1
    ensures Prefix(Step(s, a), log)
  {
    hide Note, FoldPending;
    if a.Drain? { FoldPendingLeaves(s); return; }
    if Admits(s, a) {
      var i :| 0 <= i < |log| && log[i] == a.event;
      assert log[..i + 1] == log[..i] + [log[i]];
    }
  }

  lemma {:induction false} RunContinues(s: Feed, actions: seq<Action>, log: seq<Event>)
    requires Numbered(log) && Prefix(s, log) && Continues(s, actions, log)
    ensures Prefix(Run(s, actions), log)
    decreases |actions|
  {
    hide Step, Prefix, Numbered;
    if actions != [] {
      StepContinues(s, actions[0], log);
      RunContinues(Step(s, actions[0]), actions[1..], log);
    }
  }

  /** Live delivery that continues the restored prefix folds or holds back exactly that prefix, each event once. */
  lemma {:induction false} ExactlyOnce(actions: seq<Action>, log: seq<Event>)
    requires Numbered(log) && Continues(FreshFeed, actions, log) && Run(FreshFeed, actions).open
    ensures var s := Run(FreshFeed, actions);
            -1 <= s.lastSeq < |log| && multiset(s.folded) + multiset(s.pending) == multiset(log[..s.lastSeq + 1])
  {
    FreshFeedInv();
    RunKeeps(FreshFeed, actions);
    FreshPrefix(log);
    RunContinues(FreshFeed, actions, log);
    hide Run, Continues, Rising, Fold;
  }

  lemma FreshPrefix(log: seq<Event>)
    ensures Prefix(FreshFeed, log)
  {
  }

  // ----- Fold order -----

  /** The meter notes events in the order they were logged. */
  ghost predicate Ordered(s: Feed) {
    s.folded + s.pending == s.admitted
  }

  /** An event is noted while an earlier settlement still waits for its end frame. */
  predicate Overtakes(s: Feed, a: Action) {
    Admits(s, a) && !(a.Live? && a.waits) && s.pending != []
  }

  /** Log order is kept exactly until an event overtakes a settlement, and never regained after. */
  lemma {:induction false} OrderedStep(s: Feed, a: Action)
    requires FeedInv(s) && s.open && !a.Close?
    ensures Ordered(Step(s, a)) <==> Ordered(s) && !Overtakes(s, a)
  {
    hide Fold, Note, FoldPending;
    if a.Drain? {
      FoldPendingIs(s);
      assert s.folded + s.pending + [] == s.folded + s.pending;
      return;
    }
    if !Admits(s, a) { return; }
    var t := Step(s, a);
    var e := a.event;
    if a.Live? && a.waits {
      assert t.folded + t.pending == (s.folded + s.pending) + [e];
      LastApart(s.folded + s.pending, s.admitted, e);
    } else if s.pending == [] {
      assert t.folded + t.pending == s.folded + [e] && s.folded + s.pending == s.folded;
      LastApart(s.folded, s.admitted, e);
    } else {
      var last := s.pending[|s.pending| - 1];
      assert (t.folded + t.pending)[|t.folded + t.pending| - 1] == last;
      assert (s.admitted + [e])[|s.admitted|] == e && last.seqNo < e.seqNo;
    }
  }

  lemma LastApart(a: seq<Event>, b: seq<Event>, e: Event)
    ensures a + [e] == b + [e] <==> a == b
  {
    if a + [e] == b + [e] {
      assert (a + [e])[..|a|] == a && (b + [e])[..|b|] == b;
    }
  }

  lemma OpenStep(s: Feed, a: Action)
    requires Step(s, a).open
    ensures s.open && !a.Close?
  {
    hide Note, FoldPending;
    if a.Drain? { FoldPendingLeaves(s); }
  }

  lemma {:induction false} OpenBefore(s: Feed, actions: seq<Action>)
    requires Run(s, actions).open
    ensures s.open
    decreases |actions|
  {
    hide Step;
    if actions != [] {
      OpenBefore(Step(s, actions[0]), actions[1..]);
      OpenStep(s, actions[0]);
    }
  }

  // ----- Which overtaking the meter notices -----

  function FoldOn(m: Meter, events: seq<Event>): Meter
    decreases |events|
  {
    if events == [] then m else FoldOn(Note(m, events[0]), events[1..])
  }

  lemma {:induction false} FoldOnAdds(m: Meter, events: seq<Event>, e: Event)
    ensures FoldOn(m, events + [e]) == Note(FoldOn(m, events), e)
    decreases |events|
  {
    hide Note;
    if events == [] {
      assert [] + [e] == [e] && [e][1..] == [];
      assert FoldOn(m, [e]) == FoldOn(Note(m, e), []);
    } else {
      assert (events + [e])[0] == events[0] && (events + [e])[1..] == events[1..] + [e];
      FoldOnAdds(Note(m, events[0]), events[1..], e);
    }
  }

  lemma {:induction false} DrainFolds(s: Feed)
    ensures FoldPending(s).meter == FoldOn(s.meter, s.pending) && FoldPending(s).pending == []
    decreases |s.pending|
  {
    hide Note;
    if s.pending != [] { DrainFolds(Folded(s, s.pending[0]).(pending := s.pending[1..])); }
  }

  /** Held settlements are all of the open stream's step. */
  predicate Uniform(pending: seq<Event>) {
    forall i :: 0 <= i < |pending| ==> (pending[i].Message? || pending[i].Attempt?) && SameStep(pending[i], pending[0])
  }

  predicate Allowed(s: Feed, a: Action) {
    a.Live? && a.waits ==> (a.event.Message? || a.event.Attempt?) && (s.pending != [] ==> SameStep(a.event, s.pending[0]))
  }

  function LastBearing(pending: seq<Event>): (p: Option<Event>)
    ensures p.Some? ==> p.value in pending && Bears(p.value)
  {
    if pending == [] then None
    else if Bears(pending[|pending| - 1]) then Some(pending[|pending| - 1])
    else LastBearing(pending[..|pending| - 1])
  }

  /** What the usage of `e` takes the place of. */
  function Replaced(last: Option<Last>, e: Event): Totals
    requires Bears(e)
  {
    if last.Some? && last.value.turn == e.turn && last.value.step == e.step then Weight(last.value.usage) else Zero
  }

  /** The event that overtakes changes what the meter will hold: it fences the
      last held usage, or brings a usage of its own that differs from it. */
  predicate Harms(s: Feed, a: Action) {
    Overtakes(s, a) && LastBearing(s.pending).Some? &&
    var p := LastBearing(s.pending).value;
    Fences(a.event, p) || (Bears(a.event) && Noted(a.event) != Noted(p))
  }

  /** A usage replaces what is remembered of its step, and is remembered. */
  lemma NoteBears(m: Meter, e: Event)
    requires Bears(e)
    ensures Note(m, e) == Meter(Some(Noted(e)), Plus(m.totals, Minus(Weight(Noted(e).usage), Replaced(m.last, e))))
  {
    assert !e.RetryStarted?;
    hide Weight, Plus, Minus;
  }

  lemma ReplacedBy(p: Event, e: Event)
    requires Bears(p) && Bears(e)
    ensures Replaced(Some(Noted(p)), e) == if SameStep(e, p) then Weight(Noted(p).usage) else Zero
  {
    hide Weight;
  }

  lemma ReplacedSame(last: Option<Last>, p: Event, e: Event)
    requires Bears(p) && Bears(e) && SameStep(e, p)
    ensures Replaced(last, e) == Replaced(last, p)
  {
    hide Weight, EventUsage;
  }

  /** What replaces a replacement replaces what that replaced. */
  lemma Telescopes(t: Totals, first: Totals, second: Totals, replaced: Totals)
    ensures Plus(Plus(t, Minus(first, replaced)), Minus(second, first)) == Plus(t, Minus(second, replaced))
  {
  }

  /** Folding held settlements of one step amounts to folding the last usage among them. */
  lemma {:induction false} UniformFold(m: Meter, pending: seq<Event>)
    requires Uniform(pending)
    ensures LastBearing(pending).None? ==> FoldOn(m, pending) == m
    ensures LastBearing(pending).Some? ==>
              var p := LastBearing(pending).value;
              FoldOn(m, pending) == Meter(Some(Noted(p)), Plus(m.totals, Minus(Weight(Noted(p).usage), Replaced(m.last, p))))
    decreases |pending|
  {
    if pending == [] { return; }
    var rest, e := pending[..|pending| - 1], pending[|pending| - 1];
    assert pending == rest + [e];
    assert Uniform(rest) by { assert rest != [] ==> rest[0] == pending[0]; }
    FoldOnAdds(m, rest, e);
    UniformFold(m, rest);
    LastBearingAdds(rest, e);
    if !Bears(e) {
      hide FoldOn, LastBearing, Weight, Plus, Minus, Replaced;
      return;
    }
    hide LastBearing, FoldOn, Bears, Note, Weight, Replaced, Noted, Uniform, SameStep, Plus, Minus;
    NoteBears(FoldOn(m, rest), e);
    if LastBearing(rest).Some? {
      var p := LastBearing(rest).value;
      ReplacedBy(p, e);
      ReplacedSame(m.last, p, e);
      Telescopes(m.totals, Weight(Noted(p).usage), Weight(Noted(e).usage), Replaced(m.last, p));
    }
  }

  lemma LastBearingAdds(rest: seq<Event>, e: Event)
    ensures LastBearing(rest + [e]) == if Bears(e) then Some(e) else LastBearing(rest)
    ensures Uniform(rest + [e]) && LastBearing(rest).Some? ==> SameStep(e, LastBearing(rest).value)
  {
    hide EventUsage;
    assert (rest + [e])[..|rest| + 1 - 1] == rest;
    if Uniform(rest + [e]) && LastBearing(rest).Some? {
      var i :| 0 <= i < |rest| && rest[i] == LastBearing(rest).value;
      assert (rest + [e])[i] == rest[i] && (rest + [e])[|rest|] == e;
    }
  }

  /** An event and the held settlements it overtakes fold to the same meter in
      either order exactly if it leaves their last usage alone. */
  lemma {:induction false} OrderMatters(m: Meter, pending: seq<Event>, e: Event)
    requires Uniform(pending)
    ensures LastBearing(pending).None? ==> FoldOn(Note(m, e), pending) == Note(FoldOn(m, pending), e)
    ensures LastBearing(pending).Some? ==>
              var p := LastBearing(pending).value;
              FoldOn(Note(m, e), pending) == Note(FoldOn(m, pending), e)
              <==> !Fences(e, p) && (Bears(e) ==> Noted(e) == Noted(p))
  {
    UniformFold(m, pending);
    UniformFold(Note(m, e), pending);
    if LastBearing(pending).Some? {
      var p := LastBearing(pending).value;
      hide FoldOn, LastBearing, EventUsage, Weight;
    }
  }

  /** Once what is held is folded, the meter is that of log order. */
  ghost predicate InSync(s: Feed) {
    FoldOn(s.meter, s.pending) == Fold(s.admitted)
  }

  lemma DrainSync(s: Feed)
    requires s.open && InSync(s)
    ensures Step(s, Drain).pending == [] && InSync(Step(s, Drain))
  {
    DrainFolds(s);
    FoldPendingLeaves(s);
    hide FoldPending, Note, Fold;
    assert FoldOn(FoldPending(s).meter, []) == FoldPending(s).meter;
  }

  lemma HeldSync(s: Feed, e: Event)
    requires Admits(s, Live(e, true)) && Uniform(s.pending) && Allowed(s, Live(e, true)) && InSync(s)
    ensures Uniform(Step(s, Live(e, true)).pending) && InSync(Step(s, Live(e, true)))
  {
    FoldMore(s.admitted, e);
    FoldOnAdds(s.meter, s.pending, e);
    hide Note, Fold, FoldOn;
  }

  lemma NotedSync(s: Feed, a: Action)
    requires Admits(s, a) && !(a.Live? && a.waits) && Uniform(s.pending) && InSync(s)
    ensures InSync(Step(s, a)) <==> !Harms(s, a)
  {
    FoldMore(s.admitted, a.event);
    OrderMatters(s.meter, s.pending, a.event);
    assert s.pending == [] ==> LastBearing(s.pending).None?;
    hide Note, Fold, FoldOn, LastBearing, Fences, Bears, Noted, Uniform;
  }

  /** Log order stays indistinguishable to the meter exactly until an overtaking event harms. */
  lemma {:induction false} SyncStep(s: Feed, a: Action)
    requires Uniform(s.pending) && s.open && !a.Close? && Allowed(s, a) && InSync(s)
    ensures Uniform(Step(s, a).pending) && (InSync(Step(s, a)) <==> !Harms(s, a))
  {
    hide InSync, Note, FoldPending;
    if a.Drain? {
      DrainSync(s);
    } else if Admits(s, a) {
      if a.Live? && a.waits { HeldSync(s, a.event); } else { NotedSync(s, a); }
    }
  }

  ghost predicate Unharmed(s: Feed, actions: seq<Action>)
    decreases |actions|
  {
    actions == [] || (Allowed(s, actions[0]) && !Harms(s, actions[0]) && Unharmed(Step(s, actions[0]), actions[1..]))
  }

  lemma {:induction false} SyncRun(s: Feed, actions: seq<Action>)
    requires Uniform(s.pending) && InSync(s) && Unharmed(s, actions) && Run(s, actions).open
    ensures InSync(Run(s, actions))
    decreases |actions|
  {
    if actions == [] { return; }
    OpenBefore(Step(s, actions[0]), actions[1..]);
    OpenStep(s, actions[0]);
    SyncStep(s, actions[0]);
    hide Step, InSync, Harms, Allowed, Uniform;
    SyncRun(Step(s, actions[0]), actions[1..]);
  }

  /** While no overtaking event harms, and once nothing is held, the totals are those of the log's admitted prefix. */
  lemma {:induction false} TotalsOfPrefix(actions: seq<Action>, log: seq<Event>)
    requires Numbered(log) && Continues(FreshFeed, actions, log) && Unharmed(FreshFeed, actions)
    requires Run(FreshFeed, actions).open && Run(FreshFeed, actions).pending == []
    ensures var s := Run(FreshFeed, actions);
            var m := s.lastSeq + 1;
            0 <= m <= |log| && s.meter.totals == Sum(log[..m], m)
  {
    SyncRun(FreshFeed, actions);
    FreshPrefix(log);
    RunContinues(FreshFeed, actions, log);
    var s := Run(FreshFeed, actions);
    FoldIsSum(s.admitted);
    hide Run, Continues, Unharmed, Sum, Fold;
  }

  /**
   * A retry that overtakes the held usage it fences, once the step reports
   * again: the totals are those of log order if and only if that usage weighs
   * what it took the place of.
   */
  lemma {:induction false} FenceLost(s: Feed, e: Event, f: Event)
    requires Uniform(s.pending) && s.open && InSync(s) && LastBearing(s.pending).Some?
    requires e.RetryStarted? && Fences(e, LastBearing(s.pending).value) && s.lastSeq < e.seqNo < f.seqNo
    requires Bears(f) && SameStep(f, LastBearing(s.pending).value)
    ensures var p := LastBearing(s.pending).value;
            var t := Step(Step(Step(s, Live(e, false)), Drain), Live(f, false));
            && t.admitted == s.admitted + [e, f]
            && (t.meter.totals == Fold(t.admitted).totals <==> Weight(Noted(p).usage) == Replaced(s.meter.last, p))
  {
    FenceSteps(s, e, f);
    FenceTotals(s.meter, s.pending, LastBearing(s.pending).value, e, f);
    hide Step, Fold, FoldOn, Note, LastBearing, EventUsage;
    assert s.admitted + [e, f] == s.admitted + [e] + [f];
    FoldMore(s.admitted, e);
    FoldMore(s.admitted + [e], f);
  }

  lemma FenceSteps(s: Feed, e: Event, f: Event)
    requires s.open && s.lastSeq < e.seqNo < f.seqNo
    ensures var t := Step(Step(Step(s, Live(e, false)), Drain), Live(f, false));
            t.admitted == s.admitted + [e, f] && t.meter == Note(FoldOn(Note(s.meter, e), s.pending), f)
  {
    hide FoldPending, Note, FoldOn;
    var s1 := Step(s, Live(e, false));
    DrainFolds(s1);
    FoldPendingLeaves(s1);
    assert s.admitted + [e, f] == s.admitted + [e] + [f];
  }

  lemma FenceTotals(m: Meter, pending: seq<Event>, p: Event, e: Event, f: Event)
    requires Uniform(pending) && LastBearing(pending) == Some(p)
    requires e.RetryStarted? && Fences(e, p) && Bears(f) && SameStep(f, p)
    ensures Note(FoldOn(Note(m, e), pending), f).totals == Note(Note(FoldOn(m, pending), e), f).totals
            <==> Weight(Noted(p).usage) == Replaced(m.last, p)
  {
    UniformFold(m, pending);
    UniformFold(Note(m, e), pending);
    hide FoldOn, LastBearing, Weight;
  }

  /**
   * A usage that overtakes a held one. Of the same step, the totals are those
   * of log order if and only if the two weigh the same, until the step reports
   * again. Of another step, if and only if the two replaced the same weight.
   */
  lemma {:induction false} UsageOvertaken(s: Feed, e: Event)
    requires Uniform(s.pending) && s.open && InSync(s) && LastBearing(s.pending).Some? && Bears(e) && s.lastSeq < e.seqNo
    ensures var p := LastBearing(s.pending).value;
            var t := Step(Step(s, Live(e, false)), Drain);
            && t.admitted == s.admitted + [e]
            && (t.meter.totals == Fold(t.admitted).totals <==> SwapAgrees(s.meter.last, p, e))
  {
    OvertakeSteps(s, e);
    UsageTotals(s.meter, s.pending, LastBearing(s.pending).value, e);
    hide Step, Fold, FoldOn, Note, LastBearing, EventUsage, SwapAgrees;
    FoldMore(s.admitted, e);
  }

  /** ... and once another usage follows. */
  lemma {:induction false} UsageOvertakenThen(s: Feed, e: Event, f: Event)
    requires Uniform(s.pending) && s.open && InSync(s) && LastBearing(s.pending).Some?
    requires Bears(e) && Bears(f) && s.lastSeq < e.seqNo < f.seqNo
    ensures var p := LastBearing(s.pending).value;
            var t := Step(Step(Step(s, Live(e, false)), Drain), Live(f, false));
            && t.admitted == s.admitted + [e, f]
            && (t.meter.totals == Fold(t.admitted).totals <==> SwapAgreesThen(s.meter.last, p, e, f))
  {
    FenceSteps(s, e, f);
    ThenTotals(s.meter, s.pending, LastBearing(s.pending).value, e, f);
    hide Step, Fold, FoldOn, Note, LastBearing, EventUsage, SwapAgreesThen;
    assert s.admitted + [e, f] == s.admitted + [e] + [f];
    FoldMore(s.admitted, e);
    FoldMore(s.admitted + [e], f);
  }

  /** The next step settles twice while this one's settlement is held: its first usage is counted beside the second. */
  lemma {:induction false} OvertakenUsage(a: Usage, b: Usage, c: Usage)
    ensures var held, first, second := Attempt(0, 1, 1, [UsageRecord(a)]), Message(1, 1, 2, Some(b), []), Message(2, 1, 2, Some(c), []);
            var t := Run(FreshFeed, [Live(held, true), Live(first, false), Drain, Live(second, false)]);
            && t.admitted == [held, first, second] && t.pending == []
            && (t.meter.totals == Fold(t.admitted).totals <==> Weight(b) == Zero)
  {
    var held, first, second := Attempt(0, 1, 1, [UsageRecord(a)]), Message(1, 1, 2, Some(b), []), Message(2, 1, 2, Some(c), []);
    assert EventUsage(held) == Some(a) && EventUsage(first) == Some(b) && EventUsage(second) == Some(c) by { UsagesOf(a, b, c); }
    hide EventUsage, Run, Fold, Weight;
    RunFour(FreshFeed, Live(held, true), Live(first, false), Drain, Live(second, false));
    assert [] + [held] == [held];
    assert Step(FreshFeed, Live(held, true)) == Feed(true, 0, [held], Empty, [], [held]);
    hide Step;
    OvertakenIn(held, first, second);
  }

  lemma UsagesOf(a: Usage, b: Usage, c: Usage)
    ensures EventUsage(Attempt(0, 1, 1, [UsageRecord(a)])) == Some(a)
    ensures EventUsage(Message(1, 1, 2, Some(b), [])) == Some(b) && EventUsage(Message(2, 1, 2, Some(c), [])) == Some(c)
  {
  }

  /** The same, for any held settlement and two usages of another step. */
  lemma OvertakenIn(held: Event, first: Event, second: Event)
    requires Uniform([held]) && Bears(held) && Bears(first) && Bears(second) && 0 < first.seqNo < second.seqNo
    requires !SameStep(first, held) && !SameStep(second, held) && SameStep(second, first)
    ensures var s := Feed(true, 0, [held], Empty, [], [held]);
            var t := Step(Step(Step(s, Live(first, false)), Drain), Live(second, false));
            && t.admitted == [held, first, second] && t.pending == []
            && (t.meter.totals == Fold(t.admitted).totals <==> Weight(Noted(first).usage) == Zero)
  {
    var s := Feed(true, 0, [held], Empty, [], [held]);
    assert LastBearing(s.pending) == Some(held) by { assert [] + [held] == [held]; LastBearingAdds([], held); }
    HeldInSync(s, held);
    SwapIs(held, first, second);
    hide Fold, FoldOn, EventUsage, LastBearing, Note, InSync, Bears, Uniform, Step, SwapAgreesThen, SameStep, Weight, Noted;
    UsageOvertakenThen(s, first, second);
    DrainedThen(s, first, second);
    assert [held] + [first, second] == [held, first, second];
  }

  lemma SwapIs(held: Event, first: Event, second: Event)
    requires Bears(held) && Bears(first) && Bears(second)
    requires !SameStep(first, held) && !SameStep(second, held) && SameStep(second, first)
    ensures SwapAgreesThen(None, held, first, second) <==> Weight(Noted(first).usage) == Zero
  {
    hide Weight, EventUsage;
    ReplacedBy(held, second);
    ReplacedBy(first, second);
    var w := Weight(Noted(first).usage);
    PlusZero(w);
    assert SwapAgreesThen(None, held, first, second) <==> Plus(Zero, Zero) == Plus(Zero, w);
  }

  lemma PlusZero(w: Totals)
    ensures Plus(Zero, Zero) == Plus(Zero, w) <==> w == Zero
  {
    var Totals(a, b, c, d) := w;
    assert Plus(Zero, Zero) == Zero;
    assert Plus(Zero, w) == w;
  }

  lemma HeldInSync(s: Feed, e: Event)
    requires s.pending == [e] && s.admitted == [e] && s.meter == Empty
    ensures InSync(s)
  {
    hide Note;
    FoldMore([], e);
    FoldNone();
    FoldOnAdds(Empty, [], e);
    assert [] + [e] == [e];
    assert FoldOn(Empty, []) == Empty;
  }

  lemma DrainedThen(s: Feed, e: Event, f: Event)
    requires s.open && s.lastSeq < e.seqNo < f.seqNo
    ensures Step(Step(Step(s, Live(e, false)), Drain), Live(f, false)).pending == []
  {
    hide FoldPending, Note;
    var s1 := Step(s, Live(e, false));
    DrainFolds(s1);
    FoldPendingLeaves(s1);
  }

  /** Adding up `p` and `e` in either order after `last` makes the same totals. */
  predicate SwapAgrees(last: Option<Last>, p: Event, e: Event)
    requires Bears(p) && Bears(e)
  {
    if SameStep(e, p) then Weight(Noted(e).usage) == Weight(Noted(p).usage) else Replaced(last, e) == Replaced(last, p)
  }

  /** And so it does with `f` after them. */
  predicate SwapAgreesThen(last: Option<Last>, p: Event, e: Event, f: Event)
    requires Bears(p) && Bears(e) && Bears(f)
  {
    if SameStep(e, p) then SameStep(f, p) || SwapAgrees(last, p, e)
    else Plus(Replaced(last, e), Replaced(Some(Noted(p)), f)) == Plus(Replaced(last, p), Replaced(Some(Noted(e)), f))
  }

  lemma OvertakeSteps(s: Feed, e: Event)
    requires s.open && s.lastSeq < e.seqNo
    ensures var t := Step(Step(s, Live(e, false)), Drain);
            t.admitted == s.admitted + [e] && t.meter == FoldOn(Note(s.meter, e), s.pending)
  {
    hide FoldPending, Note, FoldOn;
    var s1 := Step(s, Live(e, false));
    DrainFolds(s1);
    FoldPendingLeaves(s1);
  }

  lemma UsageTotals(m: Meter, pending: seq<Event>, p: Event, e: Event)
    requires Uniform(pending) && LastBearing(pending) == Some(p) && Bears(e)
    ensures FoldOn(Note(m, e), pending).totals == Note(FoldOn(m, pending), e).totals <==> SwapAgrees(m.last, p, e)
  {
    UniformFold(m, pending);
    UniformFold(Note(m, e), pending);
    NoteBears(m, e);
    NoteBears(FoldOn(m, pending), e);
    ReplacedBy(p, e);
    ReplacedBy(e, p);
    if SameStep(e, p) { ReplacedSame(m.last, p, e); }
    hide FoldOn, LastBearing, Weight, Replaced, Note, Bears, Noted, Uniform;
  }

  lemma ThenTotals(m: Meter, pending: seq<Event>, p: Event, e: Event, f: Event)
    requires Uniform(pending) && LastBearing(pending) == Some(p) && Bears(e) && Bears(f)
    ensures Note(FoldOn(Note(m, e), pending), f).totals == Note(Note(FoldOn(m, pending), e), f).totals
            <==> SwapAgreesThen(m.last, p, e, f)
  {
    hide FoldOn, LastBearing, Note, Bears, Uniform, Noted;
    UniformFold(m, pending);
    UniformFold(Note(m, e), pending);
    NoteBears(m, e);
    NoteBears(FoldOn(m, pending), e);
    NoteBears(FoldOn(Note(m, e), pending), f);
    NoteBears(Note(FoldOn(m, pending), e), f);
    ReplacedBy(p, e);
    ReplacedBy(e, p);
    hide Replaced, Weight;
    if SameStep(e, p) { SameThen(m, p, e, f); } else { OtherThen(m, p, e, f); }
  }

  /** The totals before `f`, its weight, and what it replaces. */
  function Adding(t: Totals, e: Event, replaced: Totals): Totals
    requires Bears(e)
  {
    Plus(t, Minus(Weight(Noted(e).usage), replaced))
  }

  lemma SameThen(m: Meter, p: Event, e: Event, f: Event)
    requires Bears(p) && Bears(e) && Bears(f) && SameStep(e, p)
    ensures var wp, we := Weight(Noted(p).usage), Weight(Noted(e).usage);
            Adding(Adding(Adding(m.totals, e, Replaced(m.last, e)), p, we), f, Replaced(Some(Noted(p)), f))
            == Adding(Adding(Adding(m.totals, p, Replaced(m.last, p)), e, wp), f, Replaced(Some(Noted(e)), f))
            <==> SwapAgreesThen(m.last, p, e, f)
  {
    ReplacedSame(m.last, p, e);
    ReplacedBy(p, f);
    ReplacedBy(e, f);
    assert SameStep(f, p) == SameStep(f, e);
    hide Replaced, Weight, Noted, Bears, SameStep;
  }

  lemma OtherThen(m: Meter, p: Event, e: Event, f: Event)
    requires Bears(p) && Bears(e) && Bears(f) && !SameStep(e, p)
    ensures Adding(Adding(Adding(m.totals, e, Replaced(m.last, e)), p, Zero), f, Replaced(Some(Noted(p)), f))
            == Adding(Adding(Adding(m.totals, p, Replaced(m.last, p)), e, Zero), f, Replaced(Some(Noted(e)), f))
            <==> SwapAgreesThen(m.last, p, e, f)
  {
    hide Replaced, Weight, Noted, Bears, SameStep;
  }

  /** A retry that overtakes the settlement it fences is lost: the later settlement replaces the earlier one. */
  lemma {:induction false} OvertakenFence(a: Usage, b: Usage)
    ensures var log := [Attempt(0, 1, 1, [UsageRecord(a)]), RetryStarted(1, 1, 1), Message(2, 1, 1, Some(b), [])];
            var s := Run(FreshFeed, [Live(log[0], true), Live(log[1], false), Drain, Live(log[2], false)]);
            s.meter.totals == Weight(b) && Fold(log).totals == Plus(Weight(a), Weight(b))
  {
    LogRun(a, b);
    DeliveredRun(a, b);
  }

  lemma LogRun(a: Usage, b: Usage)
    ensures Fold([Attempt(0, 1, 1, [UsageRecord(a)]), RetryStarted(1, 1, 1), Message(2, 1, 1, Some(b), [])]).totals
            == Plus(Weight(a), Weight(b))
  {
    var attempt, retry, message := Attempt(0, 1, 1, [UsageRecord(a)]), RetryStarted(1, 1, 1), Message(2, 1, 1, Some(b), []);
    UsageOf(a, b);
    hide EventUsage, Fold;
    FoldMore([], attempt);
    FoldMore([attempt], retry);
    FoldMore([attempt, retry], message);
    assert [] + [attempt] == [attempt] && [attempt] + [retry] == [attempt, retry];
    assert [attempt, retry] + [message] == [attempt, retry, message];
    assert Fold([]) == Empty by { FoldNone(); }
  }

  lemma FoldNone()
    ensures Fold([]) == Empty
  {
  }

  lemma DeliveredRun(a: Usage, b: Usage)
    ensures var attempt, retry, message := Attempt(0, 1, 1, [UsageRecord(a)]), RetryStarted(1, 1, 1), Message(2, 1, 1, Some(b), []);
            Run(FreshFeed, [Live(attempt, true), Live(retry, false), Drain, Live(message, false)]).meter.totals == Weight(b)
  {
    var attempt, retry, message := Attempt(0, 1, 1, [UsageRecord(a)]), RetryStarted(1, 1, 1), Message(2, 1, 1, Some(b), []);
    RunFour(FreshFeed, Live(attempt, true), Live(retry, false), Drain, Live(message, false));
    UsageOf(a, b);
    hide EventUsage, Run;
    var s2 := Step(Step(FreshFeed, Live(attempt, true)), Live(retry, false));
    assert s2 == Feed(true, 1, [attempt], Empty, [retry], [attempt, retry]);
    FoldOne(s2, attempt);
  }

  lemma UsageOf(a: Usage, b: Usage)
    ensures EventUsage(Attempt(0, 1, 1, [UsageRecord(a)])) == Some(a)
    ensures EventUsage(RetryStarted(1, 1, 1)) == None && EventUsage(Message(2, 1, 1, Some(b), [])) == Some(b)
  {
  }

  lemma FoldOne(s: Feed, e: Event)
    requires s.pending == [e]
    ensures FoldPending(s) == Folded(s, e).(pending := [])
  {
    var t := Folded(s, e).(pending := []);
    assert s.pending[1..] == [];
    assert FoldPending(t) == t;
  }

  lemma RunFour(s: Feed, a: Action, b: Action, c: Action, d: Action)
    ensures Run(s, [a, b, c, d]) == Step(Step(Step(Step(s, a), b), c), d)
  {
    hide Step;
    assert [a, b, c, d][1..] == [b, c, d] && [b, c, d][1..] == [c, d] && [c, d][1..] == [d] && [d][1..] == [];
    var t := Step(s, a);
    var u := Step(t, b);
    var v := Step(u, c);
    assert Run(v, [d]) == Run(Step(v, d), []);
    assert Run(u, [c, d]) == Run(v, [d]);
    assert Run(t, [b, c, d]) == Run(u, [c, d]);
  }

  // ----- The counters that hold it -----

  class OutputState {
    var open: bool
    var lastSeq: int
    var inputTokens: int
    var outputTokens: int
    var cacheReadTokens: int
    var cacheWriteTokens: int
    var lastUsage: Option<Last>
    var pending: seq<Event>
    ghost var folded: seq<Event>
    ghost var admitted: seq<Event>

    ghost function View(): Feed
      reads this
    {
      Feed(open, lastSeq, pending, Meter(lastUsage, Sums()), folded, admitted)
    }

    constructor ()
      ensures View() == FreshFeed
    {
      open, lastSeq, lastUsage, pending, folded, admitted := true, -1, None, [], [], [];
      inputTokens, outputTokens, cacheReadTokens, cacheWriteTokens := 0, 0, 0, 0;
    }

    ghost function Sums(): Totals
      reads this
    {
      Totals(inputTokens, outputTokens, cacheReadTokens, cacheWriteTokens)
    }

    method Count(u: Usage, previous: Usage)
      modifies `inputTokens, `outputTokens, `cacheReadTokens, `cacheWriteTokens
      ensures Sums() == Plus(old(Sums()), Minus(Weight(u), Weight(previous)))
    {
      inputTokens := inputTokens + (u.input - previous.input);
      outputTokens := outputTokens + (u.output - previous.output);
      cacheReadTokens := cacheReadTokens + (OrZero(u.cacheRead) - OrZero(previous.cacheRead));
      cacheWriteTokens := cacheWriteTokens + (OrZero(u.cacheWrite) - OrZero(previous.cacheWrite));
    }

    method NoteEvent(e: Event)
      modifies `inputTokens, `outputTokens, `cacheReadTokens, `cacheWriteTokens, `lastUsage, `folded
      ensures View() == Folded(old(View()), e)
    {
      if e.RetryStarted? && lastUsage.Some? && lastUsage.value.turn == e.turn && lastUsage.value.step == e.step {
        lastUsage := None;
      }
      var usage := AssistantEventUsage(e);
      if usage.Some? {
        var u := usage.value;
        var same := lastUsage.Some? && lastUsage.value.turn == e.turn && lastUsage.value.step == e.step;
        var previous := if same then lastUsage.value.usage else Usage(0, 0, None, None);
        Count(u, previous);
        lastUsage := Some(Last(e.turn, e.step, u));
      }
      folded := folded + [e];
    }

    method AdmitEvent(e: Event) returns (isNew: bool)
      modifies `lastSeq, `admitted
      ensures isNew == (e.seqNo > old(lastSeq))
      ensures View() == if isNew then old(View()).(lastSeq := e.seqNo, admitted := old(admitted) + [e]) else old(View())
    {
      isNew := e.seqNo > lastSeq;
      if isNew { lastSeq, admitted := e.seqNo, admitted + [e]; }
    }

    method LiveEvent(e: Event, waits: bool)
      modifies this
      ensures View() == Step(old(View()), Live(e, waits))
    {
      if !open { return; }
      var isNew := AdmitEvent(e);
      if !isNew { return; }
      if waits { pending := pending + [e]; } else { NoteEvent(e); }
    }

    method Restore(events: seq<Event>)
      modifies this
      ensures View() == Run(old(View()), Replays(events))
    {
      ghost var start := View();
      for i := 0 to |events|
        invariant View() == Run(start, Replays(events[..i]))
      {
        ReplaysStep(start, events, i);
        if open {
          var isNew := AdmitEvent(events[i]);
          if isNew { NoteEvent(events[i]); }
        }
      }
      assert events[..|events|] == events;
    }

    method DrainPending()
      modifies this
      ensures View() == Step(old(View()), Drain)
    {
      if !open { return; }
      ghost var start := View();
      var i := 0;
      while i < |pending|
        invariant 0 <= i <= |pending| && View().(pending := pending[i..]).open && pending == old(pending)
        invariant FoldPending(View().(pending := pending[i..])) == FoldPending(start)
      {
        assert pending[i..][1..] == pending[i + 1..];
        NoteEvent(pending[i]);
        i := i + 1;
      }
      pending := [];
    }

    method Dispose()
      modifies `open, `pending
      ensures View() == Step(old(View()), Close)
    {
      open, pending := false, [];
    }
  }

  ghost function Replays(events: seq<Event>): seq<Action> {
    seq(|events|, i requires 0 <= i < |events| => Replay(events[i]))
  }

  lemma {:induction false} RunOne(s: Feed, actions: seq<Action>, a: Action)
    ensures Run(s, actions + [a]) == Step(Run(s, actions), a)
    decreases |actions|
  {
    hide Step;
    if actions == [] {
      assert [] + [a] == [a] && [a][1..] == [];
      assert Run(s, [a]) == Run(Step(s, a), []);
    } else {
      assert (actions + [a])[1..] == actions[1..] + [a];
      RunOne(Step(s, actions[0]), actions[1..], a);
    }
  }

  lemma ReplaysStep(s: Feed, events: seq<Event>, i: nat)
    requires i < |events|
    ensures Run(s, Replays(events[..i + 1])) == Step(Run(s, Replays(events[..i])), Replay(events[i]))
  {
    assert Replays(events[..i + 1]) == Replays(events[..i]) + [Replay(events[i])];
    RunOne(s, Replays(events[..i]), Replay(events[i]));
  }
}
