/**
 * What the client hears, told from the inputs alone: which live chunks are
 * sent, which settlements wait, and that every other event comes whole.
 */
module AssistantStreamRuns {
  import opened Options
  import opened AssistantStream

  /** Text and reasoning are shown unless they are empty; nothing else is. */
  predicate Visible(chunk: Chunk) {
    match chunk
    case TextDelta(text) => text != ""
    case ReasoningDelta(text) => text != ""
    case OtherChunk => false
  }

  /** The attempt being listened to: its last revision, and the indices that arrived, visible or not. */
  datatype Listening = Listening(number: nat, name: string, revision: int, turn: int, step: int, ended: bool, heard: set<nat>)

  /** `live` is what was shown live, oldest first, and `held` the settlements that wait for an end frame. */
  datatype Story = Story(open: bool, lastSeq: int, attempts: nat, current: Option<Listening>, live: seq<Update>, held: seq<Event>)

  const Untold := Story(true, -1, 0, None, [], [])

  /** The frame belongs to the attempt and is newer than what was heard of it. */
  predicate Heeded(x: Story, name: string, revision: int) {
    && x.open && x.current.Some? && !x.current.value.ended
    && x.current.value.name == name && x.current.value.revision < revision
  }

  function TellFrame(x: Story, f: Frame): Story {
    match f
    case Start(name, revision, turn, step) =>
      if !x.open || (x.current.Some? && (x.current.value.revision >= revision || x.current.value.name == name)) then x
      else x.(attempts := x.attempts + 1, current := Some(Listening(x.attempts, name, revision, turn, step, false, {})), held := [])
    case Delta(name, revision, index, chunk) =>
      if !Heeded(x, name, revision) then x
      else
        var c := x.current.value;
        var first := index !in c.heard;
        x.(current := Some(c.(revision := revision, heard := c.heard + {index})),
           live := if first && Visible(chunk) then x.live + [Update(Live(c.number), index, chunk)] else x.live)
    case End(name, revision, _) =>
      if !Heeded(x, name, revision) then x
      else x.(current := Some(x.current.value.(revision := revision, ended := true)), held := [])
  }

  /** A settlement of the step being streamed waits; whatever is not newer than what was admitted is ignored. */
  function Tell(x: Story, i: Input): Story {
    match i
    case AFrame(f) => TellFrame(x, f)
    case AnEvent(e) =>
      if !x.open || e.seqNo <= x.lastSeq then x
      else x.(lastSeq := e.seqNo, held := if Waits(x, e) then x.held + [e] else x.held)
    case AReplay(e, _) => if !x.open || e.seqNo <= x.lastSeq then x else x.(lastSeq := e.seqNo)
    case AClose => x.(open := false, held := [])
  }

  predicate Waits(x: Story, e: Event) {
    && (e.kind.Message? || e.kind.Attempt?) && x.current.Some? && !x.current.value.ended
    && x.current.value.turn == e.turn && x.current.value.step == e.step
  }

  function StoryFrom(x: Story, inputs: seq<Input>): Story
    decreases |inputs|
  {
    if inputs == [] then x else StoryFrom(Tell(x, inputs[0]), inputs[1..])
  }

  // ----- The output follows the story -----

  function LiveUpdates(sent: seq<Update>): seq<Update> {
    if sent == [] then []
    else LiveUpdates(sent[..|sent| - 1]) + (if sent[|sent| - 1].source.Live? then [sent[|sent| - 1]] else [])
  }

  lemma {:induction false} LiveJoin(a: seq<Update>, b: seq<Update>)
    ensures LiveUpdates(a + b) == LiveUpdates(a) + LiveUpdates(b)
  {
    if b == [] {
      assert a + b == a;
    } else {
      assert (a + b)[..|a + b| - 1] == a + b[..|b| - 1];
      LiveJoin(a, b[..|b| - 1]);
    }
  }

  lemma {:induction false} NoneLive(updates: seq<Update>)
    requires forall u :: u in updates ==> !u.source.Live?
    ensures LiveUpdates(updates) == []
  {
    if updates != [] { NoneLive(updates[..|updates| - 1]); }
  }

  lemma LiveOne(u: Update)
    requires u.source.Live?
    ensures LiveUpdates([u]) == [u]
  {
    assert [u][..0] == [];
  }

  ghost predicate SameAttempt(s: Stream, c: Listening) {
    && s.number == c.number && s.attempt == c.name && s.revision == c.revision && s.turn == c.turn && s.step == c.step
    && s.closed == c.ended && (!c.ended ==> s.delivered == c.heard)
  }

  ghost predicate Follows(o: Output, x: Story) {
    && o.open == x.open && o.lastSeq == x.lastSeq && o.streams == x.attempts
    && o.stream.Some? == x.current.Some? && (o.stream.Some? ==> SameAttempt(o.stream.value, x.current.value))
    && LiveUpdates(o.sent) == x.live && (if o.stream.Some? then o.stream.value.pending else []) == x.held
  }

  /** Settled events are never live. */
  lemma SettledNotLive(sent: seq<Update>, pending: seq<Event>, committed: Option<Commit>, delivered: set<nat>)
    ensures LiveUpdates(sent + PendingUpdates(pending, committed, delivered)) == LiveUpdates(sent)
  {
    PendingSource(pending, committed, delivered);
    hide PendingUpdates;
    LiveJoin(sent, PendingUpdates(pending, committed, delivered));
    NoneLive(PendingUpdates(pending, committed, delivered));
    hide LiveUpdates;
    assert LiveUpdates(sent) + [] == LiveUpdates(sent);
  }

  lemma EmittedNotLive(o: Output, e: Event, send: bool)
    ensures LiveUpdates(Emit(o, e, send).sent) == LiveUpdates(o.sent)
  {
    EventSource(e, {});
    hide EventUpdates;
    var updates := if send then EventUpdates(e, {}) else [];
    LiveJoin(o.sent, updates);
    NoneLive(updates);
    hide LiveUpdates;
    assert LiveUpdates(o.sent) + [] == LiveUpdates(o.sent);
  }

  lemma StartFollows(o: Output, x: Story, f: Frame)
    requires Follows(o, x) && f.Start?
    ensures Follows(OnFrame(o, f), TellFrame(x, f))
  {
    if o.stream.Some? { SettledNotLive(o.sent, o.stream.value.pending, None, o.stream.value.delivered); }
    hide PendingUpdates, LiveUpdates;
  }

  lemma EndFollows(o: Output, x: Story, f: Frame)
    requires Follows(o, x) && f.End?
    ensures Follows(OnFrame(o, f), TellFrame(x, f))
  {
    if o.stream.Some? { SettledNotLive(o.sent, o.stream.value.pending, f.committed, o.stream.value.delivered); }
    hide PendingUpdates, LiveUpdates;
  }

  lemma DeltaFollows(o: Output, x: Story, f: Frame)
    requires Follows(o, x) && f.Delta?
    ensures Follows(OnFrame(o, f), TellFrame(x, f))
  {
    if o.stream.Some? {
      var u := Update(Live(o.stream.value.number), f.index, f.chunk);
      LiveJoin(o.sent, [u]);
      LiveOne(u);
    }
    hide LiveUpdates;
  }

  lemma StepFollows(o: Output, x: Story, i: Input)
    requires Follows(o, x)
    ensures Follows(Step(o, i), Tell(x, i))
  {
    match i
    case AFrame(f) =>
      hide Follows, OnFrame, TellFrame;
      if f.Start? { StartFollows(o, x, f); } else if f.End? { EndFollows(o, x, f); } else { DeltaFollows(o, x, f); }
    case AnEvent(e) =>
      EmittedNotLive(o, e, true);
      hide LiveUpdates, EventUpdates;
    case AReplay(e, send) =>
      EmittedNotLive(o, e, send);
      hide LiveUpdates, EventUpdates;
    case AClose =>
      hide LiveUpdates;
  }

  lemma {:induction false} RunFollows(o: Output, x: Story, inputs: seq<Input>)
    requires Follows(o, x)
    ensures Follows(Run(o, inputs), StoryFrom(x, inputs))
    decreases |inputs|
  {
    hide Follows, Step, Tell;
    if inputs != [] {
      StepFollows(o, x, inputs[0]);
      RunFollows(Step(o, inputs[0]), Tell(x, inputs[0]), inputs[1..]);
    }
  }

  /**
   * In every run the client is sent live exactly the visible chunks of the
   * heeded delta frames, the first of each index, in arrival order; and exactly
   * the settlements of the step being streamed wait for its end frame.
   */
  lemma {:induction false} LiveAsHeard(inputs: seq<Input>)
    ensures var o, x := Run(Fresh, inputs), StoryFrom(Untold, inputs);
            && LiveUpdates(o.sent) == x.live
            && (if o.stream.Some? then o.stream.value.pending else []) == x.held
            && o.lastSeq == x.lastSeq && o.open == x.open
  {
    assert Follows(Fresh, Untold);
    hide Run, StoryFrom;
    RunFollows(Fresh, Untold, inputs);
    hide LiveUpdates;
  }

  // ----- Every other event -----

  function EventSources(q: nat): set<Source> {
    {Durable(q), Assembled(q)}
  }

  /** Nothing further can come from event `q`. */
  ghost predicate Over(o: Output, q: nat) {
    q <= o.lastSeq && (o.stream.Some? ==> forall p :: p in o.stream.value.pending ==> p.seqNo != q)
  }

  lemma DrainOver(o: Output, committed: Option<Commit>, q: nat)
    requires Over(o, q)
    ensures AddsNone(o.sent, Drain(o, committed).sent, EventSources(q))
  {
    if o.stream.None? { return; }
    var s := o.stream.value;
    OthersSilent(s.pending, committed, s.delivered, 0, q);
    Appended(o.sent, PendingUpdates(s.pending, committed, s.delivered), EventSources(q));
  }

  lemma FrameOver(o: Output, f: Frame, q: nat)
    requires Over(o, q)
    ensures Over(OnFrame(o, f), q) && AddsNone(o.sent, OnFrame(o, f).sent, EventSources(q))
  {
    match f
    case Start(_, _, _, _) => DrainOver(o, None, q);
    case End(name, revision, committed) =>
      if o.open && Accepts(o, name, revision) {
        DrainOver(o.(stream := Some(o.stream.value.(revision := revision, closed := true))), committed, q);
      }
    case Delta(_, _, _, _) =>
  }

  lemma EmitOver(o: Output, e: Event, send: bool, q: nat)
    requires Over(o, q) && e.seqNo > o.lastSeq
    ensures Over(Emit(o, e, send), q) && AddsNone(o.sent, Emit(o, e, send).sent, EventSources(q))
  {
    EventSource(e, {});
    hide EventUpdates;
    Appended(o.sent, if send then EventUpdates(e, {}) else [], EventSources(q));
  }

  lemma StepOver(o: Output, i: Input, q: nat)
    requires Over(o, q)
    ensures Over(Step(o, i), q) && AddsNone(o.sent, Step(o, i).sent, EventSources(q))
  {
    match i
    case AFrame(f) => hide Over, AddsNone, OnFrame; FrameOver(o, f, q);
    case AnEvent(e) => if o.open && e.seqNo > o.lastSeq && !Awaits(o, e) { EmitOver(o, e, true, q); }
    case AReplay(e, send) => if o.open && e.seqNo > o.lastSeq { EmitOver(o, e, send, q); }
    case AClose =>
  }

  lemma {:induction false} RunOver(o: Output, inputs: seq<Input>, q: nat)
    requires Over(o, q)
    ensures AddsNone(o.sent, Run(o, inputs).sent, EventSources(q))
    decreases |inputs|
  {
    hide Over, Step;
    if inputs == [] { return; }
    StepOver(o, inputs[0], q);
    RunOver(Step(o, inputs[0]), inputs[1..], q);
    NoneTwice(o.sent, Step(o, inputs[0]).sent, Run(o, inputs).sent, EventSources(q));
  }

  /** The event of a live or replayed input that is sent at once. */
  predicate AtOnce(o: Output, i: Input) {
    && o.open
    && match i
       case AnEvent(e) => e.seqNo > o.lastSeq && !Awaits(o, e)
       case AReplay(e, send) => send && e.seqNo > o.lastSeq
       case _ => false
  }

  lemma NothingBefore(o: Output, q: nat)
    requires Inv(o) && q > o.lastSeq
    ensures Seen(o.sent, EventSources(q)) == [] && forall u :: u in o.sent ==> u.source !in EventSources(q)
  {
    assert forall u :: u in o.sent ==> SourceFits(u.source, o.streams, o.lastSeq);
    hide Inv;
    SeenOthers(o.sent, EventSources(q));
  }

  lemma EventSeen(e: Event)
    ensures Seen(EventUpdates(e, {}), EventSources(e.seqNo))
            == if e.kind.Unrelated? then [] else Remaining(Content(e), {}, |Content(e)|)
  {
    if !e.kind.Unrelated? {
      SeenEvent(e, {}, 0);
      EventSource(e, {});
      hide EventUpdates, Seen, Remaining, Content;
      SeenSame(EventUpdates(e, {}), EventSources(e.seqNo), Sources(0, e.seqNo));
    }
  }

  lemma EmittedOver(o: Output, e: Event)
    requires Inv(o) && e.seqNo > o.lastSeq
    ensures Over(Emit(o, e, true), e.seqNo)
  {
    assert o.stream.Some? ==> PendingFits(o.stream.value.pending, o.sent, o.lastSeq);
    hide Inv, EventUpdates;
  }

  lemma EmitsWhole(o: Output, e: Event)
    requires Inv(o) && e.seqNo > o.lastSeq
    ensures Seen(Emit(o, e, true).sent, EventSources(e.seqNo))
            == if e.kind.Unrelated? then [] else Remaining(Content(e), {}, |Content(e)|)
    ensures forall u :: u in Emit(o, e, true).sent && u.source in EventSources(e.seqNo) ==> Speaks(u, e)
  {
    hide Inv, Remaining, Content, Speaks, EventUpdates, Seen;
    NothingBefore(o, e.seqNo);
    SeenJoin(o.sent, EventUpdates(e, {}), EventSources(e.seqNo));
    EventSpeaks(e, {});
    EventSeen(e);
    hide EventSources;
    assert [] + Seen(EventUpdates(e, {}), EventSources(e.seqNo)) == Seen(EventUpdates(e, {}), EventSources(e.seqNo));
  }

  /**
   * In every run, an event that does not wait for an end frame is sent whole
   * from itself, once, with its own text, whatever follows.
   */
  lemma {:induction false} OthersComeWhole(before: seq<Input>, i: Input, after: seq<Input>)
    requires AtOnce(Run(Fresh, before), i)
    ensures var e, sent := i.event, Run(Step(Run(Fresh, before), i), after).sent;
            && Seen(sent, EventSources(e.seqNo)) == (if e.kind.Unrelated? then [] else Remaining(Content(e), {}, |Content(e)|))
            && forall u :: u in sent && u.source in EventSources(e.seqNo) ==> Speaks(u, e)
  {
    FreshInv();
    RunKeeps(Fresh, before);
    var o, e := Run(Fresh, before), i.event;
    assert Step(o, i) == Emit(o, e, true);
    hide Run, Inv, Seen, Remaining, Step, Content, Speaks, Over, AddsNone, AtOnce, EventSources;
    EmitsWhole(o, e);
    EmittedOver(o, e);
    RunOver(Step(o, i), after, e.seqNo);
    SameSeen(Step(o, i).sent, Run(Step(o, i), after).sent, EventSources(e.seqNo));
  }

  /** What was admitted before, comes to a closed output, or is replayed only for its meters, is not sent. */
  lemma {:induction false} IgnoredIsSilent(o: Output, i: Input)
    requires i.AnEvent? || i.AReplay?
    requires !o.open || i.event.seqNo <= o.lastSeq || (i.AReplay? && !i.send)
    ensures Step(o, i).sent == o.sent
  {
    assert o.sent + [] == o.sent;
  }
}
