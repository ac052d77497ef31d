/**
 * Exactly-once delivery between an attempt's live token stream and the durable
 * event that settles it.
 */
module AssistantStream {
  import opened Options

  datatype Chunk = TextDelta(text: string) | ReasoningDelta(text: string) | OtherChunk

  /** `assistantChunkToUpdates` yields an update for these chunks and for no other. */
  predicate Displayable(chunk: Chunk) {
    !chunk.OtherChunk? && chunk.text != ""
  }

  datatype Kind = Message | Attempt | Unrelated

  /** A session event; `assembled` is the content of a message without an embedded stream. */
  datatype Event = Event(seqNo: nat, kind: Kind, turn: int, step: int, stream: seq<Chunk>, assembled: seq<Chunk>)

  datatype Commit = Commit(seqNo: nat, kind: Kind)

  datatype Frame =
    | Start(attempt: string, revision: int, turn: int, step: int)
    | Delta(attempt: string, revision: int, index: nat, chunk: Chunk)
    | End(attempt: string, revision: int, committed: Option<Commit>)

  /** Where an update came from: the n-th accepted stream, or a durable event. */
  datatype Source = Live(stream: nat) | Durable(seqNo: nat) | Assembled(seqNo: nat)

  datatype Update = Update(source: Source, index: nat, chunk: Chunk)

  /** `streamState`. `received` records what each delivered index carried, `shown` what reached the client, in order. */
  datatype Stream = Stream(number: nat, attempt: string, revision: int, turn: int, step: int,
                           delivered: set<nat>, closed: bool, pending: seq<Event>,
                           received: map<nat, Chunk>, shown: seq<nat>)

  datatype Output = Output(open: bool, lastSeq: int, streams: nat, stream: Option<Stream>, sent: seq<Update>)

  const Fresh := Output(true, -1, 0, None, [])

  // ----- Settlement -----

  /** The displayable positions among the first `n` of `chunks` outside `delivered`, ascending. */
  function Remaining(chunks: seq<Chunk>, delivered: set<nat>, n: nat): seq<nat>
    requires n <= |chunks|
  {
    if n == 0 then []
    else Remaining(chunks, delivered, n - 1) + (if Displayable(chunks[n - 1]) && n - 1 !in delivered then [n - 1] else [])
  }

  function UpdatesAt(chunks: seq<Chunk>, source: Source, delivered: set<nat>, n: nat): seq<Update>
    requires n <= |chunks|
  {
    if n == 0 then []
    else
      UpdatesAt(chunks, source, delivered, n - 1)
      + (if Displayable(chunks[n - 1]) && n - 1 !in delivered then [Update(source, n - 1, chunks[n - 1])] else [])
  }

  /** The assistant part of `sessionEventToUpdates`. */
  function EventUpdates(event: Event, delivered: set<nat>): seq<Update> {
    if event.kind.Unrelated? then []
    else if event.stream != [] then UpdatesAt(event.stream, Durable(event.seqNo), delivered, |event.stream|)
    else if event.kind.Attempt? then []
    else UpdatesAt(event.assembled, Assembled(event.seqNo), {}, |event.assembled|)
  }

  /** What a settlement shows: its embedded stream, else a message's assembled content. */
  function Content(e: Event): seq<Chunk> {
    if e.stream != [] then e.stream else if e.kind.Message? then e.assembled else []
  }

  predicate Names(committed: Option<Commit>, event: Event) {
    committed.Some? && committed.value.seqNo == event.seqNo && committed.value.kind == event.kind
  }

  /** Only the committed event leaves out what its attempt delivered. */
  function Borrowed(committed: Option<Commit>, e: Event, delivered: set<nat>): set<nat> {
    if Names(committed, e) then delivered else {}
  }

  /** Content assembled from the message leaves nothing out. */
  function LeftOut(committed: Option<Commit>, e: Event, delivered: set<nat>): set<nat> {
    if e.stream == [] then {} else Borrowed(committed, e, delivered)
  }

  function PendingUpdates(pending: seq<Event>, committed: Option<Commit>, delivered: set<nat>): seq<Update> {
    if pending == [] then []
    else
      var rest := |pending| - 1;
      PendingUpdates(pending[..rest], committed, delivered)
      + EventUpdates(pending[rest], Borrowed(committed, pending[rest], delivered))
  }

  // ----- Steps -----

  /** `drainAssistantEvents`. */
  function Drain(o: Output, committed: Option<Commit>): Output {
    if o.stream.None? then o
    else
      var s := o.stream.value;
      o.(stream := Some(s.(pending := [])), sent := o.sent + PendingUpdates(s.pending, committed, s.delivered))
  }

  /** `assistant`. */
  function OnFrame(o: Output, f: Frame): Output {
    if !o.open then o
    else
      match f
      case Start(attempt, revision, turn, step) =>
        if o.stream.Some? && (revision <= o.stream.value.revision || attempt == o.stream.value.attempt) then o
        else Drain(o, None).(streams := o.streams + 1,
                             stream := Some(Stream(o.streams, attempt, revision, turn, step, {}, false, [], map[], [])))
      case End(attempt, revision, committed) =>
        if !Accepts(o, attempt, revision) then o
        else
          var t := Drain(o.(stream := Some(o.stream.value.(revision := revision, closed := true))), committed);
          t.(stream := Some(t.stream.value.(delivered := {})))
      case Delta(attempt, revision, index, chunk) =>
        if !Accepts(o, attempt, revision) then o
        else
          var s := o.stream.value.(revision := revision);
          if index in s.delivered then o.(stream := Some(s))
          else
            var t := s.(delivered := s.delivered + {index}, received := s.received[index := chunk]);
            if Displayable(chunk)
            then o.(stream := Some(t.(shown := s.shown + [index])), sent := o.sent + [Update(Live(s.number), index, chunk)])
            else o.(stream := Some(t))
  }

  predicate Accepts(o: Output, attempt: string, revision: int) {
    o.stream.Some? && !o.stream.value.closed && revision > o.stream.value.revision && o.stream.value.attempt == attempt
  }

  function Emit(o: Output, e: Event, send: bool): Output {
    o.(lastSeq := e.seqNo, sent := o.sent + if send then EventUpdates(e, {}) else [])
  }

  /** An assistant settlement of the open stream's step waits for its end frame. */
  predicate Awaits(o: Output, e: Event) {
    && !e.kind.Unrelated? && o.stream.Some? && !o.stream.value.closed
    && o.stream.value.turn == e.turn && o.stream.value.step == e.step
  }

  /** `live`, for what the assistant stream sees of it. */
  function OnEvent(o: Output, e: Event): Output {
    if !o.open || e.seqNo <= o.lastSeq then o
    else
      if Awaits(o, e)
      then o.(lastSeq := e.seqNo, stream := Some(o.stream.value.(pending := o.stream.value.pending + [e])))
      else Emit(o, e, true)
  }

  /** One event of `restore`: a replayed event never waits for an end frame. */
  function OnReplay(o: Output, e: Event, send: bool): Output {
    if !o.open || e.seqNo <= o.lastSeq then o else Emit(o, e, send)
  }

  function OnClose(o: Output): Output {
    o.(open := false, stream := if o.stream.Some? then Some(o.stream.value.(pending := [])) else None)
  }

  datatype Input = AFrame(frame: Frame) | AnEvent(event: Event) | AReplay(event: Event, send: bool) | AClose

  function Step(o: Output, i: Input): Output {
    match i
    case AFrame(f) => OnFrame(o, f)
    case AnEvent(e) => OnEvent(o, e)
    case AReplay(e, send) => OnReplay(o, e, send)
    case AClose => OnClose(o)
  }

  function Run(o: Output, inputs: seq<Input>): Output
    decreases |inputs|
  {
    if inputs == [] then o else Run(Step(o, inputs[0]), inputs[1..])
  }

  // ----- What the client saw -----

  /** The positions the client was sent from any of the sources, in order. */
  ghost function Seen(sent: seq<Update>, sources: set<Source>): seq<nat> {
    if sent == [] then []
    else
      var last := sent[|sent| - 1];
      Seen(sent[..|sent| - 1], sources) + (if last.source in sources then [last.index] else [])
  }

  /** Where the client can have an attempt's content from: stream `n` or event `q`. */
  function Sources(n: nat, q: nat): set<Source> {
    {Live(n), Durable(q), Assembled(q)}
  }

  lemma {:induction false} SeenJoin(a: seq<Update>, b: seq<Update>, sources: set<Source>)
    ensures Seen(a + b, sources) == Seen(a, sources) + Seen(b, sources)
  {
    if b == [] {
      assert a + b == a;
    } else {
      var rest := b[..|b| - 1];
      assert (a + b)[..|a + b| - 1] == a + rest;
      SeenJoin(a, rest, sources);
    }
  }

  lemma SeenOne(u: Update, sources: set<Source>)
    ensures Seen([u], sources) == if u.source in sources then [u.index] else []
  {
    assert [u][..0] == [];
  }

  lemma {:induction false} SeenOthers(updates: seq<Update>, sources: set<Source>)
    requires forall u :: u in updates ==> u.source !in sources
    ensures Seen(updates, sources) == []
  {
    if updates != [] { SeenOthers(updates[..|updates| - 1], sources); }
  }

  /** Sources the updates do not come from may be added or dropped. */
  lemma {:induction false} SeenSame(updates: seq<Update>, a: set<Source>, b: set<Source>)
    requires forall u :: u in updates ==> (u.source in a <==> u.source in b)
    ensures Seen(updates, a) == Seen(updates, b)
  {
    if updates != [] { SeenSame(updates[..|updates| - 1], a, b); }
  }

  lemma {:induction false} SeenAt(chunks: seq<Chunk>, source: Source, delivered: set<nat>, n: nat, sources: set<Source>)
    requires n <= |chunks| && source in sources
    ensures Seen(UpdatesAt(chunks, source, delivered, n), sources) == Remaining(chunks, delivered, n)
  {
    if n > 0 {
      SeenAt(chunks, source, delivered, n - 1, sources);
      var before := UpdatesAt(chunks, source, delivered, n - 1);
      if Displayable(chunks[n - 1]) && n - 1 !in delivered {
        var u := Update(source, n - 1, chunks[n - 1]);
        SeenJoin(before, [u], sources);
        SeenOne(u, sources);
      } else {
        assert before + [] == before;
      }
    }
  }

  lemma {:induction false} SourceAt(chunks: seq<Chunk>, source: Source, delivered: set<nat>, n: nat)
    requires n <= |chunks|
    ensures forall u :: u in UpdatesAt(chunks, source, delivered, n) ==> u.source == source
  {
    if n > 0 { SourceAt(chunks, source, delivered, n - 1); }
  }

  lemma EventSource(e: Event, delivered: set<nat>)
    ensures forall u :: u in EventUpdates(e, delivered) ==> u.source == Durable(e.seqNo) || u.source == Assembled(e.seqNo)
  {
    SourceAt(e.stream, Durable(e.seqNo), delivered, |e.stream|);
    SourceAt(e.assembled, Assembled(e.seqNo), {}, |e.assembled|);
  }

  /** An event emits the positions of its content that were not left out. */
  lemma SeenEvent(e: Event, delivered: set<nat>, n: nat)
    requires !e.kind.Unrelated?
    ensures Seen(EventUpdates(e, delivered), Sources(n, e.seqNo))
            == Remaining(Content(e), if e.stream == [] then {} else delivered, |Content(e)|)
  {
    if e.stream != [] {
      SeenAt(e.stream, Durable(e.seqNo), delivered, |e.stream|, Sources(n, e.seqNo));
    } else if e.kind.Message? {
      SeenAt(e.assembled, Assembled(e.seqNo), {}, |e.assembled|, Sources(n, e.seqNo));
    }
  }

  lemma {:induction false} PendingSource(pending: seq<Event>, committed: Option<Commit>, delivered: set<nat>)
    ensures forall u :: u in PendingUpdates(pending, committed, delivered) ==>
              exists e :: e in pending && (u.source == Durable(e.seqNo) || u.source == Assembled(e.seqNo))
  {
    if pending != [] {
      var rest, last := pending[..|pending| - 1], pending[|pending| - 1];
      PendingSource(rest, committed, delivered);
      EventSource(last, Borrowed(committed, last, delivered));
      assert last in pending;
      assert forall e :: e in rest ==> e in pending;
    }
  }

  // ----- Permutations of positions -----

  ghost predicate NoRepeats(s: seq<nat>) {
    forall i, j :: 0 <= i < j < |s| ==> s[i] != s[j]
  }

  lemma {:induction false} Times(s: seq<nat>, x: nat)
    requires NoRepeats(s)
    ensures multiset(s)[x] == if x in s then 1 else 0
  {
    if s != [] {
      var rest := s[..|s| - 1];
      assert s == rest + [s[|s| - 1]];
      Times(rest, x);
    }
  }

  predicate Due(chunks: seq<Chunk>, delivered: set<nat>, i: nat)
    requires i < |chunks|
  {
    Displayable(chunks[i]) && i !in delivered
  }

  lemma RemainingNext(chunks: seq<Chunk>, delivered: set<nat>, n: nat)
    requires 0 < n <= |chunks|
    ensures Remaining(chunks, delivered, n)
            == if Due(chunks, delivered, n - 1) then Remaining(chunks, delivered, n - 1) + [n - 1] else Remaining(chunks, delivered, n - 1)
  {
    assert Remaining(chunks, delivered, n - 1) + [] == Remaining(chunks, delivered, n - 1);
  }

  lemma {:induction false} RemainingHas(chunks: seq<Chunk>, delivered: set<nat>, n: nat)
    requires n <= |chunks|
    ensures NoRepeats(Remaining(chunks, delivered, n))
    ensures forall x: nat :: x in Remaining(chunks, delivered, n) <==> x < n && Due(chunks, delivered, x)
    decreases n
  {
    if n > 0 {
      RemainingNext(chunks, delivered, n);
      RemainingHas(chunks, delivered, n - 1);
      hide Due, Remaining;
    }
  }

  ghost predicate Conforms(received: map<nat, Chunk>, chunks: seq<Chunk>) {
    forall i :: i in received ==> i < |chunks| && chunks[i] == received[i]
  }

  /** `shown` is what the delivered chunks displayed. */
  ghost predicate Displayed(shown: seq<nat>, received: map<nat, Chunk>) {
    NoRepeats(shown) && forall i: nat :: i in shown <==> i in received && Displayable(received[i])
  }

  /** Live and settled positions together are all displayable positions, once each. */
  lemma Together(shown: seq<nat>, received: map<nat, Chunk>, chunks: seq<Chunk>)
    requires Conforms(received, chunks) && Displayed(shown, received)
    ensures multiset(shown + Remaining(chunks, received.Keys, |chunks|)) == multiset(Remaining(chunks, {}, |chunks|))
  {
    var left, all := multiset(shown + Remaining(chunks, received.Keys, |chunks|)), multiset(Remaining(chunks, {}, |chunks|));
    RemainingHas(chunks, received.Keys, |chunks|);
    RemainingHas(chunks, {}, |chunks|);
    hide Remaining, NoRepeats;
    forall x: nat
      ensures left[x] == all[x]
    {
      Times(shown, x);
      Times(Remaining(chunks, received.Keys, |chunks|), x);
      Times(Remaining(chunks, {}, |chunks|), x);
    }
  }

  function Outside(s: seq<nat>, delivered: set<nat>): seq<nat> {
    if s == [] then []
    else Outside(s[..|s| - 1], delivered) + (if s[|s| - 1] in delivered then [] else [s[|s| - 1]])
  }

  lemma {:induction false} RemainingOutside(chunks: seq<Chunk>, delivered: set<nat>, n: nat)
    requires n <= |chunks|
    ensures Remaining(chunks, delivered, n) == Outside(Remaining(chunks, {}, n), delivered)
  {
    if n > 0 {
      RemainingOutside(chunks, delivered, n - 1);
      var before := Remaining(chunks, {}, n - 1);
      if Displayable(chunks[n - 1]) {
        assert (before + [n - 1])[..|before|] == before;
      } else {
        assert before + [] == before;
      }
    }
  }

  lemma {:induction false} OutsideJoin(a: seq<nat>, b: seq<nat>, delivered: set<nat>)
    requires (forall i :: 0 <= i < |a| ==> a[i] in delivered) && (forall i :: 0 <= i < |b| ==> b[i] !in delivered)
    ensures Outside(a + b, delivered) == b
  {
    if b != [] {
      var rest := b[..|b| - 1];
      assert (a + b)[..|a + b| - 1] == a + rest;
      OutsideJoin(a, rest, delivered);
    } else if a != [] {
      assert a + b == a && a[..|a| - 1] + [] == a[..|a| - 1];
      OutsideJoin(a[..|a| - 1], [], delivered);
    }
  }

  /** They come in log order exactly when what was shown live is a prefix of the displayable positions. */
  lemma {:induction false} InLogOrder(shown: seq<nat>, received: map<nat, Chunk>, chunks: seq<Chunk>)
    requires Conforms(received, chunks) && Displayed(shown, received)
    ensures var all := Remaining(chunks, {}, |chunks|);
            shown + Remaining(chunks, received.Keys, |chunks|) == all <==> shown <= all
  {
    var all := Remaining(chunks, {}, |chunks|);
    RemainingOutside(chunks, received.Keys, |chunks|);
    AllShowable(chunks);
    hide Remaining, Displayed, Displayable, Conforms, NoRepeats;
    if shown <= all {
      var rest := all[|shown|..];
      assert all == shown + rest;
      assert forall i :: 0 <= i < |rest| ==> rest[i] == all[|shown| + i];
      RestUndelivered(shown, rest, received, chunks);
      OutsideJoin(shown, rest, received.Keys);
    }
  }

  lemma AllShowable(chunks: seq<Chunk>)
    ensures var all := Remaining(chunks, {}, |chunks|);
            NoRepeats(all) && forall i :: 0 <= i < |all| ==> all[i] < |chunks| && Displayable(chunks[all[i]])
  {
    RemainingHas(chunks, {}, |chunks|);
    var all := Remaining(chunks, {}, |chunks|);
    hide Remaining, NoRepeats, Displayable;
    forall i | 0 <= i < |all|
      ensures all[i] < |chunks| && Displayable(chunks[all[i]])
    {
      assert all[i] in all;
    }
  }

  lemma RestUndelivered(shown: seq<nat>, rest: seq<nat>, received: map<nat, Chunk>, chunks: seq<Chunk>)
    requires Conforms(received, chunks) && Displayed(shown, received) && NoRepeats(shown + rest)
    requires forall i :: 0 <= i < |rest| ==> rest[i] < |chunks| && Displayable(chunks[rest[i]])
    ensures (forall i :: 0 <= i < |shown| ==> shown[i] in received.Keys) && (forall i :: 0 <= i < |rest| ==> rest[i] !in received.Keys)
  {
    assert forall i :: 0 <= i < |shown| ==> shown[i] in shown;
    forall i | 0 <= i < |rest|
      ensures rest[i] !in received.Keys
    {
      assert (shown + rest)[|shown| + i] == rest[i];
      assert forall j :: 0 <= j < |shown| ==> (shown + rest)[j] == shown[j];
      assert rest[i] !in shown;
    }
  }

  // ----- Every run -----

  ghost predicate PendingFits(pending: seq<Event>, sent: seq<Update>, lastSeq: int) {
    && (forall i :: 0 <= i < |pending| ==> !pending[i].kind.Unrelated? && pending[i].seqNo <= lastSeq)
    && (forall i, j :: 0 <= i < j < |pending| ==> pending[i].seqNo < pending[j].seqNo)
    && (forall u, i :: u in sent && 0 <= i < |pending| ==> u.source !in {Durable(pending[i].seqNo), Assembled(pending[i].seqNo)})
  }

  ghost predicate StreamFits(s: Stream, o: Output) {
    && s.number < o.streams && s.shown == Seen(o.sent, {Live(s.number)}) && Displayed(s.shown, s.received)
    && (!s.closed ==> s.delivered == s.received.Keys) && (s.closed || !o.open ==> s.pending == [])
    && PendingFits(s.pending, o.sent, o.lastSeq)
  }

  ghost predicate SourceFits(source: Source, streams: nat, lastSeq: int) {
    match source
    case Live(n) => n < streams
    case Durable(q) => q <= lastSeq
    case Assembled(q) => q <= lastSeq
  }

  ghost predicate Inv(o: Output) {
    && (o.stream.Some? ==> StreamFits(o.stream.value, o))
    && (forall u :: u in o.sent ==> SourceFits(u.source, o.streams, o.lastSeq))
  }

  /** Settled events go to the client without touching what was shown live. */
  lemma SettledSeen(o: Output, committed: Option<Commit>)
    requires Inv(o) && o.stream.Some?
    ensures var s := o.stream.value;
            var updates := PendingUpdates(s.pending, committed, s.delivered);
            && Seen(o.sent + updates, {Live(s.number)}) == s.shown
            && forall u :: u in updates ==> SourceFits(u.source, o.streams, o.lastSeq)
  {
    var s := o.stream.value;
    var updates := PendingUpdates(s.pending, committed, s.delivered);
    PendingSource(s.pending, committed, s.delivered);
    hide PendingUpdates, Displayed;
    SeenJoin(o.sent, updates, {Live(s.number)});
    SeenOthers(updates, {Live(s.number)});
    hide Seen;
    assert s.shown + [] == s.shown;
  }

  /** Everything a pending event emits is new to the client. */
  lemma DrainKeeps(o: Output, committed: Option<Commit>)
    requires Inv(o) && o.open
    ensures Inv(Drain(o, committed))
  {
    if o.stream.Some? {
      SettledSeen(o, committed);
      hide Seen, PendingUpdates, Displayed, SourceFits;
    }
  }

  lemma StartKeeps(o: Output, f: Frame)
    requires Inv(o) && o.open && f.Start?
    ensures Inv(OnFrame(o, f))
  {
    if o.stream.Some? && (f.revision <= o.stream.value.revision || o.stream.value.attempt == f.attempt) { return; }
    DrainKeeps(o, None);
    var t := Drain(o, None);
    hide Drain;
    var s := Stream(o.streams, f.attempt, f.revision, f.turn, f.step, {}, false, [], map[], []);
    assert t.streams == o.streams && t.open by { DrainLeaves(o, None); }
    OpensKeeps(t, s);
  }

  lemma DrainLeaves(o: Output, committed: Option<Commit>)
    ensures Drain(o, committed).streams == o.streams && Drain(o, committed).open == o.open
  {
    hide PendingUpdates;
  }

  /** A new stream of a number never used starts with nothing shown. */
  lemma OpensKeeps(o: Output, s: Stream)
    requires Inv(o) && s.number == o.streams && s.delivered == {} && !s.closed && s.pending == [] && s.received == map[] && s.shown == []
    ensures Inv(o.(streams := o.streams + 1, stream := Some(s)))
  {
    NotYet(o, s.number);
    hide Seen;
  }

  lemma NotYet(o: Output, n: nat)
    requires Inv(o) && n == o.streams
    ensures Seen(o.sent, {Live(n)}) == []
  {
    SeenOthers(o.sent, {Live(n)});
  }

  lemma EndKeeps(o: Output, f: Frame)
    requires Inv(o) && o.open && f.End?
    ensures Inv(OnFrame(o, f))
  {
    if Accepts(o, f.attempt, f.revision) { EndedKeeps(o, f); }
  }

  lemma EndedKeeps(o: Output, f: Frame)
    requires Inv(o) && o.open && f.End? && Accepts(o, f.attempt, f.revision)
    ensures Inv(OnFrame(o, f))
  {
    SettledSeen(o, f.committed);
    hide Seen, PendingUpdates, Displayed, SourceFits;
  }

  /** A chunk the client already has. */
  lemma RepeatKeeps(o: Output, f: Frame)
    requires Inv(o) && o.open && f.Delta? && Accepts(o, f.attempt, f.revision) && f.index in o.stream.value.delivered
    ensures Inv(OnFrame(o, f))
  {
    hide Seen, Displayed, PendingFits, SourceFits, Displayable;
  }

  /** A chunk that displays nothing. */
  lemma SilentKeeps(o: Output, f: Frame)
    requires Inv(o) && o.open && f.Delta? && Accepts(o, f.attempt, f.revision) && f.index !in o.stream.value.delivered
    requires !Displayable(f.chunk)
    ensures Inv(OnFrame(o, f))
  {
    var s := o.stream.value;
    hide Seen, Displayed, PendingFits, SourceFits, Displayable;
    ShownGrows(s.shown, s.received, f.index, f.chunk);
  }

  /** A chunk the client is sent. */
  lemma ShownKeeps(o: Output, f: Frame)
    requires Inv(o) && o.open && f.Delta? && Accepts(o, f.attempt, f.revision) && f.index !in o.stream.value.delivered
    requires Displayable(f.chunk)
    ensures Inv(OnFrame(o, f))
  {
    var s := o.stream.value;
    var u := Update(Live(s.number), f.index, f.chunk);
    SeenOne(u, {Live(s.number)});
    hide Seen, Displayed, Displayable;
    SeenJoin(o.sent, [u], {Live(s.number)});
    ShownGrows(s.shown, s.received, f.index, f.chunk);
    PendingMore(s.pending, o.sent, o.lastSeq, u);
    hide PendingFits, SourceFits;
    assert SourceFits(u.source, o.streams, o.lastSeq) by { LiveFits(s.number, o.streams, o.lastSeq); }
  }

  lemma LiveFits(n: nat, streams: nat, lastSeq: int)
    requires n < streams
    ensures SourceFits(Live(n), streams, lastSeq)
  {
  }

  lemma PendingMore(pending: seq<Event>, sent: seq<Update>, lastSeq: int, u: Update)
    requires PendingFits(pending, sent, lastSeq) && u.source.Live?
    ensures PendingFits(pending, sent + [u], lastSeq)
  {
  }

  lemma DeltaKeeps(o: Output, f: Frame)
    requires Inv(o) && o.open && f.Delta? && Accepts(o, f.attempt, f.revision)
    ensures Inv(OnFrame(o, f))
  {
    hide Inv, OnFrame, Displayable;
    if f.index in o.stream.value.delivered { RepeatKeeps(o, f); }
    else if Displayable(f.chunk) { ShownKeeps(o, f); }
    else { SilentKeeps(o, f); }
  }

  lemma ShownGrows(shown: seq<nat>, received: map<nat, Chunk>, index: nat, chunk: Chunk)
    requires Displayed(shown, received) && index !in received
    ensures Displayed(if Displayable(chunk) then shown + [index] else shown, received[index := chunk])
  {
  }

  lemma EmitSeen(o: Output, e: Event, send: bool, n: nat)
    ensures Seen(Emit(o, e, send).sent, {Live(n)}) == Seen(o.sent, {Live(n)})
  {
    EventSource(e, {});
    hide EventUpdates;
    var updates := if send then EventUpdates(e, {}) else [];
    SeenJoin(o.sent, updates, {Live(n)});
    SeenOthers(updates, {Live(n)});
    hide Seen;
    assert Seen(o.sent, {Live(n)}) + [] == Seen(o.sent, {Live(n)});
  }

  lemma EmitPending(o: Output, e: Event, send: bool, pending: seq<Event>)
    requires PendingFits(pending, o.sent, o.lastSeq) && e.seqNo > o.lastSeq
    ensures PendingFits(pending, Emit(o, e, send).sent, e.seqNo)
  {
    EventSource(e, {});
    hide EventUpdates;
  }

  lemma EmitSources(o: Output, e: Event, send: bool)
    requires (forall u :: u in o.sent ==> SourceFits(u.source, o.streams, o.lastSeq)) && e.seqNo > o.lastSeq
    ensures forall u :: u in Emit(o, e, send).sent ==> SourceFits(u.source, o.streams, e.seqNo)
  {
    EventSource(e, {});
    hide EventUpdates;
  }

  lemma EmitKeeps(o: Output, e: Event, send: bool)
    requires Inv(o) && e.seqNo > o.lastSeq
    ensures Inv(Emit(o, e, send))
  {
    EmitSources(o, e, send);
    if o.stream.Some? {
      EmitSeen(o, e, send, o.stream.value.number);
      EmitPending(o, e, send, o.stream.value.pending);
    }
    hide Seen, EventUpdates, Displayed, PendingFits, SourceFits;
  }

  lemma AwaitKeeps(o: Output, e: Event)
    requires Inv(o) && o.open && e.seqNo > o.lastSeq && Awaits(o, e)
    ensures Inv(OnEvent(o, e))
  {
    hide Seen, EventUpdates, Displayed;
  }

  lemma EventKeeps(o: Output, e: Event)
    requires Inv(o)
    ensures Inv(OnEvent(o, e))
  {
    hide Inv;
    if o.open && e.seqNo > o.lastSeq {
      if Awaits(o, e) { AwaitKeeps(o, e); } else { EmitKeeps(o, e, true); }
    }
  }

  lemma {:induction false} StepKeeps(o: Output, i: Input)
    requires Inv(o)
    ensures Inv(Step(o, i))
  {
    hide Inv, OnEvent;
    match i
    case AFrame(f) =>
      if o.open {
        if f.Start? { StartKeeps(o, f); } else if f.End? { EndKeeps(o, f); }
        else if Accepts(o, f.attempt, f.revision) { DeltaKeeps(o, f); }
      }
    case AnEvent(e) => EventKeeps(o, e);
    case AReplay(e, send) => if o.open && e.seqNo > o.lastSeq { EmitKeeps(o, e, send); }
    case AClose => CloseKeeps(o);
  }

  lemma CloseKeeps(o: Output)
    requires Inv(o)
    ensures Inv(OnClose(o))
  {
  }

  lemma {:induction false} RunKeeps(o: Output, inputs: seq<Input>)
    requires Inv(o)
    ensures Inv(Run(o, inputs))
    decreases |inputs|
  {
    hide Inv, Step;
    if inputs != [] {
      StepKeeps(o, inputs[0]);
      RunKeeps(Step(o, inputs[0]), inputs[1..]);
    }
  }

  lemma FreshInv()
    ensures Inv(Fresh)
  {
  }

  // ----- What an end frame settles -----

  ghost predicate Increasing(pending: seq<Event>) {
    forall i, j :: 0 <= i < j < |pending| ==> pending[i].seqNo < pending[j].seqNo
  }

  lemma OthersSilent(pending: seq<Event>, committed: Option<Commit>, delivered: set<nat>, n: nat, q: nat)
    requires forall p :: p in pending ==> p.seqNo != q
    ensures Seen(PendingUpdates(pending, committed, delivered), Sources(n, q)) == []
    ensures forall u :: u in PendingUpdates(pending, committed, delivered) ==> u.source !in Sources(n, q)
  {
    PendingSource(pending, committed, delivered);
    hide PendingUpdates;
    SeenOthers(PendingUpdates(pending, committed, delivered), Sources(n, q));
  }

  /** Among the settled events, `e` alone speaks for its sequence number. */
  lemma {:induction false} PendingSeen(pending: seq<Event>, committed: Option<Commit>, delivered: set<nat>, k: nat, n: nat)
    requires k < |pending| && Increasing(pending) && !pending[k].kind.Unrelated?
    ensures Seen(PendingUpdates(pending, committed, delivered), Sources(n, pending[k].seqNo))
            == Remaining(Content(pending[k]), LeftOut(committed, pending[k], delivered), |Content(pending[k])|)
    decreases |pending|
  {
    var e := pending[k];
    var rest, last := pending[..|pending| - 1], pending[|pending| - 1];
    var sources := Sources(n, e.seqNo);
    var updates := EventUpdates(last, Borrowed(committed, last, delivered));
    SeenJoin(PendingUpdates(rest, committed, delivered), updates, sources);
    if k == |rest| {
      OthersSilent(rest, committed, delivered, n, e.seqNo);
      SeenEvent(e, Borrowed(committed, e, delivered), n);
      hide Seen, Remaining, Borrowed, EventUpdates, Content;
    } else {
      assert rest[k] == e;
      hide Seen, Remaining, Borrowed, EventUpdates, Content;
      PendingSeen(rest, committed, delivered, k, n);
      LastSilent(last, Borrowed(committed, last, delivered), n, e.seqNo);
    }
  }

  lemma LastSilent(e: Event, delivered: set<nat>, n: nat, q: nat)
    requires e.seqNo != q
    ensures forall s: seq<nat> :: s + Seen(EventUpdates(e, delivered), Sources(n, q)) == s
  {
    EventSource(e, delivered);
    hide EventUpdates;
    SeenOthers(EventUpdates(e, delivered), Sources(n, q));
  }

  /** Settling the pending events adds to what was shown live exactly what event `k` still owes. */
  lemma DrainCompletes(o: Output, committed: Option<Commit>, k: nat)
    requires Inv(o) && o.stream.Some? && k < |o.stream.value.pending|
    ensures var s, e := o.stream.value, o.stream.value.pending[k];
            Seen(o.sent + PendingUpdates(s.pending, committed, s.delivered), Sources(s.number, e.seqNo))
            == s.shown + Remaining(Content(e), LeftOut(committed, e, s.delivered), |Content(e)|)
  {
    var s, e := o.stream.value, o.stream.value.pending[k];
    var sources := Sources(s.number, e.seqNo);
    assert PendingFits(s.pending, o.sent, o.lastSeq);
    var updates := PendingUpdates(s.pending, committed, s.delivered);
    SeenJoin(o.sent, updates, sources);
    PendingSeen(s.pending, committed, s.delivered, k, s.number);
    hide Remaining, PendingUpdates, Seen;
    SeenSame(o.sent, sources, {Live(s.number)});
  }

  /**
   * The end frame completes what was shown live with the rest of the committed
   * event; a pending event it does not name borrows nothing and comes whole.
   */
  lemma EndCompletes(o: Output, f: Frame, k: nat)
    requires Inv(o) && o.open && f.End? && Accepts(o, f.attempt, f.revision)
    requires k < |o.stream.value.pending|
    ensures var s, e := o.stream.value, o.stream.value.pending[k];
            Seen(OnFrame(o, f).sent, Sources(s.number, e.seqNo))
            == s.shown + Remaining(Content(e), LeftOut(f.committed, e, s.received.Keys), |Content(e)|)
  {
    assert o.stream.value.delivered == o.stream.value.received.Keys;
    DrainCompletes(o, f.committed, k);
  }

  /** A newer attempt takes the place of the open one. */
  predicate Supersedes(o: Output, f: Frame) {
    && o.open && f.Start? && o.stream.Some?
    && f.revision > o.stream.value.revision && f.attempt != o.stream.value.attempt
  }

  /** A new attempt settles what the one it supersedes left pending: every such event comes whole. */
  lemma StartCompletes(o: Output, f: Frame, k: nat)
    requires Inv(o) && Supersedes(o, f) && k < |o.stream.value.pending|
    ensures var s, e := o.stream.value, o.stream.value.pending[k];
            Seen(OnFrame(o, f).sent, Sources(s.number, e.seqNo)) == s.shown + Remaining(Content(e), {}, |Content(e)|)
  {
    DrainCompletes(o, None, k);
  }

  /** Nothing further can come from stream `n` or from event `q`. */
  ghost predicate Done(o: Output, n: nat, q: nat) {
    && n < o.streams && q <= o.lastSeq
    && (o.stream.Some? ==>
          (o.stream.value.number == n ==> o.stream.value.closed) && forall p :: p in o.stream.value.pending ==> p.seqNo != q)
  }

  ghost predicate AddsNone(before: seq<Update>, after: seq<Update>, sources: set<Source>) {
    before <= after && forall k :: |before| <= k < |after| ==> after[k].source !in sources
  }

  lemma Appended(before: seq<Update>, extra: seq<Update>, sources: set<Source>)
    requires forall u :: u in extra ==> u.source !in sources
    ensures AddsNone(before, before + extra, sources)
  {
  }

  lemma DrainQuiet(o: Output, committed: Option<Commit>, n: nat, q: nat)
    requires Done(o, n, q)
    ensures AddsNone(o.sent, Drain(o, committed).sent, Sources(n, q))
  {
    if o.stream.None? { return; }
    var s := o.stream.value;
    OthersSilent(s.pending, committed, s.delivered, n, q);
    Appended(o.sent, PendingUpdates(s.pending, committed, s.delivered), Sources(n, q));
  }

  lemma FrameQuiet(o: Output, f: Frame, n: nat, q: nat)
    requires Done(o, n, q)
    ensures Done(OnFrame(o, f), n, q) && AddsNone(o.sent, OnFrame(o, f).sent, Sources(n, q))
  {
    match f
    case Start(attempt, revision, turn, step) => DrainQuiet(o, None, n, q);
    case End(attempt, revision, committed) =>
      if o.open && Accepts(o, attempt, revision) {
        DrainQuiet(o.(stream := Some(o.stream.value.(revision := revision, closed := true))), committed, n, q);
      }
    case Delta(attempt, revision, index, chunk) =>
  }

  lemma EmitQuiet(o: Output, e: Event, send: bool, n: nat, q: nat)
    requires Done(o, n, q) && e.seqNo > o.lastSeq
    ensures Done(Emit(o, e, send), n, q) && AddsNone(o.sent, Emit(o, e, send).sent, Sources(n, q))
  {
    EventSource(e, {});
    hide EventUpdates;
    Appended(o.sent, if send then EventUpdates(e, {}) else [], Sources(n, q));
  }

  lemma StepQuiet(o: Output, i: Input, n: nat, q: nat)
    requires Done(o, n, q)
    ensures Done(Step(o, i), n, q) && AddsNone(o.sent, Step(o, i).sent, Sources(n, q))
  {
    match i
    case AFrame(f) => hide Done, AddsNone, OnFrame; FrameQuiet(o, f, n, q);
    case AnEvent(e) => if o.open && e.seqNo > o.lastSeq && !Awaits(o, e) { EmitQuiet(o, e, true, n, q); }
    case AReplay(e, send) => if o.open && e.seqNo > o.lastSeq { EmitQuiet(o, e, send, n, q); }
    case AClose =>
  }

  lemma {:induction false} RunQuiet(o: Output, inputs: seq<Input>, n: nat, q: nat)
    requires Done(o, n, q)
    ensures AddsNone(o.sent, Run(o, inputs).sent, Sources(n, q))
    decreases |inputs|
  {
    hide Done, Step;
    if inputs == [] { return; }
    StepQuiet(o, inputs[0], n, q);
    RunQuiet(Step(o, inputs[0]), inputs[1..], n, q);
    NoneTwice(o.sent, Step(o, inputs[0]).sent, Run(o, inputs).sent, Sources(n, q));
  }

  lemma NoneTwice(a: seq<Update>, b: seq<Update>, c: seq<Update>, sources: set<Source>)
    requires AddsNone(a, b, sources) && AddsNone(b, c, sources)
    ensures AddsNone(a, c, sources)
  {
  }

  lemma SameSeen(before: seq<Update>, after: seq<Update>, sources: set<Source>)
    requires AddsNone(before, after, sources)
    ensures Seen(after, sources) == Seen(before, sources)
    ensures forall u :: u in after && u.source in sources ==> u in before
  {
    var extra := after[|before|..];
    assert after == before + extra;
    SeenJoin(before, extra, sources);
    hide Seen;
    SeenOthers(extra, sources);
  }

  lemma EndIsDone(o: Output, f: Frame, k: nat)
    requires Inv(o) && o.open && f.End? && Accepts(o, f.attempt, f.revision) && k < |o.stream.value.pending|
    ensures Done(OnFrame(o, f), o.stream.value.number, o.stream.value.pending[k].seqNo)
  {
    hide PendingUpdates, Seen;
  }

  /** Every update carries its event's chunk. */
  ghost predicate Carries(o: Output) {
    o.stream.Some? ==>
      var s := o.stream.value;
      forall u :: u in o.sent && u.source == Live(s.number) ==> u.index in s.received && s.received[u.index] == u.chunk
  }

  lemma {:induction false} CarriedAt(chunks: seq<Chunk>, source: Source, delivered: set<nat>, n: nat)
    requires n <= |chunks|
    ensures forall u :: u in UpdatesAt(chunks, source, delivered, n) ==> u.index < n && u.chunk == chunks[u.index]
  {
    if n > 0 { CarriedAt(chunks, source, delivered, n - 1); }
  }

  ghost predicate Speaks(u: Update, e: Event) {
    match u.source
    case Live(n) => false
    case Durable(q) => q == e.seqNo && u.index < |Content(e)| && u.chunk == Content(e)[u.index]
    case Assembled(q) => q == e.seqNo && u.index < |Content(e)| && u.chunk == Content(e)[u.index]
  }

  lemma EventSpeaks(e: Event, delivered: set<nat>)
    ensures forall u :: u in EventUpdates(e, delivered) ==> Speaks(u, e)
  {
    EventSource(e, delivered);
    CarriedAt(e.stream, Durable(e.seqNo), delivered, |e.stream|);
    SourceAt(e.stream, Durable(e.seqNo), delivered, |e.stream|);
    CarriedAt(e.assembled, Assembled(e.seqNo), {}, |e.assembled|);
    SourceAt(e.assembled, Assembled(e.seqNo), {}, |e.assembled|);
  }

  lemma {:induction false} PendingSpeaks(pending: seq<Event>, committed: Option<Commit>, delivered: set<nat>)
    ensures forall u :: u in PendingUpdates(pending, committed, delivered) ==> exists e :: e in pending && Speaks(u, e)
    decreases |pending|
  {
    if pending == [] { return; }
    var rest, last := pending[..|pending| - 1], pending[|pending| - 1];
    PendingSpeaks(rest, committed, delivered);
    EventSpeaks(last, Borrowed(committed, last, delivered));
    hide EventUpdates, Speaks;
    assert last in pending && forall e :: e in rest ==> e in pending;
  }

  /** Updates from elsewhere than the open stream leave what it carried alone. */
  lemma NothingLive(o: Output, extra: seq<Update>)
    requires Carries(o) && forall u :: u in extra ==> !u.source.Live?
    ensures Carries(o.(sent := o.sent + extra))
  {
  }

  lemma StartCarries(o: Output, f: Frame)
    requires Inv(o) && Carries(o) && o.open && f.Start?
    ensures Carries(OnFrame(o, f))
  {
    hide PendingUpdates, Seen;
    if o.stream.Some? { PendingSource(o.stream.value.pending, None, o.stream.value.delivered); }
  }

  lemma EndCarries(o: Output, f: Frame)
    requires Carries(o) && o.open && f.End? && Accepts(o, f.attempt, f.revision)
    ensures Carries(OnFrame(o, f))
  {
    hide PendingUpdates;
    PendingSource(o.stream.value.pending, f.committed, o.stream.value.delivered);
  }

  lemma DeltaCarries(o: Output, f: Frame)
    requires Inv(o) && Carries(o) && o.open && f.Delta? && Accepts(o, f.attempt, f.revision)
    ensures Carries(OnFrame(o, f))
  {
    hide Displayable, Displayed, Seen, PendingFits;
  }

  lemma StepCarries(o: Output, i: Input)
    requires Inv(o) && Carries(o)
    ensures Carries(Step(o, i))
  {
    hide Inv;
    match i
    case AFrame(f) =>
      hide Carries;
      if o.open {
        if f.Start? { StartCarries(o, f); }
        else if Accepts(o, f.attempt, f.revision) { if f.End? { EndCarries(o, f); } else { DeltaCarries(o, f); } }
      }
    case AnEvent(e) =>
      EventSource(e, {});
      hide EventUpdates;
      NothingLive(o, EventUpdates(e, {}));
    case AReplay(e, send) =>
      EventSource(e, {});
      hide EventUpdates;
      NothingLive(o, if send then EventUpdates(e, {}) else []);
    case AClose =>
  }

  lemma {:induction false} RunCarries(o: Output, inputs: seq<Input>)
    requires Inv(o) && Carries(o)
    ensures Inv(Run(o, inputs)) && Carries(Run(o, inputs))
    decreases |inputs|
  {
    hide Inv, Carries, Step;
    if inputs == [] { return; }
    StepKeeps(o, inputs[0]);
    StepCarries(o, inputs[0]);
    RunCarries(Step(o, inputs[0]), inputs[1..]);
  }

  /** Right after the end frame, everything sent for the committed event carries the chunk at its position. */
  lemma EndContent(o: Output, f: Frame, k: nat)
    requires Inv(o) && Carries(o) && o.open && f.End? && Accepts(o, f.attempt, f.revision)
    requires k < |o.stream.value.pending| && Conforms(o.stream.value.received, Content(o.stream.value.pending[k]))
    ensures var s, e := o.stream.value, o.stream.value.pending[k];
            forall u :: u in OnFrame(o, f).sent && u.source in Sources(s.number, e.seqNo) ==>
              u.index < |Content(e)| && u.chunk == Content(e)[u.index]
  {
    var s, e := o.stream.value, o.stream.value.pending[k];
    var updates := PendingUpdates(s.pending, f.committed, s.delivered);
    assert OnFrame(o, f).sent == o.sent + updates;
    assert PendingFits(s.pending, o.sent, o.lastSeq);
    hide OnFrame, Inv;
    PendingSpeaks(s.pending, f.committed, s.delivered);
    hide PendingUpdates;
  }

  /** Shown twice unless the embedded stream lets the event leave it out, or nothing was shown. */
  lemma WholeOnTop(shown: seq<nat>, all: seq<nat>)
    ensures multiset(shown + all) == multiset(all) <==> shown == []
    ensures shown + all == all <==> shown == []
  {
    assert |multiset(shown + all)| == |shown| + |all| && |multiset(all)| == |all|;
    assert [] + all == all;
  }

  /**
   * Whatever ran before and whatever follows, the client gets each displayable
   * chunk of the committed event once, live or settled, exactly when the event
   * embeds its stream or nothing was shown live; and in log order exactly when,
   * besides, what was shown live is a prefix of them.
   */
  lemma {:induction false} ExactlyOnce(before: seq<Input>, f: Frame, k: nat, after: seq<Input>)
    requires var o := Run(Fresh, before);
             && o.open && f.End? && Accepts(o, f.attempt, f.revision) && k < |o.stream.value.pending|
             && var e := o.stream.value.pending[k];
             Names(f.committed, e) && Conforms(o.stream.value.received, Content(e))
    ensures var o := Run(Fresh, before);
            var s, e := o.stream.value, o.stream.value.pending[k];
            var sent, sources := Run(OnFrame(o, f), after).sent, Sources(s.number, e.seqNo);
            var all := Remaining(Content(e), {}, |Content(e)|);
            && (multiset(Seen(sent, sources)) == multiset(all) <==> e.stream != [] || s.shown == [])
            && (Seen(sent, sources) == all <==> (e.stream != [] || s.shown == []) && s.shown <= all)
            && forall u :: u in sent && u.source in sources ==> u.index < |Content(e)| && u.chunk == Content(e)[u.index]
  {
    FreshInv();
    RunCarries(Fresh, before);
    var o := Run(Fresh, before);
    var s, e := o.stream.value, o.stream.value.pending[k];
    assert Displayed(s.shown, s.received);
    hide Run, Seen, Remaining, OnFrame, Displayed, Conforms, Carries, Done, AddsNone, Sources, Content;
    EndCompletes(o, f, k);
    EndContent(o, f, k);
    EndIsDone(o, f, k);
    hide Inv;
    RunQuiet(OnFrame(o, f), after, s.number, e.seqNo);
    SameSeen(OnFrame(o, f).sent, Run(OnFrame(o, f), after).sent, Sources(s.number, e.seqNo));
    Together(s.shown, s.received, Content(e));
    InLogOrder(s.shown, s.received, Content(e));
    WholeOnTop(s.shown, Remaining(Content(e), {}, |Content(e)|));
  }

  // The smallest runs that show a chunk twice: one chunk `x`, shown live.

  const StartFrame := AFrame(Start("a", 1, 0, 0))
  const DeltaFrame := AFrame(Delta("a", 2, 0, TextDelta("x")))
  const Shown := Update(Live(0), 0, TextDelta("x"))
  const Streaming := Stream(0, "a", 2, 0, 0, {0}, false, [], map[0 := TextDelta("x")], [0])

  lemma ShowsOne(i: Input)
    ensures Run(Fresh, [StartFrame, DeltaFrame, i]) == Step(Output(true, -1, 1, Some(Streaming), [Shown]), i)
  {
    var a, b, c := StartFrame, DeltaFrame, i;
    var t := Step(Fresh, a);
    assert t == Output(true, -1, 1, Some(Stream(0, "a", 1, 0, 0, {}, false, [], map[], [])), []);
    var s := t.stream.value;
    assert s.delivered + {0} == {0} && s.received[0 := TextDelta("x")] == map[0 := TextDelta("x")];
    assert s.shown + [0] == [0] && t.sent + [Shown] == [Shown];
    assert Step(t, b) == Output(true, -1, 1, Some(Streaming), [Shown]);
    assert [a, b, c][1..] == [b, c] && [b, c][1..] == [c] && [c][1..] == [];
    hide Step;
    var end := Step(Step(t, b), c);
    assert end == Run(end, []) == Run(Step(t, b), [c]) == Run(t, [b, c]);
  }

  /** `x` live, and `x` again from event 0. */
  lemma SeenTwice(again: Update)
    requires again.source in Sources(0, 0) && again.index == 0
    ensures Seen([Shown, again], Sources(0, 0)) == [0, 0]
  {
    assert [Shown, again] == [Shown] + [again];
    SeenJoin([Shown], [again], Sources(0, 0));
    SeenOne(Shown, Sources(0, 0));
    SeenOne(again, Sources(0, 0));
  }

  const AssembledEvent := Event(0, Message, 0, 0, [], [TextDelta("x")])
  const AssembledEnd := End("a", 3, Some(Commit(0, Message)))

  const Pending := Output(true, 0, 1, Some(Streaming.(pending := [AssembledEvent])), [Shown])

  lemma AssembledWaits()
    ensures Step(Output(true, -1, 1, Some(Streaming), [Shown]), AnEvent(AssembledEvent)) == Pending
  {
    hide EventUpdates, PendingUpdates;
    assert Streaming.pending + [AssembledEvent] == [AssembledEvent];
  }

  lemma AssembledSettles(again: Update)
    requires again == Update(Assembled(0), 0, TextDelta("x"))
    ensures OnFrame(Pending, AssembledEnd).sent == [Shown, again]
  {
    var e := AssembledEvent;
    assert UpdatesAt(e.assembled, Assembled(0), {}, 1) == [again];
    assert PendingUpdates([e], AssembledEnd.committed, {0}) == [again] by { assert [e][..0] == []; }
    hide PendingUpdates, UpdatesAt;
    assert [Shown] + [again] == [Shown, again];
  }

  /** A committed message that embeds no stream: its content is shown twice although the end frame names it. */
  lemma {:induction false} AssembledShownTwice()
    ensures var o := Run(Fresh, [StartFrame, DeltaFrame, AnEvent(AssembledEvent)]);
            && o.open && Accepts(o, AssembledEnd.attempt, AssembledEnd.revision) && o.stream.value.pending == [AssembledEvent]
            && Names(AssembledEnd.committed, AssembledEvent) && Conforms(o.stream.value.received, Content(AssembledEvent))
            && Seen(OnFrame(o, AssembledEnd).sent, Sources(0, 0)) == [0, 0]
  {
    var again := Update(Assembled(0), 0, TextDelta("x"));
    ShowsOne(AnEvent(AssembledEvent));
    AssembledWaits();
    AssembledSettles(again);
    hide Run, Seen, Step, OnFrame;
    SeenTwice(again);
  }

  /** An event the end frame does not name comes whole, whatever the attempt delivered live. */
  lemma {:induction false} NeverBorrows(before: seq<Input>, f: Frame, k: nat, after: seq<Input>)
    requires var o := Run(Fresh, before);
             && o.open && f.End? && Accepts(o, f.attempt, f.revision) && k < |o.stream.value.pending|
             && !Names(f.committed, o.stream.value.pending[k])
    ensures var o := Run(Fresh, before);
            var s, e := o.stream.value, o.stream.value.pending[k];
            Seen(Run(OnFrame(o, f), after).sent, Sources(s.number, e.seqNo))
            == s.shown + Remaining(Content(e), {}, |Content(e)|)
  {
    FreshInv();
    RunKeeps(Fresh, before);
    var o := Run(Fresh, before);
    var s, e := o.stream.value, o.stream.value.pending[k];
    hide Run, Seen, Remaining, OnFrame, Done, AddsNone, Sources, Content;
    EndCompletes(o, f, k);
    EndIsDone(o, f, k);
    hide Inv;
    RunQuiet(OnFrame(o, f), after, s.number, e.seqNo);
    SameSeen(OnFrame(o, f).sent, Run(OnFrame(o, f), after).sent, Sources(s.number, e.seqNo));
  }

  lemma StartIsDone(o: Output, f: Frame, k: nat)
    requires Inv(o) && Supersedes(o, f) && k < |o.stream.value.pending|
    ensures Done(OnFrame(o, f), o.stream.value.number, o.stream.value.pending[k].seqNo)
  {
    hide PendingUpdates, Seen;
  }

  /**
   * What an attempt left pending when a newer one superseded it comes whole,
   * whatever follows: once each exactly when nothing of it was shown live.
   */
  lemma {:induction false} SupersededComesWhole(before: seq<Input>, f: Frame, k: nat, after: seq<Input>)
    requires var o := Run(Fresh, before); Supersedes(o, f) && k < |o.stream.value.pending|
    ensures var o := Run(Fresh, before);
            var s, e := o.stream.value, o.stream.value.pending[k];
            var seen, all := Seen(Run(OnFrame(o, f), after).sent, Sources(s.number, e.seqNo)), Remaining(Content(e), {}, |Content(e)|);
            && seen == s.shown + all
            && (multiset(seen) == multiset(all) <==> s.shown == [])
  {
    FreshInv();
    RunKeeps(Fresh, before);
    var o := Run(Fresh, before);
    var s, e := o.stream.value, o.stream.value.pending[k];
    hide Run, Seen, Remaining, OnFrame, Done, AddsNone, Sources, Content, Supersedes;
    StartCompletes(o, f, k);
    StartIsDone(o, f, k);
    hide Inv;
    RunQuiet(OnFrame(o, f), after, s.number, e.seqNo);
    SameSeen(OnFrame(o, f).sent, Run(OnFrame(o, f), after).sent, Sources(s.number, e.seqNo));
    WholeOnTop(s.shown, Remaining(Content(e), {}, |Content(e)|));
  }

  /** A settlement of stream `n` that does not wait: its end frame has come, or another attempt has. */
  predicate Late(o: Output, e: Event, n: nat) {
    && o.open && e.seqNo > o.lastSeq && !e.kind.Unrelated? && !Awaits(o, e)
    && n < o.streams && (o.stream.Some? && o.stream.value.number == n ==> o.stream.value.closed)
  }

  lemma LateSeen(o: Output, e: Event, n: nat)
    requires Inv(o) && Late(o, e, n)
    ensures Seen(OnEvent(o, e).sent, Sources(n, e.seqNo))
            == Seen(o.sent, {Live(n)}) + Remaining(Content(e), {}, |Content(e)|)
    ensures Done(OnEvent(o, e), n, e.seqNo)
  {
    var sources := Sources(n, e.seqNo);
    SeenJoin(o.sent, EventUpdates(e, {}), sources);
    SeenEvent(e, {}, n);
    hide EventUpdates, Remaining, Content;
    SeenSame(o.sent, sources, {Live(n)});
    hide Seen;
  }

  /**
   * An event logged only after its end frame comes whole, on top of what was
   * shown live, whatever follows: once each exactly when nothing was shown.
   */
  lemma {:induction false} LateComesWhole(before: seq<Input>, e: Event, n: nat, after: seq<Input>)
    requires Late(Run(Fresh, before), e, n)
    ensures var o := Run(Fresh, before);
            var seen, all := Seen(Run(OnEvent(o, e), after).sent, Sources(n, e.seqNo)), Remaining(Content(e), {}, |Content(e)|);
            && seen == Seen(o.sent, {Live(n)}) + all
            && (multiset(seen) == multiset(all) <==> Seen(o.sent, {Live(n)}) == [])
  {
    FreshInv();
    RunKeeps(Fresh, before);
    var o := Run(Fresh, before);
    hide Run, Inv, Seen, Remaining, OnEvent, Done, AddsNone, Sources, Content, Late;
    LateSeen(o, e, n);
    RunQuiet(OnEvent(o, e), after, n, e.seqNo);
    SameSeen(OnEvent(o, e).sent, Run(OnEvent(o, e), after).sent, Sources(n, e.seqNo));
    WholeOnTop(Seen(o.sent, {Live(n)}), Remaining(Content(e), {}, |Content(e)|));
  }

  const LateEvent := Event(0, Message, 0, 0, [TextDelta("x")], [])
  const LateEnd := AFrame(End("a", 3, None))

  const Ended := Output(true, -1, 1, Some(Streaming.(revision := 3, closed := true, delivered := {})), [Shown])

  lemma LateEnds()
    ensures Step(Output(true, -1, 1, Some(Streaming), [Shown]), LateEnd) == Ended
  {
    assert PendingUpdates([], None, {0}) == [];
    assert [Shown] + [] == [Shown];
  }

  lemma LateSettles(again: Update)
    requires again == Update(Durable(0), 0, TextDelta("x"))
    ensures Late(Ended, LateEvent, 0) && OnEvent(Ended, LateEvent).sent == [Shown, again]
  {
    assert UpdatesAt(LateEvent.stream, Durable(0), {}, 1) == [again];
    assert [Shown] + [again] == [Shown, again];
  }

  /** The settlement logged after an end frame that names nothing: the client is sent its only chunk twice. */
  lemma {:induction false} LateShownTwice()
    ensures var o := Run(Fresh, [StartFrame, DeltaFrame, LateEnd]);
            Late(o, LateEvent, 0) && Seen(OnEvent(o, LateEvent).sent, Sources(0, 0)) == [0, 0]
  {
    var again := Update(Durable(0), 0, TextDelta("x"));
    ShowsOne(LateEnd);
    LateEnds();
    LateSettles(again);
    hide Run, Seen, Step, OnEvent, Late;
    SeenTwice(again);
  }

  // ----- The objects that hold it -----

  class StreamState {
    const attempt: string
    const turn: int
    const step: int
    const number: nat
    var revision: int
    var delivered: set<nat>
    var closed: bool
    var pending: seq<Event>
    ghost var received: map<nat, Chunk>
    ghost var shown: seq<nat>

    constructor (attempt: string, revision: int, turn: int, step: int, number: nat)
      ensures View() == Stream(number, attempt, revision, turn, step, {}, false, [], map[], [])
    {
      this.attempt, this.revision, this.turn, this.step, this.number := attempt, revision, turn, step, number;
      delivered, closed, pending, received, shown := {}, false, [], map[], [];
    }

    ghost function View(): Stream
      reads this
    {
      Stream(number, attempt, revision, turn, step, delivered, closed, pending, received, shown)
    }
  }

  class SessionOutput {
    var open: bool
    var lastSeq: int
    var streams: nat
    var streamState: StreamState?
    var sent: seq<Update>

    constructor ()
      ensures View() == Fresh
    {
      open, lastSeq, streams, streamState, sent := true, -1, 0, null, [];
    }

    ghost function View(): Output
      reads this, streamState
    {
      Output(open, lastSeq, streams, if streamState == null then None else Some(streamState.View()), sent)
    }

    /** `sessionEventToUpdates`, sent one by one. */
    method SendChunks(chunks: seq<Chunk>, source: Source, delivered: set<nat>)
      modifies `sent
      ensures sent == old(sent) + UpdatesAt(chunks, source, delivered, |chunks|)
    {
      for i := 0 to |chunks|
        invariant sent == old(sent) + UpdatesAt(chunks, source, delivered, i)
      {
        if Displayable(chunks[i]) && i !in delivered { sent := sent + [Update(source, i, chunks[i])]; }
      }
    }

    method SendEvent(e: Event, delivered: set<nat>)
      modifies `sent
      ensures sent == old(sent) + EventUpdates(e, delivered)
    {
      if !e.kind.Unrelated? && e.stream != [] {
        SendChunks(e.stream, Durable(e.seqNo), delivered);
      } else if e.kind.Message? {
        SendChunks(e.assembled, Assembled(e.seqNo), {});
      }
    }

    method SendPending(pending: seq<Event>, committed: Option<Commit>, delivered: set<nat>)
      modifies `sent
      ensures sent == old(sent) + PendingUpdates(pending, committed, delivered)
    {
      hide EventUpdates, Borrowed;
      for i := 0 to |pending|
        invariant sent == old(sent) + PendingUpdates(pending[..i], committed, delivered)
      {
        assert pending[..i + 1][..i] == pending[..i];
        SendEvent(pending[i], Borrowed(committed, pending[i], delivered));
      }
      assert pending[..|pending|] == pending;
    }

    method DrainAssistantEvents(committed: Option<Commit>)
      modifies this, streamState
      ensures streamState == old(streamState) && View() == Drain(old(View()), committed)
    {
      if streamState == null { return; }
      SendPending(streamState.pending, committed, streamState.delivered);
      streamState.pending := [];
    }

    method Assistant(f: Frame)
      modifies this, streamState
      ensures View() == OnFrame(old(View()), f)
    {
      if !open { return; }
      if f.Start? {
        if streamState != null && (f.revision <= streamState.revision || streamState.attempt == f.attempt) { return; }
        DrainAssistantEvents(None);
        streamState := new StreamState(f.attempt, f.revision, f.turn, f.step, streams);
        streams := streams + 1;
        return;
      }
      if streamState == null || streamState.closed || f.revision <= streamState.revision || streamState.attempt != f.attempt {
        return;
      }
      streamState.revision := f.revision;
      if f.End? {
        streamState.closed := true;
        DrainAssistantEvents(f.committed);
        streamState.delivered := {};
        return;
      }
      if f.index in streamState.delivered { return; }
      if Displayable(f.chunk) {
        sent := sent + [Update(Live(streamState.number), f.index, f.chunk)];
        streamState.shown := streamState.shown + [f.index];
      }
      streamState.delivered := streamState.delivered + {f.index};
      streamState.received := streamState.received[f.index := f.chunk];
    }

    method AdmitEvent(seqNo: nat) returns (admitted: bool)
      modifies `lastSeq
      ensures admitted == (seqNo > old(lastSeq)) && lastSeq == if admitted then seqNo else old(lastSeq)
    {
      admitted := seqNo > lastSeq;
      if admitted { lastSeq := seqNo; }
    }

    method LiveEvent(e: Event)
      modifies this, streamState
      ensures streamState == old(streamState) && View() == OnEvent(old(View()), e)
    {
      if !open { return; }
      var admitted := AdmitEvent(e.seqNo);
      if !admitted { return; }
      if !e.kind.Unrelated? && streamState != null && !streamState.closed && streamState.turn == e.turn && streamState.step == e.step {
        streamState.pending := streamState.pending + [e];
        return;
      }
      SendEvent(e, {});
    }

    /** The loop of `restore`: history the live side already carried is skipped. */
    method Restore(events: seq<Event>, send: bool)
      modifies this, streamState
      ensures View() == Run(old(View()), Replays(events, send))
    {
      ghost var start := View();
      for i := 0 to |events|
        invariant streamState == old(streamState) && View() == Run(start, Replays(events[..i], send))
      {
        ReplaysStep(start, events, send, i);
        if open {
          var admitted := AdmitEvent(events[i].seqNo);
          if admitted && send { SendEvent(events[i], {}); }
          assert sent + [] == sent;
        }
      }
      assert events[..|events|] == events;
    }

    method Dispose()
      modifies this, streamState
      ensures View() == OnClose(old(View()))
    {
      open := false;
      if streamState != null { streamState.pending := []; }
    }
  }

  ghost function Replays(events: seq<Event>, send: bool): seq<Input> {
    if events == [] then [] else Replays(events[..|events| - 1], send) + [AReplay(events[|events| - 1], send)]
  }

  lemma {:induction false} RunOne(o: Output, inputs: seq<Input>, i: Input)
    ensures Run(o, inputs + [i]) == Step(Run(o, inputs), i)
    decreases |inputs|
  {
    hide Step;
    if inputs == [] {
      assert [i][1..] == [];
    } else {
      assert (inputs + [i])[1..] == inputs[1..] + [i];
      RunOne(Step(o, inputs[0]), inputs[1..], i);
    }
  }

  lemma ReplaysStep(o: Output, events: seq<Event>, send: bool, i: nat)
    requires i < |events|
    ensures Run(o, Replays(events[..i + 1], send)) == OnReplay(Run(o, Replays(events[..i], send)), events[i], send)
  {
    assert events[..i + 1][..i] == events[..i];
    hide OnReplay, Run;
    RunOne(o, Replays(events[..i], send), AReplay(events[i], send));
  }
}
