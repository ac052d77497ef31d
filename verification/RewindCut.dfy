/**
 * Rewinding to a prompt: the prefix a fork keeps, and the prompts a client can
 * name, read page by page from the durable log.
 */
module RewindCut {
  import opened Options

  const PAGE := 256

  /** `Prompt` is a user's own message, with the text of its blocks. */
  datatype Kind = TurnStart | TurnEnd | Prompt(blocks: seq<string>) | Other

  datatype Event = Event(seqNo: nat, kind: Kind)

  datatype Point = Point(promptIndex: nat, preview: string)

  datatype Fork = Forked(kept: seq<Event>, promptText: string) | UnknownPrompt | TurnOpen

  function Text(blocks: seq<string>): string {
    if blocks == [] then "" else Text(blocks[..|blocks| - 1]) + blocks[|blocks| - 1]
  }

  /** The text of a prompt is that of its blocks in order, with nothing between. */
  lemma {:induction false} TextJoins(a: seq<string>, b: seq<string>, block: string)
    ensures Text(a + b) == Text(a) + Text(b) && Text([block]) == block && Text([]) == ""
    decreases |b|
  {
    if b == [] {
      assert a + b == a;
    } else {
      TextJoins(a, b[..|b| - 1], block);
      assert (a + b)[..|a + b| - 1] == a + b[..|b| - 1];
    }
  }

  predicate Boundary(e: Event) {
    e.kind.TurnStart? || e.kind.TurnEnd?
  }

  /** The position of the last turn boundary. */
  function LastBoundary(log: seq<Event>): (last: Option<nat>)
    ensures last.Some? ==> last.value < |log| && Boundary(log[last.value])
  {
    if log == [] then None
    else if Boundary(log[|log| - 1]) then Some(|log| - 1)
    else LastBoundary(log[..|log| - 1])
  }

  predicate OpenTurn(log: seq<Event>) {
    LastBoundary(log).Some? && log[LastBoundary(log).value].kind.TurnStart?
  }

  lemma {:induction false} LastBoundaryIs(log: seq<Event>)
    ensures forall i :: 0 <= i < |log| && Boundary(log[i]) ==> LastBoundary(log).Some? && i <= LastBoundary(log).value
    decreases |log|
  {
    if log != [] { LastBoundaryIs(log[..|log| - 1]); }
  }

  /** Positions of the prompts, ascending. */
  function Prompts(log: seq<Event>): (list: seq<nat>)
    ensures forall i :: 0 <= i < |list| ==> list[i] < |log| && log[list[i]].kind.Prompt?
  {
    if log == [] then []
    else
      var rest := Prompts(log[..|log| - 1]);
      if log[|log| - 1].kind.Prompt? then rest + [|log| - 1] else rest
  }

  /** They are all of them, in log order. */
  lemma {:induction false} PromptsAreAll(log: seq<Event>, i: nat)
    ensures i in Prompts(log) <==> i < |log| && log[i].kind.Prompt?
    ensures forall m, n :: 0 <= m < n < |Prompts(log)| ==> Prompts(log)[m] < Prompts(log)[n]
    decreases |log|
  {
    if log != [] { PromptsAreAll(log[..|log| - 1], i); }
  }

  // ----- The cut -----

  /** A turn started right before another without ending: what a well-formed log never has. */
  ghost predicate DoubleStart(log: seq<Event>) {
    OpenTurn(log) && OpenTurn(log[..LastBoundary(log).value])
  }

  /** Turn boundaries alternate, beginning with a start. */
  ghost predicate Alternates(log: seq<Event>) {
    forall i :: 0 <= i < |log| && Boundary(log[i]) ==> (log[i].kind.TurnStart? <==> !OpenTurn(log[..i]))
  }

  /** The longest prefix of at most `limit` events that ends in no open turn. */
  ghost predicate LongestClosed(log: seq<Event>, limit: nat, kept: nat) {
    && kept <= limit <= |log| && !OpenTurn(log[..kept])
    && forall m :: kept < m <= limit ==> OpenTurn(log[..m])
  }

  /** The backward scan from the target. */
  method Cut(log: seq<Event>, target: nat) returns (boundary: nat)
    requires target < |log|
    ensures boundary == if OpenTurn(log[..target]) then LastBoundary(log[..target]).value else target
  {
    boundary := target;
    var index := target;
    LastBoundaryIs(log[..target]);
    while index > 0
      invariant 0 <= index <= target && boundary == target
      invariant forall i :: index <= i < target ==> !Boundary(log[i])
    {
      index := index - 1;
      if log[index].kind.TurnStart? {
        assert log[..target][index] == log[index];
        return index;
      }
      if log[index].kind.TurnEnd? {
        assert log[..target][index] == log[index];
        break;
      }
    }
    assert forall i :: 0 <= i < target ==> log[..target][i] == log[i];
  }

  /**
   * What the cut keeps: a closed prefix unless two turns started in a row just
   * before the target, and never shorter than the longest closed prefix.
   */
  lemma {:induction false} CutIsLongest(log: seq<Event>, target: nat, boundary: nat)
    requires target < |log|
    requires boundary == if OpenTurn(log[..target]) then LastBoundary(log[..target]).value else target
    ensures boundary <= target
    ensures OpenTurn(log[..boundary]) <==> DoubleStart(log[..target])
    ensures !DoubleStart(log[..target]) ==> LongestClosed(log, target, boundary)
  {
    LastBoundaryIs(log[..target]);
    if !OpenTurn(log[..target]) { return; }
    assert log[..target][..boundary] == log[..boundary];
    forall m | boundary < m <= target
      ensures OpenTurn(log[..m])
    {
      LastBoundaryIs(log[..m]);
      assert log[..m][boundary] == log[..target][boundary];
      var b := LastBoundary(log[..m]).value;
      assert log[..m][b] == log[..target][b];
    }
  }

  const DoubledTurn := [Event(0, TurnStart), Event(1, TurnStart), Event(2, Prompt(["hi"]))]

  /** Two turns started in a row before the only prompt: the cut before the second leaves the first one open. */
  lemma {:induction false} DoubleStartLeavesOpen()
    ensures Prompts(DoubledTurn) == [2] && LastBoundary(DoubledTurn[..2]) == Some(1)
    ensures DoubleStart(DoubledTurn[..2]) && OpenTurn(DoubledTurn[..1])
  {
    var log := DoubledTurn;
    assert log[..2] == [log[0], log[1]] && log[..1] == [log[0]] && log[..2][..1] == [log[0]];
    assert Prompts([]) == [] && [log[0]][..0] == [];
    assert Prompts([log[0]]) == [] && Prompts(log[..2]) == [];
  }

  /** In a log with alternating boundaries a rewind is never refused: it keeps the longest closed prefix before its prompt. */
  lemma {:induction false} RewindNeverRefused(log: seq<Event>, target: nat, boundary: nat)
    requires target < |log| && Alternates(log)
    requires boundary == if OpenTurn(log[..target]) then LastBoundary(log[..target]).value else target
    ensures LongestClosed(log, target, boundary)
  {
    CutIsLongest(log, target, boundary);
    LastBoundaryIs(log[..target]);
    if OpenTurn(log[..target]) {
      var i := LastBoundary(log[..target]).value;
      assert log[..target][i] == log[i] && log[..target][..i] == log[..i];
    }
  }

  // ----- Naming a prompt -----

  /** The points of a log: each prompt with its number and text. */
  function Points(log: seq<Event>): seq<Point> {
    if log == [] then []
    else
      var rest, e := Points(log[..|log| - 1]), log[|log| - 1];
      if e.kind.Prompt? then rest + [Point(|rest|, Text(e.kind.blocks))] else rest
  }

  /** Point `n` is number `n` and shows the text of the `n`-th prompt. */
  lemma {:induction false} PointsName(log: seq<Event>)
    ensures |Points(log)| == |Prompts(log)|
    ensures forall n :: 0 <= n < |Points(log)| ==> Points(log)[n] == Point(n, Text(log[Prompts(log)[n]].kind.blocks))
    decreases |log|
  {
    if log != [] { PointsName(log[..|log| - 1]); }
  }

  /** Later events never renumber a prompt. */
  lemma {:induction false} PromptsGrow(log: seq<Event>, end: nat)
    requires end <= |log|
    ensures Prompts(log[..end]) <= Prompts(log)
    decreases |log|
  {
    if end == |log| {
      assert log[..end] == log;
    } else {
      assert log[..|log| - 1][..end] == log[..end];
      PromptsGrow(log[..|log| - 1], end);
    }
  }

  /** `forkSession`, from the log to the seed it keeps; `target` is absent for a plain fork. */
  method ForkSession(log: seq<Event>, target: Option<nat>) returns (fork: Fork)
    ensures target.None? ==> fork == if OpenTurn(log) then TurnOpen else Forked(log, "")
    ensures target.Some? && target.value >= |Prompts(log)| ==> fork.UnknownPrompt?
    ensures target.Some? && target.value < |Prompts(log)| ==>
              var at := Prompts(log)[target.value];
              && (fork.TurnOpen? <==> DoubleStart(log[..at]))
              && (!fork.TurnOpen? ==>
                    && fork.Forked? && fork.kept <= log && LongestClosed(log, at, |fork.kept|)
                    && fork.promptText == Text(log[at].kind.blocks))
  {
    var events, text := log, "";
    if target.Some? {
      var prompts := FilterPrompts(log);
      if target.value >= |prompts| { return UnknownPrompt; }
      var at := prompts[target.value];
      text := Text(log[at].kind.blocks);
      var boundary := Cut(log, at);
      CutIsLongest(log, at, boundary);
      events := log[..boundary];
    }
    if OpenTurn(events) { return TurnOpen; }
    return Forked(events, text);
  }

  method FilterPrompts(log: seq<Event>) returns (list: seq<nat>)
    ensures list == Prompts(log)
  {
    list := [];
    for i := 0 to |log|
      invariant list == Prompts(log[..i])
    {
      assert log[..i + 1][..i] == log[..i];
      if log[i].kind.Prompt? { list := list + [i]; }
    }
    assert log[..|log|] == log;
  }

  /** A store that holds `log` durably answers its pages from it. */
  ghost predicate Serves(read: (nat, nat) -> seq<Event>, log: seq<Event>, end: nat) {
    && end <= |log| && (forall i :: 0 <= i < end ==> log[i].seqNo == i)
    && forall offset: nat, length: nat :: offset + length <= end ==> read(offset, length) == log[offset..offset + length]
  }

  ghost predicate Numbered(log: seq<Event>) {
    forall i :: 0 <= i < |log| ==> log[i].seqNo == i
  }

  /**
   * `rewindPoints` over `select`: whatever the store answers, a result is the
   * points of `end` consecutively numbered events, and an honest store always
   * yields the points of its durable prefix.
   */
  method RewindPoints(read: (nat, nat) -> seq<Event>, end: nat) returns (points: Option<seq<Point>>, ghost events: seq<Event>)
    ensures points.Some? ==> |events| == end && Numbered(events) && points.value == Points(events)
    ensures forall log :: Serves(read, log, end) ==> points == Some(Points(log[..end]))
  {
    var selected: seq<Point>, promptIndex, offset := [], 0, 0;
    events := [];
    while offset < end
      invariant offset <= end && |events| == offset && Numbered(events)
      invariant selected == Points(events) && promptIndex == |selected|
      invariant forall log :: Serves(read, log, end) ==> events == log[..offset]
    {
      var length := if end - offset < PAGE then end - offset else PAGE;
      var page := read(offset, length);
      if |page| != length { return None, []; }
      ghost var base, before := offset, events;
      for i := 0 to length
        invariant offset == base + i && events == before + page[..i] && Numbered(events)
        invariant selected == Points(events) && promptIndex == |selected|
      {
        if page[i].seqNo != offset {
          assert forall log :: Serves(read, log, end) ==> page[i] == log[base + i];
          return None, [];
        }
        offset := offset + 1;
        events := events + [page[i]];
        assert events[..|events| - 1] == before + page[..i];
        assert page[..i + 1] == page[..i] + [page[i]];
        if page[i].kind.Prompt? {
          selected := selected + [Point(promptIndex, Text(page[i].kind.blocks))];
          promptIndex := promptIndex + 1;
        }
      }
      assert page[..length] == page;
      forall log | Serves(read, log, end)
        ensures events == log[..offset]
      {
        assert log[..base] + log[base..offset] == log[..offset];
      }
    }
    points := Some(selected);
  }

  /** The n-th point a client was shown names the event a rewind to target n cuts at, however the log has grown since. */
  lemma {:induction false} PointsNameTargets(log: seq<Event>, end: nat, n: nat)
    requires end <= |log| && n < |Points(log[..end])|
    ensures n < |Prompts(log)|
    ensures Points(log[..end])[n] == Point(n, Text(log[Prompts(log)[n]].kind.blocks)) && Prompts(log)[n] < end
  {
    PointsName(log[..end]);
    PromptsGrow(log, end);
  }
}
