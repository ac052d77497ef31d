/**
 * The index of a child session's log, built page by page, and its answers
 * against a scan of the log itself.
 */
module ChildHistory {
  import opened Options

  const PAGE_SIZE := 256

  datatype Arguments = Parsed(text: string) | Raw(text: string)

  datatype Event =
    | TurnStart(seqNo: nat, time: int)
    | TurnEnd(seqNo: nat)
    | ToolCall(seqNo: nat, id: string, name: string, arguments: string)
    | Dispatch(seqNo: nat, id: string, name: string, arguments: string)
    | CommandStarted(seqNo: nat, id: string, run: string)
    | OtherEvent(seqNo: nat)

  datatype Entry<T> = Entry(seqNo: nat, value: T)

  datatype Call = Call(name: string, arguments: Arguments)

  // ----- The search -----

  ghost predicate Sorted<T>(values: seq<Entry<T>>) {
    forall i, j :: 0 <= i < j < |values| ==> values[i].seqNo < values[j].seqNo
  }

  /** A scan from the end for the last entry at or before `at`. */
  function LastAtOrBefore<T>(values: seq<Entry<T>>, at: int): Option<T> {
    if values == [] then None
    else if values[|values| - 1].seqNo <= at then Some(values[|values| - 1].value)
    else LastAtOrBefore(values[..|values| - 1], at)
  }

  lemma {:induction false} ScanStops<T>(values: seq<Entry<T>>, at: int, low: nat)
    requires low <= |values| && (low > 0 ==> values[low - 1].seqNo <= at) && forall i :: low <= i < |values| ==> values[i].seqNo > at
    ensures LastAtOrBefore(values, at) == if low == 0 then None else Some(values[low - 1].value)
    decreases |values|
  {
    if low < |values| { ScanStops(values[..|values| - 1], at, low); }
  }

  method AtOrBefore<T>(values: seq<Entry<T>>, at: int) returns (found: Option<T>)
    requires Sorted(values)
    ensures found == LastAtOrBefore(values, at)
  {
    var low, high := 0, |values|;
    while low < high
      invariant 0 <= low <= high <= |values|
      invariant forall i :: 0 <= i < low ==> values[i].seqNo <= at
      invariant forall i :: high <= i < |values| ==> values[i].seqNo > at
    {
      var mid := (low + high) / 2;
      if values[mid].seqNo <= at { low := mid + 1; } else { high := mid; }
    }
    ScanStops(values, at, low);
    found := if low == 0 then None else Some(values[low - 1].value);
  }

  // ----- What the index holds of a log -----

  function AsCall(e: Event): Call
    requires e.ToolCall? || e.Dispatch?
  {
    Call(e.name, if e.ToolCall? then Parsed(e.arguments) else Raw(e.arguments))
  }

  predicate Calls(e: Event, id: string) {
    (e.ToolCall? || e.Dispatch?) && e.id == id
  }

  function CallList(log: seq<Event>, id: string): seq<Entry<Call>> {
    if log == [] then []
    else
      var e := log[|log| - 1];
      CallList(log[..|log| - 1], id) + (if Calls(e, id) then [Entry(e.seqNo, AsCall(e))] else [])
  }

  function TurnList(log: seq<Event>): seq<Entry<int>> {
    if log == [] then []
    else
      var e := log[|log| - 1];
      TurnList(log[..|log| - 1]) + (if e.TurnStart? then [Entry(e.seqNo, e.time)] else [])
  }

  function LastStart(log: seq<Event>): Option<Event> {
    if log == [] then None else if log[|log| - 1].TurnStart? then Some(log[|log| - 1]) else LastStart(log[..|log| - 1])
  }

  function LastEnd(log: seq<Event>): Option<Event> {
    if log == [] then None else if log[|log| - 1].TurnEnd? then Some(log[|log| - 1]) else LastEnd(log[..|log| - 1])
  }

  function LastRun(log: seq<Event>, id: string): Option<string> {
    if log == [] then None
    else if log[|log| - 1].CommandStarted? && log[|log| - 1].id == id then Some(log[|log| - 1].run)
    else LastRun(log[..|log| - 1], id)
  }

  // ----- Answers, by a scan of the log -----

  /** The last call with this id at or before `at`. */
  function CallAt(log: seq<Event>, id: string, at: int): Option<Call> {
    if log == [] then None
    else
      var e := log[|log| - 1];
      if Calls(e, id) && e.seqNo <= at then Some(AsCall(e)) else CallAt(log[..|log| - 1], id, at)
  }

  function TurnAt(log: seq<Event>, at: int): Option<int> {
    if log == [] then None
    else
      var e := log[|log| - 1];
      if e.TurnStart? && e.seqNo <= at then Some(e.time) else TurnAt(log[..|log| - 1], at)
  }

  lemma IndexNext(log: seq<Event>, e: Event)
    ensures TurnList(log + [e]) == if e.TurnStart? then TurnList(log) + [Entry(e.seqNo, e.time)] else TurnList(log)
    ensures LastStart(log + [e]) == if e.TurnStart? then Some(e) else LastStart(log)
    ensures LastEnd(log + [e]) == if e.TurnEnd? then Some(e) else LastEnd(log)
    ensures forall id :: CallList(log + [e], id) ==
              if Calls(e, id) then CallList(log, id) + [Entry(e.seqNo, AsCall(e))] else CallList(log, id)
    ensures forall id :: LastRun(log + [e], id) == if e.CommandStarted? && e.id == id then Some(e.run) else LastRun(log, id)
  {
    assert (log + [e])[..|log|] == log;
    assert forall s: seq<Entry<Call>> :: s + [] == s;
    assert forall s: seq<Entry<int>> :: s + [] == s;
  }

  ghost predicate Numbered(log: seq<Event>) {
    forall i :: 0 <= i < |log| ==> log[i].seqNo == i
  }

  lemma {:induction false} CallListFits(log: seq<Event>, id: string)
    requires Numbered(log)
    ensures Sorted(CallList(log, id)) && forall i :: 0 <= i < |CallList(log, id)| ==> CallList(log, id)[i].seqNo < |log|
    decreases |log|
  {
    if log != [] { CallListFits(log[..|log| - 1], id); }
  }

  lemma {:induction false} TurnListFits(log: seq<Event>)
    requires Numbered(log)
    ensures Sorted(TurnList(log)) && forall i :: 0 <= i < |TurnList(log)| ==> TurnList(log)[i].seqNo < |log|
    decreases |log|
  {
    if log != [] { TurnListFits(log[..|log| - 1]); }
  }

  /** Searching a call's own list is scanning the log. */
  lemma {:induction false} CallListAnswers(log: seq<Event>, id: string, at: int)
    ensures LastAtOrBefore(CallList(log, id), at) == CallAt(log, id, at)
    decreases |log|
  {
    if log == [] { return; }
    var rest, e := log[..|log| - 1], log[|log| - 1];
    CallListAnswers(rest, id, at);
    var list := CallList(rest, id);
    if Calls(e, id) {
      assert (list + [Entry(e.seqNo, AsCall(e))])[..|list|] == list;
    } else {
      assert list + [] == list;
    }
  }

  lemma {:induction false} TurnListAnswers(log: seq<Event>, at: int)
    ensures LastAtOrBefore(TurnList(log), at) == TurnAt(log, at)
    decreases |log|
  {
    if log == [] { return; }
    var rest, e := log[..|log| - 1], log[|log| - 1];
    TurnListAnswers(rest, at);
    var list := TurnList(rest);
    if e.TurnStart? {
      assert (list + [Entry(e.seqNo, e.time)])[..|list|] == list;
    } else {
      assert list + [] == list;
    }
  }

  /** `call` is what the log's position `i` holds, the arguments of a dispatch unparsed; no later one up to `at` matches. */
  ghost predicate AnsweredAt(log: seq<Event>, id: string, at: int, i: nat, call: Call) {
    && i < |log| && i <= at && Calls(log[i], id)
    && call.name == log[i].name && (call.arguments.Raw? <==> log[i].Dispatch?) && call.arguments.text == log[i].arguments
    && forall j :: i < j < |log| && j <= at ==> !Calls(log[j], id)
  }

  /** The answer is that of the last matching position at or before `at`. */
  lemma {:induction false} CallAtIsLast(log: seq<Event>, id: string, at: int)
    requires Numbered(log)
    ensures CallAt(log, id, at).None? <==> forall i :: 0 <= i < |log| && i <= at ==> !Calls(log[i], id)
    ensures CallAt(log, id, at).Some? ==> exists i :: AnsweredAt(log, id, at, i, CallAt(log, id, at).value)
    decreases |log|
  {
    if log == [] { return; }
    var rest, e := log[..|log| - 1], log[|log| - 1];
    CallAtIsLast(rest, id, at);
    if Calls(e, id) && e.seqNo <= at {
      assert AnsweredAt(log, id, at, |log| - 1, CallAt(log, id, at).value);
    } else if CallAt(rest, id, at).Some? {
      var i :| AnsweredAt(rest, id, at, i, CallAt(rest, id, at).value);
      assert AnsweredAt(log, id, at, i, CallAt(log, id, at).value);
    }
  }

  /** A turn's start is the time of the last one at or before `at`: that of position `n - 1`, if there is one. */
  lemma {:induction false} TurnAtIsLast(log: seq<Event>, at: int) returns (n: nat)
    requires Numbered(log)
    ensures n <= |log| && (forall j :: n <= j < |log| && j <= at ==> !log[j].TurnStart?)
    ensures n == 0 ==> TurnAt(log, at).None?
    ensures n > 0 ==> n - 1 <= at && log[n - 1].TurnStart? && TurnAt(log, at) == Some(log[n - 1].time)
    decreases |log|
  {
    if log == [] { return 0; }
    var e := log[|log| - 1];
    if e.TurnStart? && e.seqNo <= at { return |log|; }
    n := TurnAtIsLast(log[..|log| - 1], at);
  }

  predicate RunsCommand(e: Event, id: string) {
    e.CommandStarted? && e.id == id
  }

  /** Of several runs of one command the last counts: that of position `n - 1`, if there is one. */
  lemma {:induction false} LastRunIs(log: seq<Event>, id: string) returns (n: nat)
    ensures n <= |log| && (forall j :: n <= j < |log| ==> !RunsCommand(log[j], id))
    ensures n == 0 ==> LastRun(log, id).None?
    ensures n > 0 ==> RunsCommand(log[n - 1], id) && LastRun(log, id) == Some(log[n - 1].run)
    decreases |log|
  {
    if log == [] { return 0; }
    if RunsCommand(log[|log| - 1], id) { return |log|; }
    n := LastRunIs(log[..|log| - 1], id);
  }

  // ----- Pages -----

  /** How much of a page continues the log. */
  function Accepted(events: seq<Event>, next: nat): seq<Event> {
    if events == [] || events[0].seqNo != next then [] else [events[0]] + Accepted(events[1..], next + 1)
  }

  lemma {:induction false} AcceptedIs(events: seq<Event>, next: nat)
    ensures Accepted(events, next) <= events
    ensures forall i :: 0 <= i < |Accepted(events, next)| ==> events[i].seqNo == next + i
    ensures |Accepted(events, next)| < |events| ==> events[|Accepted(events, next)|].seqNo != next + |Accepted(events, next)|
    decreases |events|
  {
    if events != [] && events[0].seqNo == next { AcceptedIs(events[1..], next + 1); }
  }

  lemma {:induction false} AcceptedAt(events: seq<Event>, next: nat, n: nat)
    requires n <= |events| && forall i :: 0 <= i < n ==> events[i].seqNo == next + i
    requires n == |events| || events[n].seqNo != next + n
    ensures Accepted(events, next) == events[..n]
    decreases n
  {
    if n > 0 {
      AcceptedAt(events[1..], next + 1, n - 1);
      assert events[..n] == [events[0]] + events[1..][..n - 1];
    }
  }

  datatype Page = Page(events: seq<Event>) | ReadFailed

  function Length(next: nat, count: Option<nat>): nat
    requires count.Some? ==> next <= count.value
  {
    if count.None? || count.value - next > PAGE_SIZE then PAGE_SIZE else count.value - next
  }

  /** What one page adds to a log of `next` events. */
  function PageTaken(page: Page, next: nat, count: Option<nat>): seq<Event>
    requires count.Some? ==> next <= count.value
  {
    if page.ReadFailed? || |page.events| > Length(next, count) then [] else Accepted(page.events, next)
  }

  /** The page was read whole and filled, so another follows. */
  predicate PageFilled(page: Page, next: nat, count: Option<nat>)
    requires count.Some? ==> next <= count.value
  {
    page.Page? && |page.events| == Length(next, count) && PageTaken(page, next, count) == page.events
  }

  /** What a run of pages adds: everything up to a failure, a gap, a short page or the count. */
  function Taken(pages: seq<Page>, next: nat, count: Option<nat>): seq<Event>
    decreases |pages|
  {
    if pages == [] || (count.Some? && count.value <= next) then []
    else
      var taken := PageTaken(pages[0], next, count);
      taken + if PageFilled(pages[0], next, count) then Taken(pages[1..], next + |taken|, count) else []
  }

  lemma TakenStep(pages: seq<Page>, i: nat, next: nat, count: Option<nat>)
    requires i <= |pages| && (count.Some? ==> next <= count.value)
    ensures i == |pages| || count == Some(next) ==> Taken(pages[i..], next, count) == []
    ensures i < |pages| && count != Some(next) ==>
              var taken := PageTaken(pages[i], next, count);
              Taken(pages[i..], next, count)
              == taken + if PageFilled(pages[i], next, count) then Taken(pages[i + 1..], next + |taken|, count) else []
  {
    if i < |pages| {
      assert pages[i..][0] == pages[i] && pages[i..][1..] == pages[i + 1..];
      hide PageTaken, PageFilled;
    }
  }

  datatype Progress = Done | Failed | Reading

  class ChildHistoryIndex {
    var nextSeq: nat
    var calls: map<string, seq<Entry<Call>>>
    var commands: map<string, string>
    var turns: seq<Entry<int>>
    var start: Option<Event>
    var end: Option<Event>
    var revision: Option<string>
    ghost var seen: seq<Event>

    /** The index is the fold of exactly the first `nextSeq` events. */
    ghost predicate Valid()
      reads this
    {
      && nextSeq == |seen| && Numbered(seen) && turns == TurnList(seen)
      && start == LastStart(seen) && end == LastEnd(seen)
      && (forall id :: CallList(seen, id) == if id in calls then calls[id] else [])
      && (forall id :: LastRun(seen, id) == if id in commands then Some(commands[id]) else None)
    }

    constructor ()
      ensures Valid() && seen == [] && revision == None
    {
      nextSeq, calls, commands, turns, start, end, revision, seen := 0, map[], map[], [], None, None, None, [];
    }

    method Index(e: Event)
      requires Valid() && e.seqNo == nextSeq
      modifies this
      ensures Valid() && seen == old(seen) + [e] && revision == old(revision)
    {
      IndexNext(seen, e);
      hide TurnList, CallList, LastStart, LastEnd, LastRun;
      if e.TurnStart? {
        start := Some(e);
        turns := turns + [Entry(e.seqNo, e.time)];
      } else if e.TurnEnd? {
        end := Some(e);
      } else if e.ToolCall? || e.Dispatch? {
        var list := if e.id in calls then calls[e.id] else [];
        calls := calls[e.id := list + [Entry(e.seqNo, AsCall(e))]];
      } else if e.CommandStarted? {
        commands := commands[e.id := e.run];
      }
      nextSeq := nextSeq + 1;
      seen := seen + [e];
    }

    /** The events of one page; a gap stops the page, and what came before it stays indexed. */
    method IngestPage(events: seq<Event>) returns (ok: bool)
      requires Valid()
      modifies this
      ensures Valid() && seen == old(seen) + Accepted(events, old(nextSeq)) && revision == old(revision)
      ensures ok <==> Accepted(events, old(nextSeq)) == events
    {
      for i := 0 to |events|
        invariant Valid() && seen == old(seen) + events[..i] && nextSeq == old(nextSeq) + i && revision == old(revision)
        invariant forall j :: 0 <= j < i ==> events[j].seqNo == old(nextSeq) + j
      {
        if events[i].seqNo != nextSeq {
          AcceptedAt(events, old(nextSeq), i);
          return false;
        }
        Index(events[i]);
        assert events[..i + 1] == events[..i] + [events[i]];
      }
      AcceptedAt(events, old(nextSeq), |events|);
      assert events[..|events|] == events;
      ok := true;
    }

    /** One turn of the loop of `sync`; an unfilled page without a count to reach ends it well. */
    method ReadPage(page: Page, count: Option<nat>) returns (outcome: Progress)
      requires Valid() && (count.Some? ==> nextSeq < count.value)
      modifies this
      ensures Valid() && seen == old(seen) + PageTaken(page, old(nextSeq), count) && revision == old(revision)
      ensures count.Some? ==> nextSeq <= count.value
      ensures outcome.Reading? <==> PageFilled(page, old(nextSeq), count)
      ensures !outcome.Reading? && count.Some? ==> outcome.Failed? && nextSeq < count.value
    {
      hide TurnList, CallList, LastStart, LastEnd, LastRun, Numbered, Accepted;
      var length := Length(nextSeq, count);
      if page.ReadFailed? || |page.events| > length { return Failed; }
      AcceptedIs(page.events, nextSeq);
      var ok := IngestPage(page.events);
      outcome := if !ok then Failed else if |page.events| == length then Reading else if count.Some? then Failed else Done;
    }

    /**
     * `sync`, given the pages its reader answers with. Whatever the outcome, the
     * index stays the fold of one prefix, longer by what the pages continued it with.
     */
    method Sync(pages: seq<Page>, wanted: Option<string>, count: Option<nat>) returns (progress: Progress)
      requires Valid()
      modifies this
      ensures Valid() && revision == if progress.Done? then wanted else old(revision)
      ensures var skips := wanted.Some? && old(revision) == wanted;
              && (skips ==> progress.Done? && seen == old(seen))
              && (!skips ==> seen == old(seen) + Taken(pages, old(nextSeq), count))
              && (!skips && count.Some? ==> (progress.Done? <==> nextSeq == count.value))
    {
      if wanted.Some? && revision == wanted { return Done; }
      if count.Some? && count.value < nextSeq { return Failed; }
      progress := ReadPages(pages, count);
      if progress.Done? { revision := wanted; }
    }

    /** The loop of `sync`. */
    method ReadPages(pages: seq<Page>, count: Option<nat>) returns (progress: Progress)
      requires Valid() && (count.Some? ==> nextSeq <= count.value)
      modifies this
      ensures Valid() && revision == old(revision) && seen == old(seen) + Taken(pages, old(nextSeq), count)
      ensures count.Some? ==> (progress.Done? <==> nextSeq == count.value)
    {
      hide TurnList, CallList, LastStart, LastEnd, LastRun, Numbered, PageTaken, PageFilled, Taken;
      assert pages[0..] == pages;
      var i := 0;
      while count.None? || nextSeq < count.value
        invariant Valid() && i <= |pages| && revision == old(revision)
        invariant seen + Taken(pages[i..], nextSeq, count) == old(seen) + Taken(pages, old(nextSeq), count)
        invariant count.Some? ==> nextSeq <= count.value
        decreases |pages| - i
      {
        TakenStep(pages, i, nextSeq, count);
        assert seen + [] == seen;
        if i == |pages| { return Reading; }
        ghost var before, taken := seen, PageTaken(pages[i], nextSeq, count);
        assert forall rest: seq<Event> :: before + (taken + rest) == before + taken + rest;
        var outcome := ReadPage(pages[i], count);
        if !outcome.Reading? { return outcome; }
        i := i + 1;
      }
      TakenStep(pages, i, nextSeq, count);
      assert seen + [] == seen;
      return Done;
    }

    method TurnStartAt(at: int) returns (time: Option<int>)
      requires Valid()
      ensures time == TurnAt(seen, at)
    {
      TurnListFits(seen);
      TurnListAnswers(seen, at);
      time := AtOrBefore(turns, at);
    }

    method ToolCallAt(id: string, at: int) returns (call: Option<Call>)
      requires Valid()
      ensures call == CallAt(seen, id, at)
    {
      CallListFits(seen, id);
      CallListAnswers(seen, id, at);
      call := AtOrBefore(if id in calls then calls[id] else [], at);
    }

    method CommandRun(id: string) returns (run: Option<string>)
      requires Valid()
      ensures run == LastRun(seen, id)
    {
      run := if id in commands then Some(commands[id]) else None;
    }
  }
}
