/**
 * The session picker's index: first prompt, title and activity of each
 * session, folded from whole logs and kept current by live events.
 */
module SessionList {
  import opened Options
  import opened JsText

  const DEFAULT_LIMIT := 100
  const INSPECTION_LANES := 2

  /** `Message` has no blocks where its content is not a list; a block without text is `None`. */
  datatype Kind = Message(fromUser: bool, blocks: seq<Option<string>>) | Title(title: Option<string>) | Other

  datatype Event = Event(time: int, kind: Kind)

  datatype Projection = Projection(firstPrompt: string, title: string, updatedAt: int)

  // ----- What a log says -----

  function Trimmed(text: Option<string>): string {
    if text.Some? then Trim(text.value) else ""
  }

  function FirstOf(blocks: seq<Option<string>>): string {
    if blocks == [] then "" else if Trimmed(blocks[0]) != "" then Trimmed(blocks[0]) else FirstOf(blocks[1..])
  }

  function PromptOf(e: Event): string {
    if e.kind.Message? && e.kind.fromUser then FirstOf(e.kind.blocks) else ""
  }

  function FirstPrompt(log: seq<Event>): string {
    if log == [] then "" else if PromptOf(log[0]) != "" then PromptOf(log[0]) else FirstPrompt(log[1..])
  }

  function TitleOf(e: Event): string {
    if e.kind.Title? then Trimmed(e.kind.title) else ""
  }

  function LastTitle(log: seq<Event>): string {
    if log == [] then ""
    else if TitleOf(log[|log| - 1]) != "" then TitleOf(log[|log| - 1])
    else LastTitle(log[..|log| - 1])
  }

  function Max(a: int, b: int): int {
    if a < b then b else a
  }

  function Latest(log: seq<Event>, createdAt: int): int {
    if log == [] then createdAt else Max(Latest(log[..|log| - 1], createdAt), log[|log| - 1].time)
  }

  function ProjectionOf(log: seq<Event>, createdAt: int): Projection {
    Projection(FirstPrompt(log), LastTitle(log), Latest(log, createdAt))
  }

  lemma {:induction false} FirstPromptNext(log: seq<Event>, e: Event)
    ensures FirstPrompt(log + [e]) == if FirstPrompt(log) != "" then FirstPrompt(log) else PromptOf(e)
    decreases |log|
  {
    if log == [] {
      assert [] + [e] == [e] && [e][1..] == [];
    } else {
      assert (log + [e])[1..] == log[1..] + [e];
      FirstPromptNext(log[1..], e);
    }
  }

  lemma LastNext(log: seq<Event>, e: Event, createdAt: int)
    ensures LastTitle(log + [e]) == if TitleOf(e) != "" then TitleOf(e) else LastTitle(log)
    ensures Latest(log + [e], createdAt) == Max(Latest(log, createdAt), e.time)
  {
    assert (log + [e])[..|log|] == log;
  }

  // ----- What those words mean -----

  /** Block `k` of event `i` is text of a user's own message that is not blank. */
  ghost predicate Speaks(log: seq<Event>, i: int, k: int) {
    && 0 <= i < |log| && log[i].kind.Message? && log[i].kind.fromUser
    && 0 <= k < |log[i].kind.blocks| && log[i].kind.blocks[k].Some? && !Blank(log[i].kind.blocks[k].value)
  }

  /** Nothing before block `k` of event `i` speaks. */
  ghost predicate Silent(log: seq<Event>, i: int, k: int) {
    && (forall j, l :: 0 <= j < i ==> !Speaks(log, j, l))
    && (forall l :: 0 <= l < k ==> !Speaks(log, i, l))
  }

  lemma TrimmedIs(text: Option<string>)
    ensures Trimmed(text) == "" <==> text.None? || Blank(text.value)
  {
    hide Blank, Trim;
    if text.Some? {
      var _, _ := TrimIs(text.value);
    }
  }

  lemma {:induction false} FirstOfIs(blocks: seq<Option<string>>) returns (k: nat)
    ensures k <= |blocks| && forall l :: 0 <= l < k ==> Trimmed(blocks[l]) == ""
    ensures FirstOf(blocks) == if k < |blocks| then Trimmed(blocks[k]) else ""
    ensures k < |blocks| ==> Trimmed(blocks[k]) != ""
    decreases |blocks|
  {
    hide Trimmed;
    k := 0;
    if blocks != [] && Trimmed(blocks[0]) == "" {
      k := FirstOfIs(blocks[1..]);
      k := k + 1;
    }
  }

  lemma {:induction false} FirstAmong(log: seq<Event>) returns (i: nat)
    ensures i <= |log| && forall j :: 0 <= j < i ==> PromptOf(log[j]) == ""
    ensures FirstPrompt(log) == if i < |log| then PromptOf(log[i]) else ""
    ensures i < |log| ==> PromptOf(log[i]) != ""
    decreases |log|
  {
    hide PromptOf;
    i := 0;
    if log != [] && PromptOf(log[0]) == "" {
      i := FirstAmong(log[1..]);
      i := i + 1;
    }
  }

  /** An event without a prompt says nothing in any block. */
  lemma PromptOfIs(log: seq<Event>, i: nat) returns (k: nat)
    requires i < |log|
    ensures PromptOf(log[i]) == "" ==> forall l :: !Speaks(log, i, l)
    ensures PromptOf(log[i]) != "" ==>
              Speaks(log, i, k) && PromptOf(log[i]) == Trim(log[i].kind.blocks[k].value) && forall l :: l < k ==> !Speaks(log, i, l)
  {
    k := 0;
    hide Trim, Blank, FirstOf;
    if log[i].kind.Message? && log[i].kind.fromUser {
      var blocks := log[i].kind.blocks;
      k := FirstOfIs(blocks);
      forall l | 0 <= l < |blocks|
        ensures Speaks(log, i, l) <==> Trimmed(blocks[l]) != ""
      {
        TrimmedIs(blocks[l]);
      }
    }
  }

  /** The first prompt is the first text a user wrote that is not blank, trimmed. */
  lemma {:induction false} FirstPromptIs(log: seq<Event>)
    ensures FirstPrompt(log) == "" <==> forall i, k :: !Speaks(log, i, k)
    ensures FirstPrompt(log) != "" ==>
              exists i, k :: Speaks(log, i, k) && FirstPrompt(log) == Trim(log[i].kind.blocks[k].value) && Silent(log, i, k)
  {
    var i := FirstAmong(log);
    forall j: nat | j < i && PromptOf(log[j]) == ""
      ensures forall l :: !Speaks(log, j, l)
    {
      var _ := PromptOfIs(log, j);
    }
    if i < |log| {
      var k := PromptOfIs(log, i);
      hide Trim, FirstPrompt, PromptOf, Blank;
      assert Silent(log, i, k);
    }
  }

  ghost predicate Names(e: Event) {
    e.kind.Title? && e.kind.title.Some? && !Blank(e.kind.title.value)
  }

  lemma TitleOfIs(e: Event)
    ensures TitleOf(e) == if Names(e) then Trim(e.kind.title.value) else ""
    ensures Names(e) <==> TitleOf(e) != ""
  {
    if e.kind.Title? { TrimmedIs(e.kind.title); }
    hide Blank, Trim;
  }

  /** The title is the latest one that is not blank, trimmed: that of event `n - 1`, if there is one. */
  lemma {:induction false} LastTitleIs(log: seq<Event>) returns (n: nat)
    ensures n <= |log| && (forall j :: n <= j < |log| ==> !Names(log[j]))
    ensures LastTitle(log) == if n == 0 then "" else TitleOf(log[n - 1])
    ensures n > 0 ==> Names(log[n - 1]) && LastTitle(log) == Trim(log[n - 1].kind.title.value)
    decreases |log|
  {
    if log == [] { return 0; }
    TitleOfIs(log[|log| - 1]);
    hide Names, TitleOf;
    if Names(log[|log| - 1]) { return |log|; }
    n := LastTitleIs(log[..|log| - 1]);
  }

  /** A session was last active at the latest of its times, creation included. */
  lemma {:induction false} LatestIs(log: seq<Event>, createdAt: int)
    ensures createdAt <= Latest(log, createdAt) && forall i :: 0 <= i < |log| ==> log[i].time <= Latest(log, createdAt)
    ensures Latest(log, createdAt) == createdAt || exists i :: 0 <= i < |log| && log[i].time == Latest(log, createdAt)
    decreases |log|
  {
    if log == [] { return; }
    var rest := log[..|log| - 1];
    LatestIs(rest, createdAt);
    if Latest(log, createdAt) == log[|log| - 1].time { return; }
    if Latest(rest, createdAt) != createdAt {
      var i :| 0 <= i < |rest| && rest[i].time == Latest(rest, createdAt);
      assert log[i].time == Latest(log, createdAt);
    }
  }

  method FirstUserPrompt(log: seq<Event>) returns (prompt: string)
    ensures prompt == FirstPrompt(log)
  {
    assert log[0..] == log;
    for i := 0 to |log|
      invariant FirstPrompt(log) == FirstPrompt(log[i..])
    {
      assert log[i..][1..] == log[i + 1..];
      if !log[i].kind.Message? || !log[i].kind.fromUser { continue; }
      var blocks := log[i].kind.blocks;
      assert blocks[0..] == blocks;
      for j := 0 to |blocks|
        invariant FirstOf(blocks) == FirstOf(blocks[j..])
      {
        assert blocks[j..][1..] == blocks[j + 1..];
        if blocks[j].Some? && |Trim(blocks[j].value)| > 0 { return Trim(blocks[j].value); }
      }
    }
    return "";
  }

  method FoldedSessionTitle(log: seq<Event>) returns (title: string)
    ensures title == LastTitle(log)
  {
    assert log[..|log|] == log;
    var index := |log|;
    while index > 0
      invariant 0 <= index <= |log| && LastTitle(log) == LastTitle(log[..index])
    {
      index := index - 1;
      assert log[..index + 1][..index] == log[..index];
      if !log[index].kind.Title? { continue; }
      var text := log[index].kind.title;
      if text.Some? && |Trim(text.value)| > 0 { return Trim(text.value); }
    }
    return "";
  }

  // ----- The index -----

  datatype Cached = Cached(id: string, prompt: string)

  /** `prompts` is the first-prompt cache, oldest entry first. */
  datatype Index = Index(prompts: seq<Cached>, limit: nat, seen: set<string>, revisions: map<string, string>,
                         titles: map<string, string>, activity: map<string, int>)

  function Find(prompts: seq<Cached>, id: string): Option<string> {
    if prompts == [] then None else if prompts[0].id == id then Some(prompts[0].prompt) else Find(prompts[1..], id)
  }

  function Without(prompts: seq<Cached>, id: string): seq<Cached> {
    if prompts == [] then []
    else (if prompts[0].id == id then [] else [prompts[0]]) + Without(prompts[1..], id)
  }

  /** The newest `limit` entries. */
  function Newest(prompts: seq<Cached>, limit: nat): seq<Cached> {
    if |prompts| > limit then prompts[|prompts| - limit..] else prompts
  }

  predicate Resident(s: Index, id: string) {
    Find(s.prompts, id).Some?
  }

  function Ids(prompts: seq<Cached>): set<string> {
    set c | c in prompts :: c.id
  }

  /** What falls out when only the newest `limit` entries stay. */
  function Dropped(prompts: seq<Cached>, limit: nat): seq<Cached> {
    if |prompts| > limit then prompts[..|prompts| - limit] else []
  }

  /** The updated list, before the cap. */
  function Renewed(prompts: seq<Cached>, id: string, prompt: string): seq<Cached> {
    Without(prompts, id) + [Cached(id, prompt)]
  }

  /** `cacheFirstPrompt`. */
  function CachePrompt(s: Index, id: string, prompt: string): Index {
    var prompts := Renewed(s.prompts, id, prompt);
    s.(prompts := Newest(prompts, s.limit), seen := if prompt == "" then s.seen else s.seen + {id},
       revisions := s.revisions - Ids(Dropped(prompts, s.limit)))
  }

  /** `cachedFirstPrompt`: reading an entry makes it the newest. */
  function Touch(s: Index, id: string): Index {
    if Resident(s, id) then s.(prompts := Renewed(s.prompts, id, Find(s.prompts, id).value)) else s
  }

  /** `recordInspection`. */
  function Inspect(s: Index, id: string, createdAt: int, log: seq<Event>): Index {
    var t := CachePrompt(s.(revisions := s.revisions - {id}), id, FirstPrompt(log));
    t.(titles := if LastTitle(log) == "" then s.titles - {id} else s.titles[id := LastTitle(log)],
       activity := s.activity[id := Latest(log, createdAt)])
  }

  /** An inspection that landed for a known revision of the log. */
  function Land(s: Index, id: string, createdAt: int, log: seq<Event>, revision: Option<string>): Index {
    var t := Inspect(s, id, createdAt, log);
    if revision.Some? && Resident(t, id) then t.(revisions := t.revisions[id := revision.value]) else t
  }

  /** `recordEvent`. */
  function Record(s: Index, id: string, createdAt: int, e: Event): Index {
    var t := s.(activity := s.activity[id := Max(if id in s.activity then s.activity[id] else createdAt, e.time)]);
    if TitleOf(e) != "" then t.(titles := t.titles[id := TitleOf(e)])
    else if e.kind.Message? && id !in t.seen then CachePrompt(t, id, PromptOf(e))
    else t
  }

  /** `retainFirstPrompts`; counts past 2^53 - 1 are not safe integers. */
  function Retain(s: Index, candidates: int): Index {
    if 0 < candidates < 0x20_0000_0000_0000 && |s.prompts| + candidates > s.limit then s.(limit := |s.prompts| + candidates) else s
  }

  /** `projection`, which also touches the entry. */
  function Shown(s: Index, id: string, createdAt: int): Projection {
    Projection(if Resident(s, id) then Find(s.prompts, id).value else "",
               if id in s.titles then s.titles[id] else "",
               if id in s.activity then s.activity[id] else createdAt)
  }

  datatype Action =
    | DoLand(id: string, createdAt: int, log: seq<Event>, revision: Option<string>)
    | DoRecord(id: string, createdAt: int, event: Event)
    | DoProject(id: string)
    | DoRetain(candidates: int)

  function Step(s: Index, a: Action): Index {
    match a
    case DoLand(id, createdAt, log, revision) => Land(s, id, createdAt, log, revision)
    case DoRecord(id, createdAt, e) => Record(s, id, createdAt, e)
    case DoProject(id) => Touch(s, id)
    case DoRetain(candidates) => Retain(s, candidates)
  }

  function Run(s: Index, actions: seq<Action>): Index
    decreases |actions|
  {
    if actions == [] then s else Run(Step(s, actions[0]), actions[1..])
  }

  const Fresh := Index([], DEFAULT_LIMIT, {}, map[], map[], map[])

  // ----- The cache -----

  ghost predicate Distinct(prompts: seq<Cached>) {
    forall i, j :: 0 <= i < j < |prompts| ==> prompts[i].id != prompts[j].id
  }

  /** The cache keeps to its cap, and a remembered revision has its entry. */
  ghost predicate Inv(s: Index) {
    Distinct(s.prompts) && |s.prompts| <= s.limit && s.revisions.Keys <= Ids(s.prompts)
  }

  lemma {:induction false} FindIs(prompts: seq<Cached>, id: string)
    ensures Find(prompts, id).Some? <==> id in Ids(prompts)
    ensures Find(prompts, id).Some? ==> Cached(id, Find(prompts, id).value) in prompts
    decreases |prompts|
  {
    if prompts == [] { return; }
    FindIs(prompts[1..], id);
    assert prompts == [prompts[0]] + prompts[1..];
    assert Ids(prompts) == {prompts[0].id} + Ids(prompts[1..]);
  }

  lemma {:induction false} FindOnly(prompts: seq<Cached>, c: Cached)
    requires Distinct(prompts) && c in prompts
    ensures Find(prompts, c.id) == Some(c.prompt)
    decreases |prompts|
  {
    assert prompts == [prompts[0]] + prompts[1..];
    if prompts[0] != c {
      assert c in prompts[1..];
      FindOnly(prompts[1..], c);
    }
  }

  lemma IdsCons(c: Cached, rest: seq<Cached>)
    ensures Ids([c] + rest) == {c.id} + Ids(rest)
    ensures Distinct([c] + rest) <==> Distinct(rest) && c.id !in Ids(rest)
  {
    var list := [c] + rest;
    assert list[0] == c && list[1..] == rest;
    if Distinct(list) {
      forall x | x in rest
        ensures x.id != c.id
      {
        var k :| 0 <= k < |rest| && rest[k] == x;
        assert list[k + 1] == x;
      }
    }
  }

  lemma WithoutHas(prompts: seq<Cached>, id: string)
    ensures forall c :: c in Without(prompts, id) <==> c in prompts && c.id != id
    decreases |prompts|
  {
    if prompts != [] {
      WithoutHas(prompts[1..], id);
      assert prompts == [prompts[0]] + prompts[1..];
    }
  }

  lemma {:induction false} WithoutIs(prompts: seq<Cached>, id: string)
    requires Distinct(prompts)
    ensures Distinct(Without(prompts, id))
    ensures |Without(prompts, id)| == |prompts| - if id in Ids(prompts) then 1 else 0
    decreases |prompts|
  {
    if prompts == [] { return; }
    var rest := prompts[1..];
    assert prompts == [prompts[0]] + rest;
    IdsCons(prompts[0], rest);
    WithoutIs(rest, id);
    IdsCons(prompts[0], Without(rest, id));
    WithoutHas(rest, id);
    NotIn(rest, id);
    hide Distinct;
    assert [] + Without(rest, id) == Without(rest, id);
  }

  lemma NotIn(prompts: seq<Cached>, id: string)
    ensures forall x :: x in Ids(Without(prompts, id)) ==> x in Ids(prompts)
  {
    WithoutHas(prompts, id);
  }

  lemma RenewedIs(prompts: seq<Cached>, id: string, prompt: string)
    requires Distinct(prompts)
    ensures var list := Renewed(prompts, id, prompt);
            && Distinct(list) && Ids(list) == Ids(prompts) + {id}
            && |list| == |prompts| + (if id in Ids(prompts) then 0 else 1)
            && (forall c :: c in list <==> c == Cached(id, prompt) || (c in prompts && c.id != id))
  {
    WithoutIs(prompts, id);
    WithoutHas(prompts, id);
    var list := Renewed(prompts, id, prompt);
    forall x
      ensures x in Ids(list) <==> x in Ids(prompts) + {id}
    {
      if x in Ids(prompts) && x != id {
        var c :| c in prompts && c.id == x;
        assert c in list;
      }
      if x == id { assert Cached(id, prompt) in list; }
    }
  }

  lemma NewestIs(list: seq<Cached>, limit: nat)
    requires Distinct(list)
    ensures Distinct(Newest(list, limit)) && |Newest(list, limit)| <= limit
    ensures Ids(Newest(list, limit)) == Ids(list) - Ids(Dropped(list, limit))
    ensures forall c :: c in Newest(list, limit) ==> c in list
  {
    var kept, dropped := Newest(list, limit), Dropped(list, limit);
    assert list == dropped + kept;
    forall x
      ensures x in Ids(kept) <==> x in Ids(list) && x !in Ids(dropped)
    {
      if x in Ids(kept) {
        var k :| 0 <= k < |kept| && kept[k].id == x;
        assert list[|dropped| + k] == kept[k];
        assert forall i :: 0 <= i < |dropped| ==> list[i] == dropped[i];
      }
    }
  }

  lemma CacheKeeps(s: Index, id: string, prompt: string)
    requires Inv(s)
    ensures Inv(CachePrompt(s, id, prompt))
  {
    var list := Renewed(s.prompts, id, prompt);
    RenewedIs(s.prompts, id, prompt);
    NewestIs(list, s.limit);
    hide Distinct, Ids, Newest, Dropped;
  }

  lemma TouchKeeps(s: Index, id: string)
    requires Inv(s)
    ensures Inv(Touch(s, id)) && Ids(Touch(s, id).prompts) == Ids(s.prompts)
    ensures forall x :: Find(Touch(s, id).prompts, x) == Find(s.prompts, x)
  {
    FindIs(s.prompts, id);
    if Resident(s, id) {
      var prompt := Find(s.prompts, id).value;
      var list := Renewed(s.prompts, id, prompt);
      RenewedIs(s.prompts, id, prompt);
      hide Distinct, Ids;
      forall x
        ensures Find(list, x) == Find(s.prompts, x)
      {
        SameFind(s.prompts, list, x);
      }
    }
  }

  lemma SameFind(a: seq<Cached>, b: seq<Cached>, x: string)
    requires Distinct(a) && Distinct(b) && Ids(a) == Ids(b) && forall c :: c in b ==> c in a
    ensures Find(b, x) == Find(a, x)
  {
    FindIs(a, x);
    FindIs(b, x);
    hide Ids, Find;
    if x in Ids(a) {
      FindOnly(a, Cached(x, Find(b, x).value));
    }
  }

  /** What caching does to a lookup: the new entry is found if any entry may stay, and no other entry changes its prompt. */
  lemma CacheFind(s: Index, id: string, prompt: string, x: string)
    requires Inv(s)
    ensures var found := Find(CachePrompt(s, id, prompt).prompts, x);
            found.None? || found == if x == id then Some(prompt) else Find(s.prompts, x)
    ensures x == id && s.limit > 0 ==> Find(CachePrompt(s, id, prompt).prompts, x).Some?
  {
    var list := Renewed(s.prompts, id, prompt);
    RenewedIs(s.prompts, id, prompt);
    NewestIs(list, s.limit);
    var kept := Newest(list, s.limit);
    FindIs(kept, x);
    if s.limit > 0 { assert kept[|kept| - 1] == Cached(id, prompt); }
    if Find(kept, x).Some? && x != id { FindOnly(s.prompts, Cached(x, Find(kept, x).value)); }
  }

  lemma LandKeeps(s: Index, id: string, createdAt: int, log: seq<Event>, revision: Option<string>)
    requires Inv(s)
    ensures Inv(Land(s, id, createdAt, log, revision))
  {
    CacheKeeps(s.(revisions := s.revisions - {id}), id, FirstPrompt(log));
    FindIs(Inspect(s, id, createdAt, log).prompts, id);
    hide Distinct, FirstPrompt, LastTitle, Latest, CachePrompt, Ids;
  }

  lemma {:induction false} StepKeeps(s: Index, a: Action)
    requires Inv(s)
    ensures Inv(Step(s, a))
  {
    match a
    case DoLand(id, createdAt, log, revision) => hide Inv, Land; LandKeeps(s, id, createdAt, log, revision);
    case DoRecord(id, createdAt, e) => CacheKeeps(s.(activity := Record(s, id, createdAt, e).activity), id, PromptOf(e));
    case DoProject(id) => hide Inv, Touch; TouchKeeps(s, id);
    case DoRetain(candidates) => hide Distinct, Ids;
  }

  lemma {:induction false} RunKeeps(s: Index, actions: seq<Action>)
    requires Inv(s)
    ensures Inv(Run(s, actions))
    decreases |actions|
  {
    hide Inv, Step;
    if actions != [] {
      StepKeeps(s, actions[0]);
      RunKeeps(Step(s, actions[0]), actions[1..]);
    }
  }

  lemma FreshInv()
    ensures Inv(Fresh)
  {
  }

  // ----- Which entries go -----

  /** The session whose entry a step reads or writes. */
  function Uses(s: Index, a: Action): seq<string> {
    match a
    case DoLand(id, _, _, _) => [id]
    case DoRecord(id, _, e) => if e.kind.Message? && id !in s.seen then [id] else []
    case DoProject(id) => if Resident(s, id) then [id] else []
    case DoRetain(_) => []
  }

  function UsesOf(s: Index, actions: seq<Action>): seq<string>
    decreases |actions|
  {
    if actions == [] then [] else Uses(s, actions[0]) + UsesOf(Step(s, actions[0]), actions[1..])
  }

  /** How much had been used when `id` last was, itself included. */
  function LastUse(uses: seq<string>, id: string): nat {
    if uses == [] then 0 else if uses[|uses| - 1] == id then |uses| else LastUse(uses[..|uses| - 1], id)
  }

  lemma LastUseNext(uses: seq<string>, x: string, id: string)
    ensures LastUse(uses + [x], id) == if id == x then |uses| + 1 else LastUse(uses, id)
  {
    assert (uses + [x])[..|uses|] == uses;
  }

  lemma {:induction false} LastUseIs(uses: seq<string>, id: string)
    ensures LastUse(uses, id) <= |uses| && (LastUse(uses, id) == 0 <==> id !in uses)
    ensures LastUse(uses, id) > 0 ==> uses[LastUse(uses, id) - 1] == id && id !in uses[LastUse(uses, id)..]
    decreases |uses|
  {
    if uses == [] { return; }
    var rest, last := uses[..|uses| - 1], uses[|uses| - 1];
    LastUseIs(rest, id);
    assert uses == rest + [last];
    if last != id && LastUse(rest, id) > 0 {
      assert uses[LastUse(rest, id)..] == rest[LastUse(rest, id)..] + [last];
    }
  }

  /** `id` was last used before each of these. */
  ghost predicate Before(uses: seq<string>, id: string, prompts: seq<Cached>) {
    forall c :: c in prompts ==> LastUse(uses, id) < LastUse(uses, c.id)
  }

  ghost predicate ByUse(prompts: seq<Cached>, uses: seq<string>) {
    prompts == [] || (Before(uses, prompts[0].id, prompts[1..]) && ByUse(prompts[1..], uses))
  }

  /** Entries stand in the order of their last use, and what is not resident was last used before all of them. */
  ghost predicate Recent(prompts: seq<Cached>, uses: seq<string>) {
    ByUse(prompts, uses) && forall id :: id !in Ids(prompts) ==> Before(uses, id, prompts)
  }

  /** The entry that is used moves behind the others. */
  lemma {:induction false} WithoutByUse(prompts: seq<Cached>, uses: seq<string>, c: Cached)
    requires ByUse(prompts, uses)
    ensures ByUse(Without(prompts, c.id) + [c], uses + [c.id])
    decreases |prompts|
  {
    if prompts == [] {
      assert [] + [c] == [c];
      return;
    }
    var first, rest, longer := prompts[0], Without(prompts[1..], c.id), uses + [c.id];
    WithoutByUse(prompts[1..], uses, c);
    hide ByUse;
    assert [] + rest == rest;
    if first.id == c.id { return; }
    WithoutHas(prompts[1..], c.id);
    LastUseNext(uses, c.id, first.id);
    LastUseIs(uses, first.id);
    forall d | d in rest + [c]
      ensures LastUse(longer, first.id) < LastUse(longer, d.id)
    {
      LastUseNext(uses, c.id, d.id);
    }
    assert Without(prompts, c.id) + [c] == [first] + (rest + [c]);
    ByUseCons(first, rest + [c], longer);
  }

  lemma ByUseCons(first: Cached, rest: seq<Cached>, uses: seq<string>)
    requires Before(uses, first.id, rest) && ByUse(rest, uses)
    ensures ByUse([first] + rest, uses)
  {
    assert ([first] + rest)[1..] == rest;
  }

  lemma RenewedByUse(prompts: seq<Cached>, uses: seq<string>, id: string, prompt: string)
    requires Distinct(prompts) && Recent(prompts, uses)
    ensures Recent(Renewed(prompts, id, prompt), uses + [id])
  {
    var list := Renewed(prompts, id, prompt);
    WithoutByUse(prompts, uses, Cached(id, prompt));
    RenewedIs(prompts, id, prompt);
    hide Distinct, Ids, ByUse, Renewed;
    forall x, c | x !in Ids(list) && c in list
      ensures LastUse(uses + [id], x) < LastUse(uses + [id], c.id)
    {
      LastUseNext(uses, id, x);
      LastUseNext(uses, id, c.id);
      LastUseIs(uses, x);
    }
  }

  lemma OldestGoes(list: seq<Cached>, uses: seq<string>)
    requires list != [] && Distinct(list) && Recent(list, uses)
    ensures Distinct(list[1..]) && Recent(list[1..], uses)
  {
    var first, rest := list[0], list[1..];
    assert list == [first] + rest;
    IdsCons(first, rest);
    hide Distinct, Ids;
    forall x | x !in Ids(rest)
      ensures Before(uses, x, rest)
    {
      if x != first.id { assert Before(uses, x, list); }
    }
  }

  lemma {:induction false} NewestByUse(list: seq<Cached>, uses: seq<string>, limit: nat)
    requires Distinct(list) && Recent(list, uses)
    ensures Recent(Newest(list, limit), uses)
    decreases |list|
  {
    if |list| > limit {
      OldestGoes(list, uses);
      hide Recent, Distinct;
      assert list[1..][|list| - 1 - limit..] == list[|list| - limit..];
      assert list[1..][0..] == list[1..];
      NewestByUse(list[1..], uses, limit);
    }
  }

  lemma CacheByUse(s: Index, uses: seq<string>, id: string, prompt: string)
    requires Inv(s) && Recent(s.prompts, uses)
    ensures Recent(CachePrompt(s, id, prompt).prompts, uses + [id])
  {
    hide Recent, Distinct;
    RenewedIs(s.prompts, id, prompt);
    RenewedByUse(s.prompts, uses, id, prompt);
    NewestByUse(Renewed(s.prompts, id, prompt), uses + [id], s.limit);
  }

  lemma StepByUse(s: Index, uses: seq<string>, a: Action)
    requires Inv(s) && Recent(s.prompts, uses)
    ensures Recent(Step(s, a).prompts, uses + Uses(s, a))
  {
    assert uses + [] == uses;
    match a
    case DoLand(id, createdAt, log, revision) =>
      CacheByUse(s.(revisions := s.revisions - {id}), uses, id, FirstPrompt(log));
      hide Recent, Inv, CachePrompt, FirstPrompt, LastTitle, Latest;
    case DoRecord(id, createdAt, e) =>
      var t := s.(activity := Record(s, id, createdAt, e).activity);
      CacheByUse(t, uses, id, PromptOf(e));
      assert e.kind.Message? ==> TitleOf(e) == "";
      hide Recent, Inv, CachePrompt, PromptOf, TitleOf;
    case DoProject(id) =>
      if Resident(s, id) { RenewedByUse(s.prompts, uses, id, Find(s.prompts, id).value); }
      hide Recent, Inv, Find;
    case DoRetain(_) => hide Recent, Inv;
  }

  lemma {:induction false} RunByUse(s: Index, uses: seq<string>, actions: seq<Action>)
    requires Inv(s) && Recent(s.prompts, uses)
    ensures Recent(Run(s, actions).prompts, uses + UsesOf(s, actions))
    decreases |actions|
  {
    hide Inv, Recent, Step, Uses;
    if actions == [] {
      assert uses + [] == uses;
      return;
    }
    var t, more := Step(s, actions[0]), Uses(s, actions[0]);
    StepKeeps(s, actions[0]);
    StepByUse(s, uses, actions[0]);
    RunByUse(t, uses + more, actions[1..]);
    assert uses + more + UsesOf(t, actions[1..]) == uses + (more + UsesOf(t, actions[1..]));
  }

  /** In every run the least recently used entries go first. */
  lemma {:induction false} LeastRecentGoes(actions: seq<Action>)
    ensures Recent(Run(Fresh, actions).prompts, UsesOf(Fresh, actions))
  {
    assert [] + UsesOf(Fresh, actions) == UsesOf(Fresh, actions);
    RunByUse(Fresh, [], actions);
  }

  /** An entry goes only to make room for another in a cache that stays full. */
  lemma {:induction false} GoesForRoom(s: Index, a: Action, id: string)
    requires Inv(s) && Resident(s, id) && !Resident(Step(s, a), id)
    ensures |Step(s, a).prompts| == Step(s, a).limit == s.limit && |Uses(s, a)| == 1
    ensures s.limit > 0 ==> Uses(s, a) != [id] && Resident(Step(s, a), Uses(s, a)[0])
  {
    match a
    case DoLand(x, createdAt, log, revision) =>
      CacheRoom(s.(revisions := s.revisions - {x}), x, FirstPrompt(log), id);
      hide CachePrompt, FirstPrompt, LastTitle, Latest, Inv, Find;
    case DoRecord(x, createdAt, e) =>
      CacheRoom(s.(activity := Record(s, x, createdAt, e).activity), x, PromptOf(e), id);
      assert e.kind.Message? ==> TitleOf(e) == "";
      hide CachePrompt, PromptOf, TitleOf, Inv, Find;
    case DoProject(x) =>
      TouchKeeps(s, x);
      assert false;
    case DoRetain(_) => assert false;
  }

  lemma CacheRoom(s: Index, x: string, prompt: string, id: string)
    requires Inv(s) && Resident(s, id)
    ensures var t := CachePrompt(s, x, prompt);
            && (s.limit > 0 ==> Resident(t, x))
            && (!Resident(t, id) ==> |t.prompts| == s.limit)
  {
    CacheFind(s, x, prompt, x);
    RenewedIs(s.prompts, x, prompt);
    var list := Renewed(s.prompts, x, prompt);
    FindIs(s.prompts, id);
    FindIs(list, id);
    hide Renewed, Find, Distinct, Ids;
  }

  // ----- The index against the log -----

  /**
   * The index holds what `known` says of a session; only its first prompt may
   * have been evicted. `blind` says that a prompt was seen once that `known`
   * lacks, so that no later event is looked at for one.
   */
  ghost predicate Reflects(s: Index, id: string, createdAt: int, known: seq<Event>, blind: bool) {
    && (Resident(s, id) ==> Find(s.prompts, id).value == if blind then "" else FirstPrompt(known))
    && (id in s.seen <==> blind || FirstPrompt(known) != "")
    && (if id in s.titles then s.titles[id] else "") == LastTitle(known)
    && (if id in s.activity then s.activity[id] else createdAt) == Latest(known, createdAt)
  }

  /** Everything the index holds about a session agrees with its log. */
  ghost predicate Tracks(s: Index, id: string, createdAt: int, log: seq<Event>) {
    Reflects(s, id, createdAt, log, false)
  }

  /** An index that tracks a log shows its projection, exactly unless a prompt was evicted. */
  lemma TracksShown(s: Index, id: string, createdAt: int, log: seq<Event>)
    requires Tracks(s, id, createdAt, log)
    ensures Shown(s, id, createdAt) == ProjectionOf(log, createdAt) <==> Resident(s, id) || FirstPrompt(log) == ""
    ensures Shown(s, id, createdAt).title == LastTitle(log) && Shown(s, id, createdAt).updatedAt == Latest(log, createdAt)
  {
  }

  lemma {:induction false} FirstPromptJoin(a: seq<Event>, b: seq<Event>)
    ensures FirstPrompt(a + b) == if FirstPrompt(a) != "" then FirstPrompt(a) else FirstPrompt(b)
    decreases |a|
  {
    if a == [] {
      assert a + b == b;
    } else {
      assert (a + b)[0] == a[0] && (a + b)[1..] == a[1..] + b;
      FirstPromptJoin(a[1..], b);
    }
  }

  lemma {:induction false} LastTitleJoin(a: seq<Event>, b: seq<Event>)
    ensures LastTitle(a + b) == if LastTitle(b) != "" then LastTitle(b) else LastTitle(a)
    decreases |b|
  {
    if b == [] {
      assert a + b == a;
    } else {
      assert (a + b)[..|a + b| - 1] == a + b[..|b| - 1];
      LastTitleJoin(a, b[..|b| - 1]);
    }
  }

  /** Later events leave the latest time alone exactly when none of them is later. */
  lemma {:induction false} LatestJoin(a: seq<Event>, b: seq<Event>, createdAt: int)
    ensures Latest(a + b, createdAt) >= Latest(a, createdAt)
    ensures Latest(a + b, createdAt) == Latest(a, createdAt) <==> forall i :: 0 <= i < |b| ==> b[i].time <= Latest(a, createdAt)
    decreases |b|
  {
    if b == [] {
      assert a + b == a;
    } else {
      var rest := b[..|b| - 1];
      assert (a + b)[..|a + b| - 1] == a + rest;
      LatestJoin(a, rest, createdAt);
      assert forall i :: 0 <= i < |rest| ==> rest[i] == b[i];
    }
  }

  /** Whatever was recorded before, a landed inspection leaves what its own log says. */
  lemma LandReflects(s: Index, id: string, createdAt: int, log: seq<Event>, revision: Option<string>)
    requires Inv(s)
    ensures Reflects(Land(s, id, createdAt, log, revision), id, createdAt, log, id in s.seen && FirstPrompt(log) == "")
    ensures Resident(Land(s, id, createdAt, log, revision), id) <==> s.limit > 0
  {
    CacheFind(s.(revisions := s.revisions - {id}), id, FirstPrompt(log), id);
    if s.limit == 0 { NoRoom(s.(revisions := s.revisions - {id}), id, FirstPrompt(log)); }
    hide FirstPrompt, LastTitle, Latest, Newest, Without, Renewed, Dropped, Ids, Distinct, Find, Inv;
  }

  lemma NoRoom(s: Index, id: string, prompt: string)
    requires s.limit == 0
    ensures CachePrompt(s, id, prompt).prompts == []
  {
  }

  /**
   * What the events an inspection missed may hold without its landing hurting:
   * a first prompt only behind one that was read, no other title, no later time.
   */
  predicate Harmless(log: seq<Event>, missed: seq<Event>, createdAt: int) {
    && (FirstPrompt(log) != "" || FirstPrompt(missed) == "")
    && (LastTitle(missed) == "" || LastTitle(missed) == LastTitle(log))
    && forall i :: 0 <= i < |missed| ==> missed[i].time <= Latest(log, createdAt)
  }

  lemma HarmlessIs(log: seq<Event>, missed: seq<Event>, createdAt: int)
    ensures Harmless(log, missed, createdAt) <==> ProjectionOf(log, createdAt) == ProjectionOf(log + missed, createdAt)
  {
    FirstPromptJoin(log, missed);
    LastTitleJoin(log, missed);
    LatestJoin(log, missed, createdAt);
  }

  /**
   * A landed inspection agrees with the whole log if and only if the events it
   * missed are harmless and no prompt had been seen that even they lack.
   */
  lemma {:induction false} InspectTracks(s: Index, id: string, createdAt: int, log: seq<Event>, missed: seq<Event>,
                                         revision: Option<string>)
    requires Inv(s) && s.limit > 0
    ensures Tracks(Land(s, id, createdAt, log, revision), id, createdAt, log + missed)
            <==> Harmless(log, missed, createdAt) && (id in s.seen ==> FirstPrompt(log + missed) != "")
  {
    LandReflects(s, id, createdAt, log, revision);
    HarmlessIs(log, missed, createdAt);
    FirstPromptJoin(log, missed);
    hide FirstPrompt, LastTitle, Latest, Land, Harmless, Inv;
  }

  lemma LandOthers(s: Index, id: string, createdAt: int, log: seq<Event>, revision: Option<string>, x: string)
    requires Inv(s) && x != id
    ensures var t := Land(s, id, createdAt, log, revision);
            && (Find(t.prompts, x).None? || Find(t.prompts, x) == Find(s.prompts, x)) && (x in t.seen <==> x in s.seen)
            && (x in t.titles <==> x in s.titles) && (x in t.titles ==> t.titles[x] == s.titles[x])
            && (x in t.activity <==> x in s.activity) && (x in t.activity ==> t.activity[x] == s.activity[x])
  {
    CacheFind(s.(revisions := s.revisions - {id}), id, FirstPrompt(log), x);
    hide FirstPrompt, LastTitle, Latest, Newest, Without, Dropped, Ids, Distinct, Find, Inv;
  }

  lemma RecordOthers(s: Index, id: string, createdAt: int, e: Event, x: string)
    requires Inv(s) && x != id
    ensures var t := Record(s, id, createdAt, e);
            && (Find(t.prompts, x).None? || Find(t.prompts, x) == Find(s.prompts, x)) && (x in t.seen <==> x in s.seen)
            && (x in t.titles <==> x in s.titles) && (x in t.titles ==> t.titles[x] == s.titles[x])
            && (x in t.activity <==> x in s.activity) && (x in t.activity ==> t.activity[x] == s.activity[x])
  {
    CacheFind(s.(activity := Record(s, id, createdAt, e).activity), id, PromptOf(e), x);
    hide PromptOf, TitleOf, Newest, Without, Dropped, Ids, Distinct, Find, Inv;
  }

  /** A message adds a first prompt only where none was seen. */
  lemma PromptReflects(s: Index, id: string, known: seq<Event>, e: Event)
    requires Inv(s) && FirstPrompt(known) == "" && id !in s.seen
    ensures var t := CachePrompt(s, id, PromptOf(e));
            && (Resident(t, id) ==> Find(t.prompts, id).value == FirstPrompt(known + [e]))
            && (id in t.seen <==> FirstPrompt(known + [e]) != "")
  {
    FirstPromptNext(known, e);
    CacheFind(s, id, PromptOf(e), id);
    hide FirstPrompt, PromptOf, Newest, Renewed, Dropped, Ids, Inv, Find;
  }

  /** What a live event does to the title and the activity. */
  lemma TitleReflects(s: Index, id: string, createdAt: int, known: seq<Event>, e: Event)
    requires (if id in s.titles then s.titles[id] else "") == LastTitle(known)
    requires (if id in s.activity then s.activity[id] else createdAt) == Latest(known, createdAt)
    ensures var t := Record(s, id, createdAt, e);
            && (if id in t.titles then t.titles[id] else "") == LastTitle(known + [e])
            && (if id in t.activity then t.activity[id] else createdAt) == Latest(known + [e], createdAt)
  {
    LastNext(known, e, createdAt);
    hide LastTitle, Latest, PromptOf, TitleOf, Newest, Renewed, Dropped, Ids;
  }

  lemma RecordReflects(s: Index, id: string, createdAt: int, known: seq<Event>, blind: bool, e: Event)
    requires Inv(s) && Reflects(s, id, createdAt, known, blind)
    ensures Reflects(Record(s, id, createdAt, e), id, createdAt, known + [e], blind)
  {
    TitleReflects(s, id, createdAt, known, e);
    if FirstPrompt(known) == "" && id !in s.seen {
      PromptReflects(s.(activity := Record(s, id, createdAt, e).activity), id, known, e);
    }
    FirstPromptNext(known, e);
    assert TitleOf(e) != "" || !e.kind.Message? ==> PromptOf(e) == "";
    assert e.kind.Message? ==> TitleOf(e) == "";
    hide FirstPrompt, LastTitle, Latest, PromptOf, TitleOf, Newest, Renewed, Dropped, Ids, Find, Inv, CachePrompt;
  }

  /** What is done for one session leaves every other as it was, evictions aside. */
  lemma OtherReflects(s: Index, a: Action, id: string, createdAt: int, known: seq<Event>, blind: bool)
    requires Inv(s) && Reflects(s, id, createdAt, known, blind) && (a.DoProject? || a.DoRetain? || a.id != id)
    ensures Reflects(Step(s, a), id, createdAt, known, blind)
  {
    hide FirstPrompt, LastTitle, Latest, Find, Land, Record, Inv;
    match a
    case DoLand(x, c, l, r) => LandOthers(s, x, c, l, r, id);
    case DoRecord(x, c, e) => RecordOthers(s, x, c, e, id);
    case DoProject(x) => TouchKeeps(s, x);
    case DoRetain(_) =>
  }

  /** A missed prompt: the older log is shown, and no later event repairs the first prompt. */
  lemma {:induction false} StaleInspection(id: string, createdAt: int, text: string, later: Event)
    requires Trim(text) != "" && later.kind.Message?
    ensures var prompt := Event(createdAt, Message(true, [Some(text)]));
            var s := Run(Fresh, [DoRecord(id, createdAt, prompt), DoLand(id, createdAt, [], None), DoRecord(id, createdAt, later)]);
            Shown(s, id, createdAt).firstPrompt == "" && FirstPrompt([prompt, later]) == Trim(text)
  {
    var prompt := Event(createdAt, Message(true, [Some(text)]));
    assert PromptOf(prompt) == Trim(text);
    var a, b, c := DoRecord(id, createdAt, prompt), DoLand(id, createdAt, [], None), DoRecord(id, createdAt, later);
    var s1 := Step(Fresh, a);
    assert id in s1.seen;
    StepKeeps(Fresh, a);
    CacheFind(s1.(revisions := s1.revisions - {id}), id, "", id);
    var s2 := Step(s1, b);
    assert id in s2.seen && Find(s2.prompts, id) == Some("");
    var s3 := Step(s2, c);
    assert s3.prompts == s2.prompts;
    hide Step;
    assert [a, b, c][1..] == [b, c] && [b, c][1..] == [c] && [c][1..] == [];
    assert Run(s2, [c]) == Run(s3, []);
    assert Run(s1, [b, c]) == Run(s2, [c]);
    assert Run(Fresh, [a, b, c]) == Run(s1, [b, c]);
  }

  // ----- A pass over the picker -----

  predicate Within(a: Action, candidates: set<string>) {
    !a.DoRetain? && a.id in candidates
  }

  ghost predicate Roomy(s: Index, home: set<string>, all: set<string>) {
    Inv(s) && home <= Ids(s.prompts) <= all && |all| <= s.limit
  }

  lemma {:induction false} IdsSize(prompts: seq<Cached>)
    requires Distinct(prompts)
    ensures |Ids(prompts)| == |prompts|
    decreases |prompts|
  {
    if prompts == [] {
      assert Ids(prompts) == {};
    } else {
      var rest := prompts[1..];
      assert prompts == [prompts[0]] + rest;
      IdsSize(rest);
      assert Ids(prompts) == {prompts[0].id} + Ids(rest);
    }
  }

  lemma {:induction false} SubsetSize(a: set<string>, b: set<string>)
    requires a <= b
    ensures |a| <= |b|
    decreases |a|
  {
    if a != {} {
      var x :| x in a;
      SubsetSize(a - {x}, b - {x});
    }
  }

  lemma CacheFits(s: Index, id: string, prompt: string, home: set<string>, all: set<string>)
    requires Roomy(s, home, all) && id in all
    ensures Roomy(CachePrompt(s, id, prompt), home, all) && Ids(CachePrompt(s, id, prompt).prompts) == Ids(s.prompts) + {id}
  {
    CacheKeeps(s, id, prompt);
    RenewedIs(s.prompts, id, prompt);
    var list := Renewed(s.prompts, id, prompt);
    IdsSize(list);
    SubsetSize(Ids(list), all);
    hide Inv, Ids, Distinct;
  }

  lemma StepFits(s: Index, a: Action, home: set<string>, all: set<string>)
    requires Roomy(s, home, all) && !a.DoRetain? && a.id in all
    ensures Roomy(Step(s, a), home, all) && Ids(s.prompts) <= Ids(Step(s, a).prompts)
  {
    StepKeeps(s, a);
    match a
    case DoLand(id, createdAt, log, revision) =>
      CacheFits(s.(revisions := s.revisions - {id}), id, FirstPrompt(log), home, all);
      hide Inv, Ids, CachePrompt, FirstPrompt, LastTitle, Latest, Resident;
    case DoRecord(id, createdAt, e) =>
      CacheFits(s.(activity := Record(s, id, createdAt, e).activity), id, PromptOf(e), home, all);
      hide Inv, Ids, CachePrompt, PromptOf, TitleOf;
    case DoProject(id) => TouchKeeps(s, id);
  }

  lemma {:induction false} RunFits(s: Index, actions: seq<Action>, home: set<string>, all: set<string>)
    requires Roomy(s, home, all) && forall a :: a in actions ==> Within(a, all)
    ensures Roomy(Run(s, actions), home, all)
    decreases |actions|
  {
    hide Roomy, Step;
    if actions == [] { return; }
    assert actions[0] in actions;
    StepFits(s, actions[0], home, all);
    RunFits(Step(s, actions[0]), actions[1..], home, all);
  }

  /** A pass announced for its candidates evicts nothing: neither what was resident nor what the pass itself adds. */
  lemma {:induction false} PassEvictsNothing(s: Index, candidates: set<string>, first: seq<Action>, rest: seq<Action>)
    requires Inv(s) && 0 < |candidates| < 0x20_0000_0000_0000
    requires forall a :: a in first + rest ==> Within(a, candidates)
    ensures var t := Run(Retain(s, |candidates|), first);
            Ids(s.prompts) <= Ids(t.prompts) <= Ids(Run(t, rest).prompts)
  {
    var r, all := Retain(s, |candidates|), Ids(s.prompts) + candidates;
    IdsSize(s.prompts);
    assert |all| <= |s.prompts| + |candidates|;
    assert Roomy(r, Ids(s.prompts), all);
    forall a | a in first
      ensures Within(a, all)
    {
      assert a in first + rest;
    }
    RunFits(r, first, Ids(s.prompts), all);
    var t := Run(r, first);
    forall a | a in rest
      ensures Within(a, all)
    {
      assert a in first + rest;
    }
    RunFits(t, rest, Ids(t.prompts), all);
  }

  // ----- The caches in place -----

  lemma IdsGrow(list: seq<Cached>, k: nat)
    requires k < |list|
    ensures Ids(list[..k + 1]) == Ids(list[..k]) + {list[k].id}
  {
    assert list[..k + 1] == list[..k] + [list[k]];
  }

  class SessionListIndex {
    var firstPromptCache: seq<Cached>
    var firstPromptCacheLimit: nat
    var firstPromptSeen: set<string>
    var revisions: map<string, string>
    var sessionTitleCache: map<string, string>
    var sessionActivityCache: map<string, int>

    ghost function View(): Index
      reads this
    {
      Index(firstPromptCache, firstPromptCacheLimit, firstPromptSeen, revisions, sessionTitleCache, sessionActivityCache)
    }

    constructor ()
      ensures View() == Fresh
    {
      firstPromptCache, firstPromptCacheLimit, firstPromptSeen, revisions := [], DEFAULT_LIMIT, {}, map[];
      sessionTitleCache, sessionActivityCache := map[], map[];
    }

    /** The map's oldest entries go while it is over its cap. */
    method CacheFirstPrompt(id: string, prompt: string)
      modifies `firstPromptCache, `firstPromptSeen, `revisions
      ensures View() == CachePrompt(old(View()), id, prompt)
    {
      firstPromptCache := Without(firstPromptCache, id);
      if prompt != "" { firstPromptSeen := firstPromptSeen + {id}; }
      firstPromptCache := firstPromptCache + [Cached(id, prompt)];
      EvictOldest();
    }

    method EvictOldest()
      modifies `firstPromptCache, `revisions
      ensures firstPromptCache == Newest(old(firstPromptCache), firstPromptCacheLimit)
      ensures revisions == old(revisions) - Ids(Dropped(old(firstPromptCache), firstPromptCacheLimit))
    {
      ghost var list, k := firstPromptCache, 0;
      while |firstPromptCache| > firstPromptCacheLimit
        invariant k <= |list| && firstPromptCache == list[k..] && (k > 0 ==> |list| - k >= firstPromptCacheLimit)
        invariant revisions == old(revisions) - Ids(list[..k])
      {
        var oldest := firstPromptCache[0].id;
        firstPromptCache := firstPromptCache[1..];
        IdsGrow(list, k);
        hide Ids;
        revisions := revisions - {oldest};
        k := k + 1;
      }
    }

    method CachedFirstPrompt(id: string) returns (prompt: Option<string>)
      modifies `firstPromptCache
      ensures View() == Touch(old(View()), id) && prompt == Find(old(firstPromptCache), id)
    {
      prompt := Find(firstPromptCache, id);
      if prompt.Some? { firstPromptCache := Without(firstPromptCache, id) + [Cached(id, prompt.value)]; }
    }

    method RetainFirstPrompts(candidates: int)
      modifies `firstPromptCacheLimit
      ensures View() == Retain(old(View()), candidates)
      ensures candidates <= 0 || candidates >= 0x20_0000_0000_0000 ==> firstPromptCacheLimit == old(firstPromptCacheLimit)
      ensures 0 < candidates < 0x20_0000_0000_0000 ==>
                firstPromptCacheLimit == Max(old(firstPromptCacheLimit), |firstPromptCache| + candidates)
    {
      if candidates <= 0 || candidates >= 0x20_0000_0000_0000 { return; }
      var needed := |firstPromptCache| + candidates;
      if needed > firstPromptCacheLimit { firstPromptCacheLimit := needed; }
    }

    method RecordInspection(id: string, createdAt: int, log: seq<Event>)
      modifies this
      ensures View() == Inspect(old(View()), id, createdAt, log)
    {
      revisions := revisions - {id};
      var prompt := FirstUserPrompt(log);
      CacheFirstPrompt(id, prompt);
      var title := FoldedSessionTitle(log);
      sessionTitleCache := if title == "" then sessionTitleCache - {id} else sessionTitleCache[id := title];
      var latest := createdAt;
      for i := 0 to |log|
        invariant latest == Latest(log[..i], createdAt)
      {
        assert log[..i + 1][..i] == log[..i];
        latest := Max(latest, log[i].time);
      }
      assert log[..|log|] == log;
      sessionActivityCache := sessionActivityCache[id := latest];
    }

    method RecordEvent(id: string, createdAt: int, e: Event)
      modifies this
      ensures View() == Record(old(View()), id, createdAt, e)
    {
      var latest := if id in sessionActivityCache then sessionActivityCache[id] else createdAt;
      sessionActivityCache := sessionActivityCache[id := Max(latest, e.time)];
      if e.kind.Title? {
        var title := e.kind.title;
        if title.Some? && |Trim(title.value)| > 0 { sessionTitleCache := sessionTitleCache[id := Trim(title.value)]; }
      } else if e.kind.Message? && id !in firstPromptSeen {
        var prompt := FirstUserPrompt([e]);
        assert [e][1..] == [];
        CacheFirstPrompt(id, prompt);
      }
    }

    /** The settled part of `inspect`: fold the log, remember its revision, answer from the caches. */
    method LandInspection(id: string, createdAt: int, log: seq<Event>, revision: Option<string>) returns (shown: Projection)
      modifies this
      ensures View() == Touch(Land(old(View()), id, createdAt, log, revision), id)
      ensures shown == Shown(Land(old(View()), id, createdAt, log, revision), id, createdAt)
    {
      RecordInspection(id, createdAt, log);
      if revision.Some? && Find(firstPromptCache, id).Some? { revisions := revisions[id := revision.value]; }
      shown := Project(id, createdAt);
    }

    method Project(id: string, createdAt: int) returns (shown: Projection)
      modifies `firstPromptCache
      ensures View() == Touch(old(View()), id) && shown == Shown(old(View()), id, createdAt)
    {
      var prompt := CachedFirstPrompt(id);
      shown := Projection(if prompt.Some? then prompt.value else "",
                          if id in sessionTitleCache then sessionTitleCache[id] else "",
                          if id in sessionActivityCache then sessionActivityCache[id] else createdAt);
    }
  }
}
