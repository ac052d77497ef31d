/**
 * With what words prompts run, told from the actions: what was prepared for
 * them, as last edited, or the texts of the prompts folded into one turn.
 */
module PromptQueueWording {
  import opened Options
  import opened PromptQueueModel
  import opened PromptQueueSafety
  import opened PromptQueueAnswers
  import JsText

  /** What a prompt says, and how often it was edited. */
  datatype Draft = Draft(text: string, content: seq<Block>, version: int)

  /** The images among the blocks, in order. */
  function Pictures(content: seq<Block>): seq<Block> {
    if content == [] then []
    else
      var last := content[|content| - 1];
      Pictures(content[..|content| - 1]) + (if last.Image? then [last] else [])
  }

  /** An edit to a text that is not blank replaces the words and keeps the images. */
  function Reworded(d: Draft, newText: Option<string>): Draft {
    if newText.None? || JsText.Trim(newText.value) == "" then d
    else Draft(newText.value, [Text(newText.value)] + Pictures(d.content), d.version + 1)
  }

  /** The prompt a row control names. */
  ghost predicate NamesRow(s: State, id: Option<Id>, r: Rpc) {
    exists row :: row in s.q.queue && row.rpc == r && id == Some(row.id)
  }

  /** An edit reaches the prompt with this id, unless it was made for another version. */
  ghost predicate Edits(s: State, a: Action, m: map<Rpc, Draft>, r: Rpc) {
    && a.AControl? && Controllable(s) && r in m
    && match a.control
       case DoEdit(id, pinned, _) => NamesRow(s, id, r) && (pinned.None? || pinned.value == m[r].version)
       case DoInterject(id, expected, _) => NamesRow(s, id, r) && expected == m[r].version
       case _ => false
  }

  function NewText(a: Action): Option<string>
    requires a.AControl? && (a.control.DoEdit? || a.control.DoInterject?)
  {
    a.control.newText
  }

  ghost function Tell(m: map<Rpc, Draft>, s: State, a: Action): map<Rpc, Draft> {
    if a.APrepared? && Admitted(s, a.slot) then m[a.slot := Draft(s.a.slots[a.slot].text, a.content, 0)]
    else map r | r in m :: if Edits(s, a, m, r) then Reworded(m[r], NewText(a)) else m[r]
  }

  /** Every queued row says what was told of it. */
  ghost predicate Written(rows: seq<Row>, m: map<Rpc, Draft>) {
    forall row :: row in rows ==> row.rpc in m && m[row.rpc] == Draft(row.text, row.content, row.version) && row.combinedTexts.None?
  }

  /** A turn starts with its prompt's own content, or with the joined texts of the prompts it folds, its own first. */
  ghost predicate StartsAsWritten(before: seq<Event>, after: seq<Event>, m: map<Rpc, Draft>) {
    |after| > |before| && after[|after| - 1].Started? ==>
      var e := after[|after| - 1];
      && e.rpc in m
      && match e.texts
         case None => e.content == m[e.rpc].content
         case Some(texts) =>
           && |texts| > 1 && texts[0] == m[e.rpc].text && e.content == [Text(JsText.Join(texts, "\n\n"))]
           && forall k :: 0 <= k < |texts| ==> exists r :: r in m && m[r].text == texts[k]
  }

  /** The texts of a turn's rows, and what it starts with. */
  lemma TurnWords(rows: seq<Row>, n: nat, m: map<Rpc, Draft>, before: seq<Event>, e: Event)
    requires Written(rows, m) && 1 <= n <= |rows| && e.Started? && e.rpc == rows[0].rpc
    requires n == 1 ==> e.texts.None? && e.content == rows[0].content
    requires n > 1 ==> e.texts == Some(Texts(rows[..n])) && e.content == [Text(JsText.Join(Texts(rows[..n]), "\n\n"))]
    ensures StartsAsWritten(before, before + [e], m) && Written(rows[n..], m)
  {
    forall k | 0 <= k < |rows|
      ensures rows[k].rpc in m && m[rows[k].rpc] == Draft(rows[k].text, rows[k].content, rows[k].version)
    {
      assert rows[k] in rows;
    }
    assert forall row :: row in rows[n..] ==> row in rows;
    hide JsText.Join;
  }

  lemma AdvanceWritten(s: State, env: Env, m: map<Rpc, Draft>)
    requires Written(s.q.queue, m)
    ensures Written(Advance(s, env).q.queue, m) && StartsAsWritten(s.log, Advance(s, env).log, m)
  {
    if s.q.inflight.None? && s.q.runningId.None? && s.q.queue != [] && !Parked(s) {
      var n, t := TurnSize(s.q.queue, s.q.holds, s.combineQueued), Advance(s, env);
      FollowersFit(s.q.queue[1..], s.q.holds);
      assert s.q.queue[0] in s.q.queue;
      hide Rpcs, HasImage, Followers, Resolve, JsText.Join, Texts, StartsAsWritten;
      assert t.log == s.log + [t.log[|s.log|]];
      TurnWords(s.q.queue, n, m, s.log, t.log[|s.log|]);
    }
  }

  lemma PromoteWritten(s: State, env: Env, m: map<Rpc, Draft>)
    requires Written(s.q.queue, m)
    ensures Written(Promote(s, env).q.queue, m) && StartsAsWritten(s.log, Promote(s, env).log, m)
  {
    AdvanceWritten(s, env, m);
    hide Advance;
  }

  ghost predicate Worded(before: seq<Event>, t: State, m: map<Rpc, Draft>) {
    Written(t.q.queue, m) && StartsAsWritten(before, t.log, m)
  }

  /** A step that starts nothing, and then may promote. */
  lemma ThenWritten(before: seq<Event>, u: State, env: Env, m: map<Rpc, Draft>)
    requires Written(u.q.queue, m) && Quiet(before, u.log)
    ensures Worded(before, u, m) && Worded(before, Promote(u, env), m)
  {
    PromoteWritten(u, env, m);
    hide Promote, Written;
  }

  lemma WrittenSub(rows: seq<Row>, rest: seq<Row>, m: map<Rpc, Draft>)
    requires Written(rows, m) && forall row :: row in rest ==> row in rows
    ensures Written(rest, m)
  {
  }

  lemma Unedited(m: map<Rpc, Draft>, s: State, a: Action)
    requires !(a.APrepared? && Admitted(s, a.slot)) && forall r :: r in m ==> !Edits(s, a, m, r)
    ensures Tell(m, s, a) == m
  {
    hide Edits;
  }

  lemma NotAnEdit(m: map<Rpc, Draft>, s: State, a: Action)
    requires !(a.APrepared? && Admitted(s, a.slot)) && (a.AControl? ==> !a.control.DoEdit? && !a.control.DoInterject?)
    ensures Tell(m, s, a) == m
  {
    Unedited(m, s, a);
  }

  // ----- Entering -----

  lemma LastWritten(s: State, i: Rpc, row: Row, env: Env, m: map<Rpc, Draft>)
    requires Written(s.q.queue + [row], m)
    ensures Worded(s.log, Promote(s.(log := s.log + [Entered(i)], q := s.q.(queue := s.q.queue + [row])), env), m)
  {
    hide Written, Worded, Promote;
    ThenWritten(s.log, s.(log := s.log + [Entered(i)], q := s.q.(queue := s.q.queue + [row])), env, m);
  }

  lemma FrontWritten(s: State, i: Rpc, row: Row, env: Env, m: map<Rpc, Draft>)
    requires Written([row] + s.q.queue, m)
    ensures var u := s.(log := s.log + [Entered(i)], q := s.q.(queue := [row] + s.q.queue, sendNowTrigger := true));
            Worded(s.log, SettleInflight(u, Stopped(Cancelled)), m)
  {
    var u := s.(log := s.log + [Entered(i)], q := s.q.(queue := [row] + s.q.queue, sendNowTrigger := true));
    SettleLeaves(u);
    hide Written, Worded, Promote, SettleInflight;
    ThenWritten(s.log, SettleInflight(u, Stopped(Cancelled)), env, m);
  }

  lemma EnqueueWritten(s: State, i: Rpc, content: seq<Block>, env: Env, m: map<Rpc, Draft>)
    requires Written(s.q.queue, m) && i < |s.a.slots| && i in m && m[i] == Draft(s.a.slots[i].text, content, 0)
    ensures Worded(s.log, Enqueue(s, i, content, env), m)
  {
    var slot := s.a.slots[i];
    var row := Row(i, slot.id, slot.text, content, 0, None);
    assert Written([row] + s.q.queue, m) && Written(s.q.queue + [row], m);
    hide Written, Worded, Promote, Resolve, SettleInflight, SteersThis;
    if slot.sendNow && s.q.inflight.Some? {
      FrontWritten(s, i, row, env, m);
    } else if SteersThis(s, slot) && s.q.inflight.Some? {
      SameWritten(s, Enqueue(s, i, content, env), env, m);
    } else {
      LastWritten(s, i, row, env, m);
    }
  }

  lemma PreparedWritten(s: State, i: Rpc, content: seq<Block>, env: Env, m: map<Rpc, Draft>)
    requires Core(s) && Written(s.q.queue, m) && Enabled(s, APrepared(i, content))
    ensures Worded(s.log, Prepared(s, i, content, env), Tell(m, s, APrepared(i, content)))
  {
    var t := s.(a := s.a.(slots := s.a.slots[i := s.a.slots[i].(io := false)]));
    if Admitted(s, i) {
      NotQueued(s, i);
      hide Core, Enqueue, Worded;
      EnqueueWritten(Retire(t, i), i, content, env, m[i := Draft(s.a.slots[i].text, content, 0)]);
    } else {
      NotAnEdit(m, s, APrepared(i, content));
      hide Core, Enqueue, Resolve, Written, Tell, Worded;
      ThenWritten(s.log, Prepared(s, i, content, env), env, m);
    }
  }

  lemma NotQueued(s: State, i: Rpc)
    requires Core(s) && Preparing(s.a.slots, i)
    ensures forall row :: row in s.q.queue ==> row.rpc != i
  {
    PreparingAlone(s, i);
    hide Core;
  }

  // ----- Rows -----

  /** The one row a control names, and what its prompt was told to say. */
  lemma NamesLocated(s: State, id: Option<Id>, r: Rpc)
    requires Core(s)
    ensures NamesRow(s, id, r) <==> LocateIn(s, id).Some? && s.q.queue[LocateIn(s, id).value].rpc == r
  {
    var at := LocateIn(s, id);
    if id.Some? { LocateFits(s.q.queue, id.value); }
    if NamesRow(s, id, r) {
      var row :| row in s.q.queue && row.rpc == r && id == Some(row.id);
      var k :| 0 <= k < |s.q.queue| && s.q.queue[k] == row;
      IdsApart(s, k, at.value);
    }
    hide Core;
  }

  lemma {:induction false} SamePictures(content: seq<Block>)
    ensures Images(content) == Pictures(content)
  {
    if content != [] {
      SamePictures(content[1..]);
      PicturesJoin([content[0]], content[1..]);
      assert content == [content[0]] + content[1..];
      assert [content[0]][..0] == [] && Pictures([]) == [];
    }
  }

  lemma {:induction false} PicturesJoin(a: seq<Block>, b: seq<Block>)
    ensures Pictures(a + b) == Pictures(a) + Pictures(b)
  {
    if b == [] {
      assert a + b == a;
    } else {
      assert (a + b)[..|a + b| - 1] == a + b[..|b| - 1];
      PicturesJoin(a, b[..|b| - 1]);
    }
  }

  lemma RewriteIs(row: Row, newText: Option<string>)
    requires row.combinedTexts.None?
    ensures var next := Rewrite(row, newText);
            && next.rpc == row.rpc && next.combinedTexts.None?
            && Draft(next.text, next.content, next.version) == Reworded(Draft(row.text, row.content, row.version), newText)
  {
    SamePictures(row.content);
  }

  /** Row `k` is reworded, where it stands or at the front. */
  lemma RewordWritten(s: State, k: nat, newText: Option<string>, m: map<Rpc, Draft>, told: map<Rpc, Draft>)
    requires Core(s) && Written(s.q.queue, m) && k < |s.q.queue| && told.Keys == m.Keys
    requires forall r :: r in m ==> told[r] == if r == s.q.queue[k].rpc then Reworded(m[r], newText) else m[r]
    ensures var row := Rewrite(s.q.queue[k], newText);
            Written(s.q.queue[k := row], told) && Written([row] + Without(s.q.queue, k), told)
  {
    CorePlaces(s);
    var rows := s.q.queue;
    assert rows[k] in rows;
    RewriteIs(rows[k], newText);
    hide Core, Rewrite, Reworded, Distinct, Accounted, Slotted, RowsNamed, SteeredNamed;
    forall j | 0 <= j < |rows| && j != k
      ensures rows[j].rpc in told && rows[j].combinedTexts.None?
      ensures told[rows[j].rpc] == Draft(rows[j].text, rows[j].content, rows[j].version)
    {
      assert rows[j] in rows && rows[j].rpc != rows[k].rpc;
    }
  }

  lemma EditTold(s: State, a: Action, m: map<Rpc, Draft>, k: nat)
    requires Core(s) && Written(s.q.queue, m) && Controllable(s) && a.AControl? && k < |s.q.queue|
    requires a.control.DoEdit? || a.control.DoInterject?
    requires LocateIn(s, a.control.id) == Some(k)
    requires a.control.DoEdit? ==> a.control.pinnedVersion.None? || a.control.pinnedVersion.value == s.q.queue[k].version
    requires a.control.DoInterject? ==> a.control.expectedVersion == s.q.queue[k].version
    ensures var told := Tell(m, s, a);
            told.Keys == m.Keys && forall r :: r in m ==> told[r] == if r == s.q.queue[k].rpc then Reworded(m[r], NewText(a)) else m[r]
  {
    assert s.q.queue[k] in s.q.queue;
    forall r | r in m
      ensures Edits(s, a, m, r) <==> r == s.q.queue[k].rpc
    {
      NamesLocated(s, a.control.id, r);
    }
    hide Core, Edits, Reworded, LocateIn;
  }

  lemma EditMissed(s: State, a: Action, m: map<Rpc, Draft>)
    requires Core(s) && Written(s.q.queue, m) && a.AControl? && (a.control.DoEdit? || a.control.DoInterject?)
    requires Controllable(s) && LocateIn(s, a.control.id).Some? ==>
               var version := s.q.queue[LocateIn(s, a.control.id).value].version;
               && (a.control.DoEdit? ==> a.control.pinnedVersion.Some? && a.control.pinnedVersion.value != version)
               && (a.control.DoInterject? ==> a.control.expectedVersion != version)
    ensures Tell(m, s, a) == m
  {
    forall r | r in m
      ensures !Edits(s, a, m, r)
    {
      NamesLocated(s, a.control.id, r);
      var at := LocateIn(s, a.control.id);
      if at.Some? { assert s.q.queue[at.value] in s.q.queue; }
    }
    Unedited(m, s, a);
    hide Core, Edits;
  }

  lemma InterjectWritten(s: State, id: Option<Id>, expected: int, newText: Option<string>, env: Env, m: map<Rpc, Draft>)
    requires Core(s) && Written(s.q.queue, m) && Controllable(s)
    ensures Worded(s.log, Interject(s, id, expected, newText, env), Tell(m, s, AControl(DoInterject(id, expected, newText))))
  {
    var a := AControl(DoInterject(id, expected, newText));
    var at := LocateIn(s, id);
    if at.None? || s.q.queue[at.value].version != expected {
      EditMissed(s, a, m);
      hide Core, Written, Worded, Promote, Locate, Tell;
      ThenWritten(s.log, Unhold(s, id), env, m);
    } else {
      EditTold(s, a, m, at.value);
      RewordWritten(s, at.value, newText, m, Tell(m, s, a));
      hide Core, Written, Worded, Promote, Locate, Rewrite, Tell, Without, SettleInflight;
      var row := Rewrite(s.q.queue[at.value], newText);
      PutFirstWritten(s, [row] + Without(s.q.queue, at.value), s.q.holds - {row.id}, env, Tell(m, s, a));
    }
  }

  lemma PutFirstWritten(s: State, rows: seq<Row>, holds: set<Id>, env: Env, m: map<Rpc, Draft>)
    requires Written(rows, m)
    ensures var t := s.(q := s.q.(queue := rows, holds := holds));
            && Worded(s.log, Promote(t, env), m)
            && Worded(s.log, SettleInflight(t.(q := t.q.(sendNowTrigger := true)), Stopped(Cancelled)), m)
  {
    var t := s.(q := s.q.(queue := rows, holds := holds));
    var u := t.(q := t.q.(sendNowTrigger := true));
    SettleLeaves(u);
    hide Written, Worded, Promote, SettleInflight;
    ThenWritten(s.log, t, env, m);
    ThenWritten(s.log, SettleInflight(u, Stopped(Cancelled)), env, m);
  }

  lemma EditRowWritten(s: State, id: Option<Id>, pinned: Option<int>, newText: Option<string>, env: Env, m: map<Rpc, Draft>)
    requires Core(s) && Written(s.q.queue, m) && Controllable(s)
    ensures Worded(s.log, Edit(s, id, pinned, newText, env), Tell(m, s, AControl(DoEdit(id, pinned, newText))))
  {
    var a := AControl(DoEdit(id, pinned, newText));
    var at := LocateIn(s, id);
    if at.None? || (pinned.Some? && s.q.queue[at.value].version != pinned.value) {
      EditMissed(s, a, m);
      hide Core, Written, Worded, Promote, Locate, Rewrite, Tell;
      ThenWritten(s.log, s, env, m);
      if at.Some? { ThenWritten(s.log, s.(q := s.q.(holds := s.q.holds - {s.q.queue[at.value].id})), env, m); }
    } else {
      EditTold(s, a, m, at.value);
      RewordWritten(s, at.value, newText, m, Tell(m, s, a));
      hide Core, Written, Worded, Promote, Locate, Rewrite, Tell;
      var row := Rewrite(s.q.queue[at.value], newText);
      var edited := s.(q := s.q.(queue := s.q.queue[at.value := row], holds := s.q.holds - {s.q.queue[at.value].id}));
      ThenWritten(s.log, edited, env, Tell(m, s, a));
    }
  }

  lemma DropWritten(s: State, k: nat, holds: set<Id>, env: Env, m: map<Rpc, Draft>)
    requires Written(s.q.queue, m) && k < |s.q.queue|
    ensures Worded(s.log, Promote(Dropped(s, k, holds), env), m)
  {
    WrittenSub(s.q.queue, Without(s.q.queue, k), m);
    hide Written, Worded, Promote, Resolve;
    ThenWritten(s.log, Dropped(s, k, holds), env, m);
  }

  lemma SameWritten(s: State, u: State, env: Env, m: map<Rpc, Draft>)
    requires Written(s.q.queue, m) && u.q.queue == s.q.queue && Quiet(s.log, u.log)
    ensures Worded(s.log, u, m) && Worded(s.log, Promote(u, env), m)
  {
    ThenWritten(s.log, u, env, m);
    hide Written, Worded, Promote;
  }

  lemma RemoveWritten(s: State, id: Option<Id>, expected: int, env: Env, m: map<Rpc, Draft>)
    requires Written(s.q.queue, m)
    ensures Worded(s.log, Remove(s, id, expected, env), m)
  {
    SettleLeaves(s);
    hide Written, Worded, Promote, Settle, Without, SettleInflight, Locate;
    var at := LocateIn(s, id);
    if at.Some? && s.q.queue[at.value].version != expected {
      SameWritten(s, Unhold(s, id), env, m);
    } else if at.Some? {
      DropWritten(s, at.value, s.q.holds - {s.q.queue[at.value].id}, env, m);
    } else if s.q.runningId == id {
      var t := SettleInflight(s, Stopped(Cancelled));
      SameWritten(s, t.(q := t.q.(holds := t.q.holds - {if id.Some? then id.value else "undefined"})), env, m);
    } else {
      SameWritten(s, s, env, m);
    }
  }

  lemma RowSteersWritten(s: State, k: nat, holds: set<Id>, steered: seq<Steered>, env: Env, m: map<Rpc, Draft>)
    requires Written(s.q.queue, m) && k < |s.q.queue|
    ensures Worded(s.log, s.(q := s.q.(queue := Without(s.q.queue, k), holds := holds, steered := steered)), m)
  {
    WrittenSub(s.q.queue, Without(s.q.queue, k), m);
    hide Written, Worded, Promote;
    ThenWritten(s.log, s.(q := s.q.(queue := Without(s.q.queue, k), holds := holds, steered := steered)), env, m);
  }

  lemma SteerWritten(s: State, id: Option<Id>, expected: int, env: Env, m: map<Rpc, Draft>)
    requires Written(s.q.queue, m)
    ensures Worded(s.log, SteerRow(s, id, expected, env), m)
  {
    hide Written, Worded, Promote, Without, Resolve, Locate;
    var at := LocateIn(s, id);
    if at.None? || s.q.queue[at.value].version != expected {
      SameWritten(s, Unhold(s, id), env, m);
    } else if s.q.inflight.None? {
      SameWritten(s, s, env, m);
    } else if env.steerOk {
      var row := s.q.queue[at.value];
      RowSteersWritten(s, at.value, s.q.holds - {row.id}, s.q.steered + [Steered(row.rpc, row.id)], env, m);
    } else {
      SameWritten(s, SteerRow(s, id, expected, env), env, m);
    }
  }

  lemma ReorderWritten(s: State, ids: seq<Id>, env: Env, m: map<Rpc, Draft>)
    requires Written(s.q.queue, m)
    ensures Worded(s.log, Reorder(s, ids, env), m)
  {
    var next := Named(s.q.queue, ids) + Unnamed(s.q.queue, ids);
    ReorderPermutes(s.q.queue, ids);
    forall row | row in next
      ensures row in s.q.queue
    {
      assert row in multiset(next);
    }
    WrittenSub(s.q.queue, next, m);
    hide Written, Worded, Promote, Named, Unnamed;
    ThenWritten(s.log, s.(q := s.q.(queue := next)), env, m);
    ThenWritten(s.log, s, env, m);
  }

  lemma HoldWritten(s: State, id: Option<Id>, env: Env, m: map<Rpc, Draft>)
    requires Written(s.q.queue, m)
    ensures Worded(s.log, HoldEdit(s, id), m) && Worded(s.log, ReleaseEdit(s, id, env), m)
  {
    SameWritten(s, HoldEdit(s, id), env, m);
    SameWritten(s, Unhold(s, id), env, m);
    hide Written, Worded, Promote;
  }

  lemma ClearWritten(s: State, env: Env, m: map<Rpc, Draft>)
    requires Written(s.q.queue, m)
    ensures Worded(s.log, Discard(s), m)
  {
    assert Written([], m);
    hide Written, Worded, Resolve, Promote;
    ThenWritten(s.log, Discard(s), env, m);
  }

  lemma ControlWritten(s: State, control: Control, env: Env, m: map<Rpc, Draft>)
    requires Core(s) && Written(s.q.queue, m)
    ensures Worded(s.log, ApplyControl(s, control, env), Tell(m, s, AControl(control)))
  {
    var a := AControl(control);
    if !Controllable(s) {
      Unedited(m, s, a);
      hide Core, Written, Worded, Tell, Promote;
      SameWritten(s, s, env, m);
      return;
    }
    if !control.DoEdit? && !control.DoInterject? { NotAnEdit(m, s, a); }
    hide Core, Written, Worded, Tell, Interject, Edit, Remove, SteerRow, Reorder, HoldEdit, ReleaseEdit, Discard;
    match control
    case DoInterject(id, expected, newText) => InterjectWritten(s, id, expected, newText, env, m);
    case DoEdit(id, pinned, newText) => EditRowWritten(s, id, pinned, newText, env, m);
    case DoRemove(id, expected) => RemoveWritten(s, id, expected, env, m);
    case DoSteer(id, expected) => SteerWritten(s, id, expected, env, m);
    case DoReorder(ids) => ReorderWritten(s, ids, env, m);
    case DoHold(id) => HoldWritten(s, id, env, m);
    case DoRelease(id) => HoldWritten(s, id, env, m);
    case DoClear => ClearWritten(s, env, m);
  }

  // ----- Every step -----

  lemma CancelPromptWritten(s: State, id: Id, env: Env, m: map<Rpc, Draft>)
    requires Written(s.q.queue, m)
    ensures Worded(s.log, CancelPrompt(s, id, env), m)
  {
    SettleLeaves(s);
    hide Written, Worded, Promote, Settle, Without, SettleInflight, Locate, Target;
    var at := LocateIn(s, Some(id));
    if s.disposed || !s.live {
      SameWritten(s, s, env, m);
    } else if s.q.inflight.Some? && s.q.inflight.value.id == id {
      SameWritten(s, SettleInflight(s, Stopped(Cancelled)), env, m);
    } else if at.Some? {
      DropWritten(s, at.value, s.q.holds - {id}, env, m);
    } else {
      SameWritten(s, s, env, m);
      if id in s.a.preparing && s.a.preparing[id] < |s.a.slots| {
        TargetLeaves(s, s.a.preparing[id]);
        SameWritten(s, Target(s, s.a.preparing[id]), env, m);
      }
    }
  }

  lemma CancelAllWritten(s: State, env: Env, m: map<Rpc, Draft>)
    requires Written(s.q.queue, m)
    ensures Worded(s.log, CancelAll(s), m)
  {
    assert Written([], m);
    SettleLeaves(s.(a := s.a.(epoch := s.a.epoch + 1), log := s.log + [CancelledAll(|s.a.slots|)]));
    hide Written, Worded, Resolve, Promote, SettleInflight;
    ThenWritten(s.log, CancelAll(s), env, m);
  }

  lemma FlushWritten(s: State, flushOk: bool, env: Env, m: map<Rpc, Draft>)
    requires Written(s.q.queue, m) && Enabled(s, AFlushDone(flushOk))
    ensures Worded(s.log, FlushDone(s, flushOk, env), m)
  {
    hide Written, Worded, Resolve, Promote, SteeredRpcs;
    SameWritten(s, Finished(s, flushOk), env, m);
  }

  lemma IdleWritten(s: State, env: Env, m: map<Rpc, Draft>)
    requires Written(s.q.queue, m)
    ensures Worded(s.log, PromotionIdle(s, env), m)
  {
    var t := s.(q := s.q.(scheduled := false));
    AdvanceWritten(t, env, m);
    SameWritten(s, t, env, m);
    hide Written, Advance;
  }

  lemma TurnWritten(s: State, a: Action, env: Env, m: map<Rpc, Draft>)
    requires Written(s.q.queue, m) && Enabled(s, a) && (a.AClaimed? || a.ATurnEnded? || a.ARunIdle? || a.ADrainDone?)
    ensures Worded(s.log, Step(s, a, env), m)
  {
    hide Written, Worded, Promote;
    SameWritten(s, Step(s, a, env), env, m);
  }

  lemma StillWritten(s: State, a: Action, env: Env, m: map<Rpc, Draft>)
    requires Written(s.q.queue, m) && Enabled(s, a) && Still(a)
    ensures Worded(s.log, Step(s, a, env), m)
  {
    StepStill(s, a, env);
    hide Written, Worded, Promote, Step;
    SameWritten(s, Step(s, a, env), env, m);
  }

  lemma FlagsWorded(before: seq<Event>, t: State, u: State, m: map<Rpc, Draft>)
    requires Worded(before, t, m) && u.q == t.q && u.log == t.log
    ensures Worded(before, u, m)
  {
    hide Written, StartsAsWritten;
  }

  lemma WholeWritten(s: State, a: Action, env: Env, m: map<Rpc, Draft>)
    requires Written(s.q.queue, m) && Enabled(s, a) && (a.ACancelAll? || a.ABeginReload? || a.ADispose?)
    ensures Worded(s.log, Step(s, a, env), m)
  {
    CancelAllWritten(s, env, m);
    SameWritten(s, s, env, m);
    hide Written, Worded, CancelAll, Promote;
    if !(a.ADispose? && s.disposed) { FlagsWorded(s.log, CancelAll(s), Step(s, a, env), m); }
  }

  lemma {:induction false} StepWritten(s: State, a: Action, env: Env, m: map<Rpc, Draft>)
    requires Core(s) && Written(s.q.queue, m) && Enabled(s, a)
    ensures Worded(s.log, Step(s, a, env), Tell(m, s, a))
  {
    if !a.APrepared? && !a.AControl? { NotAnEdit(m, s, a); }
    hide Core, Written, Worded, Tell, ApplyControl, FlushDone, PromotionIdle, CancelPrompt, CancelAll, Submit, PredecessorDone, Prepared,
      PreparationAborted, Claimed, TurnEnded, RunIdle, DrainDone, Dispose;
    match a
    case APrepared(i, content) => PreparedWritten(s, i, content, env, m);
    case AControl(control) => ControlWritten(s, control, env, m);
    case AFlushDone(flushOk) => FlushWritten(s, flushOk, env, m);
    case APromotionIdle => IdleWritten(s, env, m);
    case ACancelPrompt(id) => CancelPromptWritten(s, id, env, m);
    case ACancelAll => WholeWritten(s, a, env, m);
    case ABeginReload => WholeWritten(s, a, env, m);
    case ADispose => WholeWritten(s, a, env, m);
    case _ => if Still(a) { StillWritten(s, a, env, m); } else { TurnWritten(s, a, env, m); }
  }

  // ----- Every run -----

  ghost function DraftsFrom(s: State, m: map<Rpc, Draft>, actions: seq<(Action, Env)>): map<Rpc, Draft>
    requires RunFrom(s, actions)
    decreases |actions|
  {
    if actions == [] then m else DraftsFrom(Step(s, actions[0].0, actions[0].1), Tell(m, s, actions[0].0), actions[1..])
  }

  lemma {:induction false} RunWritten(s: State, m: map<Rpc, Draft>, actions: seq<(Action, Env)>)
    requires Inv(s) && Written(s.q.queue, m) && RunFrom(s, actions)
    ensures Inv(After(s, actions)) && Written(After(s, actions).q.queue, DraftsFrom(s, m, actions))
    decreases |actions|
  {
    if actions != [] {
      InvIsCore(s);
      hide Inv, Core, Written, Step, Enabled, Tell, StartsAsWritten;
      StepKeeps(s, actions[0].0, actions[0].1);
      StepWritten(s, actions[0].0, actions[0].1, m);
      RunWritten(Step(s, actions[0].0, actions[0].1), Tell(m, s, actions[0].0), actions[1..]);
    }
  }

  /**
   * In every run a queued prompt says what was prepared for it, as last edited
   * for its version, and a turn starts with exactly that; or, for a combined
   * turn, with the texts of the folded prompts joined, its own first.
   */
  lemma {:induction false} RunsAsWritten(combineQueued: bool, followUpSteer: bool, actions: seq<(Action, Env)>, a: Action, env: Env)
    requires RunFrom(Initial(combineQueued, followUpSteer), actions) && Enabled(After(Initial(combineQueued, followUpSteer), actions), a)
    ensures var start := Initial(combineQueued, followUpSteer);
            var s, m := After(start, actions), DraftsFrom(start, map[], actions);
            Written(s.q.queue, m) && StartsAsWritten(s.log, Step(s, a, env).log, Tell(m, s, a))
  {
    InitialInv(combineQueued, followUpSteer);
    assert Written(Initial(combineQueued, followUpSteer).q.queue, map[]);
    hide Initial, Step, Core, Written, Inv, Enabled, RunFrom, After, DraftsFrom, Tell, StartsAsWritten;
    RunWritten(Initial(combineQueued, followUpSteer), map[], actions);
    InvIsCore(After(Initial(combineQueued, followUpSteer), actions));
    var start := Initial(combineQueued, followUpSteer);
    StepWritten(After(start, actions), a, env, DraftsFrom(start, map[], actions));
  }
}
