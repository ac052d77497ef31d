/**
 * The command line as a user writes it: gaps, bare and escaped characters, and
 * text in either kind of quotes; and the words that makes.
 */
module CommandGrammar {
  import opened Options
  import opened CommandLine
  import JsText

  datatype Inside = Literal(c: char) | Slashed(c: char)

  datatype Piece = Gap(c: char) | Bare(c: char) | Escaped(c: char) | Single(text: string) | Double(inside: seq<Inside>)

  predicate ProperInside(i: Inside) {
    i.Literal? ==> i.c != '"' && i.c != '\\'
  }

  predicate Proper(p: Piece) {
    match p
    case Gap(c) => JsText.IsSpace(c)
    case Bare(c) => !JsText.IsSpace(c) && c != '\\' && c != '"' && c != '\''
    case Escaped(_) => true
    case Single(text) => '\'' !in text
    case Double(inside) => forall i :: 0 <= i < |inside| ==> ProperInside(inside[i])
  }

  ghost predicate ProperLine(line: seq<Piece>) {
    forall i :: 0 <= i < |line| ==> Proper(line[i])
  }

  // ----- What is typed and what is meant -----

  function TypedInside(inside: seq<Inside>): string {
    if inside == [] then ""
    else TypedInside(inside[..|inside| - 1]) + if inside[|inside| - 1].Slashed? then ['\\', inside[|inside| - 1].c]
                                               else [inside[|inside| - 1].c]
  }

  function Typed(p: Piece): string {
    match p
    case Gap(c) => [c]
    case Bare(c) => [c]
    case Escaped(c) => ['\\', c]
    case Single(text) => "'" + text + "'"
    case Double(inside) => "\"" + TypedInside(inside) + "\""
  }

  function TypedLine(line: seq<Piece>): string {
    if line == [] then "" else TypedLine(line[..|line| - 1]) + Typed(line[|line| - 1])
  }

  function MeantInside(inside: seq<Inside>): string {
    seq(|inside|, i requires 0 <= i < |inside| => inside[i].c)
  }

  /** Single quotes keep every character; elsewhere a backslash stands for the character after it. */
  function Meant(p: Piece): string {
    match p
    case Gap(_) => ""
    case Bare(c) => [c]
    case Escaped(c) => [c]
    case Single(text) => text
    case Double(inside) => MeantInside(inside)
  }

  function MeantLine(line: seq<Piece>): string {
    if line == [] then "" else Meant(line[0]) + MeantLine(line[1..])
  }

  /** How many pieces stand before the first gap. */
  function Run(line: seq<Piece>): (n: nat)
    ensures n <= |line|
  {
    if line == [] || line[0].Gap? then 0 else 1 + Run(line[1..])
  }

  /** Gaps separate the words and make none; pieces that touch are one word, even an empty one. */
  function Words(line: seq<Piece>): seq<string>
    decreases |line|
  {
    if line == [] then []
    else if line[0].Gap? then Words(line[1..])
    else [MeantLine(line[..Run(line)])] + Words(line[Run(line)..])
  }

  // ----- Reading one piece -----

  lemma {:induction false} TypedCons(p: Piece, rest: seq<Piece>)
    ensures TypedLine([p] + rest) == Typed(p) + TypedLine(rest)
    decreases |rest|
  {
    hide Typed;
    if rest == [] {
      assert [p] + rest == [p] && [p][..0] == [];
      assert TypedLine([p]) == TypedLine([]) + Typed(p);
    } else {
      var shorter := rest[..|rest| - 1];
      assert ([p] + rest)[..|rest|] == [p] + shorter;
      TypedCons(p, shorter);
    }
  }

  /** In single quotes. */
  lemma {:induction false} ReadSingled(l: Lexer, text: string)
    requires l.quote == Some('\'') && !l.escaped && l.started && '\'' !in text
    ensures ReadAll(l, text) == l.(token := l.token + text)
    decreases |text|
  {
    if text == "" {
      assert l.token + text == l.token;
    } else {
      ReadSingled(l.(token := l.token + [text[0]]), text[1..]);
      assert l.token + [text[0]] + text[1..] == l.token + text;
    }
  }

  /** In double quotes. */
  lemma {:induction false} ReadDoubled(l: Lexer, inside: seq<Inside>)
    requires l.quote == Some('"') && !l.escaped && l.started
    requires forall i :: 0 <= i < |inside| ==> ProperInside(inside[i])
    ensures ReadAll(l, TypedInside(inside)) == l.(token := l.token + MeantInside(inside))
    decreases |inside|
  {
    if inside == [] {
      assert l.token + MeantInside(inside) == l.token;
      return;
    }
    var shorter, last := inside[..|inside| - 1], inside[|inside| - 1];
    ReadDoubled(l, shorter);
    var before := l.(token := l.token + MeantInside(shorter));
    assert MeantInside(inside) == MeantInside(shorter) + [last.c];
    assert l.token + MeantInside(inside) == before.token + [last.c];
    assert ProperInside(last);
    if last.Slashed? {
      ReadTwice(l, TypedInside(shorter), ['\\', last.c]);
      ReadPair(before, '\\', last.c);
    } else {
      ReadTwice(l, TypedInside(shorter), [last.c]);
      ReadSingle(before, last.c);
    }
  }

  /** What a whole piece does to a lexer between pieces. */
  function Took(l: Lexer, p: Piece): Lexer {
    if !p.Gap? then l.(token := l.token + Meant(p), started := true)
    else if l.started then l.(tokens := l.tokens + [l.token], token := "", started := false)
    else l
  }

  predicate Between(l: Lexer) {
    l.quote.None? && !l.escaped
  }

  lemma ReadInQuotes(l: Lexer, q: char, typed: string, meant: string)
    requires Between(l) && (q == '"' || q == '\'')
    requires ReadAll(l.(quote := Some(q), started := true), typed) == l.(quote := Some(q), started := true, token := l.token + meant)
    ensures ReadAll(l, [q] + typed + [q]) == l.(token := l.token + meant, started := true)
  {
    var inside := l.(quote := Some(q), started := true);
    ReadTwice(l, [q] + typed, [q]);
    ReadTwice(l, [q], typed);
    ReadSingle(l, q);
    ReadSingle(inside.(token := l.token + meant), q);
  }

  lemma ReadPiece(l: Lexer, p: Piece)
    requires Between(l) && Proper(p)
    ensures ReadAll(l, Typed(p)) == Took(l, p)
  {
    match p
    case Gap(c) => ReadSingle(l, c);
    case Bare(c) => ReadSingle(l, c);
    case Escaped(c) => ReadPair(l, '\\', c);
    case Single(text) =>
      ReadSingled(l.(quote := Some('\''), started := true), text);
      ReadInQuotes(l, '\'', text, text);
    case Double(inside) =>
      ReadDoubled(l.(quote := Some('"'), started := true), inside);
      ReadInQuotes(l, '"', TypedInside(inside), MeantInside(inside));
  }

  // ----- Reading a line -----

  /** The words of what was read and what is to come. */
  function Due(l: Lexer, line: seq<Piece>): seq<string> {
    l.tokens + if l.started then [l.token + MeantLine(line[..Run(line)])] + Words(line[Run(line)..]) else Words(line)
  }

  lemma DueNext(l: Lexer, line: seq<Piece>)
    requires line != [] && (!l.started ==> l.token == "")
    ensures Due(l, line) == Due(Took(l, line[0]), line[1..])
  {
    hide Meant;
    var p, rest := line[0], line[1..];
    var n := Run(rest);
    if p.Gap? {
      assert line[..0] == [] && line[0..] == line && l.token + "" == l.token;
      if l.started { assert l.tokens + ([l.token] + Words(line)) == l.tokens + [l.token] + Words(rest); }
    } else {
      assert line[..n + 1][0] == p && line[..n + 1][1..] == rest[..n] && line[n + 1..] == rest[n..];
      assert l.token + (Meant(p) + MeantLine(rest[..n])) == l.token + Meant(p) + MeantLine(rest[..n]);
      if !l.started { assert "" + MeantLine(line[..n + 1]) == MeantLine(line[..n + 1]); }
    }
  }

  lemma {:induction false} ReadLine(l: Lexer, line: seq<Piece>)
    requires Between(l) && ProperLine(line) && (!l.started ==> l.token == "")
    ensures Finish(ReadAll(l, TypedLine(line))) == Tokens(Due(l, line))
    decreases |line|
  {
    if line == [] {
      assert l.token + "" == l.token;
      assert line[..0] == [] && l.tokens + [] == l.tokens && [l.token] + [] == [l.token];
      return;
    }
    assert line == [line[0]] + line[1..];
    TypedCons(line[0], line[1..]);
    ReadTwice(l, Typed(line[0]), TypedLine(line[1..]));
    ReadPiece(l, line[0]);
    DueNext(l, line);
    hide Proper, Typed, Meant, Due, Words, ReadAll, Finish;
    ReadLine(Took(l, line[0]), line[1..]);
  }

  /** Whatever a user types so is read as the words it means. */
  lemma {:induction false} ReadsWhatIsMeant(line: seq<Piece>)
    requires ProperLine(line)
    ensures Parse(TypedLine(line)) == Tokens(Words(line))
  {
    ReadLine(Start, line);
    assert [] + Words(line) == Words(line);
  }

  // ----- Every readable input is typed so -----

  /** What the last piece still lacks. */
  datatype Open = Closed | Slash | InSingle(text: string) | InDouble(inside: seq<Inside>) | SlashInDouble(inside: seq<Inside>)

  function TypedOpen(o: Open): string {
    match o
    case Closed => ""
    case Slash => "\\"
    case InSingle(text) => "'" + text
    case InDouble(inside) => "\"" + TypedInside(inside)
    case SlashInDouble(inside) => "\"" + TypedInside(inside) + "\\"
  }

  ghost predicate ProperOpen(o: Open) {
    match o
    case InSingle(text) => '\'' !in text
    case InDouble(inside) => forall i :: 0 <= i < |inside| ==> ProperInside(inside[i])
    case SlashInDouble(inside) => forall i :: 0 <= i < |inside| ==> ProperInside(inside[i])
    case _ => true
  }

  /** How the lexer shows it. */
  predicate Shows(l: Lexer, o: Open) {
    match o
    case Closed => l.quote.None? && !l.escaped
    case Slash => l.quote.None? && l.escaped
    case InSingle(_) => l.quote == Some('\'') && !l.escaped
    case InDouble(_) => l.quote == Some('"') && !l.escaped
    case SlashInDouble(_) => l.quote == Some('"') && l.escaped
  }

  /** One more character ends a piece, or goes into it. */
  function Grown(o: Open, c: char): (Option<Piece>, Open) {
    match o
    case Closed =>
      if c == '\\' then (None, Slash) else if c == '\'' then (None, InSingle("")) else if c == '"' then (None, InDouble([]))
      else (Some(if JsText.IsSpace(c) then Gap(c) else Bare(c)), Closed)
    case Slash => (Some(Escaped(c)), Closed)
    case InSingle(text) => if c == '\'' then (Some(Single(text)), Closed) else (None, InSingle(text + [c]))
    case InDouble(inside) =>
      if c == '"' then (Some(Double(inside)), Closed)
      else if c == '\\' then (None, SlashInDouble(inside))
      else (None, InDouble(inside + [Literal(c)]))
    case SlashInDouble(inside) => (None, InDouble(inside + [Slashed(c)]))
  }

  lemma GrownShows(l: Lexer, o: Open, c: char)
    requires Shows(l, o)
    ensures Shows(Read(l, c), Grown(o, c).1)
  {
  }

  lemma TypedInsideNext(inside: seq<Inside>, i: Inside)
    ensures TypedInside(inside + [i]) == TypedInside(inside) + if i.Slashed? then ['\\', i.c] else [i.c]
  {
    assert (inside + [i])[..|inside|] == inside;
  }

  ghost predicate GrowsRight(o: Open, c: char) {
    var r := Grown(o, c);
    && (r.0.Some? ==> Proper(r.0.value)) && ProperOpen(r.1)
    && TypedOpen(o) + [c] == (if r.0.Some? then Typed(r.0.value) else "") + TypedOpen(r.1)
  }

  lemma GrownInDouble(inside: seq<Inside>, c: char)
    requires ProperOpen(InDouble(inside))
    ensures GrowsRight(InDouble(inside), c) && GrowsRight(SlashInDouble(inside), c)
  {
    TypedInsideNext(inside, Literal(c));
    TypedInsideNext(inside, Slashed(c));
    hide JsText.IsSpace, TypedInside;
    var t := TypedInside(inside);
    assert "\"" + t + "\\" + [c] == "\"" + (t + ['\\', c]);
    assert "\"" + t + [c] == "\"" + (t + [c]);
  }

  lemma GrownTyped(o: Open, c: char)
    requires ProperOpen(o)
    ensures GrowsRight(o, c)
  {
    match o
    case InDouble(inside) => hide GrowsRight; GrownInDouble(inside, c);
    case SlashInDouble(inside) => hide GrowsRight; GrownInDouble(inside, c);
    case InSingle(text) => assert "'" + text + [c] == "'" + (text + [c]);
    case _ =>
  }

  lemma TypedNext(line: seq<Piece>, p: Piece)
    ensures TypedLine(line + [p]) == TypedLine(line) + Typed(p)
  {
    assert (line + [p])[..|line|] == line;
  }

  lemma LineGrows(line: seq<Piece>, o: Open, c: char) returns (longer: seq<Piece>)
    requires ProperLine(line) && GrowsRight(o, c)
    ensures ProperLine(longer) && TypedLine(line) + TypedOpen(o) + [c] == TypedLine(longer) + TypedOpen(Grown(o, c).1)
  {
    var r := Grown(o, c);
    hide Proper, ProperOpen, Typed, TypedOpen, Grown, TypedLine;
    var before := TypedLine(line);
    assert before + TypedOpen(o) + [c] == before + (TypedOpen(o) + [c]);
    if r.0.None? {
      assert "" + TypedOpen(r.1) == TypedOpen(r.1);
      return line;
    }
    longer := line + [r.0.value];
    TypedNext(line, r.0.value);
    assert before + (Typed(r.0.value) + TypedOpen(r.1)) == before + Typed(r.0.value) + TypedOpen(r.1);
  }

  lemma {:induction false} Pieces(input: string) returns (line: seq<Piece>, o: Open)
    ensures ProperLine(line) && ProperOpen(o) && input == TypedLine(line) + TypedOpen(o) && Shows(ReadAll(Start, input), o)
    decreases |input|
  {
    if input == "" { return [], Closed; }
    var n := |input| - 1;
    var c := input[n];
    line, o := Pieces(input[..n]);
    assert input == input[..n] + [c] && input[..n + 1] == input;
    ReadOne(input, n);
    hide ProperLine, Proper, Typed, TypedOpen, TypedLine, Grown, Shows, ReadAll, Read;
    GrownShows(ReadAll(Start, input[..n]), o, c);
    GrownTyped(o, c);
    line := LineGrows(line, o, c);
    o := Grown(o, c).1;
  }

  /** A result is exactly the words of some way to type the input. */
  lemma {:induction false} ParsesExactly(input: string, words: seq<string>)
    ensures Parse(input) == Tokens(words) <==> exists line :: ProperLine(line) && TypedLine(line) == input && Words(line) == words
  {
    if Parse(input).Tokens? {
      var line, o := Pieces(input);
      assert o == Closed;
      ReadsWhatIsMeant(line);
      assert TypedLine(line) + "" == TypedLine(line);
      assert TypedLine(line) == input;
    }
    hide Parse, ProperLine, TypedLine, Words;
    if line :| ProperLine(line) && TypedLine(line) == input && Words(line) == words {
      ReadsWhatIsMeant(line);
    }
  }
}
