/** The slash-command tokenizer against the commands the bridge prints for a rerun. */
module CommandLine {
  import opened Options
  import JsText

  datatype ParseError = UnterminatedEscape | UnterminatedQuote

  datatype Parsed = Tokens(words: seq<string>) | Failed(error: ParseError)

  // ----- The tokenizer -----

  /** The locals of `parseCommandLine` between two characters. */
  datatype Lexer = Lexer(tokens: seq<string>, token: string, quote: Option<char>, escaped: bool, started: bool)

  const Start := Lexer([], "", None, false, false)

  function Read(l: Lexer, c: char): Lexer {
    if l.escaped then l.(token := l.token + [c], escaped := false, started := true)
    else if c == '\\' && l.quote != Some('\'') then l.(escaped := true, started := true)
    else if l.quote.Some? then
      if l.quote == Some(c) then l.(quote := None, started := true) else l.(token := l.token + [c], started := true)
    else if c == '"' || c == '\'' then l.(quote := Some(c), started := true)
    else if JsText.IsSpace(c) then
      if l.started then l.(tokens := l.tokens + [l.token], token := "", started := false) else l
    else l.(token := l.token + [c], started := true)
  }

  function ReadAll(l: Lexer, input: string): Lexer
    decreases |input|
  {
    if input == "" then l else ReadAll(Read(l, input[0]), input[1..])
  }

  function Finish(l: Lexer): Parsed {
    if l.escaped then Failed(UnterminatedEscape)
    else if l.quote.Some? then Failed(UnterminatedQuote)
    else Tokens(if l.started then l.tokens + [l.token] else l.tokens)
  }

  function Parse(input: string): Parsed {
    Finish(ReadAll(Start, input))
  }

  lemma {:induction false} ReadTwice(l: Lexer, a: string, b: string)
    ensures ReadAll(l, a + b) == ReadAll(ReadAll(l, a), b)
    decreases |a|
  {
    if a == "" {
      assert a + b == b;
    } else {
      assert (a + b)[0] == a[0] && (a + b)[1..] == a[1..] + b;
      ReadTwice(Read(l, a[0]), a[1..], b);
    }
  }

  /** `parseCommandLine`. */
  method ParseCommandLine(input: string) returns (parsed: Parsed)
    ensures parsed == Parse(input)
    ensures parsed.Failed? <==> var end := ReadAll(Start, input); end.escaped || end.quote.Some?
  {
    var tokens: seq<string>, token: string, quote: Option<char>, escaped, started := [], "", None, false, false;
    for i := 0 to |input|
      invariant ReadAll(Start, input[..i]) == Lexer(tokens, token, quote, escaped, started)
    {
      var c := input[i];
      ReadOne(input, i);
      hide JsText.IsSpace, ReadAll;
      if escaped {
        token := token + [c];
        escaped := false;
        started := true;
        continue;
      }
      if c == '\\' && quote != Some('\'') {
        escaped := true;
        started := true;
        continue;
      }
      if quote.Some? {
        if quote == Some(c) { quote := None; } else { token := token + [c]; }
        started := true;
        continue;
      }
      if c == '"' || c == '\'' {
        quote := Some(c);
        started := true;
        continue;
      }
      if JsText.IsSpace(c) {
        if started {
          tokens := tokens + [token];
          token := "";
          started := false;
        }
        continue;
      }
      token := token + [c];
      started := true;
    }
    assert input[..|input|] == input;
    if escaped { return Failed(UnterminatedEscape); }
    if quote.Some? { return Failed(UnterminatedQuote); }
    if started { tokens := tokens + [token]; }
    return Tokens(tokens);
  }

  lemma ReadOne(input: string, i: nat)
    requires i < |input|
    ensures ReadAll(Start, input[..i + 1]) == Read(ReadAll(Start, input[..i]), input[i])
  {
    assert input[..i + 1] == input[..i] + [input[i]];
    ReadTwice(Start, input[..i], [input[i]]);
  }

  // ----- The printer -----

  function Hex(n: nat): char
    requires n < 16
  {
    if n < 10 then '0' + n as char else 'a' + (n - 10) as char
  }

  predicate IsControl(c: char) { c < ' ' }

  /** How a JSON string writes one character, after section 7 of RFC 8259: the shortest escape where one is required. */
  function Escape(c: char): string {
    if c == '"' then "\\\"" else if c == '\\' then "\\\\" else if IsControl(c) then "\\" + Garble(c) else [c]
  }

  /** What follows the backslash in the escape of a control character. */
  function Garble(c: char): string
    requires IsControl(c)
  {
    if c == '\U{0008}' then "b" else if c == '\t' then "t" else if c == '\n' then "n"
    else if c == '\U{000C}' then "f" else if c == '\r' then "r"
    else "u00" + [Hex(c as int / 16), Hex(c as int % 16)]
  }

  function EscapeAll(word: string): string {
    if word == "" then "" else Escape(word[0]) + EscapeAll(word[1..])
  }

  /** `JSON.stringify` of a string. */
  function Quote(word: string): string {
    "\"" + EscapeAll(word) + "\""
  }

  /** The arguments `/dsh add` prints for a rerun. */
  function Printed(words: seq<string>): string {
    JsText.Join(seq(|words|, i requires 0 <= i < |words| => Quote(words[i])), " ")
  }

  // ----- What the printer's literals denote -----

  function HexValue(c: char): Option<nat> {
    if '0' <= c <= '9' then Some(c as int - '0' as int)
    else if 'a' <= c <= 'f' then Some(c as int - 'a' as int + 10)
    else if 'A' <= c <= 'F' then Some(c as int - 'A' as int + 10)
    else None
  }

  /** The character of a two-character escape of JSON, after section 7 of RFC 8259. */
  function Unescaped(c: char): Option<char> {
    match c
    case '"' => Some('"')
    case '\\' => Some('\\')
    case '/' => Some('/')
    case 'b' => Some('\U{0008}')
    case 'f' => Some('\U{000C}')
    case 'n' => Some('\U{000A}')
    case 'r' => Some('\U{000D}')
    case 't' => Some('\U{0009}')
    case _ => None
  }

  /** The first character a string body denotes, and what follows it; of the four-digit escapes only those below `\u0100`. */
  function Denoted(body: string): Option<(char, string)>
    requires body != ""
  {
    if body[0] == '"' || IsControl(body[0]) then None
    else if body[0] != '\\' then Some((body[0], body[1..]))
    else if |body| >= 2 && Unescaped(body[1]).Some? then Some((Unescaped(body[1]).value, body[2..]))
    else if |body| >= 6 && body[1..4] == "u00" && HexValue(body[4]).Some? && HexValue(body[5]).Some? then
      Some(((HexValue(body[4]).value * 16 + HexValue(body[5]).value) as char, body[6..]))
    else None
  }

  function Decoded(body: string): Option<string>
    decreases |body|
  {
    if body == "" then Some("")
    else
      var first := Denoted(body);
      if first.None? then None
      else
        var rest := Decoded(first.value.1);
        if rest.None? then None else Some([first.value.0] + rest.value)
  }

  lemma EscapeDenotes(c: char, rest: string)
    ensures Denoted(Escape(c) + rest) == Some((c, rest))
  {
    var body := Escape(c) + rest;
    if c == '"' || c == '\\' {
      assert body[0] == '\\' && body[1] == c && body[2..] == rest;
    } else if !IsControl(c) {
      assert body[0] == c && body[1..] == rest;
    } else {
      assert body == "\\" + (Garble(c) + rest);
      assert body[0] == '\\' && body[1..] == Garble(c) + rest;
      GarbleDenotes(c, rest, body);
    }
  }

  lemma GarbleDenotes(c: char, rest: string, body: string)
    requires IsControl(c) && |body| > 1 && body[0] == '\\' && body[1..] == Garble(c) + rest
    ensures Denoted(body) == Some((c, rest))
  {
    var g := Garble(c);
    assert body[1] == g[0] && body[2..] == body[1..][1..];
    if |g| == 1 {
      assert body[2..] == rest;
    } else {
      assert body[1..4] == g[..3] == "u00" && body[4] == g[3] && body[5] == g[4] && body[6..] == rest;
      assert c as int / 16 * 16 + c as int % 16 == c as int;
    }
  }

  /** A printed literal denotes the word it was printed for. */
  lemma {:induction false} LiteralDenotes(word: string)
    ensures Decoded(EscapeAll(word)) == Some(word)
    decreases |word|
  {
    if word != "" {
      EscapeDenotes(word[0], EscapeAll(word[1..]));
      LiteralDenotes(word[1..]);
      hide Escape, Denoted;
      assert Escape(word[0]) != "" by { EscapeNotEmpty(word[0]); }
      assert word == [word[0]] + word[1..];
    }
  }

  lemma EscapeNotEmpty(c: char)
    ensures Escape(c) != ""
  {
  }

  // ----- Reading back what was printed -----

  /** A word as the tokenizer reads its JSON literal: it drops backslashes without decoding them. */
  function Reread(word: string): string {
    if word == "" then "" else Reads(word[0]) + Reread(word[1..])
  }

  function Reads(c: char): string {
    if IsControl(c) then Garble(c) else [c]
  }

  ghost predicate Plain(word: string) {
    forall i :: 0 <= i < |word| ==> !IsControl(word[i])
  }

  lemma GarblePlain(c: char)
    requires IsControl(c)
    ensures Garble(c) != "" && forall i :: 0 <= i < |Garble(c)[1..]| ==> Garble(c)[1..][i] != '"' && Garble(c)[1..][i] != '\\'
  {
  }

  lemma ReadSingle(l: Lexer, c: char)
    ensures ReadAll(l, [c]) == Read(l, c)
  {
  }

  lemma ReadGarble(l: Lexer, c: char)
    requires l.quote == Some('"') && !l.escaped && l.started && IsControl(c)
    ensures ReadAll(l, "\\" + Garble(c)) == l.(token := l.token + Garble(c))
  {
    GarblePlain(c);
    var g := Garble(c);
    hide Garble, IsControl, ReadAll;
    ReadTwice(l, "\\", g);
    ReadSingle(l, '\\');
    assert g == [g[0]] + g[1..];
    ReadTwice(l.(escaped := true), [g[0]], g[1..]);
    ReadSingle(l.(escaped := true), g[0]);
    ReadPlain(l.(token := l.token + [g[0]]), g[1..]);
    assert l.token + [g[0]] + g[1..] == l.token + g;
  }

  /** Inside double quotes, one escaped character. */
  lemma ReadEscape(l: Lexer, c: char)
    requires l.quote == Some('"') && !l.escaped && l.started
    ensures ReadAll(l, Escape(c)) == l.(token := l.token + Reads(c))
  {
    if c == '"' || c == '\\' {
      ReadPair(l, '\\', c);
    } else if IsControl(c) {
      ReadGarble(l, c);
    } else {
      ReadPlain(l, [c]);
    }
  }

  lemma ReadPair(l: Lexer, a: char, b: char)
    ensures ReadAll(l, [a, b]) == Read(Read(l, a), b)
  {
    assert [a, b] == [a] + [b];
    ReadTwice(l, [a], [b]);
    assert ReadAll(l, [a]) == Read(l, a) && ReadAll(Read(l, a), [b]) == Read(Read(l, a), b);
  }

  /** Inside double quotes, characters that are neither quote nor backslash are taken as they are. */
  lemma {:induction false} ReadPlain(l: Lexer, text: string)
    requires l.quote == Some('"') && !l.escaped && l.started
    requires forall i :: 0 <= i < |text| ==> text[i] != '"' && text[i] != '\\'
    ensures ReadAll(l, text) == l.(token := l.token + text)
    decreases |text|
  {
    if text == "" {
      assert l.token + text == l.token;
    } else {
      ReadPlain(l.(token := l.token + [text[0]]), text[1..]);
      assert l.token + [text[0]] + text[1..] == l.token + text;
    }
  }

  lemma {:induction false} ReadEscaped(l: Lexer, word: string)
    requires l.quote == Some('"') && !l.escaped && l.started
    ensures ReadAll(l, EscapeAll(word)) == l.(token := l.token + Reread(word))
    decreases |word|
  {
    hide Escape, Read, Reads;
    if word == "" {
      assert l.token + Reread(word) == l.token;
      return;
    }
    ReadTwice(l, Escape(word[0]), EscapeAll(word[1..]));
    ReadEscape(l, word[0]);
    ReadEscaped(l.(token := l.token + Reads(word[0])), word[1..]);
    assert l.token + Reads(word[0]) + Reread(word[1..]) == l.token + Reread(word);
  }

  /** One printed word, from between tokens. */
  lemma ReadQuoted(tokens: seq<string>, word: string)
    ensures ReadAll(Lexer(tokens, "", None, false, false), Quote(word)) == Lexer(tokens, Reread(word), None, false, true)
  {
    var l := Lexer(tokens, "", None, false, false);
    var inside := Lexer(tokens, "", Some('"'), false, true);
    ReadTwice(l, "\"", EscapeAll(word) + "\"");
    assert "\"" + (EscapeAll(word) + "\"") == Quote(word);
    assert ReadAll(l, "\"") == inside;
    ReadTwice(inside, EscapeAll(word), "\"");
    ReadEscaped(inside, word);
    assert "" + Reread(word) == Reread(word);
    assert ReadAll(inside.(token := Reread(word)), "\"") == Lexer(tokens, Reread(word), None, false, true);
  }

  function RereadAll(words: seq<string>): seq<string> {
    seq(|words|, i requires 0 <= i < |words| => Reread(words[i]))
  }

  lemma ReadStep(tokens: seq<string>, words: seq<string>)
    requires |words| > 1
    ensures ReadAll(Lexer(tokens, "", None, false, false), Printed(words))
            == ReadAll(Lexer(tokens + [Reread(words[0])], "", None, false, false), Printed(words[1..]))
  {
    var l, first := Lexer(tokens, "", None, false, false), Lexer(tokens, Reread(words[0]), None, false, true);
    ReadQuoted(tokens, words[0]);
    PrintedCons(words);
    ReadSingle(first, ' ');
    assert Read(first, ' ') == Lexer(tokens + [Reread(words[0])], "", None, false, false);
    hide Reread, Printed, Quote, ReadAll, Read;
    ReadTwice(l, Quote(words[0]), " " + Printed(words[1..]));
    ReadTwice(first, " ", Printed(words[1..]));
  }

  lemma ReadLast(tokens: seq<string>, words: seq<string>)
    requires |words| <= 1
    ensures Finish(ReadAll(Lexer(tokens, "", None, false, false), Printed(words))) == Tokens(tokens + RereadAll(words))
  {
    if words == [] {
      assert tokens + RereadAll(words) == tokens;
    } else {
      ReadQuoted(tokens, words[0]);
      PrintedCons(words);
      hide Reread, Printed, Quote, ReadAll;
      assert RereadAll(words) == [Reread(words[0])];
    }
  }

  lemma {:induction false} ReadPrinted(tokens: seq<string>, words: seq<string>)
    ensures Finish(ReadAll(Lexer(tokens, "", None, false, false), Printed(words))) == Tokens(tokens + RereadAll(words))
    decreases |words|
  {
    if |words| <= 1 {
      ReadLast(tokens, words);
      return;
    }
    ReadStep(tokens, words);
    assert tokens + RereadAll(words) == tokens + [Reread(words[0])] + RereadAll(words[1..]);
    hide Reread, Printed, ReadAll, Finish, RereadAll;
    ReadPrinted(tokens + [Reread(words[0])], words[1..]);
  }

  lemma PrintedCons(words: seq<string>)
    requires words != []
    ensures |words| == 1 ==> Printed(words) == Quote(words[0])
    ensures |words| > 1 ==> Printed(words) == Quote(words[0]) + (" " + Printed(words[1..]))
  {
    var quoted := seq(|words|, i requires 0 <= i < |words| => Quote(words[i]));
    assert quoted[1..] == seq(|words[1..]|, i requires 0 <= i < |words[1..]| => Quote(words[1..][i]));
    assert quoted[0] == Quote(words[0]);
  }

  /** Tokenizing a printed command never fails, and returns each word as its escapes read. */
  lemma {:induction false} PrintedReads(words: seq<string>)
    ensures Parse(Printed(words)) == Tokens(RereadAll(words))
  {
    ReadPrinted([], words);
    assert [] + RereadAll(words) == RereadAll(words);
  }

  /** A word comes back unchanged exactly when it holds no control character. */
  lemma {:induction false} RereadSame(word: string)
    ensures Reread(word) == word <==> Plain(word)
  {
    if word != "" {
      RereadSame(word[1..]);
      if IsControl(word[0]) {
        assert Reread(word)[0] == Garble(word[0])[0];
      } else {
        assert Reread(word) == [word[0]] + Reread(word[1..]);
        assert word == [word[0]] + word[1..];
        assert Reread(word)[1..] == Reread(word[1..]);
        assert forall i :: 1 <= i < |word| ==> word[i] == word[1..][i - 1];
        assert forall i :: 0 <= i < |word[1..]| ==> word[1..][i] == word[i + 1];
      }
    }
  }

  /** The tokenizer undoes the printer exactly on words without control characters, empty words included. */
  lemma {:induction false} TokenizerUndoesPrinter(words: seq<string>)
    ensures Parse(Printed(words)) == Tokens(words) <==> forall i :: 0 <= i < |words| ==> Plain(words[i])
  {
    PrintedReads(words);
    forall i | 0 <= i < |words|
      ensures Reread(words[i]) == words[i] <==> Plain(words[i])
    {
      RereadSame(words[i]);
    }
    hide Plain, Reread;
    var again := RereadAll(words);
    assert again == words <==> forall i :: 0 <= i < |words| ==> again[i] == words[i];
  }

  /** A tab is printed as an escape the tokenizer does not decode. */
  lemma {:induction false} TabIsLost()
    ensures Parse(Printed(["\t"])) == Tokens(["t"])
  {
    PrintedReads(["\t"]);
    assert Reread("\t") == "t" + Reread("") == "t";
    assert RereadAll(["\t"])[0] == "t";
  }

  /**
   * Failure is exactly an open end, seen from outside: one of the two quotes
   * completes the input and the other does not; it is complete exactly when a
   * space keeps it so and a backslash leaves an escape open; and an open escape
   * takes any character.
   */
  lemma {:induction false} OnlyOpenInputFails(input: string, c: char)
    ensures Parse(input) == Failed(UnterminatedQuote) <==> Parse(input + ['"']).Tokens? != Parse(input + ['\'']).Tokens?
    ensures Parse(input).Tokens? <==> Parse(input + [' ']).Tokens? && Parse(input + ['\\']) == Failed(UnterminatedEscape)
    ensures Parse(input) == Failed(UnterminatedEscape) ==> Parse(input + [c]) != Failed(UnterminatedEscape)
  {
    var end := ReadAll(Start, input);
    Quotes(Start, input);
    ParseMore(input, '"');
    ParseMore(input, '\'');
    ParseMore(input, ' ');
    ParseMore(input, '\\');
    ParseMore(input, c);
    hide Parse, ReadAll;
    assert Parse(input) == Finish(end) by { ParseIs(input); }
  }

  lemma ParseIs(input: string)
    ensures Parse(input) == Finish(ReadAll(Start, input))
  {
  }

  lemma ParseMore(input: string, c: char)
    ensures Parse(input + [c]) == Finish(Read(ReadAll(Start, input), c))
  {
    ReadTwice(Start, input, [c]);
    assert [c][1..] == "";
    assert ReadAll(ReadAll(Start, input), [c]) == Read(ReadAll(Start, input), c);
  }

  /** A quote is one of two characters, and nothing is escaped in a single one. */
  predicate Quoted(l: Lexer) {
    && (l.quote.Some? ==> l.quote.value == '"' || l.quote.value == '\'')
    && (l.escaped ==> l.quote != Some('\''))
  }

  lemma {:induction false} Quotes(l: Lexer, input: string)
    requires Quoted(l)
    ensures Quoted(ReadAll(l, input))
    decreases |input|
  {
    if input != "" { Quotes(Read(l, input[0]), input[1..]); }
  }
}
