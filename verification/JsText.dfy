/** The two JavaScript string notions the bridge relies on. */
module JsText {

  /** White space and line terminators, as `\s` and `String.prototype.trim` take them. */
  predicate IsSpace(c: char) {
    || '\t' <= c <= '\r' || c == ' ' || c == '\U{00A0}' || c == '\U{1680}'
    || '\U{2000}' <= c <= '\U{200A}' || c == '\U{2028}' || c == '\U{2029}'
    || c == '\U{202F}' || c == '\U{205F}' || c == '\U{3000}' || c == '\U{FEFF}'
  }

  function TrimStart(s: string): string {
    if s != [] && IsSpace(s[0]) then TrimStart(s[1..]) else s
  }

  function TrimEnd(s: string): string {
    if s != [] && IsSpace(s[|s| - 1]) then TrimEnd(s[..|s| - 1]) else s
  }

  function Trim(s: string): string {
    TrimEnd(TrimStart(s))
  }

  /** All of a string is white space. */
  ghost predicate Blank(s: string) {
    forall i :: 0 <= i < |s| ==> IsSpace(s[i])
  }

  lemma {:induction false} TrimStartIs(s: string) returns (i: nat)
    ensures i <= |s| && Blank(s[..i]) && s[i..] == TrimStart(s) && (i < |s| ==> !IsSpace(s[i]))
    decreases |s|
  {
    hide IsSpace;
    if s == "" || !IsSpace(s[0]) { return 0; }
    i := TrimStartIs(s[1..]);
    assert s[..i + 1] == [s[0]] + s[1..][..i];
    i := i + 1;
  }

  lemma {:induction false} TrimEndIs(s: string) returns (j: nat)
    ensures j <= |s| && Blank(s[j..]) && s[..j] == TrimEnd(s) && (j > 0 ==> !IsSpace(s[j - 1]))
    decreases |s|
  {
    hide IsSpace;
    if s == "" || !IsSpace(s[|s| - 1]) { return |s|; }
    j := TrimEndIs(s[..|s| - 1]);
    assert s[j..] == s[..|s| - 1][j..] + [s[|s| - 1]];
  }

  /** Trimming takes white space, all of it, off both ends, and nothing else. */
  lemma {:induction false} TrimIs(s: string) returns (i: nat, j: nat)
    ensures i <= j <= |s| && Blank(s[..i]) && Blank(s[j..]) && s[i..j] == Trim(s)
    ensures i < j ==> !IsSpace(s[i]) && !IsSpace(s[j - 1])
    ensures Trim(s) == "" <==> Blank(s)
  {
    hide IsSpace;
    i := TrimStartIs(s);
    var t := TrimStart(s);
    j := TrimEndIs(t);
    assert s[i..i + j] == t[..j] && s[i + j..] == t[j..];
    j := i + j;
    if i == j { assert s[..i] + s[j..] == s; }
  }

  /** `parts.join(separator)`. */
  function Join(parts: seq<string>, separator: string): string {
    if parts == [] then ""
    else if |parts| == 1 then parts[0]
    else parts[0] + separator + Join(parts[1..], separator)
  }

  /** Joining puts the separator between neighbours, and nowhere else. */
  lemma {:induction false} JoinIs(parts: seq<string>, last: string, separator: string)
    ensures Join(parts + [last], separator) == if parts == [] then last else Join(parts, separator) + separator + last
    decreases |parts|
  {
    if |parts| == 1 {
      assert (parts + [last])[1..] == [last];
    } else if |parts| > 1 {
      JoinIs(parts[1..], last, separator);
      assert (parts + [last])[1..] == parts[1..] + [last];
    }
  }
}
