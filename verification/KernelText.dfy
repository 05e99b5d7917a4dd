/**
 Parsers of text the kernel prints: the stat line of a process and the escaped
 path fields of mountinfo, the latter as Python and as C decode them.
 */
module KernelText {
  import opened Prelude
  import opened Decimal

  /** White space of `str.split()` within ASCII. */
  predicate Space(c: char) {
    c == ' ' || '\t' <= c <= '\r' || 28 as char <= c <= 31 as char
  }

  predicate Solid(s: string) {
    forall i :: 0 <= i < |s| ==> !Space(s[i])
  }

  /** The length of the token at the front. */
  function TokenLength(s: string): (k: nat)
    ensures k <= |s| && Solid(s[..k])
    ensures k < |s| ==> Space(s[k])
  {
    if s == "" || Space(s[0]) then 0
    else
      var k := TokenLength(s[1..]);
      assert s[..k + 1] == [s[0]] + s[1..][..k];
      k + 1
  }

  /** `str.split()`. */
  function Split(s: string): seq<string> {
    if s == "" then []
    else if Space(s[0]) then Split(s[1..])
    else
      var k := TokenLength(s);
      [s[..k]] + Split(s[k..])
  }

  lemma SplitToken(token: string, rest: string)
    requires token != "" && Solid(token)
    requires rest == "" || Space(rest[0])
    ensures Split(token + rest) == [token] + Split(rest)
  {
    var s := token + rest;
    var k := TokenLength(s);
    assert forall i :: 0 <= i < |token| ==> s[i] == token[i];
    assert rest != "" ==> s[|token|] == rest[0];
    assert forall i :: 0 <= i < k ==> s[..k][i] == s[i];
    assert k == |token|;
    assert s[..k] == token && s[k..] == rest;
  }

  /** One blank-separated field followed by the rest of a line. */
  function Field(token: string, rest: string): (s: string)
    ensures s != "" && s[0] == ' ' && s[1..] == token + rest
  {
    " " + (token + rest)
  }

  lemma SplitField(token: string, rest: string)
    requires token != "" && Solid(token)
    requires rest == "" || Space(rest[0])
    ensures Split(Field(token, rest)) == [token] + Split(rest)
  {
    SplitToken(token, rest);
  }

  /** `str.rfind`, with None for -1. */
  function LastIndex(s: string, c: char): (k: Option<nat>)
    ensures k.Some? ==> k.value < |s|
  {
    if s == "" then None
    else if s[|s| - 1] == c then Some(|s| - 1)
    else LastIndex(s[..|s| - 1], c)
  }

  lemma {:induction false} LastIndexSkips(s: string, t: string, c: char)
    requires c !in t
    ensures LastIndex(s + t, c) == LastIndex(s, c)
  {
    if t == "" {
      assert s + t == s;
    } else {
      LastIndexSkips(s, t[..|t| - 1], c);
      assert (s + t)[..|s + t| - 1] == s + t[..|t| - 1];
      assert t[|t| - 1] in t;
    }
  }

  /** `int(field, 10)` of plain digits; a sign or any other text is no process group. */
  function ParseNatural(s: string): Option<nat> {
    if s != "" && Digits(s) then Some(Denote(s)) else None
  }

  /** Field 5 of a stat line, taken after the last closing parenthesis. */
  function ProcessGroupFromStat(text: string): Option<nat> {
    var closing := LastIndex(text, ')');
    if closing.None? then None
    else
      var fields := Split(text[closing.value + 1..]);
      if |fields| < 3 then None
      else
        var group := ParseNatural(fields[2]);
        if group.Some? && group.value > 0 then group else None
  }

  /** The kernel's stat line; `tail` stands for the numeric fields from the session on. */
  function StatLine(pid: nat, comm: string, state: char, parent: nat, group: nat, tail: string): string {
    Render(pid) + " (" + comm + ")" + StatFields(state, parent, group, tail)
  }

  function StatFields(state: char, parent: nat, group: nat, tail: string): string {
    Field([state], Field(Render(parent), Field(Render(group), Field("", tail))))
  }

  lemma DigitsAreSolid(s: string)
    requires Digits(s)
    ensures Solid(s) && ')' !in s
  {
  }

  lemma SplitThree(a: string, b: string, c: string, tail: string)
    requires a != "" && Solid(a) && b != "" && Solid(b) && c != "" && Solid(c)
    ensures Split(Field(a, Field(b, Field(c, Field("", tail))))) == [a, b, c] + Split(tail)
  {
    var last := Field("", tail);
    var third := Field(c, last);
    var second := Field(b, third);
    assert "" + tail == tail;
    SplitField(c, last);
    SplitField(b, third);
    SplitField(a, second);
  }

  lemma NoParenthesisIn(token: string, rest: string)
    requires ')' !in token && ')' !in rest
    ensures ')' !in Field(token, rest)
  {
  }

  lemma NoParenthesisInThree(a: string, b: string, c: string, tail: string)
    requires ')' !in a && ')' !in b && ')' !in c && ')' !in tail
    ensures ')' !in Field(a, Field(b, Field(c, Field("", tail))))
  {
    NoParenthesisIn("", tail);
    NoParenthesisIn(c, Field("", tail));
    NoParenthesisIn(b, Field(c, Field("", tail)));
    NoParenthesisIn(a, Field(b, Field(c, Field("", tail))));
  }

  /** Whatever precedes the last parenthesis does not matter. */
  lemma AfterLastParenthesis(head: string, fields: string)
    requires ')' !in fields
    ensures LastIndex(head + ")" + fields, ')') == Some(|head|)
    ensures (head + ")" + fields)[|head| + 1..] == fields
  {
    LastIndexSkips(head + ")", fields, ')');
  }

  /** The group is recovered whatever the command name is, blanks and parentheses included. */
  lemma GroupOfStatLine(pid: nat, comm: string, state: char, parent: nat, group: nat, tail: string)
    requires !Space(state) && state != ')' && ')' !in tail
    ensures ProcessGroupFromStat(StatLine(pid, comm, state, parent, group, tail))
            == if group > 0 then Some(group) else None
  {
    var fields := StatFields(state, parent, group, tail);
    DigitsAreSolid(Render(parent));
    DigitsAreSolid(Render(group));
    NoParenthesisInThree([state], Render(parent), Render(group), tail);
    AfterLastParenthesis(Render(pid) + " (" + comm, fields);
    SplitThree([state], Render(parent), Render(group), tail);
    DenoteRender(group);
  }

  predicate IsOctal(c: char) { '0' <= c <= '7' }

  function OctalValue(a: char, b: char, c: char): nat
    requires IsDigit(a) && IsDigit(b) && IsDigit(c)
  {
    (a as int - '0' as int) * 64 + (b as int - '0' as int) * 8 + (c as int - '0' as int)
  }

  /** How the kernel prints a path in mountinfo. */
  function EscapeChar(c: char): string {
    if c == ' ' then "\\040" else if c == '\t' then "\\011" else if c == '\n' then "\\012"
    else if c == '\\' then "\\134" else [c]
  }

  function Escape(s: string): string {
    if s == "" then "" else EscapeChar(s[0]) + Escape(s[1..])
  }

  /** Python: every backslash with three octal digits becomes one character. */
  function Unescape(s: string): string {
    if s == "" then ""
    else if |s| >= 4 && s[0] == '\\' && IsOctal(s[1]) && IsOctal(s[2]) && IsOctal(s[3]) then
      [OctalValue(s[1], s[2], s[3]) as char] + Unescape(s[4..])
    else [s[0]] + Unescape(s[1..])
  }

  lemma UnescapeFront(c: char, rest: string)
    ensures Unescape(EscapeChar(c) + rest) == [c] + Unescape(rest)
  {
    var e := EscapeChar(c);
    assert (e + rest)[|e|..] == rest;
  }

  /** Unescaping undoes escaping for every path. */
  lemma {:induction false} UnescapeEscape(s: string)
    ensures Unescape(Escape(s)) == s
  {
    if s != "" {
      UnescapeEscape(s[1..]);
      UnescapeFront(s[0], Escape(s[1..]));
      assert s == [s[0]] + s[1..];
    }
  }

  /** C: any three decimal digits count, and the value is cut to one byte. */
  function DecodeC(s: string): string {
    if s == "" then ""
    else if |s| >= 4 && s[0] == '\\' && IsDigit(s[1]) && IsDigit(s[2]) && IsDigit(s[3]) then
      [(OctalValue(s[1], s[2], s[3]) % 256) as char] + DecodeC(s[4..])
    else [s[0]] + DecodeC(s[1..])
  }

  lemma DecodeFront(c: char, rest: string)
    ensures DecodeC(EscapeChar(c) + rest) == [c] + DecodeC(rest)
  {
    var e := EscapeChar(c);
    assert (e + rest)[|e|..] == rest;
  }

  lemma {:induction false} DecodeCEscape(s: string)
    ensures DecodeC(Escape(s)) == s
  {
    if s != "" {
      DecodeCEscape(s[1..]);
      DecodeFront(s[0], Escape(s[1..]));
      assert s == [s[0]] + s[1..];
    }
  }

  /**
   On text the kernel does not print the two differ: C takes any decimal digits
   and cuts the value to a byte, Python wants octal digits and keeps all of it.
   */
  lemma DecodersDiffer()
    ensures Unescape("\\189") == "\\189" && DecodeC("\\189") == [137 as char]
    ensures Unescape("\\777") == [511 as char] && DecodeC("\\777") == [255 as char]
    ensures Unescape("\\04") == DecodeC("\\04") == "\\04"
  {
    PlainText("189");
    PlainText("04");
    assert "\\189"[1..] == "189" && "\\189"[4..] == "" && "\\777"[4..] == "" && "\\04"[1..] == "04";
  }

  lemma {:induction false} PlainText(s: string)
    requires '\\' !in s
    ensures Unescape(s) == s && DecodeC(s) == s
  {
    if s != "" {
      PlainText(s[1..]);
      assert s == [s[0]] + s[1..];
    }
  }

  /** The C decoder, in place in the caller's buffer: a NUL-terminated prefix and nothing beyond it. */
  method DecodeMountField(input: string, output: array<char>)
    requires output.Length > 0
    modifies output
    ensures var k := Min(|DecodeC(input)|, output.Length - 1);
            && output[..k] == DecodeC(input)[..k]
            && output[k] == '\0'
            && forall i :: k < i < output.Length ==> output[i] == old(output[i])
  {
    var used, pos := 0, 0;
    assert input[0..] == input;
    while pos < |input| && used + 1 < output.Length
      invariant 0 <= pos <= |input| && 0 <= used < output.Length
      invariant used <= |DecodeC(input)| && output[..used] == DecodeC(input)[..used]
      invariant DecodeC(input)[used..] == DecodeC(input[pos..])
      invariant forall i :: used <= i < output.Length ==> output[i] == old(output[i])
      decreases |input| - pos
    {
      ghost var rest := input[pos..];
      ghost var decoded := DecodeC(input);
      ghost var before := output[..used];
      if pos + 3 < |input| && input[pos] == '\\'
         && IsDigit(input[pos + 1]) && IsDigit(input[pos + 2]) && IsDigit(input[pos + 3]) {
        output[used] := (OctalValue(input[pos + 1], input[pos + 2], input[pos + 3]) % 256) as char;
        assert rest[4..] == input[pos + 4..];
        pos := pos + 4;
      } else {
        output[used] := input[pos];
        assert rest[1..] == input[pos + 1..];
        pos := pos + 1;
      }
      assert decoded[used] == decoded[used..][0] == output[used];
      assert decoded[used + 1..] == decoded[used..][1..];
      assert output[..used + 1] == before + [output[used]];
      used := used + 1;
    }
    if pos == |input| { assert DecodeC(input)[used..] == ""; }
    output[used] := '\0';
  }

  /** A path that fits comes back from the buffer unchanged, in C as in Python. */
  method DecodeEscapedPath(path: string, size: nat) returns (output: array<char>)
    requires |path| < size
    ensures output.Length == size && output[..|path|] == path == Unescape(Escape(path)) && output[|path|] == '\0'
  {
    output := new char[size](_ => '\0');
    DecodeMountField(Escape(path), output);
    DecodeCEscape(path);
    UnescapeEscape(path);
    assert path[..|path|] == path;
  }
}
