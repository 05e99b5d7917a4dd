/**
 The /proc/meminfo rewriter of the shim: a buffer filled in place, and what the
 shim's own parser reads back from it.
 */
module Meminfo {
  import opened Prelude
  import opened Decimal
  import opened Resolver
  import opened Shim

  const SLACK: nat := 4096

  predicate Blank(c: char) { c == ' ' || '\t' <= c <= '\r' }

  /** A name with its colon, on one line. */
  predicate IsLabel(s: string) {
    && s != "" && s[|s| - 1] == ':'
    && (forall i :: 0 <= i < |s| - 1 ==> s[i] != ':') && forall i :: 0 <= i < |s| ==> s[i] != '\n'
  }

  /** The labels of the rewriter are short and start with a letter. */
  predicate IsKey(s: string) {
    IsLabel(s) && 6 <= |s| <= 13 && 'A' <= s[0] <= 'Z'
  }

  /** A label of the rewriter and the bytes it is to show. */
  datatype Row = Row(key: string, bytes: Counter)

  predicate IsTable(rows: seq<Row>) {
    && (forall i :: 0 <= i < |rows| ==> IsKey(rows[i].key))
    && (forall i, j :: 0 <= i < j < |rows| ==> rows[i].key != rows[j].key)
  }

  type Table = rows: seq<Row> | IsTable(rows)

  /** Where the first colon is; the length when there is none. */
  function ColonAt(s: string): nat {
    if s == "" || s[0] == ':' then 0 else 1 + ColonAt(s[1..])
  }

  lemma {:induction false} ColonAtLabel(name: string, text: string)
    requires IsLabel(name) && name <= text
    ensures ColonAt(text) == |name| - 1 && name == text[..|name|]
  {
    if |name| > 1 {
      assert name[0] != ':';
      assert IsLabel(name[1..]);
      assert name[1..] <= text[1..];
      ColonAtLabel(name[1..], text[1..]);
    }
  }

  /** Only one label can start a text. */
  lemma OneLabel(a: string, b: string, text: string)
    requires IsLabel(a) && IsLabel(b) && a <= text && b <= text
    ensures a == b
  {
    ColonAtLabel(a, text);
    ColonAtLabel(b, text);
  }

  lemma OtherLabel(a: string, b: string, text: string)
    requires IsLabel(a) && IsLabel(b) && a <= text && a != b
    ensures !(b <= text)
  {
    if b <= text { OneLabel(a, b, text); }
  }

  /** `line_key`: the first key that starts the line. */
  function FirstKey(line: string, table: seq<Row>): (k: Option<nat>)
    ensures k.Some? ==> k.value < |table| && table[k.value].key <= line
    ensures k.None? ==> forall i :: 0 <= i < |table| ==> !(table[i].key <= line)
  {
    if table == [] then None
    else
      var k := FirstKey(line, table[..|table| - 1]);
      if k.Some? then k else if table[|table| - 1].key <= line then Some(|table| - 1) else None
  }

  method LineKey(line: string, table: seq<Row>) returns (k: Option<nat>)
    ensures k == FirstKey(line, table)
  {
    for i := 0 to |table|
      invariant FirstKey(line, table[..i]).None?
    {
      assert table[..i + 1][..i] == table[..i];
      if table[i].key <= line {
        FirstKeyFound(line, table, i);
        return Some(i);
      }
    }
    assert table[..|table|] == table;
    return None;
  }

  lemma {:induction false} FirstKeyFound(line: string, table: seq<Row>, i: nat)
    requires i < |table| && FirstKey(line, table[..i]).None? && table[i].key <= line
    ensures FirstKey(line, table) == Some(i)
  {
    var front := table[..|table| - 1];
    if i < |front| {
      assert front[..i] == table[..i];
      FirstKeyFound(line, front, i);
    }
  }

  /** No two keys can claim the same line. */
  lemma KeyOfLine(line: string, table: Table, i: nat)
    requires i < |table| && table[i].key <= line
    ensures FirstKey(line, table) == Some(i)
  {
    var k := FirstKey(line, table);
    assert k.Some?;
    OneLabel(table[i].key, table[k.value].key, line);
  }

  function Blanks(n: nat): (s: string)
    ensures |s| == n && forall i :: 0 <= i < n ==> s[i] == ' '
  {
    if n == 0 then "" else " " + Blanks(n - 1)
  }

  function KibTail(bytes: nat, width: nat): string {
    Blanks(width) + (" " + (Render(bytes / 1024) + " kB\n"))
  }

  /** "%-18s %llu kB\n" */
  function KibLine(row: Row): string
    requires IsKey(row.key)
  {
    row.key + KibTail(row.bytes, 18 - |row.key|)
  }

  function RewriteLine(line: string, table: Table): string {
    var k := FirstKey(line, table);
    if k.None? then line else KibLine(table[k.value])
  }

  /** The length of the first line, its newline included. */
  function FirstLine(text: string): (k: nat)
    requires text != ""
    ensures 0 < k <= |text|
    ensures forall i :: 0 <= i < k - 1 ==> text[i] != '\n'
    ensures k < |text| ==> text[k - 1] == '\n'
  {
    if text[0] == '\n' || |text| == 1 then 1 else FirstLine(text[1..]) + 1
  }

  function Rewrite(text: string, table: Table): string {
    if text == "" then ""
    else
      var k := FirstLine(text);
      RewriteLine(text[..k], table) + Rewrite(text[k..], table)
  }

  function TargetLines(text: string, table: Table): nat {
    if text == "" then 0
    else
      var k := FirstLine(text);
      (if FirstKey(text[..k], table).Some? then 1 else 0) + TargetLines(text[k..], table)
  }

  /** The lines no key starts, in order. */
  function OtherLines(text: string, table: Table): string {
    if text == "" then ""
    else
      var k := FirstLine(text);
      if FirstKey(text[..k], table).Some? then OtherLines(text[k..], table)
      else text[..k] + OtherLines(text[k..], table)
  }

  lemma KibLineLength(row: Row)
    requires IsKey(row.key)
    ensures 0 < |KibLine(row)| <= 43 && |KibLine(row)| == 18 + 1 + |Render(row.bytes / 1024)| + 4
  {
    Pow10Of20();
    RenderLength(row.bytes / 1024, 20);
  }

  /** A rewritten line gains at most 37 characters. */
  lemma {:induction false} RewriteLength(text: string, table: Table)
    ensures |Rewrite(text, table)| <= |text| + 37 * TargetLines(text, table)
  {
    if text != "" {
      var k := FirstLine(text);
      var key := FirstKey(text[..k], table);
      RewriteLength(text[k..], table);
      if key.Some? { KibLineLength(table[key.value]); }
    }
  }

  /** A line that only its last character may end. */
  predicate IsLine(s: string) {
    s != "" && forall i :: 0 <= i < |s| - 1 ==> s[i] != '\n'
  }

  /** The first line of a line followed by others. */
  lemma {:induction false} FirstLineOf(line: string, rest: string)
    requires IsLine(line) && (rest == "" || line[|line| - 1] == '\n')
    ensures FirstLine(line + rest) == |line|
    ensures (line + rest)[..|line|] == line && (line + rest)[|line|..] == rest
  {
    if |line| > 1 {
      assert line[0] != '\n';
      assert IsLine(line[1..]);
      FirstLineOf(line[1..], rest);
      assert (line + rest)[1..] == line[1..] + rest;
    }
  }

  lemma KibLineIsLine(row: Row)
    requires IsKey(row.key)
    ensures IsLine(KibLine(row)) && KibLine(row)[|KibLine(row)| - 1] == '\n' && row.key <= KibLine(row)
  {
  }

  /** Rewriting a first line leaves a first line. */
  lemma RewriteFirst(text: string, table: Table)
    requires text != ""
    ensures var k := FirstLine(text);
            var line, rest := RewriteLine(text[..k], table), Rewrite(text[k..], table);
            && line != "" && Rewrite(text, table) == line + rest && FirstLine(line + rest) == |line|
            && (line + rest)[|line|..] == rest && (line + rest)[..|line|] == line
            && (FirstKey(text[..k], table).Some? ==> table[FirstKey(text[..k], table).value].key <= line)
  {
    var k := FirstLine(text);
    var key := FirstKey(text[..k], table);
    if key.Some? { KibLineIsLine(table[key.value]); }
    FirstLineOf(RewriteLine(text[..k], table), Rewrite(text[k..], table));
  }

  /** Lines that are not targets are copied in order, and nothing is made to look like one. */
  lemma {:induction false} OtherLinesAreCopied(text: string, table: Table)
    ensures OtherLines(Rewrite(text, table), table) == OtherLines(text, table)
  {
    if text != "" {
      var k := FirstLine(text);
      var key := FirstKey(text[..k], table);
      OtherLinesAreCopied(text[k..], table);
      RewriteFirst(text, table);
      if key.Some? { KeyOfLine(RewriteLine(text[..k], table), table, key.value); }
    }
  }

  function DigitPrefix(s: string): (d: string)
    ensures Digits(d)
  {
    if s == "" || !IsDigit(s[0]) then "" else [s[0]] + DigitPrefix(s[1..])
  }

  /** The value of an optionally negated run of digits, in 64 bits. */
  function Wrapped(negative: bool, d: string): (n: Option<nat>)
    requires Digits(d)
    ensures n.Some? ==> n.value < U64_RANGE
  {
    if d == "" || Denote(d) >= U64_RANGE then None
    else if negative then Some((U64_RANGE - Denote(d)) % U64_RANGE)
    else Some(Denote(d))
  }

  function Signed(s: string): (n: Option<nat>)
    requires s != ""
  {
    Wrapped(s[0] == '-', DigitPrefix(if s[0] == '+' || s[0] == '-' then s[1..] else s))
  }

  /**
   `strtoull`. The shim first tries a stricter parser of its own, which accepts
   no other numbers and gives the same value.
   */
  function StrToUll(s: string): Option<nat> {
    if s == "" then None
    else if Blank(s[0]) then StrToUll(s[1..])
    else Signed(s)
  }

  /** Blanks and a sign may come first, anything may follow, a minus wraps, and what does not fit is nothing. */
  lemma StrToUllByExample()
    ensures StrToUll(" \t12 kB\n") == Some(12) && StrToUll("+7") == Some(7)
    ensures StrToUll("-1") == Some(0xFFFF_FFFF_FFFF_FFFF)
    ensures StrToUll("kB") == None && StrToUll("- 1") == None && StrToUll("") == None
    ensures Kibibytes(Some(0x3F_FFFF_FFFF_FFFF)) == Some(0xFFFF_FFFF_FFFF_FC00)
    ensures Kibibytes(Some(0x40_0000_0000_0000)) == None
  {
    assert DigitPrefix("12 kB\n") == "12" by { assert DigitPrefix("2 kB\n") == "2"; }
    assert Denote("12") == 12 by { assert "12"[..1] == "1" && "1"[..0] == ""; }
    assert DigitPrefix("7") == "7" && DigitPrefix("1") == "1" && Denote("7") == 7 && Denote("1") == 1 by {
      assert "7"[..0] == "" && "1"[..0] == "";
    }
    assert " \t12 kB\n"[1..][1..] == "12 kB\n" && "+7"[1..] == "7" && "-1"[1..] == "1" && "- 1"[1..] == " 1";
  }

  function Kibibytes(n: Option<nat>): Option<nat> {
    if n.Some? && n.value <= 0x3F_FFFF_FFFF_FFFF then Some(n.value * 1024) else None
  }

  /** The bytes of a label: its first line decides. */
  function Value(text: string, name: string): Option<nat> {
    if text == "" then None
    else if name <= text then Kibibytes(StrToUll(text[|name|..]))
    else Value(text[FirstLine(text)..], name)
  }

  lemma ValueElsewhere(text: string, name: string)
    requires text != "" && !(name <= text)
    ensures Value(text, name) == Value(text[FirstLine(text)..], name)
  {
  }

  /** `meminfo_value` */
  method MeminfoValue(text: string, name: string) returns (bytes: Option<nat>)
    ensures bytes == Value(text, name)
  {
    var line := text;
    while line != ""
      invariant Value(line, name) == Value(text, name)
      decreases |line|
    {
      if name <= line {
        var parsed := StrToUll(line[|name|..]);
        return Kibibytes(parsed);
      }
      ValueElsewhere(line, name);
      line := line[FirstLine(line)..];
    }
    return None;
  }

  lemma {:induction false} DigitPrefixLocal(t: string, rest: string)
    requires t != "" && t[|t| - 1] == '\n'
    ensures DigitPrefix(t + rest) == DigitPrefix(t)
  {
    if |t| > 1 {
      DigitPrefixLocal(t[1..], rest);
      assert (t + rest)[1..] == t[1..] + rest;
    }
  }

  lemma SignedLocal(t: string, rest: string)
    requires |t| > 1 && t[|t| - 1] == '\n'
    ensures Signed(t + rest) == Signed(t)
  {
    DigitPrefixLocal(t, rest);
    DigitPrefixLocal(t[1..], rest);
    assert (t + rest)[1..] == t[1..] + rest;
  }

  /** A parse that meets anything but blanks ends within the line. */
  lemma {:induction false} ParseWithinLine(tail: string, a: string, b: string)
    requires tail != "" && tail[|tail| - 1] == '\n'
    requires StrToUll(a) == StrToUll(b)
    ensures StrToUll(tail + a) == StrToUll(tail + b)
  {
    assert (tail + a)[1..] == tail[1..] + a && (tail + b)[1..] == tail[1..] + b;
    if |tail| == 1 {
      assert tail[1..] + a == a && tail[1..] + b == b;
    } else if Blank(tail[0]) {
      ParseWithinLine(tail[1..], a, b);
    } else {
      SignedLocal(tail, a);
      SignedLocal(tail, b);
    }
  }

  lemma NoNumberAtKey(key: string, text: string)
    requires IsKey(key) && key <= text
    ensures StrToUll(text) == None
  {
    assert text[0] == key[0];
  }

  lemma ParseAcrossTarget(rest: string, table: Table)
    requires rest != "" && FirstKey(rest[..FirstLine(rest)], table).Some?
    ensures StrToUll(Rewrite(rest, table)) == StrToUll(rest)
  {
    var key := table[FirstKey(rest[..FirstLine(rest)], table).value].key;
    RewriteFirst(rest, table);
    NoNumberAtKey(key, rest);
    NoNumberAtKey(key, Rewrite(rest, table));
  }

  lemma RewriteOther(rest: string, table: Table)
    requires rest != "" && FirstKey(rest[..FirstLine(rest)], table).None?
    ensures var line, more := rest[..FirstLine(rest)], rest[FirstLine(rest)..];
            && rest == line + more && Rewrite(rest, table) == line + Rewrite(more, table)
            && line != "" && (more == "" ==> Rewrite(more, table) == "") && (more != "" ==> line[|line| - 1] == '\n')
  {
  }

  lemma SameParse(line: string, a: string, b: string)
    requires line != "" && (b == "" ==> a == "") && (b != "" ==> line[|line| - 1] == '\n')
    requires StrToUll(a) == StrToUll(b)
    ensures StrToUll(line + a) == StrToUll(line + b)
  {
    if b != "" { ParseWithinLine(line, a, b); }
  }

  /** What a parse can see of the following lines does not change by rewriting. */
  lemma {:induction false} ParseAcrossLines(rest: string, table: Table)
    ensures StrToUll(Rewrite(rest, table)) == StrToUll(rest)
  {
    if rest != "" {
      if FirstKey(rest[..FirstLine(rest)], table).Some? {
        ParseAcrossTarget(rest, table);
      } else {
        var line, more := rest[..FirstLine(rest)], rest[FirstLine(rest)..];
        ParseAcrossLines(more, table);
        RewriteOther(rest, table);
        SameParse(line, Rewrite(more, table), more);
      }
    }
  }

  /** A line starts with a prefix exactly if it does so with more lines behind it. */
  lemma PrefixOfLine(prefix: string, line: string, rest: string)
    requires |prefix| <= |line|
    ensures prefix <= line + rest <==> prefix <= line
  {
    assert (line + rest)[..|prefix|] == line[..|prefix|];
  }

  lemma LabelFitsLine(name: string, text: string)
    requires IsLabel(name) && name <= text
    ensures |name| <= FirstLine(text)
  {
    var last := Min(FirstLine(text), |name|) - 1;
    assert text[last] == name[last];
  }

  /** Whether a text starts with a label is decided by its first line. */
  lemma LabelHere(name: string, line: string, rest: string)
    requires IsLabel(name) && IsLine(line) && (rest == "" || line[|line| - 1] == '\n')
    ensures name <= line + rest <==> name <= line
  {
    FirstLineOf(line, rest);
    if name <= line + rest { LabelFitsLine(name, line + rest); }
    if |name| <= |line| { PrefixOfLine(name, line, rest); }
  }

  lemma AfterLabel(name: string, line: string, rest: string)
    requires name <= line
    ensures name <= line + rest && (line + rest)[|name|..] == line[|name|..] + rest
  {
    PrefixOfLine(name, line, rest);
  }

  /** The number on a line can only depend on how a parse of the rest would start. */
  lemma ValueOnLine(name: string, line: string, a: string, b: string)
    requires IsLabel(name) && name <= line
    requires StrToUll(a) == StrToUll(b) && (a == b || line[|line| - 1] == '\n')
    ensures Value(line + a, name) == Value(line + b, name)
  {
    AfterLabel(name, line, a);
    AfterLabel(name, line, b);
    if a != b {
      assert name[|name| - 1] == line[|name| - 1];
      ParseWithinLine(line[|name|..], a, b);
    }
  }

  /** A line that is not a target shows the same label and number after rewriting as before. */
  lemma ValueHere(text: string, table: Table, name: string)
    requires IsLabel(name) && text != "" && FirstKey(text[..FirstLine(text)], table).None?
    ensures name <= text <==> name <= Rewrite(text, table)
    ensures name <= text ==> Value(Rewrite(text, table), name) == Value(text, name)
  {
    var k := FirstLine(text);
    var line, rest := text[..k], text[k..];
    var changed := Rewrite(rest, table);
    assert text == line + rest && Rewrite(text, table) == line + changed;
    LabelHere(name, line, rest);
    LabelHere(name, line, changed);
    ParseAcrossLines(rest, table);
    if name <= line { ValueOnLine(name, line, changed, rest); }
  }

  /** Every label that is no target parses as before. */
  lemma {:induction false} OtherValuesUnchanged(text: string, table: Table, name: string)
    requires IsLabel(name) && forall i :: 0 <= i < |table| ==> name != table[i].key
    ensures Value(Rewrite(text, table), name) == Value(text, name)
  {
    if text != "" {
      var k := FirstLine(text);
      var key := FirstKey(text[..k], table);
      var changed := Rewrite(text, table);
      OtherValuesUnchanged(text[k..], table, name);
      RewriteFirst(text, table);
      if key.Some? {
        OtherLabel(table[key.value].key, name, text);
        OtherLabel(table[key.value].key, name, changed);
      } else {
        ValueHere(text, table, name);
      }
      if !(name <= text) {
        ValueElsewhere(text, name);
        ValueElsewhere(changed, name);
      }
    }
  }

  predicate Present(text: string, name: string) {
    text != "" && (name <= text || Present(text[FirstLine(text)..], name))
  }

  lemma {:induction false} SkipBlanks(n: nat, s: string)
    ensures StrToUll(Blanks(n) + s) == StrToUll(s)
  {
    if n > 0 {
      SkipBlanks(n - 1, s);
      assert (Blanks(n) + s)[1..] == Blanks(n - 1) + s;
    } else {
      assert Blanks(n) + s == s;
    }
  }

  lemma {:induction false} DigitPrefixOf(d: string, rest: string)
    requires Digits(d) && (rest == "" || !IsDigit(rest[0]))
    ensures DigitPrefix(d + rest) == d
  {
    if d == "" {
      assert d + rest == rest;
    } else {
      DigitPrefixOf(d[1..], rest);
      assert (d + rest)[1..] == d[1..] + rest;
    }
  }

  lemma ParseDigits(n: nat, rest: string)
    requires n < U64_RANGE && rest != "" && !IsDigit(rest[0])
    ensures StrToUll(Render(n) + rest) == Some(n)
  {
    DigitPrefixOf(Render(n), rest);
    DenoteRender(n);
    assert (Render(n) + rest)[0] == Render(n)[0];
  }

  /** The printed number is read back, whatever follows. */
  lemma ParseKibTail(bytes: Counter, width: nat, rest: string)
    ensures StrToUll(KibTail(bytes, width) + rest) == Some(bytes / 1024)
  {
    var after := Render(bytes / 1024) + (" kB\n" + rest);
    assert KibTail(bytes, width) + rest == Blanks(width) + (" " + after);
    SkipBlanks(width, " " + after);
    assert (" " + after)[1..] == after;
    ParseDigits(bytes / 1024, " kB\n" + rest);
  }

  lemma ValueOfKibLine(row: Row, rest: string)
    requires IsKey(row.key)
    ensures row.key <= KibLine(row) + rest
    ensures Value(KibLine(row) + rest, row.key) == Some(row.bytes / 1024 * 1024)
  {
    ParseKibTail(row.bytes, 18 - |row.key|, rest);
    assert (KibLine(row) + rest)[|row.key|..] == KibTail(row.bytes, 18 - |row.key|) + rest;
  }

  /** A text that starts with a key is a target line. */
  lemma KeyAtFront(text: string, table: Table, i: nat)
    requires i < |table| && table[i].key <= text
    ensures FirstKey(text[..FirstLine(text)], table) == Some(i)
  {
    var k := FirstLine(text);
    LabelFitsLine(table[i].key, text);
    assert text == text[..k] + text[k..];
    PrefixOfLine(table[i].key, text[..k], text[k..]);
    KeyOfLine(text[..k], table, i);
  }

  /** Every present target parses to its value rounded down to whole KiB. */
  lemma {:induction false} TargetValue(text: string, table: Table, i: nat)
    requires i < |table| && Present(text, table[i].key)
    ensures Value(Rewrite(text, table), table[i].key) == Some(table[i].bytes / 1024 * 1024)
  {
    var k := FirstLine(text);
    var rest, key := text[k..], FirstKey(text[..k], table);
    var changed := Rewrite(text, table);
    RewriteFirst(text, table);
    if key == Some(i) {
      ValueOfKibLine(table[i], Rewrite(rest, table));
    } else {
      if table[i].key <= text { KeyAtFront(text, table, i); }
      if key.Some? {
        OtherLabel(table[key.value].key, table[i].key, changed);
      } else {
        ValueHere(text, table, table[i].key);
      }
      TargetValue(rest, table, i);
      ValueElsewhere(changed, table[i].key);
    }
  }

  /** `append_bytes`: all or nothing, and always a terminated buffer. */
  method AppendBytes(output: array<char>, start: nat, data: string) returns (ok: bool, used: nat)
    requires start < output.Length
    modifies output
    ensures ok <==> start + |data| < output.Length
    ensures ok ==> used == start + |data| && output[..used] == old(output[..start]) + data && output[used] == '\0'
    ensures !ok ==> used == start && output[..] == old(output[..])
  {
    if start + |data| + 1 > output.Length { return false, start; }
    forall i | 0 <= i < |data| { output[start + i] := data[i]; }
    used := start + |data|;
    output[used] := '\0';
    ok := true;
  }

  method AppendKibLine(output: array<char>, start: nat, row: Row) returns (ok: bool, used: nat)
    requires start < output.Length && IsKey(row.key)
    modifies output
    ensures ok <==> start + |KibLine(row)| < output.Length
    ensures ok ==> && used == start + |KibLine(row)|
                   && output[..used] == old(output[..start]) + KibLine(row) && output[used] == '\0'
    ensures !ok ==> used == start && output[..] == old(output[..])
  {
    var line := KibLine(row);
    KibLineLength(row);
    assert 0 < |line| < 128;
    ok, used := AppendBytes(output, start, line);
  }

  /** One line of the rewriter's loop. */
  method AppendLine(output: array<char>, start: nat, line: string, table: Table) returns (ok: bool, used: nat)
    requires start < output.Length
    modifies output
    ensures ok <==> start + |RewriteLine(line, table)| < output.Length
    ensures ok ==> used == start + |RewriteLine(line, table)| && output[used] == '\0'
                   && output[..used] == old(output[..start]) + RewriteLine(line, table)
    ensures !ok ==> used == start && output[..] == old(output[..])
  {
    var key := LineKey(line, table);
    if key.Some? {
      ok, used := AppendKibLine(output, start, table[key.value]);
    } else {
      ok, used := AppendBytes(output, start, line);
    }
  }

  /**
   `synthetic_meminfo`: the rewritten text in a buffer of 4096 spare characters.
   Every write stays inside it, it fails only when the text does not fit, and
   with at most 110 target lines it always fits.
   */
  method Synthesize(original: string, table: Table) returns (output: array<char>, used: nat, ok: bool)
    ensures fresh(output) && output.Length == |original| + SLACK
    ensures ok <==> |Rewrite(original, table)| < output.Length
    ensures ok ==> && used == |Rewrite(original, table)|
                   && output[..used] == Rewrite(original, table) && output[used] == '\0'
    ensures TargetLines(original, table) <= 110 ==> ok
  {
    output := new char[|original| + SLACK](_ => '\0');
    used, ok := 0, true;
    var cursor := original;
    RewriteLength(original, table);
    while cursor != ""
      invariant used < output.Length && output[used] == '\0'
      invariant output[..used] + Rewrite(cursor, table) == Rewrite(original, table)
      decreases |cursor|
    {
      var length := FirstLine(cursor);
      ghost var before := output[..used];
      ghost var line, next := RewriteLine(cursor[..length], table), Rewrite(cursor[length..], table);
      assert Rewrite(original, table) == (before + line) + next;
      ok, used := AppendLine(output, used, cursor[..length], table);
      if !ok { return; }
      cursor := cursor[length..];
    }
  }

  const KEY_COUNT: nat := 10

  function Key(i: nat): string
    requires i < KEY_COUNT
  {
    match i
    case 0 => "MemTotal:"
    case 1 => "MemFree:"
    case 2 => "MemAvailable:"
    case 3 => "Buffers:"
    case 4 => "Cached:"
    case 5 => "SReclaimable:"
    case 6 => "Shmem:"
    case 7 => "SwapTotal:"
    case 8 => "SwapFree:"
    case _ => "SwapCached:"
  }

  lemma KeysAreKeys(i: nat)
    requires i < KEY_COUNT
    ensures IsKey(Key(i))
  {
  }

  lemma KeysDiffer(i: nat, j: nat)
    requires i < j < KEY_COUNT
    ensures Key(i) != Key(j)
  {
    assert |Key(i)| == |Key(j)| ==> Key(i)[2] != Key(j)[2] || Key(i)[4] != Key(j)[4];
  }

  type Values = v: seq<Counter> | |v| == KEY_COUNT witness [0, 0, 0, 0, 0, 0, 0, 0, 0, 0]

  /** The values shown for a snapshot and its swap bounds, in the order of the keys. */
  function DisplayValues(p: Picture, swapLimit: Counter, swapCurrent: Counter): Values
    requires p.limit < U64_RANGE && p.inactive <= p.current <= p.limit
  {
    [p.limit, p.limit - p.current, p.limit - (p.current - p.inactive), 0, p.inactive, 0, 0,
     swapLimit, if swapLimit > swapCurrent then swapLimit - swapCurrent else 0, 0]
  }

  function DisplayTable(values: Values): (table: Table)
    ensures |table| == KEY_COUNT && forall i :: 0 <= i < KEY_COUNT ==> table[i] == Row(Key(i), values[i])
  {
    var rows := seq(KEY_COUNT, i requires 0 <= i < KEY_COUNT => Row(Key(i), values[i]));
    TableOfKeys(rows, values);
    rows
  }

  lemma TableOfKeys(rows: seq<Row>, values: Values)
    requires |rows| == KEY_COUNT && forall i :: 0 <= i < KEY_COUNT ==> rows[i] == Row(Key(i), values[i])
    ensures IsTable(rows)
  {
    forall i | 0 <= i < |rows| ensures IsKey(rows[i].key) { KeysAreKeys(i); }
    forall i, j | 0 <= i < j < |rows| ensures rows[i].key != rows[j].key { KeysDiffer(i, j); }
  }

  /** Every key of the real file shows its value in whole KiB. */
  lemma ShownValue(text: string, values: Values, i: nat)
    requires i < KEY_COUNT && Present(text, Key(i))
    ensures Value(Rewrite(text, DisplayTable(values)), Key(i)) == Some(values[i] / 1024 * 1024)
  {
    TargetValue(text, DisplayTable(values), i);
  }

  /** The key shows this many bytes, in whole KiB. */
  predicate Shows(before: string, after: string, key: string, bytes: nat) {
    Present(before, key) ==> Value(after, key) == Some(bytes / 1024 * 1024)
  }

  /** Every key shows its value. */
  predicate ShowsTable(before: string, after: string, values: Values) {
    forall i :: 0 <= i < KEY_COUNT ==> Shows(before, after, Key(i), values[i])
  }

  lemma ShownTable(text: string, values: Values)
    ensures ShowsTable(text, Rewrite(text, DisplayTable(values)), values)
  {
    forall i | 0 <= i < KEY_COUNT ensures Shows(text, Rewrite(text, DisplayTable(values)), Key(i), values[i]) {
      if Present(text, Key(i)) { ShownValue(text, values, i); }
    }
  }

  lemma ShownAt(before: string, after: string, values: Values, i: nat, key: string, bytes: nat)
    requires ShowsTable(before, after, values) && i < KEY_COUNT && Key(i) == key && values[i] == bytes
    ensures Shows(before, after, key, bytes)
  {
  }

  predicate ShowsHeadroom(before: string, after: string, p: Picture) {
    && p.inactive <= p.current <= p.limit
    && Shows(before, after, "MemTotal:", p.limit)
    && Shows(before, after, "MemFree:", p.limit - p.current)
    && Shows(before, after, "MemAvailable:", p.limit - p.current + p.inactive)
  }

  predicate ShowsCaches(before: string, after: string, p: Picture) {
    && Shows(before, after, "Cached:", p.inactive)
    && Shows(before, after, "Buffers:", 0)
    && Shows(before, after, "SReclaimable:", 0)
    && Shows(before, after, "Shmem:", 0)
  }

  predicate ShowsSwap(before: string, after: string, swapLimit: Counter, swapCurrent: Counter) {
    && Shows(before, after, "SwapTotal:", swapLimit)
    && Shows(before, after, "SwapFree:", Max(0, swapLimit - swapCurrent))
    && Shows(before, after, "SwapCached:", 0)
  }

  lemma ShownHeadroom(before: string, after: string, values: Values, p: Picture)
    requires p.limit < U64_RANGE && p.inactive <= p.current <= p.limit
    requires ShowsTable(before, after, values)
    requires values[0] == p.limit && values[1] == p.limit - p.current && values[2] == p.limit - p.current + p.inactive
    ensures ShowsHeadroom(before, after, p)
  {
    ShownAt(before, after, values, 0, "MemTotal:", p.limit);
    ShownAt(before, after, values, 1, "MemFree:", p.limit - p.current);
    ShownAt(before, after, values, 2, "MemAvailable:", p.limit - p.current + p.inactive);
  }

  lemma ShownCaches(before: string, after: string, values: Values, p: Picture)
    requires ShowsTable(before, after, values)
    requires values[3] == values[5] == values[6] == 0 && values[4] == p.inactive
    ensures ShowsCaches(before, after, p)
  {
    ShownAt(before, after, values, 3, "Buffers:", 0);
    ShownAt(before, after, values, 4, "Cached:", p.inactive);
    ShownAt(before, after, values, 5, "SReclaimable:", 0);
    ShownAt(before, after, values, 6, "Shmem:", 0);
  }

  lemma ShownSwap(before: string, after: string, values: Values, swapLimit: Counter, swapCurrent: Counter)
    requires ShowsTable(before, after, values)
    requires values[7] == swapLimit && values[8] == Max(0, swapLimit - swapCurrent) && values[9] == 0
    ensures ShowsSwap(before, after, swapLimit, swapCurrent)
  {
    ShownAt(before, after, values, 7, "SwapTotal:", swapLimit);
    ShownAt(before, after, values, 8, "SwapFree:", Max(0, swapLimit - swapCurrent));
    ShownAt(before, after, values, 9, "SwapCached:", 0);
  }

  /** What each line of the real file is replaced by, for a snapshot and its swap bounds. */
  lemma ShownAmounts(text: string, p: Picture, swapLimit: Counter, swapCurrent: Counter)
    requires p.limit < U64_RANGE && p.inactive <= p.current <= p.limit
    ensures var after := Rewrite(text, DisplayTable(DisplayValues(p, swapLimit, swapCurrent)));
            && ShowsHeadroom(text, after, p) && ShowsCaches(text, after, p)
            && ShowsSwap(text, after, swapLimit, swapCurrent)
  {
    var values := DisplayValues(p, swapLimit, swapCurrent);
    var after := Rewrite(text, DisplayTable(values));
    ShownTable(text, values);
    ShownHeadroom(text, after, values, p);
    ShownCaches(text, after, values, p);
    ShownSwap(text, after, values, swapLimit, swapCurrent);
  }

  /** What the shim shows is always a possible state of memory. */
  lemma SynthesisIsPossible(l: Location, host: nat, file: ReceiptFile, env: Option<string>)
    requires l.Valid() && Synthesis(l, host, file, env).Some?
    ensures var p := Synthesis(l, host, file, env).value;
            p.limit <= host && p.inactive <= p.current <= p.limit
  {
    BoundIsAtMostHost(l, host);
  }

  lemma WholeKibibytes(a: nat, b: nat)
    requires a <= b
    ensures a / 1024 * 1024 <= b / 1024 * 1024 <= b
  {
  }

  /** Equal or larger values are shown as equal or larger numbers. */
  lemma ShownOrder(text: string, table: Table, i: nat, j: nat)
    requires i < |table| && j < |table| && Present(text, table[i].key) && Present(text, table[j].key)
    requires table[i].bytes <= table[j].bytes
    ensures var a, b := Value(Rewrite(text, table), table[i].key), Value(Rewrite(text, table), table[j].key);
            a.Some? && b.Some? && a.value <= b.value
  {
    TargetValue(text, table, i);
    TargetValue(text, table, j);
    WholeKibibytes(table[i].bytes, table[j].bytes);
  }

  const MEM_TOTAL: nat := 0
  const MEM_FREE: nat := 1
  const MEM_AVAILABLE: nat := 2

  /** The values of a possible state are in the order free <= available <= total. */
  lemma DisplayedOrder(p: Picture, swapLimit: Counter, swapCurrent: Counter)
    requires p.limit < U64_RANGE && p.inactive <= p.current <= p.limit
    ensures var values := DisplayValues(p, swapLimit, swapCurrent);
            values[MEM_FREE] <= values[MEM_AVAILABLE] <= values[MEM_TOTAL]
  {
  }
}
