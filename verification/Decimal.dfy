/**
 Decimal text: how the orchestrator prints the verified memory receipt and how
 the C shim and the Python helper read it back.
 */
module Decimal {
  import opened Prelude

  function DigitChar(d: int): char
    requires 0 <= d < 10
  {
    (d + '0' as int) as char
  }

  predicate IsDigit(c: char) { '0' <= c <= '9' }

  predicate Digits(s: string) { forall i :: 0 <= i < |s| ==> IsDigit(s[i]) }

  /** A canonical positive integer: `[1-9][0-9]*`. */
  predicate Canonical(s: string) { s != "" && Digits(s) && s[0] != '0' }

  /** The text `str(n)` and `%llu` print. */
  function Render(n: nat): (s: string)
    ensures s != "" && Digits(s)
    ensures n > 0 ==> s[0] != '0'
  {
    if n < 10 then [DigitChar(n)] else Render(n / 10) + [DigitChar(n % 10)]
  }

  /** The number a string of digits denotes. */
  function Denote(s: string): nat
    requires Digits(s)
  {
    if s == "" then 0
    else Denote(s[..|s| - 1]) * 10 + (s[|s| - 1] as int - '0' as int)
  }

  lemma {:induction false} DenoteRender(n: nat)
    ensures Denote(Render(n)) == n
  {
    if n >= 10 {
      DenoteRender(n / 10);
      assert Render(n)[..|Render(n)| - 1] == Render(n / 10);
    } else {
      assert Render(n)[..0] == "";
    }
  }

  lemma {:induction false} RenderDenote(s: string)
    requires Canonical(s)
    ensures Denote(s) > 0 && Render(Denote(s)) == s
  {
    var front := s[..|s| - 1];
    if |s| == 1 {
      assert front == "";
    } else {
      RenderDenote(front);
      assert Denote(s) / 10 == Denote(front);
      assert s == front + [s[|s| - 1]];
    }
  }

  lemma {:induction false} DenotePrefix(s: string, i: nat)
    requires Digits(s) && i <= |s|
    ensures Denote(s[..i]) <= Denote(s)
    decreases |s|
  {
    if i == |s| {
      assert s[..i] == s;
    } else {
      DenotePrefix(s[..|s| - 1], i);
      assert s[..|s| - 1][..i] == s[..i];
    }
  }

  function Pow10(k: nat): nat {
    if k == 0 then 1 else 10 * Pow10(k - 1)
  }

  lemma {:induction false} Pow10Sum(a: nat, b: nat)
    ensures Pow10(a + b) == Pow10(a) * Pow10(b)
  {
    if a > 0 {
      Pow10Sum(a - 1, b);
      assert a - 1 + b == a + b - 1;
    }
  }

  lemma Pow10Of20()
    ensures Pow10(20) == 100_000_000_000_000_000_000
  {
    assert Pow10(5) == 100_000;
    Pow10Sum(5, 5);
    Pow10Sum(10, 10);
  }

  lemma {:induction false} RenderLength(n: nat, k: nat)
    requires k > 0 && n < Pow10(k)
    ensures |Render(n)| <= k
  {
    if n >= 10 {
      assert Pow10(1) == 10;
      RenderLength(n / 10, k - 1);
    }
  }

  /** What precedes the trailing newline, when there is one to strip. */
  function Body(text: string, trailingNewline: bool): Option<string> {
    if !trailingNewline then Some(text)
    else if |text| < 2 || text[|text| - 1] != '\n' then None
    else Some(text[..|text| - 1])
  }

  /** The shim's reading: canonical decimals below the unlimited threshold. */
  function ShimCapacity(text: string, trailingNewline: bool): Option<nat> {
    var body := Body(text, trailingNewline);
    if body.Some? && Canonical(body.value) && Denote(body.value) < UNLIMITED then Some(Denote(body.value)) else None
  }

  /** The digit loop stops on text no capacity has. */
  lemma NotACapacity(body: string, i: nat)
    requires i < |body| && Digits(body[..i + 1])
    requires Denote(body[..i + 1]) >= UNLIMITED
    ensures !(Canonical(body) && Denote(body) < UNLIMITED)
  {
    if Digits(body) { DenotePrefix(body, i + 1); }
  }

  lemma LongTextIsNoCapacity(body: string)
    requires |body| > 20
    ensures !(Canonical(body) && Denote(body) < UNLIMITED)
  {
    if Canonical(body) && Denote(body) < UNLIMITED {
      RenderDenote(body);
      Pow10Of20();
      RenderLength(Denote(body), 20);
    }
  }

  /** The 64-bit digit loop of the shim; `uint64` makes any wrap-around a verification error. */
  method ParseExactCapacity(text: string, trailingNewline: bool) returns (value: Option<uint64>)
    ensures value.Some? <==> ShimCapacity(text, trailingNewline).Some?
    ensures value.Some? ==> value.value as int == ShimCapacity(text, trailingNewline).value
  {
    var length := |text|;
    if trailingNewline {
      if length < 2 || text[length - 1] != '\n' { return None; }
      length := length - 1;
    }
    ghost var body := text[..length];
    assert Body(text, trailingNewline) == Some(body) by { if !trailingNewline { assert body == text; } }
    if length > 20 { LongTextIsNoCapacity(body); }
    if length == 0 || length > 20 || (length > 1 && text[0] == '0') { return None; }
    var parsed: uint64 := 0;
    for i := 0 to length
      invariant Digits(body[..i]) && parsed as int == Denote(body[..i])
    {
      if text[i] < '0' || text[i] > '9' {
        assert body[i] == text[i];
        return None;
      }
      assert body[..i + 1] == body[..i] + [text[i]];
      assert body[..i + 1][..i] == body[..i];
      var digit := (text[i] as int - '0' as int) as uint64;
      assert Denote(body[..i + 1]) == parsed as int * 10 + digit as int;
      if parsed > (0xFFFF_FFFF_FFFF_FFFF - digit) / 10 {
        NotACapacity(body, i);
        return None;
      }
      parsed := parsed * 10 + digit;
    }
    assert body[..length] == body;
    if parsed == 0 || parsed >= UNLIMITED as uint64 {
      if Canonical(body) { RenderDenote(body); }
      return None;
    }
    return Some(parsed);
  }

  /** The Python reader: at most 128 bytes, one canonical positive integer and a newline. */
  function PythonReceipt(text: string): Option<nat> {
    var body := Body(text, true);
    if |text| <= 128 && body.Some? && Canonical(body.value) then Some(Denote(body.value)) else None
  }

  /** `printf '%s\n' N`, as the orchestrator writes the receipt. */
  function ReceiptText(n: nat): string {
    Render(n) + "\n"
  }

  /** The shim accepts exactly the canonical decimals strictly between 0 and 2^60. */
  lemma ShimAcceptsExactly(text: string, trailingNewline: bool, n: nat)
    ensures ShimCapacity(text, trailingNewline) == Some(n)
            <==> 0 < n < UNLIMITED && text == if trailingNewline then ReceiptText(n) else Render(n)
  {
    var body := Body(text, trailingNewline);
    if ShimCapacity(text, trailingNewline) == Some(n) {
      RenderDenote(body.value);
      if trailingNewline { assert text == text[..|text| - 1] + "\n"; }
    }
    if 0 < n < UNLIMITED && text == if trailingNewline then ReceiptText(n) else Render(n) {
      DenoteRender(n);
      if trailingNewline { assert text[..|text| - 1] == Render(n); }
      assert body == Some(Render(n));
    }
  }

  /** Every receipt the orchestrator prints is read back by both readers. */
  lemma ReceiptRoundTrip(n: nat)
    requires 0 < n < UNLIMITED
    ensures ShimCapacity(ReceiptText(n), true) == Some(n)
    ensures PythonReceipt(ReceiptText(n)) == Some(n)
  {
    ShimAcceptsExactly(ReceiptText(n), true, n);
    Pow10Of20();
    RenderLength(n, 20);
    assert ReceiptText(n)[..|ReceiptText(n)| - 1] == Render(n);
  }

  /** The only text the Python reader takes for a number is the receipt of it. */
  lemma ReceiptIsCanonical(text: string, n: nat)
    requires PythonReceipt(text) == Some(n)
    ensures text == ReceiptText(n) && n > 0
  {
    var body := text[..|text| - 1];
    RenderDenote(body);
    assert text == body + [text[|text| - 1]];
  }

  /** Any 64-bit number fits a receipt. */
  lemma ShortReceipt(n: nat)
    requires 0 < n < U64_RANGE
    ensures PythonReceipt(ReceiptText(n)) == Some(n)
  {
    Pow10Of20();
    RenderLength(n, 20);
    DenoteRender(n);
    assert ReceiptText(n)[..|ReceiptText(n)| - 1] == Render(n);
  }

  /** The two readers agree on every text; only the shim has an upper bound. */
  lemma ReadersAgree(text: string, n: nat)
    ensures ShimCapacity(text, true) == Some(n) <==> PythonReceipt(text) == Some(n) && n < UNLIMITED
  {
    if ShimCapacity(text, true) == Some(n) {
      ShimAcceptsExactly(text, true, n);
      ReceiptRoundTrip(n);
    }
  }
}
