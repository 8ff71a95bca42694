/** A stand-in for the JSON serializer applied to a broadcast request body before it
    is cached: an injective text encoding with a decoder that inverts it. */
module Codec {
  import opened Types
  import opened Proto

  predicate IsDigit(c: char) { '0' <= c <= '9' }

  /** A character that can occur in the decimal text of an integer. */
  predicate IsNumeral(c: char) { c == '-' || IsDigit(c) }

  predicate AllDigits(s: string) { forall i :: 0 <= i < |s| ==> IsDigit(s[i]) }

  predicate AllNumerals(s: string) { forall i :: 0 <= i < |s| ==> IsNumeral(s[i]) }

  function DigitChar(d: nat): char
    requires d < 10
  {
    ('0' as int + d) as char
  }

  function DigitValue(c: char): nat
    requires IsDigit(c)
  {
    c as int - '0' as int
  }

  /** Decimal digits of a natural number, most significant first. */
  function Digits(n: nat): string
    decreases n
  {
    if n < 10 then [DigitChar(n)] else Digits(n / 10) + [DigitChar(n % 10)]
  }

  function ParseDigits(s: string): nat
    requires AllDigits(s)
    decreases |s|
  {
    if s == [] then 0 else ParseDigits(s[..|s| - 1]) * 10 + DigitValue(s[|s| - 1])
  }

  function IntText(i: int): string
  {
    if i < 0 then "-" + Digits(-i) else Digits(i)
  }

  function ParseNat(s: string): Option<nat>
  {
    if s != [] && AllDigits(s) then Some(ParseDigits(s)) else None
  }

  function ParseInt(s: string): Option<int>
  {
    if |s| > 0 && s[0] == '-' then
      match ParseNat(s[1..])
      case Some(v) => Some(-(v as int))
      case None => None
    else
      match ParseNat(s)
      case Some(v) => Some(v)
      case None => None
  }

  /** Length of the longest prefix made of numeral characters. */
  function NumeralSpan(s: string): (n: nat)
    ensures n <= |s|
  {
    if s == [] || !IsNumeral(s[0]) then 0 else 1 + NumeralSpan(s[1..])
  }

  const MsgIdField: string := "{\"msg_id\":"
  const MessageField: string := ",\"message\":"
  const TypeField: string := ",\"type\":\""
  const Close: string := "\"}"

  /** The cached text of a broadcast request body. The type string comes last, so it
      needs no escaping to be recovered. */
  function Serialize(b: BroadcastReq): string
  {
    MsgIdField + (IntText(b.msgId) + (MessageField + (IntText(b.message) + (TypeField + (b.msgType + Close)))))
  }

  function Deserialize(s: string): Option<BroadcastReq>
  {
    if MsgIdField <= s then DecodeId(s[|MsgIdField|..]) else None
  }

  function DecodeId(r: string): Option<BroadcastReq>
  {
    var n := NumeralSpan(r);
    var id := ParseInt(r[..n]);
    var rest := r[n..];
    if id.Some? && MessageField <= rest then DecodeMessage(id.value, rest[|MessageField|..]) else None
  }

  function DecodeMessage(id: MsgId, r: string): Option<BroadcastReq>
  {
    var n := NumeralSpan(r);
    var m := ParseInt(r[..n]);
    var rest := r[n..];
    if m.Some? && TypeField <= rest then DecodeType(id, m.value, rest[|TypeField|..]) else None
  }

  function DecodeType(id: MsgId, m: MsgValue, r: string): Option<BroadcastReq>
  {
    if |r| >= |Close| && r[|r| - |Close|..] == Close then Some(BroadcastReq(id, r[..|r| - |Close|], m))
    else None
  }

  lemma {:induction false} DigitsRoundTrip(n: nat)
    ensures Digits(n) != [] && AllDigits(Digits(n))
    ensures ParseDigits(Digits(n)) == n
    decreases n
  {
    var c := DigitChar(n % 10);
    assert DigitValue(c) == n % 10;
    if n >= 10 {
      DigitsRoundTrip(n / 10);
      var d := Digits(n / 10);
      var s := d + [c];
      assert s[..|s| - 1] == d;
      assert ParseDigits(s) == ParseDigits(d) * 10 + n % 10;
    } else {
      var s := [c];
      assert s[..|s| - 1] == [];
    }
  }

  lemma IntTextRoundTrip(i: int)
    ensures AllNumerals(IntText(i))
    ensures ParseInt(IntText(i)) == Some(i)
  {
    if i < 0 {
      DigitsRoundTrip(-i);
      var s := IntText(i);
      assert s[1..] == Digits(-i);
    } else {
      DigitsRoundTrip(i);
      assert IntText(i)[0] != '-';
    }
  }

  lemma {:induction false} NumeralSpanOf(a: string, t: string)
    requires AllNumerals(a)
    requires t == [] || !IsNumeral(t[0])
    ensures NumeralSpan(a + t) == |a|
    decreases |a|
  {
    if a == [] {
      assert a + t == t;
    } else {
      assert (a + t)[1..] == a[1..] + t;
      NumeralSpanOf(a[1..], t);
    }
  }

  lemma StripPrefix(p: string, rest: string)
    ensures p <= p + rest
    ensures (p + rest)[|p|..] == rest
  {
    assert (p + rest)[..|p|] == p;
  }

  /** Reading a numeral field back: the integer text followed by a non-numeral rest. */
  lemma ReadIntField(i: int, rest: string)
    requires rest == [] || !IsNumeral(rest[0])
    ensures var s := IntText(i) + rest;
            var n := NumeralSpan(s);
            n == |IntText(i)| && ParseInt(s[..n]) == Some(i) && s[n..] == rest
  {
    IntTextRoundTrip(i);
    NumeralSpanOf(IntText(i), rest);
    var s := IntText(i) + rest;
    assert s[..|IntText(i)|] == IntText(i);
    assert s[|IntText(i)|..] == rest;
  }

  lemma DecodeTypeOf(id: MsgId, m: MsgValue, t: string)
    ensures DecodeType(id, m, t + Close) == Some(BroadcastReq(id, t, m))
  {
    var r := t + Close;
    assert r[|r| - |Close|..] == Close;
    assert r[..|r| - |Close|] == t;
  }

  lemma DecodeMessageOf(id: MsgId, b: BroadcastReq)
    ensures DecodeMessage(id, IntText(b.message) + (TypeField + (b.msgType + Close))) == Some(BroadcastReq(id, b.msgType, b.message))
  {
    var rest := TypeField + (b.msgType + Close);
    ReadIntField(b.message, rest);
    StripPrefix(TypeField, b.msgType + Close);
    DecodeTypeOf(id, b.message, b.msgType);
  }

  lemma DecodeIdOf(b: BroadcastReq)
    ensures DecodeId(IntText(b.msgId) + (MessageField + (IntText(b.message) + (TypeField + (b.msgType + Close))))) == Some(b)
  {
    var afterMessage := IntText(b.message) + (TypeField + (b.msgType + Close));
    var rest := MessageField + afterMessage;
    ReadIntField(b.msgId, rest);
    StripPrefix(MessageField, afterMessage);
    DecodeMessageOf(b.msgId, b);
  }

  /** Decoding the cached text gives back the body that was cached. */
  lemma RoundTrip(b: BroadcastReq)
    ensures Deserialize(Serialize(b)) == Some(b)
  {
    StripPrefix(MsgIdField, IntText(b.msgId) + (MessageField + (IntText(b.message) + (TypeField + (b.msgType + Close)))));
    DecodeIdOf(b);
  }

  /** Distinct bodies are cached under distinct texts. */
  lemma SerializeInjective(a: BroadcastReq, b: BroadcastReq)
    ensures Serialize(a) == Serialize(b) ==> a == b
  {
    RoundTrip(a);
    RoundTrip(b);
  }
}
