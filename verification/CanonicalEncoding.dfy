/** The length-prefixed encoding that every signed message uses.  A text is the sequence of
    its UTF-8 bytes, one character per byte. */
module CanonicalEncoding {
  import opened Wrappers

  predicate Digit(c: char) {
    '0' <= c <= '9'
  }

  function Decimal(n: nat): (r: string)
    ensures r != [] && forall i :: 0 <= i < |r| ==> Digit(r[i])
  {
    if n < 10 then [(n + '0' as int) as char] else Decimal(n / 10) + [(n % 10 + '0' as int) as char]
  }

  function DigitValue(c: char): nat
    requires Digit(c)
  {
    c as int - '0' as int
  }

  function Value(digits: string): nat
    requires forall i :: 0 <= i < |digits| ==> Digit(digits[i])
  {
    if digits == [] then 0
    else 10 * Value(digits[..|digits| - 1]) + DigitValue(digits[|digits| - 1])
  }

  lemma {:induction false} ValueOfDecimal(n: nat)
    ensures Value(Decimal(n)) == n
  {
    if n >= 10 {
      var front, last := Decimal(n / 10), (n % 10 + '0' as int) as char;
      assert (front + [last])[..|front|] == front;
      ValueOfDecimal(n / 10);
    }
  }

  /** Different numbers have different decimal texts. */
  lemma DecimalIsInjective(m: nat, n: nat)
    requires Decimal(m) == Decimal(n)
    ensures m == n
  {
    ValueOfDecimal(m);
    ValueOfDecimal(n);
  }

  function Field(text: string): string {
    Decimal(|text|) + ":" + text
  }

  function Canonical(texts: seq<string>): string {
    if texts == [] then "" else Field(texts[0]) + Canonical(texts[1..])
  }

  // ---------------------------------------------------------------- decoding

  function DigitRun(bytes: string): (n: nat)
    ensures n <= |bytes| && forall i :: 0 <= i < n ==> Digit(bytes[i])
    ensures n < |bytes| ==> !Digit(bytes[n])
  {
    if bytes != "" && Digit(bytes[0]) then 1 + DigitRun(bytes[1..]) else 0
  }

  datatype Split = Split(text: string, rest: string)

  /** Reads one field; a length with superfluous zeros is no field. */
  function ReadField(bytes: string): Option<Split> {
    var k := DigitRun(bytes);
    if k == |bytes| || bytes[k] != ':' then None
    else
      var n := Value(bytes[..k]);
      if Decimal(n) != bytes[..k] || k + 1 + n > |bytes| then None
      else Some(Split(bytes[k + 1..k + 1 + n], bytes[k + 1 + n..]))
  }

  lemma ReadGivesShorter(bytes: string)
    ensures ReadField(bytes).Some? ==> |ReadField(bytes).value.rest| < |bytes|
  {
  }

  function Decode(bytes: string): Option<seq<string>>
    decreases |bytes|
  {
    if bytes == "" then Some([])
    else
      var first := ReadField(bytes);
      if first.None? then None
      else
        ReadGivesShorter(bytes);
        var others := Decode(first.value.rest);
        if others.None? then None else Some([first.value.text] + others.value)
  }

  lemma {:induction false} RunStopsAt(digits: string, rest: string)
    requires forall i :: 0 <= i < |digits| ==> Digit(digits[i])
    requires rest != "" && !Digit(rest[0])
    ensures DigitRun(digits + rest) == |digits|
  {
    if digits == "" {
      assert digits + rest == rest;
    } else {
      assert (digits + rest)[1..] == digits[1..] + rest;
      RunStopsAt(digits[1..], rest);
    }
  }

  lemma ReadWritten(text: string, rest: string)
    ensures ReadField(Field(text) + rest) == Some(Split(text, rest))
  {
    var length := Decimal(|text|);
    var bytes := Field(text) + rest;
    assert bytes == length + (":" + text + rest);
    RunStopsAt(length, ":" + text + rest);
    ValueOfDecimal(|text|);
    assert bytes[..|length|] == length;
    assert bytes[|length| + 1..] == text + rest;
  }

  lemma WrittenWhatWasRead(bytes: string)
    requires ReadField(bytes).Some?
    ensures bytes == Field(ReadField(bytes).value.text) + ReadField(bytes).value.rest
  {
    var k := DigitRun(bytes);
    var n := Value(bytes[..k]);
    assert bytes == bytes[..k] + [bytes[k]] + bytes[k + 1..k + 1 + n] + bytes[k + 1 + n..];
  }

  lemma {:induction false} DecodeEncoded(texts: seq<string>)
    ensures Decode(Canonical(texts)) == Some(texts)
  {
    if texts != [] {
      ReadWritten(texts[0], Canonical(texts[1..]));
      DecodeEncoded(texts[1..]);
      assert Canonical(texts) != "";
      assert [texts[0]] + texts[1..] == texts;
    }
  }

  lemma {:induction false} EncodeDecoded(bytes: string, texts: seq<string>)
    requires Decode(bytes) == Some(texts)
    ensures Canonical(texts) == bytes
    decreases |bytes|
  {
    if bytes != "" {
      WrittenWhatWasRead(bytes);
      ReadGivesShorter(bytes);
      var rest := ReadField(bytes).value.rest;
      EncodeDecoded(rest, Decode(rest).value);
      assert texts[1..] == Decode(rest).value;
    }
  }

  /** Decoding is exactly the inverse of encoding. */
  lemma DecodesExactly(bytes: string, texts: seq<string>)
    ensures Decode(bytes) == Some(texts) <==> Canonical(texts) == bytes
  {
    DecodeEncoded(texts);
    if Decode(bytes) == Some(texts) { EncodeDecoded(bytes, texts); }
  }

  /** So no two lists of texts have the same bytes. */
  lemma UniquelyDecodable(a: seq<string>, b: seq<string>)
    requires Canonical(a) == Canonical(b)
    ensures a == b
  {
    DecodeEncoded(a);
    DecodeEncoded(b);
  }
}
