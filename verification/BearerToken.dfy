/** The shape of a bearer token and what reading one back from stored text gives. */
module BearerToken {

  const MIN_TOKEN_LENGTH := 32
  const MAX_TOKEN_LENGTH := 2560

  /** Legacy files are read up to one byte beyond the longest token. */
  const MAX_LEGACY_LENGTH := MAX_TOKEN_LENGTH + 1

  predicate TokenChar(c: char) {
    || 'A' <= c <= 'Z' || 'a' <= c <= 'z' || '0' <= c <= '9'
    || c == '.' || c == '_' || c == '~' || c == '+' || c == '/' || c == '=' || c == '-'
  }

  /** The white space that trimming removes, in all of Unicode. */
  predicate Blank(c: char) {
    || '\t' <= c <= '\r' || c == ' ' || c == '\U{85}' || c == '\U{A0}' || c == '\U{1680}'
    || '\U{2000}' <= c <= '\U{200A}' || c == '\U{2028}' || c == '\U{2029}' || c == '\U{202F}'
    || c == '\U{205F}' || c == '\U{3000}'
  }

  /** The bytes that a text takes in UTF-8. */
  function Utf8Length(text: string): nat {
    if text == [] then 0
    else
      Utf8Length(text[1..]) +
        if text[0] < '\U{80}' then 1 else if text[0] < '\U{800}' then 2 else if text[0] < '\U{10000}' then 3 else 4
  }

  lemma {:induction false} AsciiLength(text: string)
    requires forall i :: 0 <= i < |text| ==> TokenChar(text[i])
    ensures Utf8Length(text) == |text|
  {
    if text != [] { AsciiLength(text[1..]); }
  }

  predicate ValidToken(text: string) {
    && MIN_TOKEN_LENGTH <= |text| <= MAX_TOKEN_LENGTH
    && forall i :: 0 <= i < |text| ==> TokenChar(text[i])
  }

  const UPPER := "ABCDEFGHIJKLMNOPQRSTUVWXYZ"
  const LOWER := "abcdefghijklmnopqrstuvwxyz"
  const DIGITS := "0123456789"
  const SIGNS := "._~+/=-"

  lemma UpperIs(c: char)
    ensures c in UPPER <==> 'A' <= c <= 'Z'
  {
    if 'A' <= c <= 'Z' {
      var i := c as int - 'A' as int;
      assert i == 0 || i == 1 || i == 2 || i == 3 || i == 4 || i == 5 || i == 6 || i == 7 || i == 8 || i == 9 || i == 10 || i == 11 || i == 12
          || i == 13 || i == 14 || i == 15 || i == 16 || i == 17 || i == 18 || i == 19 || i == 20 || i == 21 || i == 22 || i == 23 || i == 24 || i == 25;
      assert UPPER[i] == c;
    }
  }

  lemma LowerIs(c: char)
    ensures c in LOWER <==> 'a' <= c <= 'z'
  {
    if 'a' <= c <= 'z' {
      var i := c as int - 'a' as int;
      assert i == 0 || i == 1 || i == 2 || i == 3 || i == 4 || i == 5 || i == 6 || i == 7 || i == 8 || i == 9 || i == 10 || i == 11 || i == 12
          || i == 13 || i == 14 || i == 15 || i == 16 || i == 17 || i == 18 || i == 19 || i == 20 || i == 21 || i == 22 || i == 23 || i == 24 || i == 25;
      assert LOWER[i] == c;
    }
  }

  lemma DigitIs(c: char)
    ensures c in DIGITS <==> '0' <= c <= '9'
  {
    if '0' <= c <= '9' {
      var i := c as int - '0' as int;
      assert i == 0 || i == 1 || i == 2 || i == 3 || i == 4 || i == 5 || i == 6 || i == 7 || i == 8 || i == 9;
      assert DIGITS[i] == c;
    }
  }

  lemma AlphabetIs(c: char)
    ensures TokenChar(c) <==> c in UPPER + LOWER + DIGITS + SIGNS
  {
    UpperIs(c);
    LowerIs(c);
    DigitIs(c);
    assert c in SIGNS <==> c == '.' || c == '_' || c == '~' || c == '+' || c == '/' || c == '=' || c == '-';
  }

  /** A token has 32 to 2560 characters of that alphabet. */
  lemma TokenShape(text: string)
    ensures ValidToken(text) <==> 32 <= |text| <= 2560 && forall c :: c in text ==> c in UPPER + LOWER + DIGITS + SIGNS
  {
    forall c: char
      ensures TokenChar(c) <==> c in UPPER + LOWER + DIGITS + SIGNS
    {
      AlphabetIs(c);
    }
    if ValidToken(text) { assert forall c :: c in text ==> TokenChar(c); }
    assert forall i :: 0 <= i < |text| ==> text[i] in text;
  }

  function TrimStart(text: string): (r: string)
    ensures r == [] || !Blank(r[0])
    ensures |r| <= |text| && r == text[|text| - |r|..]
  {
    if text != [] && Blank(text[0]) then TrimStart(text[1..]) else text
  }

  function TrimEnd(text: string): (r: string)
    ensures r == [] || !Blank(r[|r| - 1])
    ensures r <= text
  {
    if text != [] && Blank(text[|text| - 1]) then TrimEnd(text[..|text| - 1]) else text
  }

  function Trim(text: string): string {
    TrimEnd(TrimStart(text))
  }

  datatype Parsed = Token(text: string) | Malformed

  function Parse(text: string): Parsed {
    if ValidToken(Trim(text)) then Token(Trim(text)) else Malformed
  }

  lemma TokensHaveNoBlankEnds(token: string)
    requires ValidToken(token)
    ensures !Blank(token[0]) && !Blank(token[|token| - 1])
  {
    assert TokenChar(token[0]) && TokenChar(token[|token| - 1]);
  }

  /** A token survives being stored and read back. */
  lemma ParseOfToken(token: string)
    requires ValidToken(token)
    ensures Parse(token) == Token(token)
  {
    TokensHaveNoBlankEnds(token);
  }

  predicate Blanks(text: string) {
    forall i :: 0 <= i < |text| ==> Blank(text[i])
  }

  predicate Surrounded(text: string, before: string, token: string, after: string) {
    text == before + token + after && Blanks(before) && Blanks(after)
  }

  lemma TrimSurrounds(text: string)
    ensures exists before, after :: Surrounded(text, before, Trim(text), after)
  {
    var inner := TrimStart(text);
    StartTrimmed(text);
    EndTrimmed(inner);
    assert Surrounded(text, text[..|text| - |inner|], Trim(text), inner[|Trim(text)|..]);
  }

  lemma TrimOfSurrounded(text: string, before: string, token: string, after: string)
    requires Surrounded(text, before, token, after)
    requires token != [] && !Blank(token[0]) && !Blank(token[|token| - 1])
    ensures Trim(text) == token
  {
    assert text == before + (token + after);
    TrimsBefore(before, token + after);
    TrimsAfter(token, after);
  }

  /** Parsing accepts exactly a token between blanks. */
  lemma ParseAccepts(text: string, token: string)
    ensures Parse(text) == Token(token) <==>
              ValidToken(token) && exists before, after :: Surrounded(text, before, token, after)
  {
    if Parse(text) == Token(token) { TrimSurrounds(text); }
    if ValidToken(token) && exists before, after :: Surrounded(text, before, token, after) {
      var before, after :| Surrounded(text, before, token, after);
      TokensHaveNoBlankEnds(token);
      TrimOfSurrounded(text, before, token, after);
    }
  }

  lemma {:induction false} StartTrimmed(text: string)
    ensures Blanks(text[..|text| - |TrimStart(text)|])
  {
    if text != [] && Blank(text[0]) {
      StartTrimmed(text[1..]);
      var n := |text| - |TrimStart(text)|;
      assert text[..n] == [text[0]] + text[1..][..n - 1];
    }
  }

  lemma {:induction false} EndTrimmed(text: string)
    ensures Blanks(text[|TrimEnd(text)|..])
  {
    if text != [] && Blank(text[|text| - 1]) {
      EndTrimmed(text[..|text| - 1]);
      assert text[|TrimEnd(text)|..] == text[..|text| - 1][|TrimEnd(text)|..] + [text[|text| - 1]];
    }
  }

  lemma {:induction false} TrimsBefore(before: string, rest: string)
    requires Blanks(before)
    requires rest != [] && !Blank(rest[0])
    ensures TrimStart(before + rest) == rest
  {
    if before == [] {
      assert before + rest == rest;
    } else {
      assert (before + rest)[1..] == before[1..] + rest;
      TrimsBefore(before[1..], rest);
    }
  }

  lemma {:induction false} TrimsAfter(text: string, after: string)
    requires Blanks(after)
    requires text != [] && !Blank(text[|text| - 1])
    ensures TrimEnd(text + after) == text
  {
    if after == [] {
      assert text + after == text;
    } else {
      assert (text + after)[..|text + after| - 1] == text + after[..|after| - 1];
      TrimsAfter(text, after[..|after| - 1]);
    }
  }
}
