/** JSON string literals and base64, as far as the readers of src/aws-bedrock/api.ts depend on them. */
module Encodings {
  import opened Optional
  import opened Sequences

  // ------------------------------------------------------- JSON string literals

  predicate IsHex(c: char) {
    '0' <= c <= '9' || 'a' <= c <= 'f' || 'A' <= c <= 'F'
  }

  function HexValue(c: char): nat
    requires IsHex(c)
  {
    if c <= '9' then c as nat - '0' as nat
    else if c <= 'F' then 10 + (c as nat - 'A' as nat)
    else 10 + (c as nat - 'a' as nat)
  }

  /** What a two-character escape stands for. */
  function Unescape(c: char): Option<nat> {
    match c
    case '"' => Some('"' as nat)
    case '\\' => Some('\\' as nat)
    case '/' => Some('/' as nat)
    case 'b' => Some(8)
    case 'f' => Some(12)
    case 'n' => Some(10)
    case 'r' => Some(13)
    case 't' => Some(9)
    case _ => None
  }

  /** One character of a JSON string literal: itself, a short escape or a numeric one. */
  predicate SpellsChar(sent: string, c: char) {
    if |sent| == 1 then sent[0] == c && c != '"' && c != '\\' && c >= ' '
    else if |sent| == 2 then sent[0] == '\\' && Unescape(sent[1]) == Some(c as nat)
    else
      && |sent| == 6 && sent[0] == '\\' && sent[1] == 'u'
      && (forall i :: 2 <= i < 6 ==> IsHex(sent[i]))
      && HexValue(sent[2]) * 4096 + HexValue(sent[3]) * 256 + HexValue(sent[4]) * 16 + HexValue(sent[5]) == c as nat
  }

  /** `sent` is one way of writing the characters of `text` between the quotes. */
  predicate Spells(sent: string, text: string)
    decreases |text|
  {
    if text == "" then sent == ""
    else SpellsWith(sent, text, 1) || SpellsWith(sent, text, 2) || SpellsWith(sent, text, 6)
  }

  predicate SpellsWith(sent: string, text: string, n: nat)
    requires text != ""
    decreases |text|, 0
  {
    && n <= |sent|
    && SpellsChar(sent[|sent| - n..], text[|text| - 1])
    && Spells(sent[..|sent| - n], text[..|text| - 1])
  }

  predicate Blank(text: string) {
    forall i :: 0 <= i < |text| ==> text[i] == ' ' || text[i] == '\t' || text[i] == '\n' || text[i] == '\r'
  }

  /** `sent` is a JSON text for the string `text`, whatever its escapes and the blanks around it. */
  predicate IsLiteral(sent: string, text: string) {
    exists i, j :: 0 <= i < j < |sent| && sent[i] == '"' && sent[j] == '"'
                   && Blank(sent[..i]) && Blank(sent[j + 1..]) && Spells(sent[i + 1..j], text)
  }

  lemma SpelledLast(sent: string, text: string) returns (n: nat)
    requires Spells(sent, text) && text != ""
    ensures 0 < n <= |sent| && Spells(sent[..|sent| - n], text[..|text| - 1])
  {
    hide SpellsChar;
    n := if SpellsWith(sent, text, 1) then 1 else if SpellsWith(sent, text, 2) then 2 else 6;
  }

  lemma {:induction false} SpellsLonger(sent: string, text: string)
    requires Spells(sent, text)
    ensures |sent| >= |text|
    decreases |text|
  {
    hide Spells;
    if text != "" {
      var n := SpelledLast(sent, text);
      SpellsLonger(sent[..|sent| - n], text[..|text| - 1]);
    }
  }

  /** A JSON string literal is never the string itself. */
  lemma LiteralDiffers(sent: string, text: string)
    requires IsLiteral(sent, text)
    ensures sent != text
  {
    var i, j :| 0 <= i < j < |sent| && sent[i] == '"' && sent[j] == '"' && Spells(sent[i + 1..j], text);
    SpellsLonger(sent[i + 1..j], text);
  }

  function HexDigit(n: nat): char
    requires n < 16
  {
    "0123456789abcdef"[n]
  }

  function EscapedChar(c: char): string {
    if c == '"' || c == '\\' then ['\\', c]
    else if c < ' ' then "\\u00" + [HexDigit(c as nat / 16), HexDigit(c as nat % 16)]
    else [c]
  }

  /** One of the literals of a text. */
  function Quoted(text: string): string {
    "\"" + Concat(EscapedChar, text) + "\""
  }

  lemma HexDigitValue(n: nat)
    requires n < 16
    ensures IsHex(HexDigit(n)) && HexValue(HexDigit(n)) == n
  {
  }

  lemma EscapedCharSpells(c: char)
    ensures SpellsChar(EscapedChar(c), c)
    ensures |EscapedChar(c)| == 1 || |EscapedChar(c)| == 2 || |EscapedChar(c)| == 6
  {
    if c < ' ' {
      HexDigitValue(c as nat / 16);
      HexDigitValue(c as nat % 16);
      HexDigitValue(0);
    }
  }

  lemma {:induction false} EscapedSpells(text: string)
    ensures Spells(Concat(EscapedChar, text), text)
  {
    if text != "" {
      hide SpellsChar, EscapedChar;
      var front, c := text[..|text| - 1], text[|text| - 1];
      EscapedSpells(front);
      EscapedCharSpells(c);
      var sent := Concat(EscapedChar, text);
      assert sent[..|sent| - |EscapedChar(c)|] == Concat(EscapedChar, front);
      assert sent[|sent| - |EscapedChar(c)|..] == EscapedChar(c);
      assert SpellsWith(sent, text, |EscapedChar(c)|);
    }
  }

  /** Every string has a literal. */
  lemma QuotedIsLiteral(text: string)
    ensures IsLiteral(Quoted(text), text)
  {
    hide Spells, Concat, Blank;
    EscapedSpells(text);
    var sent := Quoted(text);
    var j := |sent| - 1;
    assert sent[1..j] == Concat(EscapedChar, text);
    NoBlanks();
    assert sent[..0] == "" && sent[j + 1..] == "";
    assert sent[0] == '"' && sent[j] == '"';
  }

  lemma NoBlanks()
    ensures Blank("")
  {
  }

  // --------------------------------------------------------------------- base64

  type Byte = n: nat | n < 256

  /** The letters, digits and signs of the alphabet, in order. */
  function Letter(n: nat): (c: char)
    requires n < 64
    ensures c != '='
  {
    if n < 26 then ('A' as nat + n) as char
    else if n < 52 then ('a' as nat + (n - 26)) as char
    else if n < 62 then ('0' as nat + (n - 52)) as char
    else if n == 62 then '+' else '/'
  }

  /** `Buffer.toString('base64')`: four letters for three bytes, the last group padded. */
  function Base64(bytes: seq<Byte>): string {
    if |bytes| < 3 then Tail(bytes) else Triple(bytes[0], bytes[1], bytes[2]) + Base64(bytes[3..])
  }

  function Triple(a: Byte, b: Byte, c: Byte): (r: string)
    ensures |r| == 4 && r[3] != '='
  {
    [Letter(a / 4), Letter(a % 4 * 16 + b / 16), Letter(b % 16 * 4 + c / 64), Letter(c % 64)]
  }

  function Tail(bytes: seq<Byte>): (r: string)
    requires |bytes| < 3
    ensures if bytes == [] then r == "" else |r| == 4 && r[3] == '='
  {
    if |bytes| == 0 then ""
    else if |bytes| == 1 then [Letter(bytes[0] / 4), Letter(bytes[0] % 4 * 16), '=', '=']
    else [Letter(bytes[0] / 4), Letter(bytes[0] % 4 * 16 + bytes[1] / 16), Letter(bytes[1] % 16 * 4), '=']
  }

  lemma Base64Unfolds(bytes: seq<Byte>)
    ensures if |bytes| < 3 then Base64(bytes) == Tail(bytes)
            else Base64(bytes) == Triple(bytes[0], bytes[1], bytes[2]) + Base64(bytes[3..])
    ensures Base64(bytes) == "" <==> bytes == []
  {
    hide Triple, Tail;
  }

  /** The number that a letter stands for. */
  function Value(c: char): nat {
    if 'A' <= c <= 'Z' then c as nat - 'A' as nat
    else if 'a' <= c <= 'z' then 26 + (c as nat - 'a' as nat)
    else if '0' <= c <= '9' then 52 + (c as nat - '0' as nat)
    else if c == '+' then 62 else 63
  }

  /** Six bits a letter, eight bits a byte; padding ends the bytes. */
  function Decoded(text: string): seq<nat> {
    if |text| < 4 then []
    else
      var a, b, c, d := Value(text[0]), Value(text[1]), Value(text[2]), Value(text[3]);
      [a * 4 + b / 16]
      + (if text[2] == '=' then [] else [b % 16 * 16 + c / 4])
      + (if text[3] == '=' then [] else [c % 4 * 64 + d])
      + Decoded(text[4..])
  }

  lemma LetterValue(n: nat)
    requires n < 64
    ensures Value(Letter(n)) == n
  {
  }

  lemma Apart(high: nat, low: nat)
    ensures low < 16 ==> (high * 16 + low) / 16 == high && (high * 16 + low) % 16 == low
    ensures low < 4 ==> (high * 4 + low) / 4 == high && (high * 4 + low) % 4 == low
  {
  }

  lemma Regrouped(a: Byte, b: Byte, c: Byte)
    ensures a / 4 * 4 + (a % 4 * 16 + b / 16) / 16 == a
    ensures (a % 4 * 16 + b / 16) % 16 * 16 + (b % 16 * 4 + c / 64) / 4 == b
    ensures (b % 16 * 4 + c / 64) % 4 * 64 + c % 64 == c
  {
    Apart(a % 4, b / 16);
    Apart(b % 16, c / 64);
  }

  lemma TripleDecodes(a: Byte, b: Byte, c: Byte, rest: string)
    ensures Decoded(Triple(a, b, c) + rest) == [a, b, c] + Decoded(rest)
  {
    hide Value, Letter;
    LetterValue(a / 4);
    LetterValue(a % 4 * 16 + b / 16);
    LetterValue(b % 16 * 4 + c / 64);
    LetterValue(c % 64);
    Regrouped(a, b, c);
    LettersDecode(a / 4, a % 4 * 16 + b / 16, b % 16 * 4 + c / 64, c % 64, rest);
  }

  lemma LettersDecode(a: nat, b: nat, c: nat, d: nat, rest: string)
    requires a < 64 && b < 64 && c < 64 && d < 64
    ensures Decoded([Letter(a), Letter(b), Letter(c), Letter(d)] + rest)
            == [Value(Letter(a)) * 4 + Value(Letter(b)) / 16, Value(Letter(b)) % 16 * 16 + Value(Letter(c)) / 4,
                Value(Letter(c)) % 4 * 64 + Value(Letter(d))] + Decoded(rest)
  {
    hide Value, Letter;
    var text := [Letter(a), Letter(b), Letter(c), Letter(d)] + rest;
    assert text[4..] == rest;
  }

  lemma TailDecodes(bytes: seq<Byte>)
    requires |bytes| < 3
    ensures Decoded(Tail(bytes)) == bytes
  {
    hide Value, Letter;
    if |bytes| >= 1 {
      LetterValue(bytes[0] / 4);
      LetterValue(bytes[0] % 4 * 16);
    }
    if |bytes| == 2 {
      LetterValue(bytes[0] % 4 * 16 + bytes[1] / 16);
      LetterValue(bytes[1] % 16 * 4);
    }
  }

  /** The bytes can be read back. */
  lemma {:induction false} Base64Decodes(bytes: seq<Byte>)
    ensures Decoded(Base64(bytes)) == bytes
  {
    hide Decoded, Tail, Triple;
    Base64Unfolds(bytes);
    if |bytes| < 3 {
      TailDecodes(bytes);
    } else {
      Base64Decodes(bytes[3..]);
      TripleDecodes(bytes[0], bytes[1], bytes[2], Base64(bytes[3..]));
    }
  }

  /** `fo` and `foob` as in section 10 of RFC 4648, and the two signs of the alphabet. */
  lemma KnownEncodings()
    ensures Base64([0x66, 0x6f]) == "Zm8="
    ensures Base64([0x66, 0x6f, 0x6f, 0x62]) == "Zm9vYg=="
    ensures Base64([0xfb, 0xff, 0xbf]) == "+/+/"
  {
    Base64Unfolds([0x66, 0x6f]);
    Base64Unfolds([0x66, 0x6f, 0x6f, 0x62]);
    assert [0x66, 0x6f, 0x6f, 0x62][3..] == [0x62];
    Base64Unfolds([0x62]);
    Base64Unfolds([0xfb, 0xff, 0xbf]);
    assert [0xfb, 0xff, 0xbf][3..] == [];
    Base64Unfolds([]);
  }

  /** The text of a whole number of triples can be continued. */
  lemma {:induction false} Base64Whole(a: seq<Byte>, b: seq<Byte>)
    requires |a| % 3 == 0
    ensures Base64(a + b) == Base64(a) + Base64(b)
  {
    hide *;
    Base64Unfolds(a);
    if a == [] {
      assert a + b == b && Base64(a) + Base64(b) == Base64(b);
    } else {
      Base64Whole(a[3..], b);
      assert (a + b)[3..] == a[3..] + b;
      Base64Unfolds(a + b);
    }
  }

  /** A text that had to be padded cannot be continued. */
  lemma {:induction false} Base64Padded(a: seq<Byte>, b: seq<Byte>, more: string)
    requires |a| % 3 != 0 && b != [] && more != ""
    ensures Base64(a + b) != Base64(a) + more
  {
    hide *;
    Base64Unfolds(a);
    Base64Unfolds(a + b);
    if |a| < 3 {
      if |a + b| >= 3 {
        assert (Base64(a) + more)[3] == '=' != Base64(a + b)[3];
      } else {
        assert |Base64(a + b)| == 4;
      }
    } else {
      Base64Padded(a[3..], b, more);
      assert (a + b)[3..] == a[3..] + b;
      SameSplit(Triple(a[0], a[1], a[2]), Triple(a[0], a[1], a[2]), Base64(a[3..] + b), Base64(a[3..]) + more);
      assert Triple(a[0], a[1], a[2]) + (Base64(a[3..]) + more) == Base64(a) + more;
    }
  }

  function Encoded<A>(of: A -> seq<Byte>): A -> string {
    (item: A) => Base64(of(item))
  }

  /** Every piece ends with a whole triple or is the last with anything in it. */
  predicate CutAtTriples<A>(of: A -> seq<Byte>, items: seq<A>) {
    forall i :: 0 <= i < |items| ==> |of(items[i])| % 3 == 0 || Concat(of, items[i + 1..]) == []
  }

  lemma ConcatCons<A, T>(of: A -> seq<T>, items: seq<A>)
    requires items != []
    ensures Concat(of, items) == of(items[0]) + Concat(of, items[1..])
  {
    assert items == [items[0]] + items[1..];
    ConcatSplit(of, [items[0]], items[1..]);
    ConcatOne(of, items[0]);
    hide Concat;
  }

  lemma CutCons<A>(of: A -> seq<Byte>, items: seq<A>)
    requires items != []
    ensures CutAtTriples(of, items)
            <==> (|of(items[0])| % 3 == 0 || Concat(of, items[1..]) == []) && CutAtTriples(of, items[1..])
  {
    hide Concat;
    var rest := items[1..];
    forall i | 0 <= i < |rest|
      ensures rest[i] == items[i + 1] && rest[i + 1..] == items[i + 2..]
    {
    }
    if CutAtTriples(of, items) {
      forall i | 0 <= i < |rest|
        ensures |of(rest[i])| % 3 == 0 || Concat(of, rest[i + 1..]) == []
      {
        assert items[i + 1..][1..] == items[i + 2..];
        var j := i + 1;
        assert |of(items[j])| % 3 == 0 || Concat(of, items[j + 1..]) == [];
      }
    }
    if (|of(items[0])| % 3 == 0 || Concat(of, rest) == []) && CutAtTriples(of, rest) {
      forall i | 0 <= i < |items|
        ensures |of(items[i])| % 3 == 0 || Concat(of, items[i + 1..]) == []
      {
        if i > 0 {
          var j := i - 1;
          assert |of(rest[j])| % 3 == 0 || Concat(of, rest[j + 1..]) == [];
        }
      }
    }
  }

  lemma {:induction false} NothingEncoded<A>(of: A -> seq<Byte>, items: seq<A>)
    ensures Concat(Encoded(of), items) == "" <==> Concat(of, items) == []
  {
    if items != [] {
      hide Base64;
      NothingEncoded(of, items[..|items| - 1]);
      Base64Unfolds(of(items[|items| - 1]));
    }
  }

  /** Separately encoded pieces join to the encoding of the whole exactly when they were cut at triples. */
  lemma {:induction false} JoinedEncodings<A>(of: A -> seq<Byte>, items: seq<A>)
    ensures Concat(Encoded(of), items) == Base64(Concat(of, items)) <==> CutAtTriples(of, items)
  {
    if items == [] {
      assert Concat(Encoded(of), items) == "" && Concat(of, items) == [];
    } else {
      hide Concat, Base64, CutAtTriples;
      var piece, rest := of(items[0]), items[1..];
      ConcatCons(of, items);
      ConcatCons(Encoded(of), items);
      CutCons(of, items);
      JoinedEncodings(of, rest);
      NothingEncoded(of, rest);
      if |piece| % 3 == 0 {
        Base64Whole(piece, Concat(of, rest));
        SameSplit(Base64(piece), Base64(piece), Concat(Encoded(of), rest), Base64(Concat(of, rest)));
      } else if Concat(of, rest) == [] {
        NothingLeft(piece, Concat(of, rest));
      } else {
        Base64Padded(piece, Concat(of, rest), Concat(Encoded(of), rest));
      }
    }
  }

  lemma NothingLeft(piece: seq<Byte>, rest: seq<Byte>)
    requires rest == []
    ensures piece + rest == piece && Base64(piece) + "" == Base64(piece) && Base64(rest) == ""
  {
    Base64Unfolds(rest);
    hide Base64;
  }
}
