/** Unpadded base64url: the encoder of the web tokens and the forgiving decoder they are read with. */
module Base64Url {
  import opened Prelude

  type Byte = b: int | 0 <= b < 256
  type Sextet = i: int | 0 <= i < 64

  function Char(i: Sextet): char {
    if i < 26 then ('A' as int + i) as char
    else if i < 52 then ('a' as int + i - 26) as char
    else if i < 62 then ('0' as int + i - 52) as char
    else if i == 62 then '-'
    else '_'
  }

  /** The decoder also reads the standard alphabet; `None` for a character it passes over. */
  function Value(c: char): Option<Sextet> {
    if 'A' <= c <= 'Z' then Some(c as int - 'A' as int)
    else if 'a' <= c <= 'z' then Some(c as int - 'a' as int + 26)
    else if '0' <= c <= '9' then Some(c as int - '0' as int + 52)
    else if c == '-' || c == '+' then Some(62)
    else if c == '_' || c == '/' then Some(63)
    else None
  }

  lemma ValueOfChar(i: Sextet)
    ensures Value(Char(i)) == Some(i)
  {
  }

  /** `_base64url_encode`. */
  function Encode(data: seq<Byte>): string {
    if |data| == 0 then ""
    else if |data| == 1 then [Char(data[0] / 4), Char(data[0] % 4 * 16)]
    else if |data| == 2 then [Char(data[0] / 4), Char(data[0] % 4 * 16 + data[1] / 16), Char(data[1] % 16 * 4)]
    else GroupOf(data[0], data[1], data[2]) + Encode(data[3..])
  }

  function GroupOf(a: Byte, b: Byte, c: Byte): string {
    [Char(a / 4), Char(a % 4 * 16 + b / 16), Char(b % 16 * 4 + c / 64), Char(c % 64)]
  }

  /** Where the decoder stands: characters of the current group, bits carried over, pads seen. */
  datatype State = State(group: nat, carry: nat, pads: nat)

  const Start := State(0, 0, 0)

  ghost predicate Sensible(s: State) {
    && s.group < 4
    && (s.group == 0 ==> s.carry == 0)
    && (s.group == 1 ==> s.carry < 64)
    && (s.group == 2 ==> s.carry < 16)
    && (s.group == 3 ==> s.carry < 4)
  }

  /** Reading one sextet: the next state and the byte it completes. */
  function Read(s: State, v: Sextet): (r: (State, seq<Byte>))
    requires Sensible(s)
    ensures Sensible(r.0)
  {
    if s.group == 0 then (State(1, v, 0), [])
    else if s.group == 1 then (State(2, v % 16, 0), [s.carry * 4 + v / 16])
    else if s.group == 2 then (State(3, v % 4, 0), [s.carry * 16 + v / 4])
    else (Start, [s.carry * 64 + v])
  }

  /** The decoder from position `i` on: it stops at sufficient padding, and fails inside a group. */
  function DecodeFrom(text: string, i: nat, s: State): Option<seq<Byte>>
    requires Sensible(s)
    decreases |text| - i
  {
    if i >= |text| then (if s.group == 0 then Some([]) else None)
    else if text[i] == '=' then
      if s.group >= 2 && s.group + s.pads + 1 >= 4 then Some([])
      else DecodeFrom(text, i + 1, if s.group >= 2 then s.(pads := s.pads + 1) else s)
    else if Value(text[i]).None? then DecodeFrom(text, i + 1, s)
    else
      var (next, bytes) := Read(s, Value(text[i]).value);
      var rest := DecodeFrom(text, i + 1, next);
      if rest.Some? then Some(bytes + rest.value) else None
  }

  function Pads(n: nat): string {
    if n == 0 then "" else "=" + Pads(n - 1)
  }

  /** `_base64url_decode`; `None` stands for the exception. */
  function Decode(text: string): Option<seq<Byte>> {
    DecodeFrom(Padded(text), 0, Start)
  }

  // ---- Round trip ----

  lemma EncodedIsAlphabet(data: seq<Byte>)
    ensures forall c | c in Encode(data) :: Value(c).Some? && c != '=' && c != '.'
  {
    if |data| >= 3 {
      EncodedIsAlphabet(data[3..]);
    }
  }

  function Tail(n: nat): nat {
    if n % 3 == 0 then 0 else n % 3 + 1
  }

  lemma {:induction false} EncodedLength(data: seq<Byte>)
    ensures |Encode(data)| == 4 * (|data| / 3) + Tail(|data|)
    decreases |data|
  {
    if |data| >= 3 {
      var rest := data[3..];
      EncodedLength(rest);
      assert |Encode(data)| == 4 + |Encode(rest)|;
      assert |rest| / 3 == |data| / 3 - 1 && |rest| % 3 == |data| % 3;
    }
  }

  /** One step of the decoder over a character that stands for `v`. */
  lemma ReadChar(text: string, i: nat, s: State, v: Sextet)
    requires Sensible(s) && i < |text| && text[i] == Char(v)
    ensures DecodeFrom(text, i, s) ==
            var (next, bytes) := Read(s, v);
            var rest := DecodeFrom(text, i + 1, next);
            if rest.Some? then Some(bytes + rest.value) else None
  {
    ValueOfChar(v);
  }

  function Prepend(bytes: seq<Byte>, rest: Option<seq<Byte>>): Option<seq<Byte>> {
    if rest.Some? then Some(bytes + rest.value) else None
  }

  lemma FirstBits(a: Byte, low: nat)
    requires low < 16
    ensures Read(State(1, a / 4, 0), a % 4 * 16 + low) == (State(2, low, 0), [a])
  {
    assert (a % 4 * 16 + low) % 16 == low && (a % 4 * 16 + low) / 16 == a % 4;
  }

  /** The first two characters of a group carry the first byte. */
  lemma FirstByte(text: string, i: nat, a: Byte, low: nat)
    requires i + 1 < |text| && low < 16
    requires text[i] == Char(a / 4) && text[i+1] == Char(a % 4 * 16 + low)
    ensures DecodeFrom(text, i, Start) == Prepend([a], DecodeFrom(text, i + 2, State(2, low, 0)))
  {
    ReadChar(text, i, Start, a / 4);
    ReadChar(text, i + 1, State(1, a / 4, 0), a % 4 * 16 + low);
    FirstBits(a, low);
    var rest := DecodeFrom(text, i + 2, State(2, low, 0));
    assert rest.Some? ==> [] + ([a] + rest.value) == [a] + rest.value;
  }

  lemma SecondByte(text: string, i: nat, b: Byte, low: nat)
    requires i < |text| && low < 4 && text[i] == Char(b % 16 * 4 + low)
    ensures DecodeFrom(text, i, State(2, b / 16, 0)) == Prepend([b], DecodeFrom(text, i + 1, State(3, low, 0)))
  {
    ReadChar(text, i, State(2, b / 16, 0), b % 16 * 4 + low);
    assert (b % 16 * 4 + low) % 4 == low && (b % 16 * 4 + low) / 4 == b % 16;
  }

  lemma ThirdByte(text: string, i: nat, c: Byte)
    requires i < |text| && text[i] == Char(c % 64)
    ensures DecodeFrom(text, i, State(3, c / 64, 0)) == Prepend([c], DecodeFrom(text, i + 1, Start))
  {
    ReadChar(text, i, State(3, c / 64, 0), c % 64);
  }

  /** Characters of `part` stand in `text` from position `i` on. */
  predicate StandsAt(text: string, i: nat, part: string) {
    i + |part| <= |text| && forall k | 0 <= k < |part| :: text[i+k] == part[k]
  }

  lemma OneLeft(text: string, i: nat, a: Byte)
    requires |text| == i + 4 && StandsAt(text, i, [Char(a / 4), Char(a % 4 * 16)] + "==")
    ensures DecodeFrom(text, i, Start) == Some([a])
  {
    var part := [Char(a / 4), Char(a % 4 * 16)] + "==";
    assert text[i] == part[0] && text[i+1] == part[1] && text[i+2] == part[2] && text[i+3] == part[3];
    FirstByte(text, i, a, 0);
    assert DecodeFrom(text, i + 3, State(2, 0, 1)) == Some([]);
    assert DecodeFrom(text, i + 2, State(2, 0, 0)) == Some([]);
    assert [a] + [] == [a];
  }

  lemma TwoLeft(text: string, i: nat, a: Byte, b: Byte)
    requires |text| == i + 4
    requires StandsAt(text, i, [Char(a / 4), Char(a % 4 * 16 + b / 16), Char(b % 16 * 4)] + "=")
    ensures DecodeFrom(text, i, Start) == Some([a, b])
  {
    var part := [Char(a / 4), Char(a % 4 * 16 + b / 16), Char(b % 16 * 4)] + "=";
    assert text[i] == part[0] && text[i+1] == part[1] && text[i+2] == part[2] && text[i+3] == part[3];
    FirstByte(text, i, a, b / 16);
    SecondByte(text, i + 2, b, 0);
    assert DecodeFrom(text, i + 3, State(3, 0, 0)) == Some([]);
    assert [b] + [] == [b] && [a] + [b] == [a, b];
  }

  lemma ThreeInOne(a: Byte, b: Byte, c: Byte, rest: Option<seq<Byte>>)
    ensures Prepend([a], Prepend([b], Prepend([c], rest))) == Prepend([a, b, c], rest)
  {
    if rest.Some? {
      assert [a] + ([b] + ([c] + rest.value)) == [a, b, c] + rest.value;
    }
  }

  lemma Group(text: string, i: nat, a: Byte, b: Byte, c: Byte)
    requires StandsAt(text, i, GroupOf(a, b, c))
    ensures DecodeFrom(text, i, Start) == Prepend([a, b, c], DecodeFrom(text, i + 4, Start))
  {
    var part := GroupOf(a, b, c);
    assert text[i] == part[0] && text[i+1] == part[1] && text[i+2] == part[2] && text[i+3] == part[3];
    FirstByte(text, i, a, b / 16);
    SecondByte(text, i + 2, b, c / 64);
    ThirdByte(text, i + 3, c);
    ThreeInOne(a, b, c, DecodeFrom(text, i + 4, Start));
  }

  function PadsFor(data: seq<Byte>): string {
    if |data| % 3 == 0 then "" else if |data| % 3 == 1 then "==" else "="
  }

  lemma StandsInParts(text: string, i: nat, a: string, b: string)
    requires StandsAt(text, i, a + b)
    ensures StandsAt(text, i, a) && StandsAt(text, i + |a|, b)
  {
    var all := a + b;
    forall k | 0 <= k < |b|
      ensures text[i + |a| + k] == b[k]
    {
      assert text[i + (|a| + k)] == all[|a| + k];
    }
    forall k | 0 <= k < |a|
      ensures text[i + k] == a[k]
    {
      assert text[i + k] == all[k];
    }
  }

  function EncodedAndPadded(data: seq<Byte>): string {
    Encode(data) + PadsFor(data)
  }

  lemma InParts(data: seq<Byte>)
    requires |data| >= 3
    ensures EncodedAndPadded(data) == GroupOf(data[0], data[1], data[2]) + EncodedAndPadded(data[3..])
  {
    assert PadsFor(data) == PadsFor(data[3..]);
  }

  lemma PrependThree(data: seq<Byte>)
    requires |data| >= 3
    ensures Prepend([data[0], data[1], data[2]], Some(data[3..])) == Some(data)
  {
    assert data == [data[0], data[1], data[2]] + data[3..];
  }

  lemma DecodeShort(text: string, i: nat, data: seq<Byte>)
    requires |data| < 3 && StandsAt(text, i, EncodedAndPadded(data)) && |text| == i + |EncodedAndPadded(data)|
    ensures DecodeFrom(text, i, Start) == Some(data)
  {
    if |data| == 1 {
      OneLeft(text, i, data[0]);
      assert data == [data[0]];
    } else if |data| == 2 {
      TwoLeft(text, i, data[0], data[1]);
      assert data == [data[0], data[1]];
    }
  }

  lemma {:induction false} DecodeEncoded(text: string, i: nat, data: seq<Byte>)
    requires StandsAt(text, i, EncodedAndPadded(data)) && |text| == i + |EncodedAndPadded(data)|
    ensures DecodeFrom(text, i, Start) == Some(data)
    decreases |data|
  {
    if |data| < 3 {
      DecodeShort(text, i, data);
    } else {
      InParts(data);
      StandsInParts(text, i, GroupOf(data[0], data[1], data[2]), EncodedAndPadded(data[3..]));
      DecodeEncoded(text, i + 4, data[3..]);
      Group(text, i, data[0], data[1], data[2]);
      PrependThree(data);
    }
  }

  lemma LengthInGroup(length: nat, groups: nat, tail: nat)
    requires length == 4 * groups + tail && tail < 4
    ensures length % 4 == tail
  {
  }

  function Padded(text: string): string {
    var padding := 4 - |text| % 4;
    if padding != 4 then text + Pads(padding) else text
  }

  lemma PaddedEncoded(text: string, data: seq<Byte>)
    requires |text| % 4 == Tail(|data|)
    ensures Padded(text) == text + PadsFor(data)
  {
    assert Pads(1) == "=" && Pads(2) == "==";
  }

  /** Decoding inverts encoding, for all byte strings. */
  lemma {:induction false} DecodeInvertsEncode(data: seq<Byte>)
    ensures Decode(Encode(data)) == Some(data)
  {
    var text := Encode(data);
    EncodedLength(data);
    LengthInGroup(|text|, |data| / 3, Tail(|data|));
    PaddedEncoded(text, data);
    DecodeEncoded(Padded(text), 0, data);
  }

  lemma EncodeIsInjective(a: seq<Byte>, b: seq<Byte>)
    ensures Encode(a) == Encode(b) <==> a == b
  {
    DecodeInvertsEncode(a);
    DecodeInvertsEncode(b);
  }

  /** Test vectors of section 10 of RFC 4648, without padding, and the two characters of the URL-safe alphabet. */
  lemma TestVectors()
    ensures Encode([]) == "" && Encode([0x66]) == "Zg" && Encode([0x66, 0x6f]) == "Zm8" && Encode([0x66, 0x6f, 0x6f]) == "Zm9v"
    ensures Encode([0xfb, 0xff]) == "-_8"
  {
  }
}
