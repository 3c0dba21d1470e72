/** Base64 as in section 4 of RFC 4648: the encoder of the agent and the strict decoder of the receiver. */
module Base64 {
  import opened Prelude

  type byte = x: int | 0 <= x < 256
  type sextet = x: int | 0 <= x < 64

  function Char(v: sextet): char {
    if v < 26 then ('A' as int + v) as char
    else if v < 52 then ('a' as int + v - 26) as char
    else if v < 62 then ('0' as int + v - 52) as char
    else if v == 62 then '+' else '/'
  }

  function Value(c: char): Option<sextet> {
    if 'A' <= c <= 'Z' then Some(c as int - 'A' as int)
    else if 'a' <= c <= 'z' then Some(c as int - 'a' as int + 26)
    else if '0' <= c <= '9' then Some(c as int - '0' as int + 52)
    else if c == '+' then Some(62) else if c == '/' then Some(63) else None
  }

  lemma ValueOfChar(v: sextet)
    ensures Value(Char(v)) == Some(v) && Char(v) != '='
  {
  }

  /** The four characters of three bytes. */
  function Quad(a: byte, b: byte, c: byte): string {
    [Char(a / 4), Char(a % 4 * 16 + b / 16), Char(b % 16 * 4 + c / 64), Char(c % 64)]
  }

  function Encode(bytes: seq<byte>): string {
    if |bytes| == 0 then ""
    else if |bytes| == 1 then Quad(bytes[0], 0, 0)[..2] + "=="
    else if |bytes| == 2 then Quad(bytes[0], bytes[1], 0)[..3] + "="
    else Quad(bytes[0], bytes[1], bytes[2]) + Encode(bytes[3..])
  }

  function Bytes(a: sextet, b: sextet, c: sextet, d: sextet): seq<byte> {
    [a * 4 + b / 16, b % 16 * 16 + c / 4, c % 4 * 64 + d]
  }

  /** The last four characters, which may be padded; spare bits are ignored. */
  function DecodeLast(s: string): Option<seq<byte>>
    requires |s| == 4
  {
    var a, b, c, d := Value(s[0]), Value(s[1]), Value(s[2]), Value(s[3]);
    if a.None? || b.None? then None
    else if s[2] == '=' && s[3] == '=' then Some(Bytes(a.value, b.value, 0, 0)[..1])
    else if c.None? then None
    else if s[3] == '=' then Some(Bytes(a.value, b.value, c.value, 0)[..2])
    else if d.None? then None
    else Some(Bytes(a.value, b.value, c.value, d.value))
  }

  /** `b64decode(data, validate=True)`: none when it raises. */
  function Decode(s: string): Option<seq<byte>> {
    if |s| == 0 then Some([])
    else if |s| < 4 then None
    else if |s| == 4 then DecodeLast(s)
    else
      var a, b, c, d := Value(s[0]), Value(s[1]), Value(s[2]), Value(s[3]);
      var rest := Decode(s[4..]);
      if a.None? || b.None? || c.None? || d.None? || rest.None? then None
      else Some(Bytes(a.value, b.value, c.value, d.value) + rest.value)
  }

  lemma BytesOfQuad(a: byte, b: byte, c: byte)
    ensures Bytes(a / 4, a % 4 * 16 + b / 16, b % 16 * 4 + c / 64, c % 64) == [a, b, c]
  {
  }

  lemma QuadValues(a: byte, b: byte, c: byte)
    ensures var q := Quad(a, b, c);
            && Value(q[0]) == Some(a / 4) && Value(q[1]) == Some(a % 4 * 16 + b / 16)
            && Value(q[2]) == Some(b % 16 * 4 + c / 64) && Value(q[3]) == Some(c % 64)
            && forall i | 0 <= i < 4 :: q[i] != '='
  {
    ValueOfChar(a / 4);
    ValueOfChar(a % 4 * 16 + b / 16);
    ValueOfChar(b % 16 * 4 + c / 64);
    ValueOfChar(c % 64);
  }

  lemma EncodeLength(bytes: seq<byte>)
    ensures |Encode(bytes)| % 4 == 0 && (|bytes| > 0 ==> |Encode(bytes)| >= 4)
  {
  }

  lemma OneByte(a: byte)
    ensures Decode(Encode([a])) == Some([a])
  {
    hide Char, Value;
    QuadValues(a, 0, 0);
    var q := Quad(a, 0, 0);
    var s := [q[0], q[1], '=', '='];
    assert Encode([a]) == s;
    assert Bytes(a / 4, a % 4 * 16, 0, 0)[..1] == [a];
  }

  lemma TwoBytes(a: byte, b: byte)
    ensures Decode(Encode([a, b])) == Some([a, b])
  {
    hide Char, Value;
    QuadValues(a, b, 0);
    var q := Quad(a, b, 0);
    var s := [q[0], q[1], q[2], '='];
    assert Encode([a, b]) == s;
    assert Bytes(a / 4, a % 4 * 16 + b / 16, b % 16 * 4, 0)[..2] == [a, b];
  }

  lemma ThreeBytes(a: byte, b: byte, c: byte)
    ensures Decode(Quad(a, b, c)) == Some([a, b, c])
  {
    hide Char, Value, Bytes;
    QuadValues(a, b, c);
    BytesOfQuad(a, b, c);
  }

  lemma DecodeGroup(q: string, rest: string, a: sextet, b: sextet, c: sextet, d: sextet)
    requires |q| == 4 && Value(q[0]) == Some(a) && Value(q[1]) == Some(b) && Value(q[2]) == Some(c) && Value(q[3]) == Some(d)
    requires rest != "" && Decode(rest).Some?
    ensures Decode(q + rest) == Some(Bytes(a, b, c, d) + Decode(rest).value)
  {
    hide Value, Bytes, DecodeLast;
    var s := q + rest;
    assert s[4..] == rest;
    assert s[0] == q[0] && s[1] == q[1] && s[2] == q[2] && s[3] == q[3];
  }

  /** A full group in front of an encoded rest. */
  lemma QuadFirst(a: byte, b: byte, c: byte, rest: string)
    requires Decode(rest).Some?
    ensures Decode(Quad(a, b, c) + rest) == Some([a, b, c] + Decode(rest).value)
  {
    hide Value, Bytes, Char, DecodeLast, Decode;
    if rest == "" {
      ThreeBytes(a, b, c);
      NoBytes();
      assert Quad(a, b, c) + rest == Quad(a, b, c);
      assert [a, b, c] + [] == [a, b, c];
    } else {
      QuadValues(a, b, c);
      BytesOfQuad(a, b, c);
      DecodeGroup(Quad(a, b, c), rest, a / 4, a % 4 * 16 + b / 16, b % 16 * 4 + c / 64, c % 64);
    }
  }

  /** Whatever was encoded is decoded to the same bytes. */
  lemma {:induction false} DecodeEncode(bytes: seq<byte>)
    ensures Decode(Encode(bytes)) == Some(bytes)
  {
    hide Quad, Decode;
    if |bytes| == 0 {
      NoBytes();
    } else if |bytes| == 1 {
      OneByte(bytes[0]);
      assert bytes == [bytes[0]];
    } else if |bytes| == 2 {
      TwoBytes(bytes[0], bytes[1]);
      assert bytes == [bytes[0], bytes[1]];
    } else {
      DecodeEncode(bytes[3..]);
      EncodeLength(bytes[3..]);
      QuadFirst(bytes[0], bytes[1], bytes[2], Encode(bytes[3..]));
      assert bytes == [bytes[0], bytes[1], bytes[2]] + bytes[3..];
    }
  }

  lemma NoBytes()
    ensures Decode("") == Some([])
  {
  }

  /** The test vectors of section 10 of RFC 4648 ("f", "fo", "foo", "foob"). */
  lemma TestVectors()
    ensures Encode([102]) == "Zg==" && Encode([102, 111]) == "Zm8=" && Encode([102, 111, 111]) == "Zm9v"
    ensures Encode([102, 111, 111, 98]) == "Zm9vYg=="
  {
    assert Quad(102, 0, 0) == "ZgAA" && Quad(102, 111, 0) == "Zm8A" && Quad(102, 111, 111) == "Zm9v" && Quad(98, 0, 0) == "YgAA";
    var foob: seq<byte> := [102, 111, 111, 98];
    assert foob[3..] == [98];
    var foo: seq<byte> := [102, 111, 111];
    assert foo[3..] == [];
  }

  /** What is not the encoding of whole groups is refused. */
  lemma {:induction false} DecodeNeedsGroups(s: string)
    requires Decode(s).Some?
    ensures |s| % 4 == 0
    ensures forall i | 0 <= i < |s| :: Value(s[i]).Some? || (s[i] == '=' && i >= |s| - 2)
    decreases |s|
  {
    hide Value, Bytes;
    if |s| > 4 {
      DecodeNeedsGroups(s[4..]);
      forall i | 0 <= i < |s| ensures Value(s[i]).Some? || (s[i] == '=' && i >= |s| - 2) {
        if i >= 4 {
          assert s[4..][i - 4] == s[i];
        }
      }
    }
  }
}
