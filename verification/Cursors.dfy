/** Timeline cursors: base64url text (section 5 of RFC 4648) without its padding. */
module Cursors {
  import opened Tables

  newtype Byte = n: int | 0 <= n < 256

  /** A value of six bits. */
  type Sextet = n: int | 0 <= n < 64

  function ToChar(n: Sextet): (c: char)
    ensures FromChar(c) == Some(n) && c != '='
  {
    if n < 26 then ('A' as int + n) as char
    else if n < 52 then ('a' as int + n - 26) as char
    else if n < 62 then ('0' as int + n - 52) as char
    else if n == 62 then '-'
    else '_'
  }

  function FromChar(c: char): Option<Sextet> {
    if 'A' <= c <= 'Z' then Some(c as int - 'A' as int)
    else if 'a' <= c <= 'z' then Some(c as int - 'a' as int + 26)
    else if '0' <= c <= '9' then Some(c as int - '0' as int + 52)
    else if c == '-' then Some(62)
    else if c == '_' then Some(63)
    else None
  }

  // ---- Encoding -------------------------------------------------------------------------------

  /** The number that three bytes write in base 256. */
  function Joined(a: Byte, b: Byte, c: Byte): (n: int)
    ensures 0 <= n < 16777216
  {
    a as int * 65536 + b as int * 256 + c as int
  }

  function Split(n: int): seq<Byte>
    requires 0 <= n < 16777216
  {
    [(n / 65536) as Byte, (n / 256 % 256) as Byte, (n % 256) as Byte]
  }

  /** The same number in base 64. */
  function Quad(n: int): (q: string)
    requires 0 <= n < 16777216
    ensures |q| == 4 && forall i :: 0 <= i < 4 ==> q[i] != '='
  {
    [ToChar(n / 262144), ToChar(n / 4096 % 64), ToChar(n / 64 % 64), ToChar(n % 64)]
  }

  function Value(a: Sextet, b: Sextet, c: Sextet, d: Sextet): (n: int)
    ensures 0 <= n < 16777216
  {
    a * 262144 + b * 4096 + c * 64 + d
  }

  lemma SplitJoined(a: Byte, b: Byte, c: Byte)
    ensures Split(Joined(a, b, c)) == [a, b, c]
  {
    var n, low := Joined(a, b, c), b as int * 256 + c as int;
    assert n == a as int * 65536 + low && 0 <= low < 65536;
    assert n / 65536 == a as int;
    assert n / 256 == a as int * 256 + b as int;
  }

  lemma QuadDigits(n: int)
    requires 0 <= n < 16777216
    ensures Value(n / 262144, n / 4096 % 64, n / 64 % 64, n % 64) == n
  {
    assert n / 4096 == n / 262144 * 64 + n / 4096 % 64;
    assert n / 64 == n / 4096 * 64 + n / 64 % 64;
    assert n == n / 64 * 64 + n % 64;
  }

  /** Three bytes are four sextets, two are three and one is two; `=` fills the quantum up. */
  function Encode(bytes: seq<Byte>): string {
    if |bytes| == 0 then ""
    else if |bytes| == 1 then Quad(Joined(bytes[0], 0, 0))[..2] + "=="
    else if |bytes| == 2 then Quad(Joined(bytes[0], bytes[1], 0))[..3] + "="
    else Quad(Joined(bytes[0], bytes[1], bytes[2])) + Encode(bytes[3..])
  }

  function DigitOr0(c: char): Option<Sextet> {
    if c == '=' then Some(0) else FromChar(c)
  }

  function Quantum(q: string): Option<seq<Byte>>
    requires |q| == 4
  {
    match (FromChar(q[0]), FromChar(q[1]), DigitOr0(q[2]), DigitOr0(q[3]))
    case (Some(a), Some(b), Some(c), Some(d)) =>
      var bytes := Split(Value(a, b, c, d));
      Some(if q[2] == '=' then bytes[..1] else if q[3] == '=' then bytes[..2] else bytes)
    case _ => None
  }

  function Decode(text: string): Option<seq<Byte>> {
    if text == "" then Some([])
    else if |text| < 4 then None
    else
      match (Quantum(text[..4]), Decode(text[4..]))
      case (Some(bytes), Some(rest)) => Some(bytes + rest)
      case _ => None
  }

  lemma ThreeBytes(a: Byte, b: Byte, c: Byte)
    ensures Quantum(Quad(Joined(a, b, c))) == Some([a, b, c])
  {
    QuadDigits(Joined(a, b, c));
    SplitJoined(a, b, c);
  }

  lemma QuadTail(n: int)
    requires 0 <= n < 16777216 && n % 64 == 0
    ensures Quantum(Quad(n)[..3] + "=") == Some(Split(n)[..2])
    ensures n / 64 % 64 == 0 ==> Quantum(Quad(n)[..2] + "==") == Some(Split(n)[..1])
  {
    var q := Quad(n);
    QuadDigits(n);
    assert q[..3] + "=" == [q[0], q[1], q[2], '='];
    assert q[..2] + "==" == [q[0], q[1], '=', '='];
  }

  /** A number that ends in zero bytes has low sextets of zero. */
  lemma JoinedEnds(a: Byte, b: Byte)
    ensures Joined(a, b, 0) % 64 == 0
    ensures Joined(a, 0, 0) / 64 % 64 == 0
  {
    LowSextet(a as int * 1024 + b as int * 4);
    LowSextet(a as int * 16 * 64);
    LowSextet(a as int * 16);
  }

  lemma LowSextet(m: nat)
    ensures m * 64 % 64 == 0 && m * 64 / 64 == m
  {
  }

  lemma TwoBytes(a: Byte, b: Byte, n: int)
    requires n == Joined(a, b, 0)
    ensures Quantum(Quad(n)[..3] + "=") == Some([a, b])
  {
    JoinedEnds(a, b);
    QuadTail(n);
    SplitJoined(a, b, 0);
    assert Split(n)[..2] == [a, b];
  }

  lemma OneByte(a: Byte, n: int)
    requires n == Joined(a, 0, 0)
    ensures Quantum(Quad(n)[..2] + "==") == Some([a])
  {
    JoinedEnds(a, 0);
    QuadTail(n);
    SplitJoined(a, 0, 0);
    assert Split(n)[..1] == [a];
  }

  lemma DecodeStep(quad: string, rest: string, bytes: seq<Byte>, more: seq<Byte>)
    requires |quad| == 4 && Quantum(quad) == Some(bytes) && Decode(rest) == Some(more)
    ensures Decode(quad + rest) == Some(bytes + more)
  {
    assert (quad + rest)[..4] == quad && (quad + rest)[4..] == rest;
  }

  lemma {:induction false} DecodeEncode(bytes: seq<Byte>)
    ensures Decode(Encode(bytes)) == Some(bytes)
  {
    if |bytes| == 1 {
      OneByte(bytes[0], Joined(bytes[0], 0, 0));
      DecodeStep(Encode(bytes), "", [bytes[0]], []);
      assert Encode(bytes) + "" == Encode(bytes) && [bytes[0]] + [] == bytes;
    } else if |bytes| == 2 {
      TwoBytes(bytes[0], bytes[1], Joined(bytes[0], bytes[1], 0));
      DecodeStep(Encode(bytes), "", [bytes[0], bytes[1]], []);
      assert Encode(bytes) + "" == Encode(bytes) && [bytes[0], bytes[1]] + [] == bytes;
    } else if |bytes| > 2 {
      ThreeBytes(bytes[0], bytes[1], bytes[2]);
      DecodeEncode(bytes[3..]);
      DecodeStep(Quad(Joined(bytes[0], bytes[1], bytes[2])), Encode(bytes[3..]),
        [bytes[0], bytes[1], bytes[2]], bytes[3..]);
      assert [bytes[0], bytes[1], bytes[2]] + bytes[3..] == bytes;
    }
  }

  // ---- Padding --------------------------------------------------------------------------------

  /** `rstrip("=")`. */
  function Strip(text: string): string {
    if text != "" && text[|text| - 1] == '=' then Strip(text[..|text| - 1]) else text
  }

  function Equals(n: nat): string {
    if n == 0 then "" else Equals(n - 1) + "="
  }

  /** `cursor + "=" * (-len(cursor) % 4)`. */
  function Pad(text: string): string {
    text + Equals((4 - |text| % 4) % 4)
  }

  lemma {:induction false} StripEquals(core: string, k: nat)
    requires core == "" || core[|core| - 1] != '='
    ensures Strip(core + Equals(k)) == core && |Equals(k)| == k
  {
    if k == 0 {
      assert core + "" == core;
    } else {
      StripEquals(core, k - 1);
      var text := core + Equals(k);
      assert text[|text| - 1] == '=' && text[..|text| - 1] == core + Equals(k - 1);
    }
  }

  /** `text` is a core that does not end in `=`, followed by as many `=` as its length asks for. */
  ghost predicate Filled(text: string, core: string, k: nat) {
    && text == core + Equals(k) && k < 3 && (|core| + k) % 4 == 0
    && (core == "" || core[|core| - 1] != '=')
  }

  lemma FillQuad(quad: string, rest: string, core: string, k: nat)
    requires |quad| == 4 && quad[3] != '=' && Filled(rest, core, k)
    ensures Filled(quad + rest, quad + core, k)
  {
    assert quad + (core + Equals(k)) == (quad + core) + Equals(k);
  }

  lemma FillTail(quad: string, k: nat, text: string)
    requires |quad| == 4 && 1 <= k <= 2 && quad[3 - k] != '=' && text == quad[..4 - k] + (if k == 1 then "=" else "==")
    ensures Filled(text, quad[..4 - k], k)
  {
    assert Equals(0) == "" && Equals(1) == Equals(0) + "=" == "=" && Equals(2) == Equals(1) + "=" == "==";
  }

  lemma {:induction false} EncodedShape(bytes: seq<Byte>) returns (core: string, k: nat)
    ensures Filled(Encode(bytes), core, k)
  {
    if |bytes| == 0 {
      core, k := "", 0;
      assert Equals(0) == "";
    } else if |bytes| == 1 {
      core, k := Quad(Joined(bytes[0], 0, 0))[..2], 2;
      FillTail(Quad(Joined(bytes[0], 0, 0)), 2, Encode(bytes));
    } else if |bytes| == 2 {
      core, k := Quad(Joined(bytes[0], bytes[1], 0))[..3], 1;
      FillTail(Quad(Joined(bytes[0], bytes[1], 0)), 1, Encode(bytes));
    } else {
      var quad := Quad(Joined(bytes[0], bytes[1], bytes[2]));
      core, k := EncodedShape(bytes[3..]);
      FillQuad(quad, Encode(bytes[3..]), core, k);
      core := quad + core;
    }
  }

  lemma PadLength(m: nat, k: nat)
    requires k < 3 && (m + k) % 4 == 0
    ensures (4 - m % 4) % 4 == k
  {
    assert m % 4 == (if k == 0 then 0 else 4 - k);
  }

  lemma PadStrip(bytes: seq<Byte>)
    ensures Pad(Strip(Encode(bytes))) == Encode(bytes)
  {
    hide Encode, Strip;
    var core, k := EncodedShape(bytes);
    StripEquals(core, k);
    PadLength(|core|, k);
  }

  // ---- Cursors --------------------------------------------------------------------------------

  const BAR: Byte := 124

  /** A timestamp and an event id, as text. */
  datatype Position = Position(stamp: seq<Byte>, id: seq<Byte>)

  function EncodeCursor(p: Position): string {
    Strip(Encode(p.stamp + [BAR] + p.id))
  }

  function FirstBar(bytes: seq<Byte>): (k: nat)
    ensures k <= |bytes| && (k < |bytes| ==> bytes[k] == BAR)
    ensures forall i :: 0 <= i < k ==> bytes[i] != BAR
  {
    if bytes == [] || bytes[0] == BAR then 0 else 1 + FirstBar(bytes[1..])
  }

  function DecodeCursor(cursor: string): Option<Position> {
    match Decode(Pad(cursor))
    case None => None
    case Some(bytes) =>
      var k := FirstBar(bytes);
      if k == |bytes| then None else Some(Position(bytes[..k], bytes[k + 1..]))
  }

  /** Decoding inverts encoding for every id and every timestamp without a bar. */
  lemma CursorRoundTrip(p: Position)
    requires BAR !in p.stamp
    ensures DecodeCursor(EncodeCursor(p)) == Some(p)
  {
    var bytes := p.stamp + [BAR] + p.id;
    PadStrip(bytes);
    DecodeEncode(bytes);
    assert bytes[|p.stamp|] == BAR;
    assert FirstBar(bytes) == |p.stamp|;
    assert bytes[..|p.stamp|] == p.stamp && bytes[|p.stamp| + 1..] == p.id;
  }
}
