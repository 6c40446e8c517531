/** Base64url without padding (section 5 of RFC 4648), and the lenient decoding the platform offers. */
module Base64Url {
  import opened Prelude

  type Byte = x: int | 0 <= x < 256

  type Sextet = x: int | 0 <= x < 64

  function Digit(k: Sextet): char {
    if k < 26 then ('A' as int + k) as char
    else if k < 52 then ('a' as int + (k - 26)) as char
    else if k < 62 then ('0' as int + (k - 52)) as char
    else if k == 62 then '-'
    else '_'
  }

  predicate IsDigit(c: char) {
    'A' <= c <= 'Z' || 'a' <= c <= 'z' || '0' <= c <= '9' || c == '-' || c == '_'
  }

  function Value(c: char): Sextet
    requires IsDigit(c)
  {
    if 'A' <= c <= 'Z' then c as int - 'A' as int
    else if 'a' <= c <= 'z' then c as int - 'a' as int + 26
    else if '0' <= c <= '9' then c as int - '0' as int + 52
    else if c == '-' then 62
    else 63
  }

  lemma DigitValue(k: Sextet)
    ensures IsDigit(Digit(k)) && Value(Digit(k)) == k
  {
  }

  lemma ValueDigit(c: char)
    requires IsDigit(c)
    ensures Digit(Value(c)) == c
  {
  }

  predicate AllDigits(s: string) {
    forall i :: 0 <= i < |s| ==> IsDigit(s[i])
  }

  function EncodeThree(x: Byte, y: Byte, z: Byte): string {
    [Digit(x / 4), Digit(x % 4 * 16 + y / 16), Digit(y % 16 * 4 + z / 64), Digit(z % 64)]
  }

  function EncodeTwo(x: Byte, y: Byte): string {
    [Digit(x / 4), Digit(x % 4 * 16 + y / 16), Digit(y % 16 * 4)]
  }

  function EncodeOne(x: Byte): string {
    [Digit(x / 4), Digit(x % 4 * 16)]
  }

  function Encode(b: seq<Byte>): string {
    if |b| == 0 then ""
    else if |b| == 1 then EncodeOne(b[0])
    else if |b| == 2 then EncodeTwo(b[0], b[1])
    else EncodeThree(b[0], b[1], b[2]) + Encode(b[3..])
  }

  function First(p: Sextet, q: Sextet): Byte {
    p * 4 + q / 16
  }

  function Second(q: Sextet, r: Sextet): Byte {
    q % 16 * 16 + r / 4
  }

  function Third(r: Sextet, t: Sextet): Byte {
    r % 4 * 64 + t
  }

  /** Bits that do not fill a byte are dropped, as is a lone last character. */
  function Decode(s: string): seq<Byte>
    requires AllDigits(s)
  {
    if |s| < 2 then []
    else if |s| == 2 then [First(Value(s[0]), Value(s[1]))]
    else if |s| == 3 then [First(Value(s[0]), Value(s[1])), Second(Value(s[1]), Value(s[2]))]
    else
      [First(Value(s[0]), Value(s[1])), Second(Value(s[1]), Value(s[2])), Third(Value(s[2]), Value(s[3]))] + Decode(s[4..])
  }

  lemma {:induction false} EncodeShape(b: seq<Byte>)
    ensures AllDigits(Encode(b))
    ensures |Encode(b)| == (4 * |b| + 2) / 3
  {
    if |b| >= 3 {
      EncodeShape(b[3..]);
    }
  }

  lemma RegroupBytes(x: Byte, y: Byte, z: Byte)
    ensures First(x / 4, x % 4 * 16 + y / 16) == x
    ensures Second(x % 4 * 16 + y / 16, y % 16 * 4 + z / 64) == y
    ensures Third(y % 16 * 4 + z / 64, z % 64) == z
  {
  }

  lemma DecodeDigits(p: Sextet, q: Sextet, r: Sextet, t: Sextet)
    ensures var s := [Digit(p), Digit(q), Digit(r), Digit(t)];
            AllDigits(s) && Decode(s) == [First(p, q), Second(q, r), Third(r, t)]
    ensures var s := [Digit(p), Digit(q), Digit(r)]; AllDigits(s) && Decode(s) == [First(p, q), Second(q, r)]
    ensures var s := [Digit(p), Digit(q)]; AllDigits(s) && Decode(s) == [First(p, q)]
  {
    DigitValue(p);
    DigitValue(q);
    DigitValue(r);
    DigitValue(t);
    assert [Digit(p), Digit(q), Digit(r), Digit(t)][4..] == "";
  }

  lemma ThreeRoundTrip(x: Byte, y: Byte, z: Byte)
    ensures AllDigits(EncodeThree(x, y, z)) && Decode(EncodeThree(x, y, z)) == [x, y, z]
  {
    DecodeDigits(x / 4, x % 4 * 16 + y / 16, y % 16 * 4 + z / 64, z % 64);
    RegroupBytes(x, y, z);
  }

  lemma TwoRoundTrip(x: Byte, y: Byte)
    ensures AllDigits(EncodeTwo(x, y)) && Decode(EncodeTwo(x, y)) == [x, y]
  {
    DecodeDigits(x / 4, x % 4 * 16 + y / 16, y % 16 * 4, 0);
    RegroupBytes(x, y, 0);
  }

  lemma OneRoundTrip(x: Byte)
    ensures AllDigits(EncodeOne(x)) && Decode(EncodeOne(x)) == [x]
  {
    DecodeDigits(x / 4, x % 4 * 16, 0, 0);
    RegroupBytes(x, 0, 0);
  }

  lemma DecodeFour(front: string, back: string)
    requires |front| == 4 && AllDigits(front) && AllDigits(back)
    ensures AllDigits(front + back) && Decode(front + back) == Decode(front) + Decode(back)
  {
    assert (front + back)[4..] == back;
    assert front[4..] == "";
  }

  /** Decoding undoes encoding, so encoding is injective. */
  lemma {:induction false} DecodeEncode(b: seq<Byte>)
    ensures AllDigits(Encode(b)) && Decode(Encode(b)) == b
  {
    if |b| == 1 {
      OneRoundTrip(b[0]);
    } else if |b| == 2 {
      TwoRoundTrip(b[0], b[1]);
    } else if |b| >= 3 {
      ThreeRoundTrip(b[0], b[1], b[2]);
      DecodeEncode(b[3..]);
      DecodeFour(EncodeThree(b[0], b[1], b[2]), Encode(b[3..]));
      assert b == [b[0], b[1], b[2]] + b[3..];
    }
  }

  /** Table 2 of section 5 of RFC 4648. */
  lemma DigitsAreTheAlphabet(k: Sextet)
    ensures k < 26 ==> Digit(k) == "ABCDEFGHIJKLMNOPQRSTUVWXYZ"[k]
    ensures 26 <= k < 52 ==> Digit(k) == "abcdefghijklmnopqrstuvwxyz"[k - 26]
    ensures 52 <= k ==> Digit(k) == "0123456789-_"[k - 52]
  {
  }

  /** A block of bytes, read as one number, is its digits read as one number behind padding bits of zero. */
  lemma ThreeAreFour(x: Byte, y: Byte, z: Byte)
    ensures var s := Encode([x, y, z]);
            && |s| == 4 && AllDigits(s)
            && 64 * (64 * (64 * Value(s[0]) + Value(s[1])) + Value(s[2])) + Value(s[3]) == 256 * (256 * x + y) + z
  {
    var p, q, r, t: Sextet := x / 4, x % 4 * 16 + y / 16, y % 16 * 4 + z / 64, z % 64;
    assert [x, y, z][3..] == [];
    assert Encode([x, y, z]) == EncodeThree(x, y, z) == [Digit(p), Digit(q), Digit(r), Digit(t)];
    DigitValue(p);
    DigitValue(q);
    DigitValue(r);
    DigitValue(t);
  }

  lemma TwoAreThree(x: Byte, y: Byte)
    ensures var s := Encode([x, y]);
            && |s| == 3 && AllDigits(s)
            && 64 * (64 * Value(s[0]) + Value(s[1])) + Value(s[2]) == 4 * (256 * x + y)
  {
    var p, q, r: Sextet := x / 4, x % 4 * 16 + y / 16, y % 16 * 4;
    assert Encode([x, y]) == [Digit(p), Digit(q), Digit(r)];
    DigitValue(p);
    DigitValue(q);
    DigitValue(r);
  }

  lemma OneIsTwo(x: Byte)
    ensures var s := Encode([x]); |s| == 2 && AllDigits(s) && 64 * Value(s[0]) + Value(s[1]) == 16 * x
  {
    DigitValue(x / 4);
    DigitValue(x % 4 * 16);
  }

  /** No leftover character and no leftover bits. */
  predicate Canonical(s: string)
    requires AllDigits(s)
  {
    if |s| >= 4 then Canonical(s[4..])
    else if |s| == 3 then Value(s[2]) % 4 == 0
    else if |s| == 2 then Value(s[1]) % 16 == 0
    else |s| == 0
  }

  lemma RegroupDigits(p: Sextet, q: Sextet, r: Sextet, t: Sextet)
    ensures First(p, q) / 4 == p
    ensures First(p, q) % 4 * 16 + Second(q, r) / 16 == q
    ensures Second(q, r) % 16 * 4 + Third(r, t) / 64 == r
    ensures Third(r, t) % 64 == t
    ensures First(p, q) % 4 * 16 == q / 16 * 16
    ensures Second(q, r) % 16 * 4 == r / 4 * 4
  {
  }

  lemma FourRoundTrip(p: Sextet, q: Sextet, r: Sextet, t: Sextet)
    ensures EncodeThree(First(p, q), Second(q, r), Third(r, t)) == [Digit(p), Digit(q), Digit(r), Digit(t)]
  {
    RegroupDigits(p, q, r, t);
  }

  lemma ThreeDigitsReencode(p: Sextet, q: Sextet, r: Sextet)
    ensures EncodeTwo(First(p, q), Second(q, r)) == [Digit(p), Digit(q), Digit(r)] <==> r % 4 == 0
  {
    RegroupDigits(p, q, r, 0);
    DigitValue(r / 4 * 4);
    DigitValue(r);
  }

  lemma TwoDigitsReencode(p: Sextet, q: Sextet)
    ensures EncodeOne(First(p, q)) == [Digit(p), Digit(q)] <==> q % 16 == 0
  {
    RegroupDigits(p, q, 0, 0);
    DigitValue(q / 16 * 16);
    DigitValue(q);
  }

  function Values(s: string): (v: seq<Sextet>)
    requires AllDigits(s)
    ensures |v| == |s| && forall i :: 0 <= i < |s| ==> v[i] == Value(s[i]) && Digit(v[i]) == s[i]
  {
    if s == [] then [] else ValueDigit(s[0]); [Value(s[0])] + Values(s[1..])
  }

  lemma ShortReencodes(s: string)
    requires AllDigits(s) && |s| < 4
    ensures Encode(Decode(s)) == s <==> Canonical(s)
  {
    var v := Values(s);
    if |s| == 2 {
      TwoDigitsReencode(v[0], v[1]);
      assert s == [Digit(v[0]), Digit(v[1])];
      assert Encode(Decode(s)) == EncodeOne(First(v[0], v[1]));
    } else if |s| == 3 {
      ThreeDigitsReencode(v[0], v[1], v[2]);
      assert s == [Digit(v[0]), Digit(v[1]), Digit(v[2])];
      assert Encode(Decode(s)) == EncodeTwo(First(v[0], v[1]), Second(v[1], v[2]));
    }
  }

  lemma EncodeFront(x: Byte, y: Byte, z: Byte, rest: seq<Byte>)
    ensures Encode([x, y, z] + rest) == EncodeThree(x, y, z) + Encode(rest)
  {
    assert ([x, y, z] + rest)[3..] == rest;
  }

  lemma FrontStays<T>(front: seq<T>, middle: seq<T>, back: seq<T>)
    ensures front + middle + back == front + (middle + back)
  {
  }

  /** Blocks of three bytes are encoded one behind the other. */
  lemma {:induction false} BlocksFollow(a: seq<Byte>, b: seq<Byte>)
    requires |a| % 3 == 0
    ensures Encode(a + b) == Encode(a) + Encode(b)
  {
    if |a| == 0 {
      assert a + b == b;
    } else {
      BlocksFollow(a[3..], b);
      EncodeFront(a[0], a[1], a[2], a[3..]);
      EncodeFront(a[0], a[1], a[2], a[3..] + b);
      assert a == [a[0], a[1], a[2]] + a[3..];
      FrontStays([a[0], a[1], a[2]], a[3..], b);
      FrontStays(EncodeThree(a[0], a[1], a[2]), Encode(a[3..]), Encode(b));
    }
  }

  lemma FourReencodes(s: string)
    requires |s| >= 4 && AllDigits(s)
    ensures Encode(Decode(s)) == s[..4] + Encode(Decode(s[4..]))
  {
    var v := Values(s);
    FourRoundTrip(v[0], v[1], v[2], v[3]);
    EncodeFront(First(v[0], v[1]), Second(v[1], v[2]), Third(v[2], v[3]), Decode(s[4..]));
    assert s[..4] == [Digit(v[0]), Digit(v[1]), Digit(v[2]), Digit(v[3])];
  }

  /** A string re-encodes to itself exactly when it is canonical. */
  lemma {:induction false} ReencodesIffCanonical(s: string)
    requires AllDigits(s)
    ensures Encode(Decode(s)) == s <==> Canonical(s)
  {
    if |s| < 4 {
      ShortReencodes(s);
    } else {
      ReencodesIffCanonical(s[4..]);
      FourReencodes(s);
      assert s == s[..4] + s[4..];
      SameTail(s[..4], Encode(Decode(s[4..])), s[4..]);
    }
  }
}
