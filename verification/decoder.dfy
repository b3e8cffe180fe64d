/** The instruction decoder: the run loop formats the opcode as an eight-wide,
    zero-padded binary string and looks at its first two characters to decide
    how many operand bytes the handler receives. */
module Decoder {
  import opened Results

  /** How many operand bytes a handler is given. */
  datatype Arity = Nullary | Unary | Binary {
    function Count(): nat {
      match this
      case Nullary => 0
      case Unary => 1
      case Binary => 2
    }
  }

  function Pow2(k: nat): (p: nat)
    ensures p >= 1
  {
    if k == 0 then 1 else 2 * Pow2(k - 1)
  }

  function Digit(d: nat): char
    requires d < 2
  {
    if d == 0 then '0' else '1'
  }

  /** Binary digits of `n`, most significant first, without leading zeros
      (Python's `format(n, "b")` for `n >= 0`). */
  function Bin(n: nat): (s: string)
    ensures |s| >= 1 && (s[0] == '0' || s[0] == '1')
    decreases n
  {
    if n < 2 then [Digit(n)] else Bin(n / 2) + [Digit(n % 2)]
  }

  function Zeros(k: nat): (s: string)
    ensures |s| == k
    ensures forall j :: 0 <= j < k ==> s[j] == '0'
  {
    seq(k, _ => '0')
  }

  /** Left-pads `s` with `'0'` up to `width` characters. */
  function ZeroPad(s: string, width: nat): (t: string)
    ensures |t| == if |s| >= width then |s| else width
    ensures |s| >= 1 ==> t[0] == '0' || t[0] == s[0]
  {
    if |s| >= width then s else Zeros(width - |s|) + s
  }

  /** `"{0:08b}".format(n)`: a minus sign for negatives, then binary digits
      zero-padded so that the whole string is at least eight characters wide. */
  function Format08b(n: int): (s: string)
    ensures |s| >= 8
    ensures (s[0] == '-') <==> n < 0
  {
    if n < 0 then "-" + ZeroPad(Bin(-n), 7) else ZeroPad(Bin(n), 8)
  }

  /** The arity named by a two-character prefix; `"11"` (and a sign) names none. */
  function ArityOfPrefix(top: string): Option<Arity> {
    if top == "00" then Some(Nullary)
    else if top == "01" then Some(Unary)
    else if top == "10" then Some(Binary)
    else None
  }

  /** The decoder as the run loop performs it. On a byte it names the arity
      of the two top bits; a negative value renders with a sign and names none;
      a value wider than a byte renders with a leading `1`. */
  function OperandClass(ir: int): (r: Option<Arity>)
    ensures 0 <= ir < 256 ==> r == ArityOfTopBits(ir / 64)
    ensures ir < 0 ==> r == None
    ensures ir >= 256 ==> r == None || r == Some(Binary)
  {
    var top := Format08b(ir)[..2];
    if 0 <= ir < 256 then PrefixOfByte(ir); ArityOfPrefix(top)
    else if ir >= 256 then PrefixOfWide(ir); ArityOfPrefix(top)
    else ArityOfPrefix(top)
  }

  /** Reference decoder for a byte: the two most significant bits. */
  function ArityOfTopBits(top: nat): (r: Option<Arity>)
    requires top < 4
    ensures r.Some? <==> top < 3
    ensures r.Some? ==> r.value.Count() == top
  {
    if top == 0 then Some(Nullary)
    else if top == 1 then Some(Unary)
    else if top == 2 then Some(Binary)
    else None
  }

  /** The two low bits of `top`, rendered as two binary digits. */
  function TwoBits(top: nat): (s: string)
    ensures |s| == 2
  {
    [Digit((top / 2) % 2), Digit(top % 2)]
  }

  /** `n` shifted right by `j` bits. */
  function Shr(n: nat, j: nat): nat
    decreases j
  {
    if j == 0 then n else Shr(n / 2, j - 1)
  }

  lemma {:induction false} BinLength(n: nat, k: nat)
    requires k >= 1 && n < Pow2(k)
    ensures |Bin(n)| <= k
    decreases k
  {
    if n >= 2 {
      assert k >= 2;
      BinLength(n / 2, k - 1);
    }
  }

  /** Zero-padding the binary digits of a `k`-bit number to `k` places puts its
      two most significant bits in front. */
  lemma {:induction false} PaddedPrefix(n: nat, k: nat)
    requires k >= 2 && n < Pow2(k)
    ensures ZeroPad(Bin(n), k)[..2] == TwoBits(Shr(n, k - 2))
    decreases k
  {
    if k == 2 {
      PaddedPrefixOfTwoBits(n);
    } else if n < 2 {
      ShrSmall(n, k - 2);
      var t := ZeroPad(Bin(n), k);
      assert t[0] == '0' && t[1] == '0';
      assert t[..2] == TwoBits(0);
    } else {
      var h := Bin(n / 2);
      var d := [Digit(n % 2)];
      BinLength(n / 2, k - 1);
      PadAppend(h, d, k);
      PaddedPrefix(n / 2, k - 1);
      var t := ZeroPad(h, k - 1);
      assert (t + d)[..2] == t[..2];
    }
  }

  lemma PaddedPrefixOfTwoBits(n: nat)
    requires n < 4
    ensures ZeroPad(Bin(n), 2)[..2] == TwoBits(n)
  {
    if n == 2 {
      assert Bin(2) == Bin(1) + [Digit(0)];
    } else if n == 3 {
      assert Bin(3) == Bin(1) + [Digit(1)];
    }
  }

  /** Appending a digit and widening the pad by one place commute. */
  lemma PadAppend(h: string, d: string, k: nat)
    requires |d| == 1 && 1 <= k && |h| <= k - 1
    ensures ZeroPad(h + d, k) == ZeroPad(h, k - 1) + d
  {
    if |h| < k - 1 {
      assert Zeros(k - |h + d|) == Zeros(k - 1 - |h|);
    }
  }

  lemma {:induction false} ShrSmall(n: nat, j: nat)
    requires n < 2
    ensures j > 0 ==> Shr(n, j) == 0
    decreases j
  {
    if j > 1 {
      ShrSmall(n / 2, j - 1);
    }
  }

  lemma ShrSix(n: nat)
    ensures Shr(n, 6) == n / 64
  {
    var a := n / 2;
    var b := a / 2;
    var c := b / 2;
    var d := c / 2;
    var e := d / 2;
    assert Shr(n, 6) == e / 2;
    assert b == n / 4;
    assert d == n / 16;
  }

  /** For every byte, the decoder's string test agrees with the top two bits. */
  lemma PrefixOfByte(ir: int)
    requires 0 <= ir < 256
    ensures ArityOfPrefix(Format08b(ir)[..2]) == ArityOfTopBits(ir / 64)
  {
    assert Pow2(8) == 256 by {
      assert Pow2(2) == 4 && Pow2(4) == 16 && Pow2(6) == 64;
    }
    PaddedPrefix(ir, 8);
    ShrSix(ir);
    var t := ir / 64;
    assert Format08b(ir)[..2] == TwoBits(t);
  }

  /** A number of at least `Pow2(k)` has more than `k` binary digits. */
  lemma {:induction false} BinOfLarge(n: nat, k: nat)
    requires n >= Pow2(k)
    ensures |Bin(n)| > k
    decreases k
  {
    if k > 0 {
      BinOfLarge(n / 2, k - 1);
    }
  }

  /** The binary digits of a positive number start with `1`. */
  lemma {:induction false} BinLeadsWithOne(n: nat)
    requires n >= 1
    ensures Bin(n)[0] == '1'
    decreases n
  {
    if n >= 2 {
      BinLeadsWithOne(n / 2);
    }
  }

  /** A value wider than a byte needs no padding, so its rendering starts
      with the leading `1` of its binary digits. */
  lemma PrefixOfWide(ir: int)
    requires ir >= 256
    ensures Format08b(ir)[0] == '1'
  {
    assert Pow2(8) == 256 by {
      assert Pow2(2) == 4 && Pow2(4) == 16 && Pow2(6) == 64;
    }
    BinOfLarge(ir, 8);
    BinLeadsWithOne(ir);
  }
}
