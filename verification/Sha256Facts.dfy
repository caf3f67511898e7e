/** SHA-256 apart from its own definition: where its constants come from (sections 4.2.2 and 5.3.3 of FIPS 180-4), what its
    word functions do to bits, and the worked example of the message "abc", round by round. */
module Sha256Facts {
  import opened Bytes
  import opened Sha256

  // ---- bits ---------------------------------------------------------------------------------------------------

  /** Bit `i` of a word; positions are counted modulo 32. */
  predicate Bit(x: bv32, i: bv5) { (x >> i) & 1 == 1 }

  /** An odd number of the three. */
  predicate Odd(p: bool, q: bool, r: bool) { (p != q) != r }

  lemma ShiftXor(x: bv32, y: bv32, i: bv5)
    ensures (x ^ y) >> i == (x >> i) ^ (y >> i)
  {
  }

  lemma LowXor(x: bv32, y: bv32)
    ensures (x ^ y) & 1 == 1 <==> (x & 1 == 1) != (y & 1 == 1)
  {
  }

  lemma XorBit(x: bv32, y: bv32, i: bv5)
    ensures Bit(Xor(x, y), i) <==> Bit(x, i) != Bit(y, i)
  {
    ShiftXor(x, y, i);
    LowXor(x >> i, y >> i);
  }

  lemma OddBit(x: bv32, y: bv32, z: bv32, i: bv5)
    ensures Bit(Xor3(x, y, z), i) <==> Odd(Bit(x, i), Bit(y, i), Bit(z, i))
  {
    hide Bit, Xor;
    XorBit(x, y, i);
    XorBit(Xor(x, y), z, i);
  }

  lemma AndBit(x: bv32, y: bv32, i: bv5)
    ensures Bit(And(x, y), i) <==> Bit(x, i) && Bit(y, i)
  {
  }

  lemma NotBit(x: bv32, i: bv5)
    ensures Bit(Not(x), i) <==> !Bit(x, i)
  {
  }

  lemma Rotated2(x: bv32, i: bv5)
    ensures Bit(Rotr(x, 2), i) <==> Bit(x, i + 2)
  {
  }

  lemma Rotated13(x: bv32, i: bv5)
    ensures Bit(Rotr(x, 13), i) <==> Bit(x, i + 13)
  {
  }

  lemma Rotated22(x: bv32, i: bv5)
    ensures Bit(Rotr(x, 22), i) <==> Bit(x, i + 22)
  {
  }

  lemma Rotated6(x: bv32, i: bv5)
    ensures Bit(Rotr(x, 6), i) <==> Bit(x, i + 6)
  {
  }

  lemma Rotated11(x: bv32, i: bv5)
    ensures Bit(Rotr(x, 11), i) <==> Bit(x, i + 11)
  {
  }

  lemma Rotated25(x: bv32, i: bv5)
    ensures Bit(Rotr(x, 25), i) <==> Bit(x, i + 25)
  {
  }

  lemma Rotated7(x: bv32, i: bv5)
    ensures Bit(Rotr(x, 7), i) <==> Bit(x, i + 7)
  {
  }

  lemma Rotated18(x: bv32, i: bv5)
    ensures Bit(Rotr(x, 18), i) <==> Bit(x, i + 18)
  {
  }

  lemma Rotated17(x: bv32, i: bv5)
    ensures Bit(Rotr(x, 17), i) <==> Bit(x, i + 17)
  {
  }

  lemma Rotated19(x: bv32, i: bv5)
    ensures Bit(Rotr(x, 19), i) <==> Bit(x, i + 19)
  {
  }

  lemma Shifted3(x: bv32, i: bv5)
    ensures Bit(Shr(x, 3), i) <==> i < 29 && Bit(x, i + 3)
  {
  }

  lemma Shifted10(x: bv32, i: bv5)
    ensures Bit(Shr(x, 10), i) <==> i < 22 && Bit(x, i + 10)
  {
  }

  /** Each bit of the large sigmas is the parity of three bits of the word. */
  lemma BigSigmaBits(x: bv32, i: bv5)
    ensures Bit(BigSigma0(x), i) <==> Odd(Bit(x, i + 2), Bit(x, i + 13), Bit(x, i + 22))
    ensures Bit(BigSigma1(x), i) <==> Odd(Bit(x, i + 6), Bit(x, i + 11), Bit(x, i + 25))
  {
    hide Bit, Rotr, Odd, Xor3;
    Rotated2(x, i);
    Rotated13(x, i);
    Rotated22(x, i);
    OddBit(Rotr(x, 2), Rotr(x, 13), Rotr(x, 22), i);
    Rotated6(x, i);
    Rotated11(x, i);
    Rotated25(x, i);
    OddBit(Rotr(x, 6), Rotr(x, 11), Rotr(x, 25), i);
  }

  /** Those of the small sigmas too, and the bits that a plain shift brings in are zero. */
  lemma SmallSigmaBits(x: bv32, i: bv5)
    ensures Bit(SmallSigma0(x), i) <==> Odd(Bit(x, i + 7), Bit(x, i + 18), i < 29 && Bit(x, i + 3))
    ensures Bit(SmallSigma1(x), i) <==> Odd(Bit(x, i + 17), Bit(x, i + 19), i < 22 && Bit(x, i + 10))
  {
    hide Bit, Rotr, Odd, Xor3, Shr;
    Rotated7(x, i);
    Rotated18(x, i);
    Shifted3(x, i);
    OddBit(Rotr(x, 7), Rotr(x, 18), Shr(x, 3), i);
    Rotated17(x, i);
    Rotated19(x, i);
    Shifted10(x, i);
    OddBit(Rotr(x, 17), Rotr(x, 19), Shr(x, 10), i);
  }

  /** One word chooses between the bits of two others. */
  lemma ChoiceBits(x: bv32, y: bv32, z: bv32, i: bv5)
    ensures Bit(Choose(x, y, z), i) <==> if Bit(x, i) then Bit(y, i) else Bit(z, i)
  {
    hide Bit, And, Not, Xor;
    AndBit(x, y, i);
    AndBit(Not(x), z, i);
    NotBit(x, i);
    XorBit(And(x, y), And(Not(x), z), i);
  }

  /** At least two of the three bits. */
  lemma MajorityBits(x: bv32, y: bv32, z: bv32, i: bv5)
    ensures Bit(Majority(x, y, z), i) <==>
            (Bit(x, i) && Bit(y, i)) || (Bit(x, i) && Bit(z, i)) || (Bit(y, i) && Bit(z, i))
  {
    hide Bit, And, Xor3;
    AndBit(x, y, i);
    AndBit(x, z, i);
    AndBit(y, z, i);
    OddBit(And(x, y), And(x, z), And(y, z), i);
  }

  // ---- constants ----------------------------------------------------------------------------------------------

  /** The first 64 primes. */
  function PrimeAt(i: nat): (r: nat)
    requires i < 64
    ensures 1 < r < 324
  {
    if i < 32 then if i < 16 then Primes0(i) else Primes1(i - 16)
    else if i < 48 then Primes2(i - 32)
    else Primes3(i - 48)
  }

  function Primes0(i: nat): (r: nat)
    requires i < 16
    ensures 1 < r < 324
  {
    match i
    case 0 => 2 case 1 => 3 case 2 => 5 case 3 => 7 case 4 => 11 case 5 => 13 case 6 => 17 case 7 => 19
    case 8 => 23 case 9 => 29 case 10 => 31 case 11 => 37 case 12 => 41 case 13 => 43 case 14 => 47 case _ => 53
  }

  function Primes1(i: nat): (r: nat)
    requires i < 16
    ensures 1 < r < 324
  {
    match i
    case 0 => 59 case 1 => 61 case 2 => 67 case 3 => 71 case 4 => 73 case 5 => 79 case 6 => 83 case 7 => 89
    case 8 => 97 case 9 => 101 case 10 => 103 case 11 => 107 case 12 => 109 case 13 => 113 case 14 => 127 case _ => 131
  }

  function Primes2(i: nat): (r: nat)
    requires i < 16
    ensures 1 < r < 324
  {
    match i
    case 0 => 137 case 1 => 139 case 2 => 149 case 3 => 151 case 4 => 157 case 5 => 163 case 6 => 167 case 7 => 173
    case 8 => 179 case 9 => 181 case 10 => 191 case 11 => 193 case 12 => 197 case 13 => 199 case 14 => 211 case _ => 223
  }

  function Primes3(i: nat): (r: nat)
    requires i < 16
    ensures 1 < r < 324
  {
    match i
    case 0 => 227 case 1 => 229 case 2 => 233 case 3 => 239 case 4 => 241 case 5 => 251 case 6 => 257 case 7 => 263
    case 8 => 269 case 9 => 271 case 10 => 277 case 11 => 281 case 12 => 283 case 13 => 293 case 14 => 307 case _ => 311
  }

  predicate Prime(n: nat) { n > 1 && forall d :: 1 < d < n ==> n % d != 0 }

  /** Below 18 squared it is enough to try the divisors up to 17. */
  predicate Sieved(n: nat) { forall d :: 2 <= d <= 17 && d < n ==> n % d != 0 }

  lemma SievedIsPrime(n: nat)
    requires 1 < n < 324 && Sieved(n)
    ensures Prime(n)
  {
    forall d | 1 < d < n ensures n % d != 0 {
      if d > 17 && n % d == 0 {
        Cofactor(n, d);
        assert false;
      }
    }
  }

  /** A large divisor leaves a small one. */
  lemma Cofactor(n: nat, d: nat)
    requires 17 < d < n < 324 && n % d == 0
    ensures 2 <= n / d <= 17 && n % (n / d) == 0
  {
    var e := n / d;
    assert n == e * d;
    if e > 17 { AtLeast(e, d); }
    Exact(e, d);
  }

  lemma AtLeast(e: nat, d: nat)
    requires e >= 18 && d >= 18
    ensures e * d >= 324
  {
    assert e * d == 18 * d + (e - 18) * d;
  }

  lemma Exact(e: nat, d: nat)
    requires e > 0
    ensures (e * d) % e == 0
  {
    var q, r := e * d / e, (e * d) % e;
    assert e * d == e * q + r;
    assert e * (d - q) == r;
    if d > q { AtLeastOnce(e, d - q); }
    if d < q { AtLeastOnce(e, q - d); }
  }

  lemma AtLeastOnce(e: nat, k: nat)
    requires k > 0
    ensures e * k >= e
  {
    assert e * k == e + e * (k - 1);
  }

  lemma Sieve0(i: nat)
    requires 0 <= i < 8
    ensures Sieved(Primes0(i))
  {
  }

  lemma Sieve1(i: nat)
    requires 8 <= i < 16
    ensures Sieved(Primes0(i))
  {
  }

  lemma Sieve2(i: nat)
    requires 0 <= i < 8
    ensures Sieved(Primes1(i))
  {
  }

  lemma Sieve3(i: nat)
    requires 8 <= i < 16
    ensures Sieved(Primes1(i))
  {
  }

  lemma Sieve4(i: nat)
    requires 0 <= i < 8
    ensures Sieved(Primes2(i))
  {
  }

  lemma Sieve5(i: nat)
    requires 8 <= i < 16
    ensures Sieved(Primes2(i))
  {
  }

  lemma Sieve6(i: nat)
    requires 0 <= i < 8
    ensures Sieved(Primes3(i))
  {
  }

  lemma Sieve7(i: nat)
    requires 8 <= i < 16
    ensures Sieved(Primes3(i))
  {
  }

  /** They are primes, in increasing order from 2 on. */
  lemma PrimesInOrder(i: nat)
    requires i < 64
    ensures Prime(PrimeAt(i)) && PrimeAt(0) == 2
    ensures i < 63 ==> PrimeAt(i) < PrimeAt(i + 1)
  {
    hide Sieved, Prime, Primes0, Primes1, Primes2, Primes3;
    if i < 16 {
      if i < 8 { Sieve0(i); } else { Sieve1(i); }
    } else if i < 32 {
      if i < 24 { Sieve2(i - 16); } else { Sieve3(i - 16); }
    } else if i < 48 {
      if i < 40 { Sieve4(i - 32); } else { Sieve5(i - 32); }
    } else {
      if i < 56 { Sieve6(i - 48); } else { Sieve7(i - 48); }
    }
    SievedIsPrime(PrimeAt(i));
    TwoFirst();
    if i < 63 { Increasing(i); }
  }

  /** None is left out: a number between two of them has a small divisor. */
  lemma NoPrimeBetween(i: nat, n: nat)
    requires i < 63 && PrimeAt(i) < n < PrimeAt(i + 1)
    ensures !Prime(n)
  {
    hide Prime, PrimeAt;
    Between(i, n);
    HasDivisor(n);
  }

  /** So they are the first 64 primes: every prime up to the last of them is one of them. */
  lemma {:induction false} NoneIsMissing(p: nat, from: nat) returns (i: nat)
    requires Prime(p) && from < 64 && PrimeAt(from) <= p <= PrimeAt(63)
    ensures i < 64 && PrimeAt(i) == p
    decreases 64 - from
  {
    hide Prime, PrimeAt;
    if p == PrimeAt(from) {
      i := from;
    } else if p < PrimeAt(from + 1) {
      NoPrimeBetween(from, p);
      assert false;
    } else {
      i := NoneIsMissing(p, from + 1);
    }
  }

  /** A prime up to 17 divides it. */
  predicate Divided(n: nat) {
    n > 3 && (n % 2 == 0 || n % 3 == 0 || n % 5 == 0 || n % 7 == 0 || n % 11 == 0 || n % 13 == 0 || n % 17 == 0) && n !in {5, 7, 11, 13, 17}
  }

  lemma HasDivisor(n: nat)
    requires Divided(n)
    ensures !Prime(n)
  {
    var d := if n % 2 == 0 then 2 else if n % 3 == 0 then 3 else if n % 5 == 0 then 5 else if n % 7 == 0 then 7
             else if n % 11 == 0 then 11 else if n % 13 == 0 then 13 else 17;
    assert 1 < d < n && n % d == 0;
  }

  lemma Between(i: nat, n: nat)
    requires i < 63 && PrimeAt(i) < n < PrimeAt(i + 1)
    ensures Divided(n)
  {
    hide Divided;
    if i < 16 {
      if i < 8 { Between0(i, n); } else { Between1(i, n); }
    } else if i < 32 {
      if i < 24 { Between2(i, n); } else { Between3(i, n); }
    } else if i < 48 {
      if i < 40 { Between4(i, n); } else { Between5(i, n); }
    } else {
      if i < 56 { Between6(i, n); } else { Between7(i, n); }
    }
  }

  lemma Between0(i: nat, n: nat)
    requires 0 <= i < 8 && PrimeAt(i) < n < PrimeAt(i + 1)
    ensures Divided(n)
  {
    hide Divided;
    assert n in {4, 6, 8, 9, 10, 12, 14, 15, 16, 18, 20, 21, 22};
    Divided0(n);
  }

  lemma Divided0(n: nat)
    requires n in {4, 6, 8, 9, 10, 12, 14, 15, 16, 18, 20, 21, 22}
    ensures Divided(n)
  {
  }

  lemma Between1(i: nat, n: nat)
    requires 8 <= i < 16 && PrimeAt(i) < n < PrimeAt(i + 1)
    ensures Divided(n)
  {
    hide Divided;
    assert n in {24, 25, 26, 27, 28, 30, 32, 33, 34, 35, 36, 38, 39, 40, 42, 44, 45, 46, 48, 49, 50, 51, 52, 54, 55, 56, 57, 58};
    Divided1(n);
  }

  lemma Divided1(n: nat)
    requires n in {24, 25, 26, 27, 28, 30, 32, 33, 34, 35, 36, 38, 39, 40, 42, 44, 45, 46, 48, 49, 50, 51, 52, 54, 55, 56, 57, 58}
    ensures Divided(n)
  {
  }

  lemma Between2(i: nat, n: nat)
    requires 16 <= i < 24 && PrimeAt(i) < n < PrimeAt(i + 1)
    ensures Divided(n)
  {
    hide Divided;
    assert n in {60, 62, 63, 64, 65, 66, 68, 69, 70, 72, 74, 75, 76, 77, 78, 80, 81, 82, 84, 85, 86, 87, 88, 90, 91, 92, 93, 94,
                95, 96};
    Divided2(n);
  }

  lemma Divided2(n: nat)
    requires n in {60, 62, 63, 64, 65, 66, 68, 69, 70, 72, 74, 75, 76, 77, 78, 80, 81, 82, 84, 85, 86, 87, 88, 90, 91, 92, 93, 94,
                95, 96}
    ensures Divided(n)
  {
  }

  lemma Between3(i: nat, n: nat)
    requires 24 <= i < 32 && PrimeAt(i) < n < PrimeAt(i + 1)
    ensures Divided(n)
  {
    hide Divided;
    assert n in {98, 99, 100, 102, 104, 105, 106, 108, 110, 111, 112, 114, 115, 116, 117, 118, 119, 120, 121, 122, 123, 124, 125,
                126, 128, 129, 130, 132, 133, 134, 135, 136};
    Divided3(n);
  }

  lemma Divided3(n: nat)
    requires n in {98, 99, 100, 102, 104, 105, 106, 108, 110, 111, 112, 114, 115, 116, 117, 118, 119, 120, 121, 122, 123, 124, 125,
                126, 128, 129, 130, 132, 133, 134, 135, 136}
    ensures Divided(n)
  {
  }

  lemma Between4(i: nat, n: nat)
    requires 32 <= i < 40 && PrimeAt(i) < n < PrimeAt(i + 1)
    ensures Divided(n)
  {
    hide Divided;
    assert n in {138, 140, 141, 142, 143, 144, 145, 146, 147, 148, 150, 152, 153, 154, 155, 156, 158, 159, 160, 161, 162, 164,
                165, 166, 168, 169, 170, 171, 172, 174, 175, 176, 177, 178};
    Divided4(n);
  }

  lemma Divided4(n: nat)
    requires n in {138, 140, 141, 142, 143, 144, 145, 146, 147, 148, 150, 152, 153, 154, 155, 156, 158, 159, 160, 161, 162, 164,
                165, 166, 168, 169, 170, 171, 172, 174, 175, 176, 177, 178}
    ensures Divided(n)
  {
  }

  lemma Between5(i: nat, n: nat)
    requires 40 <= i < 48 && PrimeAt(i) < n < PrimeAt(i + 1)
    ensures Divided(n)
  {
    hide Divided;
    assert n in {180, 182, 183, 184, 185, 186, 187, 188, 189, 190, 192, 194, 195, 196, 198, 200, 201, 202, 203, 204, 205, 206,
                207, 208, 209, 210, 212, 213, 214, 215, 216, 217, 218, 219, 220, 221, 222, 224, 225, 226};
    Divided5(n);
  }

  lemma Divided5(n: nat)
    requires n in {180, 182, 183, 184, 185, 186, 187, 188, 189, 190, 192, 194, 195, 196, 198, 200, 201, 202, 203, 204, 205, 206,
                207, 208, 209, 210, 212, 213, 214, 215, 216, 217, 218, 219, 220, 221, 222, 224, 225, 226}
    ensures Divided(n)
  {
  }

  lemma Between6(i: nat, n: nat)
    requires 48 <= i < 56 && PrimeAt(i) < n < PrimeAt(i + 1)
    ensures Divided(n)
  {
    hide Divided;
    assert n in {228, 230, 231, 232, 234, 235, 236, 237, 238, 240, 242, 243, 244, 245, 246, 247, 248, 249, 250, 252, 253, 254,
                255, 256, 258, 259, 260, 261, 262, 264, 265, 266, 267, 268};
    Divided6(n);
  }

  lemma Divided6(n: nat)
    requires n in {228, 230, 231, 232, 234, 235, 236, 237, 238, 240, 242, 243, 244, 245, 246, 247, 248, 249, 250, 252, 253, 254,
                255, 256, 258, 259, 260, 261, 262, 264, 265, 266, 267, 268}
    ensures Divided(n)
  {
  }

  lemma Between7(i: nat, n: nat)
    requires 56 <= i < 63 && PrimeAt(i) < n < PrimeAt(i + 1)
    ensures Divided(n)
  {
    hide Divided;
    assert n in {270, 272, 273, 274, 275, 276, 278, 279, 280, 282, 284, 285, 286, 287, 288, 289, 290, 291, 292, 294, 295, 296,
                297, 298, 299, 300, 301, 302, 303, 304, 305, 306, 308, 309, 310};
    Divided7(n);
  }

  lemma Divided7(n: nat)
    requires n in {270, 272, 273, 274, 275, 276, 278, 279, 280, 282, 284, 285, 286, 287, 288, 289, 290, 291, 292, 294, 295, 296,
                297, 298, 299, 300, 301, 302, 303, 304, 305, 306, 308, 309, 310}
    ensures Divided(n)
  {
  }

  lemma Increasing(i: nat)
    requires i < 63
    ensures PrimeAt(i) < PrimeAt(i + 1)
  {
    if i < 16 {} else if i < 32 {} else if i < 48 {} else {}
  }

  lemma TwoFirst()
    ensures PrimeAt(0) == 2
  {
  }

  /** The integer part of a cube root. */
  function CubeRoot(p: nat): (r: nat)
    requires 1 <= p < 343
    ensures r * r * r <= p < (r + 1) * (r + 1) * (r + 1)
  {
    if p < 8 then 1 else if p < 27 then 2 else if p < 64 then 3 else if p < 125 then 4 else if p < 216 then 5 else 6
  }

  function SquareRoot(p: nat): (r: nat)
    requires 1 <= p < 25
    ensures r * r <= p < (r + 1) * (r + 1)
  {
    if p < 4 then 1 else if p < 9 then 2 else if p < 16 then 3 else 4
  }

  /** The word is the first 32 bits of the fractional part of the cube root. */
  predicate CubeFraction(k: bv32, p: nat) {
    1 <= p < 343 &&
    var c := CubeRoot(p) * 0x1_0000_0000 + k as nat;
    c * c * c <= p * 0x1_0000_0000_0000_0000_0000_0000 < (c + 1) * (c + 1) * (c + 1)
  }

  /** The word is the first 32 bits of the fractional part of the square root. */
  predicate SquareFraction(k: bv32, p: nat) {
    1 <= p < 25 &&
    var c := SquareRoot(p) * 0x1_0000_0000 + k as nat;
    c * c <= p * 0x1_0000_0000_0000_0000 < (c + 1) * (c + 1)
  }

  lemma CubeFractions0()
    ensures CubeFraction(0x428a2f98, 2) && CubeFraction(0x71374491, 3)
    ensures CubeFraction(0xb5c0fbcf, 5) && CubeFraction(0xe9b5dba5, 7)
    ensures CubeFraction(0x3956c25b, 11) && CubeFraction(0x59f111f1, 13)
    ensures CubeFraction(0x923f82a4, 17) && CubeFraction(0xab1c5ed5, 19)
  {
  }

  lemma CubeFractions1()
    ensures CubeFraction(0xd807aa98, 23) && CubeFraction(0x12835b01, 29)
    ensures CubeFraction(0x243185be, 31) && CubeFraction(0x550c7dc3, 37)
    ensures CubeFraction(0x72be5d74, 41) && CubeFraction(0x80deb1fe, 43)
    ensures CubeFraction(0x9bdc06a7, 47) && CubeFraction(0xc19bf174, 53)
  {
  }

  lemma CubeFractions2()
    ensures CubeFraction(0xe49b69c1, 59) && CubeFraction(0xefbe4786, 61)
    ensures CubeFraction(0x0fc19dc6, 67) && CubeFraction(0x240ca1cc, 71)
    ensures CubeFraction(0x2de92c6f, 73) && CubeFraction(0x4a7484aa, 79)
    ensures CubeFraction(0x5cb0a9dc, 83) && CubeFraction(0x76f988da, 89)
  {
  }

  lemma CubeFractions3()
    ensures CubeFraction(0x983e5152, 97) && CubeFraction(0xa831c66d, 101)
    ensures CubeFraction(0xb00327c8, 103) && CubeFraction(0xbf597fc7, 107)
    ensures CubeFraction(0xc6e00bf3, 109) && CubeFraction(0xd5a79147, 113)
    ensures CubeFraction(0x06ca6351, 127) && CubeFraction(0x14292967, 131)
  {
  }

  lemma CubeFractions4()
    ensures CubeFraction(0x27b70a85, 137) && CubeFraction(0x2e1b2138, 139)
    ensures CubeFraction(0x4d2c6dfc, 149) && CubeFraction(0x53380d13, 151)
    ensures CubeFraction(0x650a7354, 157) && CubeFraction(0x766a0abb, 163)
    ensures CubeFraction(0x81c2c92e, 167) && CubeFraction(0x92722c85, 173)
  {
  }

  lemma CubeFractions5()
    ensures CubeFraction(0xa2bfe8a1, 179) && CubeFraction(0xa81a664b, 181)
    ensures CubeFraction(0xc24b8b70, 191) && CubeFraction(0xc76c51a3, 193)
    ensures CubeFraction(0xd192e819, 197) && CubeFraction(0xd6990624, 199)
    ensures CubeFraction(0xf40e3585, 211) && CubeFraction(0x106aa070, 223)
  {
  }

  lemma CubeFractions6()
    ensures CubeFraction(0x19a4c116, 227) && CubeFraction(0x1e376c08, 229)
    ensures CubeFraction(0x2748774c, 233) && CubeFraction(0x34b0bcb5, 239)
    ensures CubeFraction(0x391c0cb3, 241) && CubeFraction(0x4ed8aa4a, 251)
    ensures CubeFraction(0x5b9cca4f, 257) && CubeFraction(0x682e6ff3, 263)
  {
  }

  lemma CubeFractions7()
    ensures CubeFraction(0x748f82ee, 269) && CubeFraction(0x78a5636f, 271)
    ensures CubeFraction(0x84c87814, 277) && CubeFraction(0x8cc70208, 281)
    ensures CubeFraction(0x90befffa, 283) && CubeFraction(0xa4506ceb, 293)
    ensures CubeFraction(0xbef9a3f7, 307) && CubeFraction(0xc67178f2, 311)
  {
  }

  lemma ConstantsQuarter0(i: nat)
    requires i < 16
    ensures CubeFraction(Constants0(i), Primes0(i))
  {
    hide CubeFraction;
    CubeFractions0();
    CubeFractions1();
  }

  lemma ConstantsQuarter1(i: nat)
    requires i < 16
    ensures CubeFraction(Constants1(i), Primes1(i))
  {
    hide CubeFraction;
    CubeFractions2();
    CubeFractions3();
  }

  lemma ConstantsQuarter2(i: nat)
    requires i < 16
    ensures CubeFraction(Constants2(i), Primes2(i))
  {
    hide CubeFraction;
    CubeFractions4();
    CubeFractions5();
  }

  lemma ConstantsQuarter3(i: nat)
    requires i < 16
    ensures CubeFraction(Constants3(i), Primes3(i))
  {
    hide CubeFraction;
    CubeFractions6();
    CubeFractions7();
  }

  /** The round constants come from the cube roots of the first 64 primes. */
  lemma RoundConstantsAreRoots(i: nat)
    requires i < 64
    ensures CubeFraction(RoundConstant(i), PrimeAt(i))
  {
    hide CubeFraction, Constants0, Constants1, Constants2, Constants3, Primes0, Primes1, Primes2, Primes3;
    if i < 16 {
      ConstantsQuarter0(i);
    } else if i < 32 {
      ConstantsQuarter1(i - 16);
    } else if i < 48 {
      ConstantsQuarter2(i - 32);
    } else {
      ConstantsQuarter3(i - 48);
    }
  }

  lemma SquareFractions()
    ensures SquareFraction(0x6a09e667, 2) && SquareFraction(0xbb67ae85, 3)
    ensures SquareFraction(0x3c6ef372, 5) && SquareFraction(0xa54ff53a, 7)
    ensures SquareFraction(0x510e527f, 11) && SquareFraction(0x9b05688c, 13)
    ensures SquareFraction(0x1f83d9ab, 17) && SquareFraction(0x5be0cd19, 19)
  {
  }

  /** The initial words come from the square roots of the first eight. */
  lemma InitialAreRoots()
    ensures var s := Initial();
            SquareFraction(s.a, PrimeAt(0)) && SquareFraction(s.b, PrimeAt(1)) && SquareFraction(s.c, PrimeAt(2)) &&
            SquareFraction(s.d, PrimeAt(3)) && SquareFraction(s.e, PrimeAt(4)) && SquareFraction(s.f, PrimeAt(5)) &&
            SquareFraction(s.g, PrimeAt(6)) && SquareFraction(s.h, PrimeAt(7))
  {
    hide SquareFraction;
    SquareFractions();
  }

  // ---- padding ------------------------------------------------------------------------------------------------

  /** The message, a one bit, as few zeros as leave the last eight bytes for the length, and the length. */
  lemma PadStands(m: seq<byte>)
    ensures var p, z := Pad(m), |Pad(m)| - |m| - 9;
            |p| % 64 == 0 && 0 <= z < 64 && m <= p && p[|m|] == 0x80 && (forall i :: |m| < i < |p| - 8 ==> p[i] == 0) &&
            p[|p| - 8..] == BigEndian64(8 * |m|)
  {
    hide BigEndian64;
    var z := ZeroCount(|m|);
    var head := m + [0x80];
    assert Pad(m) == head + Zeros(z) + BigEndian64(8 * |m|);
    assert forall i :: |m| < i < |Pad(m)| - 8 ==> Pad(m)[i] == Zeros(z)[i - |m| - 1];
  }
}
