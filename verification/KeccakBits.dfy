// The step mappings of keccak.c bit by bit, as sections 3.2.1 to 3.2.5 of FIPS 202 have them: bit z of
// lane (x, y) of the result from bits of the argument.
module KeccakBits {
  import opened Keccak

  // ---------------------------------------------------------------- the bits of a lane

  predicate Odd(a: Lane) { a & 1 != 0 }

  // A lane turned by one place down.
  function Back(a: Lane): Lane { (a >> 1) | (a << 63) }

  // Bit z, counted round.
  predicate LaneBit(a: Lane, z: nat)
    decreases z
  {
    if z == 0 then Odd(a) else LaneBit(Back(a), z - 1)
  }

  lemma XorBack(a: Lane, b: Lane)
    ensures Back(Xor(a, b)) == Xor(Back(a), Back(b))
  {
  }

  lemma XorOdd(a: Lane, b: Lane)
    ensures Odd(Xor(a, b)) <==> Odd(a) != Odd(b)
  {
  }

  lemma {:induction false} XorBit(a: Lane, b: Lane, z: nat)
    ensures LaneBit(Xor(a, b), z) <==> LaneBit(a, z) != LaneBit(b, z)
    decreases z
  {
    hide Odd, Back, Xor;
    if z == 0 {
      XorOdd(a, b);
    } else {
      XorBack(a, b);
      XorBit(Back(a), Back(b), z - 1);
    }
  }

  lemma NotAndBack(b: Lane, c: Lane)
    ensures Back(NotAnd(b, c)) == NotAnd(Back(b), Back(c))
  {
  }

  lemma NotAndOdd(b: Lane, c: Lane)
    ensures Odd(NotAnd(b, c)) <==> !Odd(b) && Odd(c)
  {
  }

  lemma {:induction false} NotAndBit(b: Lane, c: Lane, z: nat)
    ensures LaneBit(NotAnd(b, c), z) <==> !LaneBit(b, z) && LaneBit(c, z)
    decreases z
  {
    hide Odd, Back, NotAnd;
    if z == 0 {
      NotAndOdd(b, c);
    } else {
      NotAndBack(b, c);
      NotAndBit(Back(b), Back(c), z - 1);
    }
  }

  // ---------------------------------------------------------------- rotations

  predicate StepsDown(x: Lane, n: nat)
    requires 0 < n < 64
  {
    Back(Rotl(x, n)) == Rotl(x, n - 1)
  }

  lemma Turned1(x: Lane)
    ensures Back((x << 1) | (x >> 63)) == ((x << 0) | (x >> 64))
    ensures Back((x << 2) | (x >> 62)) == ((x << 1) | (x >> 63))
    ensures Back((x << 3) | (x >> 61)) == ((x << 2) | (x >> 62))
    ensures Back((x << 4) | (x >> 60)) == ((x << 3) | (x >> 61))
    ensures Back((x << 5) | (x >> 59)) == ((x << 4) | (x >> 60))
    ensures Back((x << 6) | (x >> 58)) == ((x << 5) | (x >> 59))
    ensures Back((x << 7) | (x >> 57)) == ((x << 6) | (x >> 58))
    ensures Back((x << 8) | (x >> 56)) == ((x << 7) | (x >> 57))
    ensures Back((x << 9) | (x >> 55)) == ((x << 8) | (x >> 56))
    ensures Back((x << 10) | (x >> 54)) == ((x << 9) | (x >> 55))
    ensures Back((x << 11) | (x >> 53)) == ((x << 10) | (x >> 54))
    ensures Back((x << 12) | (x >> 52)) == ((x << 11) | (x >> 53))
    ensures Back((x << 13) | (x >> 51)) == ((x << 12) | (x >> 52))
    ensures Back((x << 14) | (x >> 50)) == ((x << 13) | (x >> 51))
    ensures Back((x << 15) | (x >> 49)) == ((x << 14) | (x >> 50))
    ensures Back((x << 16) | (x >> 48)) == ((x << 15) | (x >> 49))
  {
  }

  lemma Rotl1(x: Lane)
    ensures Rotl(x, 0) == ((x << 0) | (x >> 64)) && Rotl(x, 1) == ((x << 1) | (x >> 63))
    ensures Rotl(x, 2) == ((x << 2) | (x >> 62)) && Rotl(x, 3) == ((x << 3) | (x >> 61))
    ensures Rotl(x, 4) == ((x << 4) | (x >> 60)) && Rotl(x, 5) == ((x << 5) | (x >> 59))
    ensures Rotl(x, 6) == ((x << 6) | (x >> 58)) && Rotl(x, 7) == ((x << 7) | (x >> 57))
    ensures Rotl(x, 8) == ((x << 8) | (x >> 56)) && Rotl(x, 9) == ((x << 9) | (x >> 55))
    ensures Rotl(x, 10) == ((x << 10) | (x >> 54)) && Rotl(x, 11) == ((x << 11) | (x >> 53))
    ensures Rotl(x, 12) == ((x << 12) | (x >> 52)) && Rotl(x, 13) == ((x << 13) | (x >> 51))
    ensures Rotl(x, 14) == ((x << 14) | (x >> 50)) && Rotl(x, 15) == ((x << 15) | (x >> 49))
    ensures Rotl(x, 16) == ((x << 16) | (x >> 48))
  {
  }

  lemma Less1(x: Lane)
    ensures StepsDown(x, 1) && StepsDown(x, 2) && StepsDown(x, 3) && StepsDown(x, 4)
    ensures StepsDown(x, 5) && StepsDown(x, 6) && StepsDown(x, 7) && StepsDown(x, 8)
    ensures StepsDown(x, 9) && StepsDown(x, 10) && StepsDown(x, 11) && StepsDown(x, 12)
    ensures StepsDown(x, 13) && StepsDown(x, 14) && StepsDown(x, 15) && StepsDown(x, 16)
  {
    hide Back, Rotl;
    Turned1(x);
    Rotl1(x);
  }

  lemma Turned17(x: Lane)
    ensures Back((x << 17) | (x >> 47)) == ((x << 16) | (x >> 48))
    ensures Back((x << 18) | (x >> 46)) == ((x << 17) | (x >> 47))
    ensures Back((x << 19) | (x >> 45)) == ((x << 18) | (x >> 46))
    ensures Back((x << 20) | (x >> 44)) == ((x << 19) | (x >> 45))
    ensures Back((x << 21) | (x >> 43)) == ((x << 20) | (x >> 44))
    ensures Back((x << 22) | (x >> 42)) == ((x << 21) | (x >> 43))
    ensures Back((x << 23) | (x >> 41)) == ((x << 22) | (x >> 42))
    ensures Back((x << 24) | (x >> 40)) == ((x << 23) | (x >> 41))
    ensures Back((x << 25) | (x >> 39)) == ((x << 24) | (x >> 40))
    ensures Back((x << 26) | (x >> 38)) == ((x << 25) | (x >> 39))
    ensures Back((x << 27) | (x >> 37)) == ((x << 26) | (x >> 38))
    ensures Back((x << 28) | (x >> 36)) == ((x << 27) | (x >> 37))
    ensures Back((x << 29) | (x >> 35)) == ((x << 28) | (x >> 36))
    ensures Back((x << 30) | (x >> 34)) == ((x << 29) | (x >> 35))
    ensures Back((x << 31) | (x >> 33)) == ((x << 30) | (x >> 34))
    ensures Back((x << 32) | (x >> 32)) == ((x << 31) | (x >> 33))
  {
  }

  lemma Rotl17(x: Lane)
    ensures Rotl(x, 16) == ((x << 16) | (x >> 48)) && Rotl(x, 17) == ((x << 17) | (x >> 47))
    ensures Rotl(x, 18) == ((x << 18) | (x >> 46)) && Rotl(x, 19) == ((x << 19) | (x >> 45))
    ensures Rotl(x, 20) == ((x << 20) | (x >> 44)) && Rotl(x, 21) == ((x << 21) | (x >> 43))
    ensures Rotl(x, 22) == ((x << 22) | (x >> 42)) && Rotl(x, 23) == ((x << 23) | (x >> 41))
    ensures Rotl(x, 24) == ((x << 24) | (x >> 40)) && Rotl(x, 25) == ((x << 25) | (x >> 39))
    ensures Rotl(x, 26) == ((x << 26) | (x >> 38)) && Rotl(x, 27) == ((x << 27) | (x >> 37))
    ensures Rotl(x, 28) == ((x << 28) | (x >> 36)) && Rotl(x, 29) == ((x << 29) | (x >> 35))
    ensures Rotl(x, 30) == ((x << 30) | (x >> 34)) && Rotl(x, 31) == ((x << 31) | (x >> 33))
    ensures Rotl(x, 32) == ((x << 32) | (x >> 32))
  {
  }

  lemma Less17(x: Lane)
    ensures StepsDown(x, 17) && StepsDown(x, 18) && StepsDown(x, 19) && StepsDown(x, 20)
    ensures StepsDown(x, 21) && StepsDown(x, 22) && StepsDown(x, 23) && StepsDown(x, 24)
    ensures StepsDown(x, 25) && StepsDown(x, 26) && StepsDown(x, 27) && StepsDown(x, 28)
    ensures StepsDown(x, 29) && StepsDown(x, 30) && StepsDown(x, 31) && StepsDown(x, 32)
  {
    hide Back, Rotl;
    Turned17(x);
    Rotl17(x);
  }

  lemma Turned33(x: Lane)
    ensures Back((x << 33) | (x >> 31)) == ((x << 32) | (x >> 32))
    ensures Back((x << 34) | (x >> 30)) == ((x << 33) | (x >> 31))
    ensures Back((x << 35) | (x >> 29)) == ((x << 34) | (x >> 30))
    ensures Back((x << 36) | (x >> 28)) == ((x << 35) | (x >> 29))
    ensures Back((x << 37) | (x >> 27)) == ((x << 36) | (x >> 28))
    ensures Back((x << 38) | (x >> 26)) == ((x << 37) | (x >> 27))
    ensures Back((x << 39) | (x >> 25)) == ((x << 38) | (x >> 26))
    ensures Back((x << 40) | (x >> 24)) == ((x << 39) | (x >> 25))
    ensures Back((x << 41) | (x >> 23)) == ((x << 40) | (x >> 24))
    ensures Back((x << 42) | (x >> 22)) == ((x << 41) | (x >> 23))
    ensures Back((x << 43) | (x >> 21)) == ((x << 42) | (x >> 22))
    ensures Back((x << 44) | (x >> 20)) == ((x << 43) | (x >> 21))
    ensures Back((x << 45) | (x >> 19)) == ((x << 44) | (x >> 20))
    ensures Back((x << 46) | (x >> 18)) == ((x << 45) | (x >> 19))
    ensures Back((x << 47) | (x >> 17)) == ((x << 46) | (x >> 18))
    ensures Back((x << 48) | (x >> 16)) == ((x << 47) | (x >> 17))
  {
  }

  lemma Rotl33(x: Lane)
    ensures Rotl(x, 32) == ((x << 32) | (x >> 32)) && Rotl(x, 33) == ((x << 33) | (x >> 31))
    ensures Rotl(x, 34) == ((x << 34) | (x >> 30)) && Rotl(x, 35) == ((x << 35) | (x >> 29))
    ensures Rotl(x, 36) == ((x << 36) | (x >> 28)) && Rotl(x, 37) == ((x << 37) | (x >> 27))
    ensures Rotl(x, 38) == ((x << 38) | (x >> 26)) && Rotl(x, 39) == ((x << 39) | (x >> 25))
    ensures Rotl(x, 40) == ((x << 40) | (x >> 24)) && Rotl(x, 41) == ((x << 41) | (x >> 23))
    ensures Rotl(x, 42) == ((x << 42) | (x >> 22)) && Rotl(x, 43) == ((x << 43) | (x >> 21))
    ensures Rotl(x, 44) == ((x << 44) | (x >> 20)) && Rotl(x, 45) == ((x << 45) | (x >> 19))
    ensures Rotl(x, 46) == ((x << 46) | (x >> 18)) && Rotl(x, 47) == ((x << 47) | (x >> 17))
    ensures Rotl(x, 48) == ((x << 48) | (x >> 16))
  {
  }

  lemma Less33(x: Lane)
    ensures StepsDown(x, 33) && StepsDown(x, 34) && StepsDown(x, 35) && StepsDown(x, 36)
    ensures StepsDown(x, 37) && StepsDown(x, 38) && StepsDown(x, 39) && StepsDown(x, 40)
    ensures StepsDown(x, 41) && StepsDown(x, 42) && StepsDown(x, 43) && StepsDown(x, 44)
    ensures StepsDown(x, 45) && StepsDown(x, 46) && StepsDown(x, 47) && StepsDown(x, 48)
  {
    hide Back, Rotl;
    Turned33(x);
    Rotl33(x);
  }

  lemma Turned49(x: Lane)
    ensures Back((x << 49) | (x >> 15)) == ((x << 48) | (x >> 16))
    ensures Back((x << 50) | (x >> 14)) == ((x << 49) | (x >> 15))
    ensures Back((x << 51) | (x >> 13)) == ((x << 50) | (x >> 14))
    ensures Back((x << 52) | (x >> 12)) == ((x << 51) | (x >> 13))
    ensures Back((x << 53) | (x >> 11)) == ((x << 52) | (x >> 12))
    ensures Back((x << 54) | (x >> 10)) == ((x << 53) | (x >> 11))
    ensures Back((x << 55) | (x >> 9)) == ((x << 54) | (x >> 10))
    ensures Back((x << 56) | (x >> 8)) == ((x << 55) | (x >> 9))
    ensures Back((x << 57) | (x >> 7)) == ((x << 56) | (x >> 8))
    ensures Back((x << 58) | (x >> 6)) == ((x << 57) | (x >> 7))
    ensures Back((x << 59) | (x >> 5)) == ((x << 58) | (x >> 6))
    ensures Back((x << 60) | (x >> 4)) == ((x << 59) | (x >> 5))
    ensures Back((x << 61) | (x >> 3)) == ((x << 60) | (x >> 4))
    ensures Back((x << 62) | (x >> 2)) == ((x << 61) | (x >> 3))
    ensures Back((x << 63) | (x >> 1)) == ((x << 62) | (x >> 2))
  {
  }

  lemma Rotl49(x: Lane)
    ensures Rotl(x, 48) == ((x << 48) | (x >> 16)) && Rotl(x, 49) == ((x << 49) | (x >> 15))
    ensures Rotl(x, 50) == ((x << 50) | (x >> 14)) && Rotl(x, 51) == ((x << 51) | (x >> 13))
    ensures Rotl(x, 52) == ((x << 52) | (x >> 12)) && Rotl(x, 53) == ((x << 53) | (x >> 11))
    ensures Rotl(x, 54) == ((x << 54) | (x >> 10)) && Rotl(x, 55) == ((x << 55) | (x >> 9))
    ensures Rotl(x, 56) == ((x << 56) | (x >> 8)) && Rotl(x, 57) == ((x << 57) | (x >> 7))
    ensures Rotl(x, 58) == ((x << 58) | (x >> 6)) && Rotl(x, 59) == ((x << 59) | (x >> 5))
    ensures Rotl(x, 60) == ((x << 60) | (x >> 4)) && Rotl(x, 61) == ((x << 61) | (x >> 3))
    ensures Rotl(x, 62) == ((x << 62) | (x >> 2)) && Rotl(x, 63) == ((x << 63) | (x >> 1))
  {
  }

  lemma Less49(x: Lane)
    ensures StepsDown(x, 49) && StepsDown(x, 50) && StepsDown(x, 51) && StepsDown(x, 52)
    ensures StepsDown(x, 53) && StepsDown(x, 54) && StepsDown(x, 55) && StepsDown(x, 56)
    ensures StepsDown(x, 57) && StepsDown(x, 58) && StepsDown(x, 59) && StepsDown(x, 60)
    ensures StepsDown(x, 61) && StepsDown(x, 62) && StepsDown(x, 63)
  {
    hide Back, Rotl;
    Turned49(x);
    Rotl49(x);
  }

  lemma Less(x: Lane, n: nat)
    requires 0 < n < 64
    ensures StepsDown(x, n)
  {
    hide StepsDown;
    if n < 17 { Less1(x); }
    else if n < 33 { Less17(x); }
    else if n < 49 { Less33(x); }
    else { Less49(x); }
  }

  lemma NoneAndAll(x: Lane)
    ensures ((x << 0) | (x >> 64)) == x && ((x << 63) | (x >> 1)) == Back(x)
  {
  }

  lemma RotlNone(x: Lane)
    ensures Rotl(x, 0) == x
  {
    hide Rotl, Back;
    NoneAndAll(x);
    Rotl1(x);
  }

  // Rotating by n moves bit z to bit z + n, counted round.
  lemma {:induction false} RotlBit(x: Lane, n: nat, z: nat)
    requires n < 64
    ensures LaneBit(Rotl(x, n), z + n) <==> LaneBit(x, z)
  {
    hide Rotl, Back, Odd;
    if n == 0 {
      RotlNone(x);
    } else {
      Less(x, n);
      RotlBit(x, n - 1, z);
    }
  }

  lemma Whole(x: Lane)
    ensures Back(x) == Rotl(x, 63)
  {
    hide Rotl, Back;
    NoneAndAll(x);
    Rotl49(x);
  }

  // Bit 64 is bit 0 again.
  lemma BitComesRound(x: Lane, z: nat)
    ensures LaneBit(x, z + 64) <==> LaneBit(x, z)
  {
    hide Rotl, Back, Odd;
    assert LaneBit(x, z + 64) == LaneBit(Back(x), z + 63);
    Whole(x);
    RotlBit(x, 63, z);
  }

  // The bit that a rotation by n brings to place z.
  lemma RotatedBit(x: Lane, n: nat, z: nat)
    requires n < 64 && z < 64
    ensures LaneBit(Rotl(x, n), z) <==> LaneBit(x, (z + 64 - n) % 64)
  {
    hide Rotl, LaneBit;
    if z >= n {
      RotlBit(x, n, z - n);
    } else {
      RotlBit(x, n, z + 64 - n);
      BitComesRound(Rotl(x, n), z);
    }
  }

  // ---------------------------------------------------------------- the five step mappings

  predicate StateBit(a: State, x: nat, y: nat, z: nat)
    requires x < 5 && y < 5
  {
    LaneBit(a[x + 5 * y], z)
  }

  // The parity of a column of five bits.
  predicate ParityBit(a: State, x: nat, z: nat)
    requires x < 5
  {
    (((StateBit(a, x, 0, z) != StateBit(a, x, 1, z)) != StateBit(a, x, 2, z)) != StateBit(a, x, 3, z))
    != StateBit(a, x, 4, z)
  }

  lemma ColumnParityBit(a: State, x: nat, z: nat)
    requires x < 5
    ensures LaneBit(ColumnParity(a, x), z) <==> ParityBit(a, x, z)
  {
    hide Xor, LaneBit;
    var a0, a1, a2, a3, a4 := a[x], a[x + 5], a[x + 10], a[x + 15], a[x + 20];
    XorBit(a0, a1, z);
    XorBit(Xor(a0, a1), a2, z);
    XorBit(Xor(Xor(a0, a1), a2), a3, z);
    XorBit(Xor(Xor(Xor(a0, a1), a2), a3), a4, z);
  }

  lemma Coordinates(x: nat, y: nat)
    requires x < 5 && y < 5
    ensures X(x + 5 * y) == x && Y(x + 5 * y) == y
  {
  }

  lemma XSmall(i: nat)
    requires i < 25
    ensures X(i) == i % 5
  {
    XIsRemainder(i);
  }

  lemma EffectBit(left: Lane, right: Lane, z: nat)
    requires z < 64
    ensures LaneBit(ThetaEffect(left, right), z) <==> LaneBit(left, z) != LaneBit(right, (z + 63) % 64)
  {
    hide Xor, Rotl, LaneBit;
    XorBit(left, Rotl(right, 1), z);
    RotatedBit(right, 1, z);
  }

  lemma ThetaTermBit(a: State, x: nat, z: nat)
    requires x < 5 && z < 64
    ensures LaneBit(ThetaTerm(a, x), z) <==>
      ParityBit(a, (x + 4) % 5, z) != ParityBit(a, (x + 1) % 5, (z + 63) % 64)
  {
    hide LaneBit, ColumnParity, ThetaEffect, ParityBit, X;
    XSmall(x + 4);
    XSmall(x + 1);
    EffectBit(ColumnParity(a, (x + 4) % 5), ColumnParity(a, (x + 1) % 5), z);
    ColumnParityBit(a, (x + 4) % 5, z);
    ColumnParityBit(a, (x + 1) % 5, (z + 63) % 64);
  }

  // 3.2.1: a bit is added to the parities of the column to its left and of the one to its right a place
  // before.
  lemma ThetaBit(a: State, x: nat, y: nat, z: nat)
    requires x < 5 && y < 5 && z < 64
    ensures StateBit(Theta(a), x, y, z) <==>
      (StateBit(a, x, y, z) != (ParityBit(a, (x + 4) % 5, z) != ParityBit(a, (x + 1) % 5, (z + 63) % 64)))
  {
    hide Xor, LaneBit, ThetaTerm, ParityBit, X, Y;
    Coordinates(x, y);
    XorBit(a[x + 5 * y], ThetaTerm(a, x), z);
    ThetaTermBit(a, x, z);
  }

  // 3.2.2: the t-th lane of the walk from (1, 0) by (x, y) to (y, 2x + 3y) is turned by (t + 1)(t + 2) / 2
  // places; lane (0, 0) is not turned.
  lemma RhoBit(a: State, x: nat, y: nat, z: nat)
    requires x < 5 && y < 5 && z < 64
    ensures StateBit(Rho(a), x, y, z) <==> StateBit(a, x, y, (z + 64 - OffsetFrom(0, x + 5 * y)) % 64)
  {
    hide Rotl, LaneBit, OffsetFrom;
    RotatedBit(a[x + 5 * y], OffsetFrom(0, x + 5 * y), z);
  }

  lemma SourceIs(x: nat, y: nat)
    requires x < 5 && y < 5
    ensures Source(x + 5 * y) == (x + 3 * y) % 5 + 5 * x
  {
    hide X, Y;
    Coordinates(x, y);
    XSmall(x + 3 * y);
  }

  // 3.2.3
  lemma PiBit(a: State, x: nat, y: nat, z: nat)
    requires x < 5 && y < 5
    ensures StateBit(Pi(a), x, y, z) <==> StateBit(a, (x + 3 * y) % 5, x, z)
  {
    hide LaneBit, Source;
    SourceIs(x, y);
  }

  lemma RightOf(x: nat, y: nat, d: nat)
    requires x < 5 && y < 5 && 0 < d < 5
    ensures At(X(X(x + 5 * y) + d), Y(x + 5 * y)) == (x + d) % 5 + 5 * y
  {
    hide X, Y;
    Coordinates(x, y);
    XSmall(x + d);
  }

  lemma ChiTermIs(a: State, x: nat, y: nat)
    requires x < 5 && y < 5
    ensures ChiTerm(a, x + 5 * y) ==
      ChiLane(a[x + 5 * y], a[(x + 1) % 5 + 5 * y], a[(x + 2) % 5 + 5 * y])
  {
    hide ChiLane, X, Y, At;
    RightOf(x, y, 1);
    RightOf(x, y, 2);
  }

  // 3.2.4
  lemma ChiBit(a: State, x: nat, y: nat, z: nat)
    requires x < 5 && y < 5
    ensures StateBit(Chi(a), x, y, z) <==>
      (StateBit(a, x, y, z) != (!StateBit(a, (x + 1) % 5, y, z) && StateBit(a, (x + 2) % 5, y, z)))
  {
    hide Xor, NotAnd, LaneBit, ChiTerm;
    var b, c := a[(x + 1) % 5 + 5 * y], a[(x + 2) % 5 + 5 * y];
    ChiTermIs(a, x, y);
    XorBit(a[x + 5 * y], NotAnd(b, c), z);
    NotAndBit(b, c, z);
  }

  // 3.2.5: the round constant is added to lane (0, 0).
  lemma IotaBit(a: State, round: nat, x: nat, y: nat, z: nat)
    requires round < ROUNDS && x < 5 && y < 5
    ensures StateBit(Iota(a, round), x, y, z) <==>
      (StateBit(a, x, y, z) != (x == 0 && y == 0 && LaneBit(Rndc(round), z)))
  {
    hide Xor, LaneBit, Rndc, RoundConstant;
    RndcIsRoundConstant(round);
    XorBit(a[0], RoundConstant(round), z);
  }
}
