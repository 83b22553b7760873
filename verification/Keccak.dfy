// keccak.c: the Keccak permutation on 25 lanes of 64 bits, in place. The rotations and the moves of
// rho and pi are one walk along a cycle of lanes with a single temporary; indices are reduced by a
// sum of octal digits. Proved is that a call is the composition of the step mappings of sections
// 3.2.1 to 3.2.5 of FIPS 202, which are defined here on coordinates x and y.
module Keccak {
  type Lane = bv64

  // A state; lane (x, y) is at x + 5 * y.
  type State = s: seq<Lane> | |s| == 25 witness seq(25, _ => 0)

  function At(x: nat, y: nat): (i: nat)
    requires x < 5 && y < 5
    ensures i < 25
  {
    x + 5 * y
  }

  // The coordinates of a lane; Y is the quotient by five and X the remainder.
  function Y(i: nat): (y: nat)
    requires i < 25
    ensures y < 5 && 5 * y <= i < 5 * y + 5
  {
    if i < 5 then 0 else if i < 10 then 1 else if i < 15 then 2 else if i < 20 then 3 else 4
  }

  function X(i: nat): (x: nat)
    requires i < 25
    ensures x < 5
  {
    i - 5 * Y(i)
  }

  lemma XIsRemainder(i: nat)
    requires i < 25
    ensures X(i) == i % 5 && Y(i) == i / 5
  {
  }

  function Rotl(x: Lane, n: nat): Lane
    requires n < 64
  {
    (x << n) | (x >> (64 - n))
  }

  // ---------------------------------------------------------------- the step mappings

  function Xor(a: Lane, b: Lane): Lane { a ^ b }

  function Parity(a: Lane, b: Lane, c: Lane, d: Lane, e: Lane): Lane { Xor(Xor(Xor(Xor(a, b), c), d), e) }

  function ColumnParity(a: State, x: nat): Lane
    requires x < 5
  {
    Parity(a[x], a[x + 5], a[x + 10], a[x + 15], a[x + 20])
  }

  function ThetaEffect(left: Lane, right: Lane): Lane { Xor(left, Rotl(right, 1)) }

  // 3.2.1: every bit of a column is changed by the parities of two neighbouring columns.
  function ThetaTerm(a: State, x: nat): Lane
    requires x < 5
  {
    ThetaEffect(ColumnParity(a, X(x + 4)), ColumnParity(a, X(x + 1)))
  }

  function Theta(a: State): State { seq(25, i requires 0 <= i < 25 => Xor(a[i], ThetaTerm(a, X(i)))) }

  // The lanes as rho visits them: from (1, 0), then from (x, y) to (y, 2x + 3y).
  function Next(i: nat): (j: nat)
    requires i < 25
    ensures j < 25
  {
    At(Y(i), X(2 * X(i) + 3 * Y(i)))
  }

  function Visited(t: nat): (i: nat)
    ensures i < 25
  {
    if t == 0 then At(1, 0) else Next(Visited(t - 1))
  }

  // The offset of a lane, by looking for it among the visits from the t-th on; lane (0, 0) is none.
  function OffsetFrom(t: nat, i: nat): (n: nat)
    ensures n < 64
    decreases 24 - t
  {
    if t >= 24 then 0 else if Visited(t) == i then (t + 1) * (t + 2) / 2 % 64 else OffsetFrom(t + 1, i)
  }

  // 3.2.2
  function Rho(a: State): State { seq(25, i requires 0 <= i < 25 => Rotl(a[i], OffsetFrom(0, i))) }

  // 3.2.3: lane (x, y) comes from (x + 3y, x).
  function Source(i: nat): (j: nat)
    requires i < 25
    ensures j < 25
  {
    At(X(X(i) + 3 * Y(i)), X(i))
  }

  function Pi(a: State): State { seq(25, i requires 0 <= i < 25 => a[Source(i)]) }

  // 3.2.4
  function NotAnd(b: Lane, c: Lane): Lane { !b & c }

  function ChiLane(a: Lane, b: Lane, c: Lane): Lane { Xor(a, NotAnd(b, c)) }

  function ChiTerm(a: State, i: nat): Lane
    requires i < 25
  {
    ChiLane(a[i], a[At(X(X(i) + 1), Y(i))], a[At(X(X(i) + 2), Y(i))])
  }

  function Chi(a: State): State { seq(25, i requires 0 <= i < 25 => ChiTerm(a, i)) }

  const ROUNDS: nat := 24

  // keccakf_rndc
  function Rndc(round: nat): Lane
    requires round < ROUNDS
  {
    match round
    case 0 => 0x0000000000000001 case 1 => 0x0000000000008082 case 2 => 0x800000000000808A
    case 3 => 0x8000000080008000 case 4 => 0x000000000000808B case 5 => 0x0000000080000001
    case 6 => 0x8000000080008081 case 7 => 0x8000000000008009 case 8 => 0x000000000000008A
    case 9 => 0x0000000000000088 case 10 => 0x0000000080008009 case 11 => 0x000000008000000A
    case 12 => 0x000000008000808B case 13 => 0x800000000000008B case 14 => 0x8000000000008089
    case 15 => 0x8000000000008003 case 16 => 0x8000000000008002 case 17 => 0x8000000000000080
    case 18 => 0x000000000000800A case 19 => 0x800000008000000A case 20 => 0x8000000080008081
    case 21 => 0x8000000000008080 case 22 => 0x0000000080000001 case _ => 0x8000000080008008
  }

  // 3.2.5, with the constants the standard generates
  function Iota(a: State, round: nat): State
    requires round < ROUNDS
  {
    a[0 := Xor(a[0], RoundConstant(round))]
  }

  function Permuted(a: State, rounds: nat): State
    requires rounds <= ROUNDS
  {
    if rounds == 0 then a else Iota(Chi(Pi(Rho(Theta(Permuted(a, rounds - 1))))), rounds - 1)
  }

  // ---------------------------------------------------------------- the round constants

  // The linear feedback shift register of Algorithm 5, its bit R[i] being bit i, after t steps.
  function Shift(r: bv8): bv8 { if r & 0x80 != 0 then (r << 1) ^ 0x71 else r << 1 }

  function Register(t: nat): bv8 { if t == 0 then 1 else Shift(Register(t - 1)) }

  // Bits 0, 1, 3, 7, 15, 31 and 63 of a constant are the outputs of seven successive steps.
  function Spread(r: bv8): Lane {
    var r1 := Shift(r);
    var r2 := Shift(r1);
    var r3 := Shift(r2);
    var r4 := Shift(r3);
    var r5 := Shift(r4);
    var r6 := Shift(r5);
    Bit(r, 0) | Bit(r1, 1) | Bit(r2, 3) | Bit(r3, 7) | Bit(r4, 15) | Bit(r5, 31) | Bit(r6, 63)
  }

  function Bit(r: bv8, n: nat): Lane
    requires n < 64
  {
    ((r & 1) as Lane) << n
  }

  function RoundConstant(round: nat): Lane { Spread(Register(7 * round)) }

  // The register at the start of each round.
  function RegisterAt(round: nat): bv8
    requires round < ROUNDS
  {
    match round
    case 0 => 0x01 case 1 => 0x80 case 2 => 0xD8 case 3 => 0x1A case 4 => 0xDF case 5 => 0x09
    case 6 => 0x35 case 7 => 0x4F case 8 => 0xCA case 9 => 0x70 case 10 => 0x41 case 11 => 0xEC
    case 12 => 0xD5 case 13 => 0xCD case 14 => 0x63 case 15 => 0xAB case 16 => 0xAA case 17 => 0x2A
    case 18 => 0xF2 case 19 => 0xE8 case 20 => 0x37 case 21 => 0x3E case 22 => 0x0B case _ => 0x44
  }

  function Shift7(r: bv8): bv8 { Shift(Shift(Shift(Shift(Shift(Shift(Shift(r))))))) }

  lemma SevenSteps(t: nat)
    ensures Register(t + 7) == Shift7(Register(t))
  {
    hide Shift;
    assert Register(t + 2) == Shift(Shift(Register(t)));
    assert Register(t + 4) == Shift(Shift(Register(t + 2)));
    assert Register(t + 6) == Shift(Shift(Register(t + 4)));
  }

  lemma NextRegister(round: nat)
    requires round + 1 < ROUNDS
    ensures Shift7(RegisterAt(round)) == RegisterAt(round + 1)
  {
  }

  lemma {:induction false} RegisterIsAt(round: nat)
    requires round < ROUNDS
    ensures Register(7 * round) == RegisterAt(round)
  {
    hide Shift7, Register, RegisterAt;
    if round > 0 {
      RegisterIsAt(round - 1);
      SevenSteps(7 * (round - 1));
      NextRegister(round - 1);
    } else {
      FirstRegister();
    }
  }

  lemma FirstRegister()
    ensures Register(0) == RegisterAt(0)
  {
  }

  lemma SpreadFrom0(round: nat)
    requires round < 4
    ensures Spread(RegisterAt(round)) == Rndc(round)
  {
  }

  lemma SpreadFrom4(round: nat)
    requires 4 <= round < 8
    ensures Spread(RegisterAt(round)) == Rndc(round)
  {
  }

  lemma SpreadFrom8(round: nat)
    requires 8 <= round < 12
    ensures Spread(RegisterAt(round)) == Rndc(round)
  {
  }

  lemma SpreadFrom12(round: nat)
    requires 12 <= round < 16
    ensures Spread(RegisterAt(round)) == Rndc(round)
  {
  }

  lemma SpreadFrom16(round: nat)
    requires 16 <= round < 20
    ensures Spread(RegisterAt(round)) == Rndc(round)
  {
  }

  lemma SpreadFrom20(round: nat)
    requires 20 <= round < 24
    ensures Spread(RegisterAt(round)) == Rndc(round)
  {
  }

  // The listed constants are those the standard generates.
  lemma RndcIsRoundConstant(round: nat)
    requires round < ROUNDS
    ensures Rndc(round) == RoundConstant(round)
  {
    hide Spread, RegisterAt, Rndc, Register;
    RegisterIsAt(round);
    if round < 4 { SpreadFrom0(round); }
    else if round < 8 { SpreadFrom4(round); }
    else if round < 12 { SpreadFrom8(round); }
    else if round < 16 { SpreadFrom12(round); }
    else if round < 20 { SpreadFrom16(round); }
    else { SpreadFrom20(round); }
  }

  // ---------------------------------------------------------------- the walk

  // keccakf_rotc
  function Rotc(i: nat): (n: nat)
    requires i < 24
    ensures n < 64
  {
    match i
    case 0 => 1 case 1 => 3 case 2 => 6 case 3 => 10 case 4 => 15 case 5 => 21
    case 6 => 28 case 7 => 36 case 8 => 45 case 9 => 55 case 10 => 2 case 11 => 14
    case 12 => 27 case 13 => 41 case 14 => 56 case 15 => 8 case 16 => 25 case 17 => 43
    case 18 => 62 case 19 => 18 case 20 => 39 case 21 => 61 case 22 => 20 case _ => 44
  }

  // keccakf_piln
  function Piln(i: nat): (n: nat)
    requires i < 24
    ensures n < 25
  {
    match i
    case 0 => 10 case 1 => 7 case 2 => 11 case 3 => 17 case 4 => 18 case 5 => 3
    case 6 => 5 case 7 => 16 case 8 => 8 case 9 => 21 case 10 => 24 case 11 => 4
    case 12 => 15 case 13 => 23 case 14 => 19 case 15 => 13 case 16 => 12 case 17 => 2
    case 18 => 20 case 19 => 14 case 20 => 22 case 21 => 9 case 22 => 6 case _ => 1
  }

  // The step of the walk that writes a lane.
  function When(j: nat): (i: nat)
    requires 0 < j < 25
    ensures i < 24
  {
    match j
    case 1 => 23 case 2 => 17 case 3 => 5 case 4 => 11 case 5 => 6 case 6 => 22
    case 7 => 1 case 8 => 8 case 9 => 21 case 10 => 0 case 11 => 2 case 12 => 16
    case 13 => 15 case 14 => 19 case 15 => 12 case 16 => 7 case 17 => 3 case 18 => 4
    case 19 => 14 case 20 => 18 case 21 => 9 case 22 => 20 case 23 => 13 case _ => 10
  }

  function Before(i: nat): (j: nat)
    requires i < 24
    ensures j < 25
  {
    if i == 0 then 1 else Piln(i - 1)
  }

  lemma Remainder(n: nat, x: nat, fives: int)
    requires n < 25 && x < 5 && n == x + 5 * fives
    ensures X(n) == x && Y(n) == fives
  {
  }

  // The next lane after (x, y) is (y, z), and pi takes lane (x, y) there.
  lemma Moves(x: nat, y: nat, z: nat, fives: nat)
    requires x < 5 && y < 5 && z < 5 && 2 * x + 3 * y == z + 5 * fives
    ensures Next(At(x, y)) == At(y, z) && Source(At(y, z)) == At(x, y)
  {
    hide X, Y;
    Remainder(At(x, y), x, y);
    Remainder(At(y, z), y, z);
    Remainder(2 * x + 3 * y, z, fives);
    Remainder(y + 3 * z, x, x + 2 * y - 3 * fives);
  }

  // Step i of the walk goes from one visited lane to the next, and so against pi.
  lemma StepIsNext(i: nat)
    requires i < 24
    ensures Next(Before(i)) == Piln(i) && Source(Piln(i)) == Before(i)
  {
    hide Next, Source;
    match i
    case 0 => Moves(1, 0, 2, 0); case 1 => Moves(0, 2, 1, 1);
    case 2 => Moves(2, 1, 2, 1); case 3 => Moves(1, 2, 3, 1);
    case 4 => Moves(2, 3, 3, 2); case 5 => Moves(3, 3, 0, 3);
    case 6 => Moves(3, 0, 1, 1); case 7 => Moves(0, 1, 3, 0);
    case 8 => Moves(1, 3, 1, 2); case 9 => Moves(3, 1, 4, 1);
    case 10 => Moves(1, 4, 4, 2); case 11 => Moves(4, 4, 0, 4);
    case 12 => Moves(4, 0, 3, 1); case 13 => Moves(0, 3, 4, 1);
    case 14 => Moves(3, 4, 3, 3); case 15 => Moves(4, 3, 2, 3);
    case 16 => Moves(3, 2, 2, 2); case 17 => Moves(2, 2, 0, 2);
    case 18 => Moves(2, 0, 4, 0); case 19 => Moves(0, 4, 2, 2);
    case 20 => Moves(4, 2, 4, 2); case 21 => Moves(2, 4, 1, 3);
    case 22 => Moves(4, 1, 1, 2); case _ => Moves(1, 1, 0, 1);
  }

  lemma StepIsWritten(i: nat)
    requires i < 24
    ensures 0 < Piln(i) && When(Piln(i)) == i
  {
  }

  // How often the offset has gone round.
  function Laps(i: nat): nat
    requires i < 24
  {
    if i < 10 then 0 else if i < 15 then 1 else if i < 19 then 2 else if i < 22 then 3 else 4
  }

  lemma {:induction false} Triangle(i: nat)
    requires i < 24
    ensures (i + 1) * (i + 2) == 2 * (Rotc(i) + 64 * Laps(i))
  {
    if i > 0 {
      Triangle(i - 1);
      assert (i + 1) * (i + 2) == i * (i + 1) + 2 * (i + 1);
    }
  }

  lemma StepOffset(i: nat)
    requires i < 24
    ensures Rotc(i) == (i + 1) * (i + 2) / 2 % 64
  {
    hide Rotc, Laps;
    Triangle(i);
  }

  lemma {:induction false} VisitedIsBefore(t: nat)
    requires t < 24
    ensures Visited(t) == Before(t)
  {
    hide Next;
    if t > 0 {
      VisitedIsBefore(t - 1);
      StepIsNext(t - 1);
    } else {
      assert At(1, 0) == 1;
    }
  }

  // No lane is visited twice.
  lemma BeforeOnce(t: nat, u: nat)
    requires t < u < 24
    ensures Before(t) != Before(u)
  {
    hide When;
    StepIsWritten(u - 1);
    if t == 0 {
      StepIsWritten(23);
      assert Piln(23) == 1;
    } else {
      StepIsWritten(t - 1);
    }
  }

  lemma {:induction false} OffsetIsRotc(t: nat, i: nat)
    requires t <= i < 24
    ensures OffsetFrom(t, Before(i)) == Rotc(i)
    decreases i - t
  {
    hide Before, Visited, Rotc;
    VisitedIsBefore(t);
    StepOffset(i);
    if t < i {
      BeforeOnce(t, i);
      OffsetIsRotc(t + 1, i);
    }
  }

  // Lane 0 is not visited.
  lemma {:induction false} NoOffset(t: nat)
    requires t <= 24
    ensures OffsetFrom(t, 0) == 0
    decreases 24 - t
  {
    if t < 24 {
      VisitedIsBefore(t);
      BeforeIsNotZero(t);
      hide Before, Visited;
      NoOffset(t + 1);
    }
  }

  lemma BeforeIsNotZero(t: nat)
    requires t < 24
    ensures 0 < Before(t) < 25
  {
    if t > 0 { StepIsWritten(t - 1); }
  }

  lemma WhenIsWritten(j: nat)
    requires 0 < j < 25
    ensures Piln(When(j)) == j
  {
  }

  // The walk after i steps: the lanes written have their new value, the others the old one.
  function Walked(a: State, i: nat): State
    requires i <= 24
  {
    seq(25, j requires 0 <= j < 25 =>
      if j > 0 && When(j) < i then Rotl(a[Before(When(j))], Rotc(When(j))) else a[j])
  }

  lemma WalkStep(a: State, i: nat)
    requires i < 24
    ensures Walked(a, i + 1) == Walked(a, i)[Piln(i) := Rotl(a[Before(i)], Rotc(i))]
    ensures Walked(a, i)[Piln(i)] == a[Piln(i)]
  {
    hide Before, Rotc, Rotl, When;
    StepIsWritten(i);
    forall j | 0 < j < 25 && When(j) == i ensures j == Piln(i) { WhenIsWritten(j); }
  }

  // The whole walk is rho followed by pi.
  lemma WalkIsRhoPi(a: State)
    ensures Walked(a, 24) == Pi(Rho(a))
  {
    hide Rotl, Before, Piln, Rotc, When, Source, OffsetFrom;
    forall j | 0 <= j < 25 ensures Walked(a, 24)[j] == Pi(Rho(a))[j] {
      if j == 0 {
        NoOffset(0);
        LaneZero(a);
      } else {
        WhenIsWritten(j);
        StepIsNext(When(j));
        OffsetIsRotc(0, When(j));
      }
    }
  }

  lemma LaneZero(a: State)
    ensures Source(0) == 0 && Rotl(a[0], 0) == a[0]
  {
  }

  // ---------------------------------------------------------------- the code itself

  // mod5. Each digit of the inner loop takes a multiple of five off, so both loops end.
  method Mod5(a: int) returns (r: int)
    ensures a >= 0 ==> r == a % 5
    ensures a < 0 ==> r == a
  {
    r := a;
    ghost var fives := 0;
    while r > 9
      invariant a == r + 5 * fives && (a >= 0 ==> r >= 0) && (a < 0 ==> r == a)
      decreases r
    {
      var s := 0;
      var n := r;
      ghost var taken := 0;
      while n != 0
        invariant n >= 0 && s >= 0 && taken >= 0 && r == s + n + 5 * taken
        invariant taken == 0 ==> n == r
        decreases n
      {
        s := s + n % 8;
        taken := taken + n / 8;
        n := n / 8 * 3;
      }
      fives := fives + taken;
      r := s;
    }
    if r > 4 {
      r := r - 5;
      fives := fives + 1;
    }
  }

  method Reduce(n: nat) returns (x: nat)
    requires n < 25
    ensures x == X(n)
  {
    x := Mod5(n);
    XIsRemainder(n);
  }

  // The lanes of the columns before the i-th are done, and those of the i-th above row y.
  ghost predicate ThetaDone(a: State, st: seq<Lane>, i: nat, y: nat) {
    && |st| == 25
    && (forall k :: 0 <= k < 25 ==>
          st[k] == if X(k) < i || (X(k) == i && Y(k) < y) then Xor(a[k], ThetaTerm(a, X(k))) else a[k])
  }

  // The inner loop: one column is changed.
  method ChangeColumn(st: array<Lane>, i: nat, t: Lane, ghost a: State)
    requires st.Length == 25 && i < 5 && t == ThetaTerm(a, i) && ThetaDone(a, st[..], i, 0)
    modifies st
    ensures ThetaDone(a, st[..], i + 1, 0)
  {
    hide Xor, ThetaTerm, ThetaDone;
    var j := 0;
    ghost var y := 0;
    while j < 25
      invariant 0 <= y <= 5 && j == 5 * y && ThetaDone(a, st[..], i, y)
    {
      ThetaNext(a, st[..], i, y);
      st[j + i] := Xor(st[j + i], t);
      j := j + 5;
      y := y + 1;
    }
    ThetaColumn(a, st[..], i);
  }

  method ThetaInPlace(st: array<Lane>)
    requires st.Length == 25
    modifies st
    ensures st[..] == Theta(old(st[..]))
  {
    hide Xor, ThetaEffect, Parity, ThetaDone;
    ghost var a := st[..];
    var bc := new Lane[5];
    var i := 0;
    while i < 5
      invariant 0 <= i <= 5 && st[..] == a
      invariant forall x :: 0 <= x < i ==> bc[x] == ColumnParity(a, x)
    {
      bc[i] := Parity(st[i], st[i + 5], st[i + 10], st[i + 15], st[i + 20]);
      i := i + 1;
    }
    i := 0;
    ThetaStarts(a);
    while i < 5
      invariant 0 <= i <= 5 && ThetaDone(a, st[..], i, 0)
      invariant forall x :: 0 <= x < 5 ==> bc[x] == ColumnParity(a, x)
    {
      var left := Reduce(i + 4);
      var right := Reduce(i + 1);
      ChangeColumn(st, i, ThetaEffect(bc[left], bc[right]), a);
      i := i + 1;
    }
    ThetaEnds(a, st[..]);
  }

  lemma Coordinates(x: nat, y: nat)
    requires x < 5 && y < 5
    ensures X(At(x, y)) == x && Y(At(x, y)) == y
  {
  }

  lemma LaneOf(k: nat)
    requires k < 25
    ensures k == At(X(k), Y(k))
  {
  }

  lemma ThetaStarts(a: State)
    ensures ThetaDone(a, a, 0, 0)
  {
    hide Xor, ThetaTerm;
  }

  lemma ThetaNext(a: State, st: seq<Lane>, i: nat, y: nat)
    requires ThetaDone(a, st, i, y) && i < 5 && y < 5
    ensures |st| == 25 && ThetaDone(a, st[At(i, y) := Xor(st[At(i, y)], ThetaTerm(a, i))], i, y + 1)
  {
    hide Xor, ThetaTerm, X, Y, At;
    Coordinates(i, y);
    forall k | 0 <= k < 25 ensures X(k) == i && Y(k) == y ==> k == At(i, y) { LaneOf(k); }
  }

  lemma ThetaColumn(a: State, st: seq<Lane>, i: nat)
    requires ThetaDone(a, st, i, 5)
    ensures ThetaDone(a, st, i + 1, 0)
  {
    hide Xor, ThetaTerm, X;
  }

  lemma ThetaEnds(a: State, st: seq<Lane>)
    requires ThetaDone(a, st, 5, 0)
    ensures st == Theta(a)
  {
    hide Xor, ThetaTerm, X;
  }

  method WalkInPlace(st: array<Lane>)
    requires st.Length == 25
    modifies st
    ensures st[..] == Pi(Rho(old(st[..])))
  {
    hide Rotl, Rotc, Piln, Before, Walked;
    ghost var a := st[..];
    WalkStarts(a);
    var t := st[1];
    var i := 0;
    while i < 24
      invariant 0 <= i <= 24 && st[..] == Walked(a, i)
      invariant i < 24 ==> t == a[Before(i)]
    {
      WalkStep(a, i);
      var j := Piln(i);
      var bc0 := st[j];
      st[j] := Rotl(t, Rotc(i));
      t := bc0;
      NextBefore(i);
      i := i + 1;
    }
    WalkIsRhoPi(a);
  }

  lemma WalkStarts(a: State)
    ensures Walked(a, 0) == a && Before(0) == 1
  {
  }

  lemma NextBefore(i: nat)
    requires i < 24
    ensures i < 23 ==> Before(i + 1) == Piln(i)
  {
  }

  // The lanes of the rows before the y-th are done, and those of the y-th left of column i.
  ghost predicate ChiDone(a: State, st: seq<Lane>, y: nat, i: nat) {
    && |st| == 25
    && (forall k :: 0 <= k < 25 ==>
          st[k] == if Y(k) < y || (Y(k) == y && X(k) < i) then ChiTerm(a, k) else a[k])
  }

  method ChiInPlace(st: array<Lane>)
    requires st.Length == 25
    modifies st
    ensures st[..] == Chi(old(st[..]))
  {
    hide ChiLane, ChiDone, Chi, X, Y;
    ghost var a := st[..];
    var bc := new Lane[5];
    var j := 0;
    ghost var y := 0;
    ChiStarts(a);
    while j < 25
      invariant 0 <= y <= 5 && j == 5 * y && ChiDone(a, st[..], y, 0)
    {
      var i := 0;
      while i < 5
        invariant 0 <= i <= 5 && ChiDone(a, st[..], y, 0)
        invariant forall x :: 0 <= x < i ==> bc[x] == a[At(x, y)]
      {
        ChiStill(a, st[..], y, 0, i);
        bc[i] := st[j + i];
        i := i + 1;
      }
      i := 0;
      while i < 5
        invariant 0 <= i <= 5 && ChiDone(a, st[..], y, i)
        invariant forall x :: 0 <= x < 5 ==> bc[x] == a[At(x, y)]
      {
        var next := Reduce(i + 1);
        var after := Reduce(i + 2);
        ChiStill(a, st[..], y, i, i);
        ChiNext(a, st[..], y, i);
        st[j + i] := ChiLane(st[j + i], bc[next], bc[after]);
        i := i + 1;
      }
      ChiRow(a, st[..], y);
      j := j + 5;
      y := y + 1;
    }
    ChiEnds(a, st[..]);
  }

  lemma ChiStarts(a: State)
    ensures ChiDone(a, a, 0, 0)
  {
    hide ChiTerm;
  }

  lemma ChiStill(a: State, st: seq<Lane>, y: nat, i: nat, x: nat)
    requires ChiDone(a, st, y, i) && y < 5 && i <= x < 5
    ensures |st| == 25 && st[At(x, y)] == a[At(x, y)]
  {
    hide ChiTerm, X, Y, At;
    Coordinates(x, y);
  }

  lemma ChiAt(a: State, x: nat, y: nat, k: nat)
    requires x < 5 && y < 5 && k < 25 && X(k) == x && Y(k) == y
    ensures ChiTerm(a, k) == ChiLane(a[k], a[At(X(x + 1), y)], a[At(X(x + 2), y)])
  {
    hide ChiLane, X, Y, At;
  }

  lemma ChiNext(a: State, st: seq<Lane>, y: nat, i: nat)
    requires ChiDone(a, st, y, i) && y < 5 && i < 5
    ensures |st| == 25 && X(i + 1) < 5 && X(i + 2) < 5
    ensures ChiDone(a, st[At(i, y) := ChiLane(a[At(i, y)], a[At(X(i + 1), y)], a[At(X(i + 2), y)])], y, i + 1)
  {
    hide ChiLane, X, Y, ChiTerm, At;
    Coordinates(i, y);
    ChiAt(a, i, y, At(i, y));
    forall k | 0 <= k < 25 ensures X(k) == i && Y(k) == y ==> k == At(i, y) { LaneOf(k); }
  }

  lemma ChiRow(a: State, st: seq<Lane>, y: nat)
    requires ChiDone(a, st, y, 5)
    ensures ChiDone(a, st, y + 1, 0)
  {
    hide ChiTerm, Y;
  }

  lemma ChiEnds(a: State, st: seq<Lane>)
    requires ChiDone(a, st, 5, 0)
    ensures st == Chi(a)
  {
    hide ChiTerm;
  }

  // keccakf
  method KeccakF(st: array<Lane>, rounds: nat)
    requires st.Length == 25 && rounds <= ROUNDS
    modifies st
    ensures st[..] == Permuted(old(st[..]), rounds)
  {
    hide Theta, Rho, Pi, Chi, Xor, Rotl, RoundConstant, Rndc;
    ghost var a := st[..];
    var round := 0;
    while round < rounds
      invariant 0 <= round <= rounds && st[..] == Permuted(a, round)
    {
      ThetaInPlace(st);
      WalkInPlace(st);
      ChiInPlace(st);
      RndcIsRoundConstant(round);
      st[0] := Xor(st[0], Rndc(round));
      round := round + 1;
    }
  }
}
