/**
  * What the arms of `execute` (src/processor.rs) promise, stated on whole opcodes:
  * the carry and borrow flags of the 8xyN arithmetic, the skips, the key wait, the
  * register/memory block copies, BCD, and the subroutine call and return.
  */
module ProcessorProperties {
  import opened Bits
  import opened MemorySpec
  import opened Processor

  /** An opcode written out as four nibbles decodes through the nibble match. */
  lemma DecodeOpcode(m: Nibble, x: Nibble, y: Nibble, n: Nibble)
    ensures Decode(Opcode(m, x, y, n)) == DecodeNibbles(m, x, y, n)
  {
    NibblesOfOpcode(m, x, y, n);
  }

  /** An instruction's own opcode runs that instruction's arm. */
  lemma ExecuteEncoded(s: State, ins: Instr, rnd: u8)
    requires WellFormed(s) && Safe(s, ins)
    ensures Executable(s, Encode(ins))
    ensures Execute(s, Encode(ins), rnd) == Ok(Step(s, ins, rnd))
  {
    DecodeEncode(ins);
  }

  /** A sum of two bytes is its low byte plus 256 times the carry. */
  lemma WrapSum(sum: int)
    requires 0 <= sum < 0x200
    ensures sum % 0x100 + 0x100 * (if sum > 0xFF then 1 else 0) == sum
  {
  }

  /** A difference of two bytes is its low byte minus 256 times the borrow. */
  lemma WrapDifference(diff: int)
    requires -0x100 < diff < 0x100
    ensures diff % 0x100 - 0x100 * (if diff >= 0 then 0 else 1) == diff
  {
  }

  /**
    * 8xy4: Vx receives the sum modulo 256 and VF the carry, so Vx + 256 * VF is the
    * full sum; when x is F the carry overwrites the sum. No other register changes.
    */
  lemma AddWithCarry(s: State, x: Nibble, y: Nibble, rnd: u8)
    requires WellFormed(s)
    ensures Executable(s, Opcode(8, x, y, 4))
    ensures var r := Execute(s, Opcode(8, x, y, 4), rnd);
      var sum := s.v[x] as int + s.v[y];
      r.Ok? && r.state == s.(v := r.state.v) &&
      r.state.v[0xF] == (if sum > 0xFF then 1 else 0) &&
      (x != 0xF ==> r.state.v[x] == sum % 0x100 && r.state.v[x] + 0x100 * (r.state.v[0xF] as int) == sum) &&
      forall k :: 0 <= k < 0xF && k != x ==> r.state.v[k] == s.v[k]
  {
    assert Opcode(8, x, y, 4) == Encode(AddReg(x, y));
    ExecuteEncoded(s, AddReg(x, y), rnd);
    var sum := s.v[x] as int + s.v[y];
    assert Step(s, AddReg(x, y), rnd) == s.(v := s.v[x := sum % 0x100][0xF := if sum > 0xFF then 1 else 0]);
    WrapSum(sum);
  }

  /**
    * 8xy5: Vx receives Vx - Vy modulo 256 and VF is 1 exactly when there is no borrow
    * (Vx >= Vy), so Vx - 256 * (1 - VF) is the true difference.
    */
  lemma SubtractWithBorrow(s: State, x: Nibble, y: Nibble, rnd: u8)
    requires WellFormed(s)
    ensures Executable(s, Opcode(8, x, y, 5))
    ensures var r := Execute(s, Opcode(8, x, y, 5), rnd);
      var diff := s.v[x] as int - s.v[y];
      r.Ok? && r.state == s.(v := r.state.v) &&
      r.state.v[0xF] == (if diff >= 0 then 1 else 0) &&
      (x != 0xF ==> r.state.v[x] == diff % 0x100 && r.state.v[x] - 0x100 * (1 - r.state.v[0xF] as int) == diff) &&
      forall k :: 0 <= k < 0xF && k != x ==> r.state.v[k] == s.v[k]
  {
    assert Opcode(8, x, y, 5) == Encode(SubReg(x, y));
    ExecuteEncoded(s, SubReg(x, y), rnd);
    var diff := s.v[x] as int - s.v[y];
    assert Step(s, SubReg(x, y), rnd) == s.(v := s.v[x := diff % 0x100][0xF := if diff >= 0 then 1 else 0]);
    WrapDifference(diff);
  }

  /** 8xy7: as 8xy5 with the operands swapped: Vx := Vy - Vx, VF = 1 iff Vy >= Vx. */
  lemma SubtractNegated(s: State, x: Nibble, y: Nibble, rnd: u8)
    requires WellFormed(s)
    ensures Executable(s, Opcode(8, x, y, 7))
    ensures var r := Execute(s, Opcode(8, x, y, 7), rnd);
      var diff := s.v[y] as int - s.v[x];
      r.Ok? && r.state == s.(v := r.state.v) &&
      r.state.v[0xF] == (if diff >= 0 then 1 else 0) &&
      (x != 0xF ==> r.state.v[x] == diff % 0x100 && r.state.v[x] - 0x100 * (1 - r.state.v[0xF] as int) == diff) &&
      forall k :: 0 <= k < 0xF && k != x ==> r.state.v[k] == s.v[k]
  {
    assert Opcode(8, x, y, 7) == Encode(SubNeg(x, y));
    ExecuteEncoded(s, SubNeg(x, y), rnd);
    var diff := s.v[y] as int - s.v[x];
    assert Step(s, SubNeg(x, y), rnd) == s.(v := s.v[x := diff % 0x100][0xF := if diff >= 0 then 1 else 0]);
    WrapDifference(diff);
  }

  /** 8xy0: Vx receives a copy of Vy; no other register and nothing else changes. */
  lemma CopyRegister(s: State, x: Nibble, y: Nibble, rnd: u8)
    requires WellFormed(s)
    ensures Executable(s, Opcode(8, x, y, 0))
    ensures var r := Execute(s, Opcode(8, x, y, 0), rnd);
      r.Ok? && r.state == s.(v := r.state.v) && r.state.v[x] == s.v[y] &&
      forall k :: 0 <= k < RegisterCount && k != x ==> r.state.v[k] == s.v[k]
  {
    assert Opcode(8, x, y, 0) == Encode(Move(x, y));
    ExecuteEncoded(s, Move(x, y), rnd);
  }

  /**
    * 8xy1: a bit of Vx is set afterwards exactly where Vx or Vy had it; no other register
    * and nothing else changes.
    */
  lemma OrRegisters(s: State, x: Nibble, y: Nibble, rnd: u8)
    requires WellFormed(s)
    ensures Executable(s, Opcode(8, x, y, 1))
    ensures var r := Execute(s, Opcode(8, x, y, 1), rnd);
      r.Ok? && r.state == s.(v := r.state.v) &&
      (forall i: nat :: Bit(r.state.v[x], i) == if Bit(s.v[x], i) == 1 || Bit(s.v[y], i) == 1 then 1 else 0) &&
      forall k :: 0 <= k < RegisterCount && k != x ==> r.state.v[k] == s.v[k]
  {
    assert Opcode(8, x, y, 1) == Encode(Or(x, y));
    ExecuteEncoded(s, Or(x, y), rnd);
    forall i: nat
      ensures Bit(BitOr(s.v[x], s.v[y]), i) == if Bit(s.v[x], i) == 1 || Bit(s.v[y], i) == 1 then 1 else 0
    {
      BitOrBit(s.v[x], s.v[y], i);
    }
  }

  /** 8xy1 run twice with x != y leaves the state as the first run left it. */
  lemma {:induction false} OrRegistersTwice(s: State, x: Nibble, y: Nibble, rnd: u8)
    requires WellFormed(s) && x != y
    ensures Executable(s, Opcode(8, x, y, 1))
    ensures var t := Execute(s, Opcode(8, x, y, 1), rnd).state;
      WellFormed(t) && Executable(t, Opcode(8, x, y, 1)) && Execute(t, Opcode(8, x, y, 1), rnd) == Ok(t)
  {
    assert Opcode(8, x, y, 1) == Encode(Or(x, y));
    ExecuteEncoded(s, Or(x, y), rnd);
    var t := Step(s, Or(x, y), rnd);
    ExecuteEncoded(t, Or(x, y), rnd);
    OrBitsTwice(s.v[x], s.v[y], 8);
    assert Step(t, Or(x, y), rnd).v == t.v;
  }

  /**
    * 8xy2: a bit of Vx is set afterwards exactly where both Vx and Vy had it, so Vx
    * grows neither past its old value nor past Vy; nothing else changes.
    */
  lemma AndRegisters(s: State, x: Nibble, y: Nibble, rnd: u8)
    requires WellFormed(s)
    ensures Executable(s, Opcode(8, x, y, 2))
    ensures var r := Execute(s, Opcode(8, x, y, 2), rnd);
      r.Ok? && r.state == s.(v := r.state.v) &&
      (forall i: nat :: Bit(r.state.v[x], i) == if Bit(s.v[x], i) == 1 && Bit(s.v[y], i) == 1 then 1 else 0) &&
      r.state.v[x] <= s.v[x] && r.state.v[x] <= s.v[y] &&
      forall k :: 0 <= k < RegisterCount && k != x ==> r.state.v[k] == s.v[k]
  {
    assert Opcode(8, x, y, 2) == Encode(And(x, y));
    ExecuteEncoded(s, And(x, y), rnd);
    forall i: nat
      ensures Bit(BitAnd(s.v[x], s.v[y]), i) == if Bit(s.v[x], i) == 1 && Bit(s.v[y], i) == 1 then 1 else 0
    {
      BitAndBit(s.v[x], s.v[y], i);
    }
  }

  /**
    * 8xy3: a bit of Vx is set afterwards exactly where Vx and Vy differed; no other
    * register and nothing else changes.
    */
  lemma XorRegisters(s: State, x: Nibble, y: Nibble, rnd: u8)
    requires WellFormed(s)
    ensures Executable(s, Opcode(8, x, y, 3))
    ensures var r := Execute(s, Opcode(8, x, y, 3), rnd);
      r.Ok? && r.state == s.(v := r.state.v) &&
      (forall i: nat :: Bit(r.state.v[x], i) == if Bit(s.v[x], i) != Bit(s.v[y], i) then 1 else 0) &&
      forall k :: 0 <= k < RegisterCount && k != x ==> r.state.v[k] == s.v[k]
  {
    assert Opcode(8, x, y, 3) == Encode(Xor(x, y));
    ExecuteEncoded(s, Xor(x, y), rnd);
    forall i: nat
      ensures Bit(BitXor(s.v[x], s.v[y]), i) == if Bit(s.v[x], i) != Bit(s.v[y], i) then 1 else 0
    {
      BitXorBit(s.v[x], s.v[y], i);
    }
  }

  /** 8xy3 run twice with x != y gives the state back. */
  lemma {:induction false} XorRegistersTwice(s: State, x: Nibble, y: Nibble, rnd: u8)
    requires WellFormed(s) && x != y
    ensures Executable(s, Opcode(8, x, y, 3))
    ensures var t := Execute(s, Opcode(8, x, y, 3), rnd).state;
      WellFormed(t) && Executable(t, Opcode(8, x, y, 3)) && Execute(t, Opcode(8, x, y, 3), rnd) == Ok(s)
  {
    assert Opcode(8, x, y, 3) == Encode(Xor(x, y));
    ExecuteEncoded(s, Xor(x, y), rnd);
    var t := Step(s, Xor(x, y), rnd);
    ExecuteEncoded(t, Xor(x, y), rnd);
    XorTwice(s.v[x], s.v[y]);
    assert Step(t, Xor(x, y), rnd).v == s.v;
  }

  /** 8xy6: VF receives the bit shifted out, so 2 * Vx + VF is the old Vx; Vy is ignored. */
  lemma ShiftRightFlag(s: State, x: Nibble, y: Nibble, rnd: u8)
    requires WellFormed(s)
    ensures Executable(s, Opcode(8, x, y, 6))
    ensures var r := Execute(s, Opcode(8, x, y, 6), rnd);
      r.Ok? && r.state == s.(v := r.state.v) &&
      r.state.v[0xF] == s.v[x] % 2 && r.state.v[0xF] <= 1 &&
      (x != 0xF ==> 2 * (r.state.v[x] as int) + r.state.v[0xF] == s.v[x]) &&
      forall k :: 0 <= k < 0xF && k != x ==> r.state.v[k] == s.v[k]
  {
    assert Opcode(8, x, y, 6) == Encode(ShiftRight(x, y));
    ExecuteEncoded(s, ShiftRight(x, y), rnd);
    assert Step(s, ShiftRight(x, y), rnd) == s.(v := s.v[x := s.v[x] / 2][0xF := s.v[x] % 2]);
  }

  /** 8xyE: VF receives the bit shifted out of the top, so 256 * VF + Vx is twice the old Vx. */
  lemma ShiftLeftFlag(s: State, x: Nibble, y: Nibble, rnd: u8)
    requires WellFormed(s)
    ensures Executable(s, Opcode(8, x, y, 0xE))
    ensures var r := Execute(s, Opcode(8, x, y, 0xE), rnd);
      r.Ok? && r.state == s.(v := r.state.v) &&
      r.state.v[0xF] == s.v[x] / 0x80 && r.state.v[0xF] <= 1 &&
      (x != 0xF ==> 0x100 * (r.state.v[0xF] as int) + r.state.v[x] == 2 * (s.v[x] as int)) &&
      forall k :: 0 <= k < 0xF && k != x ==> r.state.v[k] == s.v[k]
  {
    assert Opcode(8, x, y, 0xE) == Encode(ShiftLeft(x, y));
    ExecuteEncoded(s, ShiftLeft(x, y), rnd);
    assert Step(s, ShiftLeft(x, y), rnd) == s.(v := s.v[x := s.v[x] as int * 2 % 0x100][0xF := s.v[x] / 0x80]);
  }

  /** 7xkk: Vx grows by kk modulo 256 and, unlike 8xy4, VF is left alone. */
  lemma AddImmediateNoFlag(s: State, x: Nibble, kk: u8, rnd: u8)
    requires WellFormed(s)
    ensures Executable(s, Opcode(7, x, kk / 0x10, kk % 0x10))
    ensures var r := Execute(s, Opcode(7, x, kk / 0x10, kk % 0x10), rnd);
      r.Ok? && r.state == s.(v := r.state.v) &&
      r.state.v[x] == (s.v[x] as int + kk) % 0x100 &&
      (x != 0xF ==> r.state.v[0xF] == s.v[0xF]) &&
      forall k :: 0 <= k < RegisterCount && k != x ==> r.state.v[k] == s.v[k]
  {
    assert Opcode(7, x, kk / 0x10, kk % 0x10) == Encode(AddImm(x, kk));
    ExecuteEncoded(s, AddImm(x, kk), rnd);
  }

  /** Cxkk: Vx receives the random byte masked by kk, so Vx has no bit that kk lacks. */
  lemma RandomMasked(s: State, x: Nibble, kk: u8, rnd: u8)
    requires WellFormed(s)
    ensures Executable(s, Opcode(0xC, x, kk / 0x10, kk % 0x10))
    ensures var r := Execute(s, Opcode(0xC, x, kk / 0x10, kk % 0x10), rnd);
      r.Ok? && r.state == s.(v := r.state.v) &&
      r.state.v[x] <= kk && BitAnd(r.state.v[x], kk) == r.state.v[x] &&
      forall k :: 0 <= k < RegisterCount && k != x ==> r.state.v[k] == s.v[k]
  {
    assert Opcode(0xC, x, kk / 0x10, kk % 0x10) == Encode(Random(x, kk));
    ExecuteEncoded(s, Random(x, kk), rnd);
    BitAndWithinMask(rnd, kk);
  }

  /** 3xkk and 4xkk: exactly one of the two skips the next instruction, and nothing else changes. */
  lemma SkipImmediate(s: State, x: Nibble, kk: u8, rnd: u8)
    requires WellFormed(s) && CanSkip(s)
    ensures Executable(s, Opcode(3, x, kk / 0x10, kk % 0x10))
    ensures Executable(s, Opcode(4, x, kk / 0x10, kk % 0x10))
    ensures Execute(s, Opcode(3, x, kk / 0x10, kk % 0x10), rnd) ==
      Ok(if s.v[x] == kk then s.(pc := s.pc + 2) else s)
    ensures Execute(s, Opcode(4, x, kk / 0x10, kk % 0x10), rnd) ==
      Ok(if s.v[x] != kk then s.(pc := s.pc + 2) else s)
  {
    assert Opcode(3, x, kk / 0x10, kk % 0x10) == Encode(SkipEqImm(x, kk));
    ExecuteEncoded(s, SkipEqImm(x, kk), rnd);
    assert Opcode(4, x, kk / 0x10, kk % 0x10) == Encode(SkipNeImm(x, kk));
    ExecuteEncoded(s, SkipNeImm(x, kk), rnd);
  }

  /** 5xy0 skips the next instruction exactly when Vx and Vy are equal. */
  lemma SkipEqualRegisters(s: State, x: Nibble, y: Nibble, rnd: u8)
    requires WellFormed(s) && CanSkip(s)
    ensures Executable(s, Opcode(5, x, y, 0))
    ensures Execute(s, Opcode(5, x, y, 0), rnd) == Ok(if s.v[x] == s.v[y] then s.(pc := s.pc + 2) else s)
  {
    assert Opcode(5, x, y, 0) == Encode(SkipEqReg(x, y));
    ExecuteEncoded(s, SkipEqReg(x, y), rnd);
  }

  /** 9xy0 skips the next instruction exactly when Vx and Vy differ. */
  lemma SkipDifferentRegisters(s: State, x: Nibble, y: Nibble, rnd: u8)
    requires WellFormed(s) && CanSkip(s)
    ensures Executable(s, Opcode(9, x, y, 0))
    ensures Execute(s, Opcode(9, x, y, 0), rnd) == Ok(if s.v[x] != s.v[y] then s.(pc := s.pc + 2) else s)
  {
    assert Opcode(9, x, y, 0) == Encode(SkipNeReg(x, y));
    ExecuteEncoded(s, SkipNeReg(x, y), rnd);
  }

  /** 5xy1 .. 5xyF are not instructions: `execute` reaches its `unimplemented!` arm. */
  lemma SkipRegistersNeedsZero(s: State, x: Nibble, y: Nibble, n: Nibble, rnd: u8)
    requires WellFormed(s) && n != 0
    ensures Executable(s, Opcode(5, x, y, n))
    ensures Execute(s, Opcode(5, x, y, n), rnd) == Unimplemented(Opcode(5, x, y, n))
  {
    DecodeOpcode(5, x, y, n);
  }

  /** Ex9E right after `keypress(Vx, status)` skips exactly when `status` is true. */
  lemma SkipIfKeyPressed(s: State, x: Nibble, status: bool, rnd: u8)
    requires WellFormed(s) && CanSkip(s) && s.v[x] < KeyboardSize
    ensures var t := KeyPress(s, s.v[x], status);
      Executable(t, Opcode(0xE, x, 9, 0xE)) &&
      Execute(t, Opcode(0xE, x, 9, 0xE), rnd) == Ok(if status then t.(pc := s.pc + 2) else t)
  {
    assert Opcode(0xE, x, 9, 0xE) == Encode(SkipKey(x));
    ExecuteEncoded(KeyPress(s, s.v[x], status), SkipKey(x), rnd);
  }

  /** ExA1 right after `keypress(Vx, status)` skips exactly when `status` is false. */
  lemma SkipIfKeyReleased(s: State, x: Nibble, status: bool, rnd: u8)
    requires WellFormed(s) && CanSkip(s) && s.v[x] < KeyboardSize
    ensures var t := KeyPress(s, s.v[x], status);
      Executable(t, Opcode(0xE, x, 0xA, 1)) &&
      Execute(t, Opcode(0xE, x, 0xA, 1), rnd) == Ok(if status then t else t.(pc := s.pc + 2))
  {
    assert Opcode(0xE, x, 0xA, 1) == Encode(SkipNotKey(x));
    ExecuteEncoded(KeyPress(s, s.v[x], status), SkipNotKey(x), rnd);
  }

  /**
    * Fx0A: with a key down, Vx receives the lowest pressed key and the program goes on;
    * with none, only the program counter moves back by 2, so the instruction repeats.
    */
  lemma WaitForKey(s: State, x: Nibble, rnd: u8)
    requires WellFormed(s)
    requires s.pc >= 2 || exists k :: 0 <= k < KeyboardSize && s.keyboard[k]
    ensures Executable(s, Opcode(0xF, x, 0, 0xA))
    ensures var r := Execute(s, Opcode(0xF, x, 0, 0xA), rnd);
      r.Ok? &&
      ((exists k :: 0 <= k < KeyboardSize && s.keyboard[k]) ==>
        var key := r.state.v[x];
        key < KeyboardSize && s.keyboard[key] &&
        (forall k :: 0 <= k < key ==> !s.keyboard[k]) &&
        r.state == s.(v := s.v[x := key])) &&
      ((forall k :: 0 <= k < KeyboardSize ==> !s.keyboard[k]) ==> r.state == s.(pc := s.pc - 2))
  {
    assert Opcode(0xF, x, 0, 0xA) == Encode(WaitKey(x));
    ExecuteEncoded(s, WaitKey(x), rnd);
  }

  /** Fx07: Vx receives the delay timer; no other register and nothing else changes. */
  lemma ReadDelay(s: State, x: Nibble, rnd: u8)
    requires WellFormed(s)
    ensures Executable(s, Opcode(0xF, x, 0, 7))
    ensures var r := Execute(s, Opcode(0xF, x, 0, 7), rnd);
      r.Ok? && r.state == s.(v := r.state.v) && r.state.v[x] == s.delay &&
      forall k :: 0 <= k < RegisterCount && k != x ==> r.state.v[k] == s.v[k]
  {
    assert Opcode(0xF, x, 0, 7) == Encode(GetDelay(x));
    ExecuteEncoded(s, GetDelay(x), rnd);
  }

  /** Fx15: the delay timer receives Vx; nothing else changes. */
  lemma SetDelayTimer(s: State, x: Nibble, rnd: u8)
    requires WellFormed(s)
    ensures Executable(s, Opcode(0xF, x, 1, 5))
    ensures var r := Execute(s, Opcode(0xF, x, 1, 5), rnd);
      r.Ok? && r.state == s.(delay := r.state.delay) && r.state.delay == s.v[x]
  {
    assert Opcode(0xF, x, 1, 5) == Encode(SetDelay(x));
    ExecuteEncoded(s, SetDelay(x), rnd);
  }

  /** Fx15 then Fx07: the delay timer reads back, into Vy, the value Vx put there. */
  lemma {:induction false} DelayReadBack(s: State, x: Nibble, y: Nibble, rnd: u8)
    requires WellFormed(s)
    ensures Executable(s, Opcode(0xF, x, 1, 5))
    ensures var t := Execute(s, Opcode(0xF, x, 1, 5), rnd).state;
      WellFormed(t) && t == s.(delay := s.v[x]) && Executable(t, Opcode(0xF, y, 0, 7)) &&
      Execute(t, Opcode(0xF, y, 0, 7), rnd) == Ok(t.(v := s.v[y := s.v[x]]))
  {
    SetDelayTimer(s, x, rnd);
    var t := s.(delay := s.v[x]);
    ReadDelay(t, y, rnd);
    var u := Execute(t, Opcode(0xF, y, 0, 7), rnd).state;
    assert u.v == s.v[y := s.v[x]];
  }

  /** Fx18: the sound timer receives Vx; nothing else changes. */
  lemma SetSoundTimer(s: State, x: Nibble, rnd: u8)
    requires WellFormed(s)
    ensures Executable(s, Opcode(0xF, x, 1, 8))
    ensures var r := Execute(s, Opcode(0xF, x, 1, 8), rnd);
      r.Ok? && r.state == s.(sound := r.state.sound) && r.state.sound == s.v[x]
  {
    assert Opcode(0xF, x, 1, 8) == Encode(SetSound(x));
    ExecuteEncoded(s, SetSound(x), rnd);
  }

  /**
    * Fx1E: I grows by Vx with u16 wrap-around: it is I + Vx when that fits in 16 bits and
    * I + Vx - 0x10000 otherwise; nothing else changes.
    */
  lemma AddToIndex(s: State, x: Nibble, rnd: u8)
    requires WellFormed(s)
    ensures Executable(s, Opcode(0xF, x, 1, 0xE))
    ensures var r := Execute(s, Opcode(0xF, x, 1, 0xE), rnd);
      r.Ok? && r.state == s.(i := r.state.i) &&
      (s.i + s.v[x] < 0x1_0000 ==> r.state.i == s.i + s.v[x]) &&
      (s.i + s.v[x] >= 0x1_0000 ==> r.state.i == s.i + s.v[x] - 0x1_0000)
  {
    assert Opcode(0xF, x, 1, 0xE) == Encode(AddI(x));
    ExecuteEncoded(s, AddI(x), rnd);
  }

  /** The decimal digits of a byte, hundreds first, as Fx33 computes them. */
  lemma ByteDigits(number: u8)
    ensures number / 100 % 10 < 10 && number / 10 % 10 < 10 && number % 10 < 10
    ensures 100 * (number / 100 % 10) + 10 * (number / 10 % 10) + number % 10 == number
  {
    assert number / 100 < 10;
  }

  /**
    * Fx33: the three bytes at I are decimal digits that spell Vx (hundreds first);
    * the rest of memory and the rest of the state are unchanged.
    */
  lemma BcdDigits(s: State, x: Nibble, rnd: u8)
    requires WellFormed(s) && s.i + 2 < RamSize
    ensures Executable(s, Opcode(0xF, x, 3, 3))
    ensures var r := Execute(s, Opcode(0xF, x, 3, 3), rnd);
      r.Ok? && r.state == s.(memory := r.state.memory) &&
      var m := r.state.memory;
      m[s.i] < 10 && m[s.i + 1] < 10 && m[s.i + 2] < 10 &&
      100 * (m[s.i] as int) + 10 * (m[s.i + 1] as int) + m[s.i + 2] == s.v[x] &&
      forall a :: 0 <= a < RamSize && !(s.i <= a <= s.i + 2) ==> m[a] == s.memory[a]
  {
    assert Opcode(0xF, x, 3, 3) == Encode(StoreBcd(x));
    ExecuteEncoded(s, StoreBcd(x), rnd);
    var number := s.v[x];
    ByteDigits(number);
    var m := Execute(s, Opcode(0xF, x, 3, 3), rnd).state.memory;
    assert m == s.memory[s.i := number / 100 % 10][s.i + 1 := number / 10 % 10][s.i + 2 := number % 10];
  }

  /** Fx55: V0..Vx are copied to memory[I ..= I + x]; nothing else changes (I stays). */
  lemma StoreRegisters(s: State, x: Nibble, rnd: u8)
    requires WellFormed(s) && s.i + x < RamSize
    ensures Executable(s, Opcode(0xF, x, 5, 5))
    ensures var r := Execute(s, Opcode(0xF, x, 5, 5), rnd);
      r.Ok? && r.state == s.(memory := r.state.memory) &&
      (forall k :: 0 <= k <= x ==> r.state.memory[s.i + k] == s.v[k]) &&
      forall a :: 0 <= a < RamSize && !(s.i <= a <= s.i + x) ==> r.state.memory[a] == s.memory[a]
  {
    assert Opcode(0xF, x, 5, 5) == Encode(StoreRegs(x));
    ExecuteEncoded(s, StoreRegs(x), rnd);
  }

  /** Fx65: memory[I ..= I + x] is copied to V0..Vx; nothing else changes (I stays). */
  lemma LoadRegisters(s: State, x: Nibble, rnd: u8)
    requires WellFormed(s) && s.i + x < RamSize
    ensures Executable(s, Opcode(0xF, x, 6, 5))
    ensures var r := Execute(s, Opcode(0xF, x, 6, 5), rnd);
      r.Ok? && r.state == s.(v := r.state.v) &&
      (forall k :: 0 <= k <= x ==> r.state.v[k] == s.memory[s.i + k]) &&
      forall k :: x < k < RegisterCount ==> r.state.v[k] == s.v[k]
  {
    assert Opcode(0xF, x, 6, 5) == Encode(LoadRegs(x));
    ExecuteEncoded(s, LoadRegs(x), rnd);
  }

  /** Fx55 then Fx65 with the same x: the registers read back are the ones stored, so the load changes nothing. */
  lemma {:induction false} StoreThenLoad(s: State, x: Nibble, rnd: u8)
    requires WellFormed(s) && s.i + x < RamSize
    ensures Executable(s, Opcode(0xF, x, 5, 5))
    ensures var t := Execute(s, Opcode(0xF, x, 5, 5), rnd).state;
      WellFormed(t) && Executable(t, Opcode(0xF, x, 6, 5)) &&
      Execute(t, Opcode(0xF, x, 6, 5), rnd) == Ok(t)
  {
    StoreRegisters(s, x, rnd);
    var t := Execute(s, Opcode(0xF, x, 5, 5), rnd).state;
    LoadRegisters(t, x, rnd);
    var u := Execute(t, Opcode(0xF, x, 6, 5), rnd).state;
    assert u.v == t.v;
  }

  /**
    * 2nnn then 00EE: the call pushes the return address and jumps to nnn; the return pops it,
    * so the program counter and the stack pointer are back where they were.
    */
  lemma {:induction false} CallThenReturn(s: State, nnn: Addr, rnd: u8)
    requires WellFormed(s) && s.sp < StackSize
    ensures Executable(s, Opcode(2, nnn / 0x100, nnn / 0x10 % 0x10, nnn % 0x10))
    ensures var t := Execute(s, Opcode(2, nnn / 0x100, nnn / 0x10 % 0x10, nnn % 0x10), rnd).state;
      WellFormed(t) && t.pc == nnn && t.sp == s.sp + 1 && t.stack[s.sp] == s.pc &&
      Executable(t, Opcode(0, 0, 0xE, 0xE)) &&
      Execute(t, Opcode(0, 0, 0xE, 0xE), rnd) == Ok(s.(stack := s.stack[s.sp := s.pc]))
  {
    assert Opcode(2, nnn / 0x100, nnn / 0x10 % 0x10, nnn % 0x10) == Encode(Call(nnn));
    ExecuteEncoded(s, Call(nnn), rnd);
    var t := Execute(s, Opcode(2, nnn / 0x100, nnn / 0x10 % 0x10, nnn % 0x10), rnd).state;
    assert t == Push(s, s.pc).(pc := nnn);
    assert Opcode(0, 0, 0xE, 0xE) == Encode(Return);
    ExecuteEncoded(t, Return, rnd);
    PushThenPop(s, s.pc);
  }

  /** 1nnn: the program continues at nnn; nothing else changes. */
  lemma JumpAbsolute(s: State, nnn: Addr, rnd: u8)
    requires WellFormed(s)
    ensures Executable(s, Opcode(1, nnn / 0x100, nnn / 0x10 % 0x10, nnn % 0x10))
    ensures Execute(s, Opcode(1, nnn / 0x100, nnn / 0x10 % 0x10, nnn % 0x10), rnd) == Ok(s.(pc := nnn))
  {
    assert Opcode(1, nnn / 0x100, nnn / 0x10 % 0x10, nnn % 0x10) == Encode(Jump(nnn));
    ExecuteEncoded(s, Jump(nnn), rnd);
  }

  /** Annn: I receives nnn; nothing else changes. */
  lemma LoadIndex(s: State, nnn: Addr, rnd: u8)
    requires WellFormed(s)
    ensures Executable(s, Opcode(0xA, nnn / 0x100, nnn / 0x10 % 0x10, nnn % 0x10))
    ensures Execute(s, Opcode(0xA, nnn / 0x100, nnn / 0x10 % 0x10, nnn % 0x10), rnd) == Ok(s.(i := nnn))
  {
    assert Opcode(0xA, nnn / 0x100, nnn / 0x10 % 0x10, nnn % 0x10) == Encode(LoadI(nnn));
    ExecuteEncoded(s, LoadI(nnn), rnd);
  }

  /**
    * Bnnn: the program continues at nnn + V0, which never overflows the u16 program
    * counter (it is below 0x1100); nothing else changes.
    */
  lemma JumpWithOffset(s: State, nnn: Addr, rnd: u8)
    requires WellFormed(s)
    ensures Executable(s, Opcode(0xB, nnn / 0x100, nnn / 0x10 % 0x10, nnn % 0x10))
    ensures var r := Execute(s, Opcode(0xB, nnn / 0x100, nnn / 0x10 % 0x10, nnn % 0x10), rnd);
      r.Ok? && r.state == s.(pc := r.state.pc) && r.state.pc == nnn + s.v[0] && r.state.pc < 0x1100
  {
    assert Opcode(0xB, nnn / 0x100, nnn / 0x10 % 0x10, nnn % 0x10) == Encode(JumpV0(nnn));
    ExecuteEncoded(s, JumpV0(nnn), rnd);
  }

  /** 00E0 switches every pixel off, and doing it again changes nothing. */
  lemma ClearScreenTwice(s: State, rnd: u8)
    requires WellFormed(s)
    ensures Executable(s, Opcode(0, 0, 0xE, 0))
    ensures var t := Execute(s, Opcode(0, 0, 0xE, 0), rnd).state;
      (forall cx, cy :: 0 <= cx < ScreenWidth && 0 <= cy < ScreenHeight ==> !t.display[cx][cy]) &&
      t == s.(display := t.display) &&
      WellFormed(t) && Executable(t, Opcode(0, 0, 0xE, 0)) &&
      Execute(t, Opcode(0, 0, 0xE, 0), rnd) == Ok(t)
  {
    assert Opcode(0, 0, 0xE, 0) == Encode(ClearScreen);
    ExecuteEncoded(s, ClearScreen, rnd);
  }

  /** Fx29: I points at the 5-byte glyph of digit Vx in the font at address 0. */
  lemma FontGlyphAddress(s: State, x: Nibble, rnd: u8)
    requires WellFormed(s) && s.v[x] < 0x10
    ensures Executable(s, Opcode(0xF, x, 2, 9))
    ensures var r := Execute(s, Opcode(0xF, x, 2, 9), rnd);
      r.Ok? && r.state == s.(i := r.state.i) &&
      r.state.i % 5 == 0 && r.state.i / 5 == s.v[x] && r.state.i + 5 <= 0x50
  {
    assert Opcode(0xF, x, 2, 9) == Encode(FontChar(x));
    ExecuteEncoded(s, FontChar(x), rnd);
  }

  /**
    * An instruction that does not fault keeps the stack pointer at most 16, the bound
    * `new` starts under; only 2nnn and 00EE move it.
    */
  lemma ExecuteKeepsStackBound(s: State, op: u16, rnd: u8)
    requires WellFormed(s) && s.sp <= StackSize && Executable(s, op)
    ensures var r := Execute(s, op, rnd);
      r.Ok? ==> (r.state.sp <= StackSize &&
        (r.state.sp != s.sp ==> Decode(op).value.Call? || Decode(op).value.Return?))
  {
    if Decode(op).Some? {
      var ins := Decode(op).value;
      StackPointerBounded(s, s.pc);
      match ins
      case DrawSprite(x, y, n) =>
      case _ =>
    }
  }
}
