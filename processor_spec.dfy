/**
  * The interpreter of src/processor.rs as functions on the machine state: the
  * big-endian fetch, the decoding of an opcode into its four nibbles and the
  * instruction it names, the effect of each instruction, and one cycle.
  */
module Processor {
  import opened Bits
  import opened MemorySpec
  import Graphics

  datatype Option<T> = None | Some(value: T)

  /** The instruction forms `execute` accepts, one per arm of its match. */
  datatype Instr =
    | Nop                        // 0000
    | ClearScreen                // 00E0
    | Return                     // 00EE
    | Jump(nnn: Addr)            // 1nnn
    | Call(nnn: Addr)            // 2nnn
    | SkipEqImm(x: Nibble, kk: u8)   // 3xkk
    | SkipNeImm(x: Nibble, kk: u8)   // 4xkk
    | SkipEqReg(x: Nibble, y: Nibble) // 5xy0
    | LoadImm(x: Nibble, kk: u8)     // 6xkk
    | AddImm(x: Nibble, kk: u8)      // 7xkk
    | Move(x: Nibble, y: Nibble)     // 8xy0
    | Or(x: Nibble, y: Nibble)       // 8xy1
    | And(x: Nibble, y: Nibble)      // 8xy2
    | Xor(x: Nibble, y: Nibble)      // 8xy3
    | AddReg(x: Nibble, y: Nibble)   // 8xy4
    | SubReg(x: Nibble, y: Nibble)   // 8xy5
    | ShiftRight(x: Nibble, y: Nibble) // 8xy6
    | SubNeg(x: Nibble, y: Nibble)   // 8xy7
    | ShiftLeft(x: Nibble, y: Nibble)  // 8xyE
    | SkipNeReg(x: Nibble, y: Nibble)  // 9xy0
    | LoadI(nnn: Addr)               // Annn
    | JumpV0(nnn: Addr)              // Bnnn
    | Random(x: Nibble, kk: u8)      // Cxkk
    | DrawSprite(x: Nibble, y: Nibble, n: Nibble) // Dxyn
    | SkipKey(x: Nibble)             // Ex9E
    | SkipNotKey(x: Nibble)          // ExA1
    | GetDelay(x: Nibble)            // Fx07
    | WaitKey(x: Nibble)             // Fx0A
    | SetDelay(x: Nibble)            // Fx15
    | SetSound(x: Nibble)            // Fx18
    | AddI(x: Nibble)                // Fx1E
    | FontChar(x: Nibble)            // Fx29
    | StoreBcd(x: Nibble)            // Fx33
    | StoreRegs(x: Nibble)           // Fx55
    | LoadRegs(x: Nibble)            // Fx65

  /** The opcode with nibbles `m x y n`, most significant first. */
  function Opcode(m: Nibble, x: Nibble, y: Nibble, n: Nibble): u16
  {
    ((m * 0x10 + x) * 0x10 + y) * 0x10 + n
  }

  /**
    * `(opcode & 0xF000) >> 12`, `(opcode & 0x0F00) >> 8`, `(opcode & 0x00F0) >> 4` and
    * `opcode & 0x000F`; the four nibbles put back together give the opcode.
    */
  function Nibbles(op: u16): (r: (Nibble, Nibble, Nibble, Nibble))
    ensures Opcode(r.0, r.1, r.2, r.3) == op
  {
    var low := op / 0x10;
    var middle := low / 0x10;
    (middle / 0x10, middle % 0x10, low % 0x10, op % 0x10)
  }

  /** Splitting an opcode built from four nibbles gives back those nibbles, `kk` and `nnn`. */
  lemma NibblesOfOpcode(m: Nibble, x: Nibble, y: Nibble, n: Nibble)
    ensures Nibbles(Opcode(m, x, y, n)) == (m, x, y, n)
    ensures Opcode(m, x, y, n) % 0x100 == y * 0x10 + n
    ensures Opcode(m, x, y, n) % 0x1000 == x * 0x100 + y * 0x10 + n
  {
    var op := Opcode(m, x, y, n);
    var low, middle := (m * 0x10 + x) * 0x10 + y, m * 0x10 + x;
    assert op / 0x10 == low && op % 0x10 == n;
    assert low / 0x10 == middle && low % 0x10 == y;
    assert middle / 0x10 == m && middle % 0x10 == x;
    assert op == middle * 0x100 + (y * 0x10 + n);
    assert op == m * 0x1000 + (x * 0x100 + y * 0x10 + n);
  }

  /** The instruction an opcode names, in the order of `execute`'s match; `None` for its last arm. */
  function Decode(op: u16): Option<Instr>
  {
    var (m, x, y, n) := Nibbles(op);
    DecodeNibbles(m, x, y, n)
  }

  /**
    * The match of `execute` on the nibble tuple. `nnn` is `opcode & 0x0FFF` and `kk` is
    * `opcode & 0x00FF`, put together here from the low nibbles.
    */
  function DecodeNibbles(m: Nibble, x: Nibble, y: Nibble, n: Nibble): Option<Instr>
  {
    var nnn: Addr, kk: u8 := (x * 0x10 + y) * 0x10 + n, y * 0x10 + n;
    match (m, x, y, n)
    case (0, 0, 0, 0) => Some(Nop)
    case (0, 0, 0xE, 0) => Some(ClearScreen)
    case (0, 0, 0xE, 0xE) => Some(Return)
    case (1, _, _, _) => Some(Jump(nnn))
    case (2, _, _, _) => Some(Call(nnn))
    case (3, _, _, _) => Some(SkipEqImm(x, kk))
    case (4, _, _, _) => Some(SkipNeImm(x, kk))
    case (5, _, _, 0) => Some(SkipEqReg(x, y))
    case (6, _, _, _) => Some(LoadImm(x, kk))
    case (7, _, _, _) => Some(AddImm(x, kk))
    case (8, _, _, 0) => Some(Move(x, y))
    case (8, _, _, 1) => Some(Or(x, y))
    case (8, _, _, 2) => Some(And(x, y))
    case (8, _, _, 3) => Some(Xor(x, y))
    case (8, _, _, 4) => Some(AddReg(x, y))
    case (8, _, _, 5) => Some(SubReg(x, y))
    case (8, _, _, 6) => Some(ShiftRight(x, y))
    case (8, _, _, 7) => Some(SubNeg(x, y))
    case (8, _, _, 0xE) => Some(ShiftLeft(x, y))
    case (9, _, _, 0) => Some(SkipNeReg(x, y))
    case (0xA, _, _, _) => Some(LoadI(nnn))
    case (0xB, _, _, _) => Some(JumpV0(nnn))
    case (0xC, _, _, _) => Some(Random(x, kk))
    case (0xD, _, _, _) => Some(DrawSprite(x, y, n))
    case (0xE, _, 9, 0xE) => Some(SkipKey(x))
    case (0xE, _, 0xA, 1) => Some(SkipNotKey(x))
    case (0xF, _, 0, 7) => Some(GetDelay(x))
    case (0xF, _, 0, 0xA) => Some(WaitKey(x))
    case (0xF, _, 1, 5) => Some(SetDelay(x))
    case (0xF, _, 1, 8) => Some(SetSound(x))
    case (0xF, _, 1, 0xE) => Some(AddI(x))
    case (0xF, _, 2, 9) => Some(FontChar(x))
    case (0xF, _, 3, 3) => Some(StoreBcd(x))
    case (0xF, _, 5, 5) => Some(StoreRegs(x))
    case (0xF, _, 6, 5) => Some(LoadRegs(x))
    case _ => None
  }

  /** The nibbles of an instruction's opcode, most significant first. */
  function Fields(ins: Instr): (Nibble, Nibble, Nibble, Nibble)
  {
    match ins
    case Nop => (0, 0, 0, 0)
    case ClearScreen => (0, 0, 0xE, 0)
    case Return => (0, 0, 0xE, 0xE)
    case Jump(nnn) => (1, nnn / 0x100, nnn / 0x10 % 0x10, nnn % 0x10)
    case Call(nnn) => (2, nnn / 0x100, nnn / 0x10 % 0x10, nnn % 0x10)
    case SkipEqImm(x, kk) => (3, x, kk / 0x10, kk % 0x10)
    case SkipNeImm(x, kk) => (4, x, kk / 0x10, kk % 0x10)
    case SkipEqReg(x, y) => (5, x, y, 0)
    case LoadImm(x, kk) => (6, x, kk / 0x10, kk % 0x10)
    case AddImm(x, kk) => (7, x, kk / 0x10, kk % 0x10)
    case Move(x, y) => (8, x, y, 0)
    case Or(x, y) => (8, x, y, 1)
    case And(x, y) => (8, x, y, 2)
    case Xor(x, y) => (8, x, y, 3)
    case AddReg(x, y) => (8, x, y, 4)
    case SubReg(x, y) => (8, x, y, 5)
    case ShiftRight(x, y) => (8, x, y, 6)
    case SubNeg(x, y) => (8, x, y, 7)
    case ShiftLeft(x, y) => (8, x, y, 0xE)
    case SkipNeReg(x, y) => (9, x, y, 0)
    case LoadI(nnn) => (0xA, nnn / 0x100, nnn / 0x10 % 0x10, nnn % 0x10)
    case JumpV0(nnn) => (0xB, nnn / 0x100, nnn / 0x10 % 0x10, nnn % 0x10)
    case Random(x, kk) => (0xC, x, kk / 0x10, kk % 0x10)
    case DrawSprite(x, y, n) => (0xD, x, y, n)
    case SkipKey(x) => (0xE, x, 9, 0xE)
    case SkipNotKey(x) => (0xE, x, 0xA, 1)
    case GetDelay(x) => (0xF, x, 0, 7)
    case WaitKey(x) => (0xF, x, 0, 0xA)
    case SetDelay(x) => (0xF, x, 1, 5)
    case SetSound(x) => (0xF, x, 1, 8)
    case AddI(x) => (0xF, x, 1, 0xE)
    case FontChar(x) => (0xF, x, 2, 9)
    case StoreBcd(x) => (0xF, x, 3, 3)
    case StoreRegs(x) => (0xF, x, 5, 5)
    case LoadRegs(x) => (0xF, x, 6, 5)
  }

  /** The opcode of an instruction: the inverse of `Decode`. */
  function Encode(ins: Instr): u16
  {
    var (m, x, y, n) := Fields(ins);
    Opcode(m, x, y, n)
  }

  /** A 12-bit address splits into three nibbles and a byte into two. */
  lemma SplitFields(nnn: Addr, kk: u8)
    ensures nnn == ((nnn / 0x100) * 0x10 + nnn / 0x10 % 0x10) * 0x10 + nnn % 0x10
    ensures kk == (kk / 0x10) * 0x10 + kk % 0x10
  {
  }

  /** The nibbles of an opcode put back together. */
  lemma JoinFields(x: Nibble, y: Nibble, n: Nibble)
    ensures ((x * 0x10 + y) * 0x10 + n) / 0x100 == x
    ensures ((x * 0x10 + y) * 0x10 + n) / 0x10 % 0x10 == y
    ensures ((x * 0x10 + y) * 0x10 + n) % 0x10 == n
    ensures (y * 0x10 + n) / 0x10 == y && (y * 0x10 + n) % 0x10 == n
  {
  }

  /** Every instruction's nibbles decode back to it. */
  lemma DecodeFields(ins: Instr)
    ensures DecodeNibbles(Fields(ins).0, Fields(ins).1, Fields(ins).2, Fields(ins).3) == Some(ins)
  {
    var m := Fields(ins).0;
    if m < 3 {
      DecodeFieldsFlow(ins);
    } else if m < 8 {
      DecodeFieldsImmediate(ins);
    } else if m == 8 {
      DecodeFieldsRegisters(ins);
    } else if m < 0xE {
      DecodeFieldsHigh(ins);
    } else {
      DecodeFieldsDevices(ins);
    }
  }

  /** The instructions whose leading nibble is 0, 1 or 2. */
  lemma DecodeFieldsFlow(ins: Instr)
    requires Fields(ins).0 < 3
    ensures DecodeNibbles(Fields(ins).0, Fields(ins).1, Fields(ins).2, Fields(ins).3) == Some(ins)
  {
    match ins
    case Jump(nnn) => SplitFields(nnn, 0);
    case Call(nnn) => SplitFields(nnn, 0);
    case _ =>
  }

  /** The instructions whose leading nibble is 3 to 7. */
  lemma DecodeFieldsImmediate(ins: Instr)
    requires 3 <= Fields(ins).0 < 8
    ensures DecodeNibbles(Fields(ins).0, Fields(ins).1, Fields(ins).2, Fields(ins).3) == Some(ins)
  {
    match ins
    case SkipEqImm(_, kk) => SplitFields(0, kk);
    case SkipNeImm(_, kk) => SplitFields(0, kk);
    case LoadImm(_, kk) => SplitFields(0, kk);
    case AddImm(_, kk) => SplitFields(0, kk);
    case _ =>
  }

  /** The 8xyN instructions. */
  lemma DecodeFieldsRegisters(ins: Instr)
    requires Fields(ins).0 == 8
    ensures DecodeNibbles(Fields(ins).0, Fields(ins).1, Fields(ins).2, Fields(ins).3) == Some(ins)
  {
  }

  /** The instructions whose leading nibble is 9 to D. */
  lemma DecodeFieldsHigh(ins: Instr)
    requires 8 < Fields(ins).0 < 0xE
    ensures DecodeNibbles(Fields(ins).0, Fields(ins).1, Fields(ins).2, Fields(ins).3) == Some(ins)
  {
    match ins
    case LoadI(nnn) => SplitFields(nnn, 0);
    case JumpV0(nnn) => SplitFields(nnn, 0);
    case Random(_, kk) => SplitFields(0, kk);
    case _ =>
  }

  /** The ExNN and FxNN instructions. */
  lemma DecodeFieldsDevices(ins: Instr)
    requires Fields(ins).0 >= 0xE
    ensures DecodeNibbles(Fields(ins).0, Fields(ins).1, Fields(ins).2, Fields(ins).3) == Some(ins)
  {
  }

  /** Every instruction is decoded from its own opcode. */
  lemma DecodeEncode(ins: Instr)
    ensures Decode(Encode(ins)) == Some(ins)
  {
    var (m, x, y, n) := Fields(ins);
    NibblesOfOpcode(m, x, y, n);
    DecodeFields(ins);
  }

  lemma FieldsDecode(m: Nibble, x: Nibble, y: Nibble, n: Nibble)
    requires DecodeNibbles(m, x, y, n).Some?
    ensures Fields(DecodeNibbles(m, x, y, n).value) == (m, x, y, n)
  {
    JoinFields(x, y, n);
    var nnn: Addr, kk: u8 := (x * 0x10 + y) * 0x10 + n, y * 0x10 + n;
    if m in {1, 2, 0xA, 0xB} {
      assert (nnn / 0x100, nnn / 0x10 % 0x10, nnn % 0x10) == (x, y, n);
    } else if m in {3, 4, 6, 7, 0xC} {
      assert (kk / 0x10, kk % 0x10) == (y, n);
    } else if m == 8 {
    } else if m == 0xF {
    } else {
    }
  }

  /** An opcode that decodes to an instruction is that instruction's encoding. */
  lemma EncodeDecode(op: u16)
    requires Decode(op).Some?
    ensures Encode(Decode(op).value) == op
  {
    var (m, x, y, n) := Nibbles(op);
    FieldsDecode(m, x, y, n);
  }

  /** The lowest index of a pressed key, if any: the search of Fx0A. */
  function LowestPressed(keys: seq<bool>): (r: Option<nat>)
    ensures r.Some? ==> r.value < |keys| && keys[r.value] && forall k :: 0 <= k < r.value ==> !keys[k]
    ensures r.None? ==> forall k :: 0 <= k < |keys| ==> !keys[k]
    decreases |keys|
  {
    if |keys| == 0 then None
    else if keys[0] then Some(0)
    else match LowestPressed(keys[1..])
      case None => None
      case Some(k) => Some(k + 1)
  }

  /** `program_counter += 2` does not overflow its u16. */
  predicate CanSkip(s: State)
  {
    s.pc + 2 < 0x1_0000
  }

  /**
    * What an instruction's arm demands of the state so that no index goes out of
    * bounds and no u16 or u8 arithmetic overflows; Rust panics otherwise.
    */
  predicate Safe(s: State, ins: Instr)
    requires WellFormed(s)
  {
    match ins
    case Return => CanPop(s)
    case Call(_) => CanPush(s)
    case SkipEqImm(x, kk) => s.v[x] == kk ==> CanSkip(s)
    case SkipNeImm(x, kk) => s.v[x] != kk ==> CanSkip(s)
    case SkipEqReg(x, y) => s.v[x] == s.v[y] ==> CanSkip(s)
    case SkipNeReg(x, y) => s.v[x] != s.v[y] ==> CanSkip(s)
    case DrawSprite(_, _, n) => Graphics.CanDraw(s, n)
    case SkipKey(x) => s.v[x] < KeyboardSize && (s.keyboard[s.v[x]] ==> CanSkip(s))
    case SkipNotKey(x) => s.v[x] < KeyboardSize && (!s.keyboard[s.v[x]] ==> CanSkip(s))
    case WaitKey(_) => LowestPressed(s.keyboard).None? ==> s.pc >= 2
    case FontChar(x) => s.v[x] as int * 5 < 0x100
    case StoreBcd(_) => s.i + 2 < RamSize
    case StoreRegs(x) => s.i + x < RamSize
    case LoadRegs(x) => s.i + x < RamSize
    case _ => true
  }

  /** Advance the program counter past the next instruction when `cond` holds. */
  function SkipIf(s: State, cond: bool): State
    requires cond ==> CanSkip(s)
  {
    if cond then s.(pc := s.pc + 2) else s
  }

  /**
    * The effect of one arm of `execute`; `rnd` is the byte Cxkk draws from the random
    * source. The arms are grouped by the leading nibble of their opcode.
    */
  function Step(s: State, ins: Instr, rnd: u8): (r: State)
    requires WellFormed(s) && Safe(s, ins)
    ensures WellFormed(r)
  {
    var m := Fields(ins).0;
    if m < 8 then StepLow(s, ins)
    else if m == 8 then StepRegisters(s, ins)
    else if m < 0xF then StepHigh(s, ins, rnd)
    else StepMisc(s, ins)
  }

  /** Only Cxkk reads the random byte: every other arm has the same effect whatever it is. */
  lemma StepIgnoresRandom(s: State, ins: Instr, rnd: u8)
    requires WellFormed(s) && Safe(s, ins) && !ins.Random?
    ensures Step(s, ins, rnd) == Step(s, ins, 0)
  {
    if 8 < Fields(ins).0 < 0xF {
      assert StepHigh(s, ins, rnd) == StepHigh(s, ins, 0);
    }
  }

  /** The arms 0000 to 7xkk: control flow, skips and immediate loads. */
  function StepLow(s: State, ins: Instr): (r: State)
    requires WellFormed(s) && Safe(s, ins) && Fields(ins).0 < 8
    ensures WellFormed(r)
  {
    match ins
    case ClearScreen => s.(display := Blank())
    case Return =>
      var (address, t) := Pop(s);
      t.(pc := address)
    case Jump(nnn) => s.(pc := nnn)
    case Call(nnn) => Push(s, s.pc).(pc := nnn)
    case SkipEqImm(x, kk) => SkipIf(s, s.v[x] == kk)
    case SkipNeImm(x, kk) => SkipIf(s, s.v[x] != kk)
    case SkipEqReg(x, y) => SkipIf(s, s.v[x] == s.v[y])
    case LoadImm(x, kk) => s.(v := s.v[x := kk])
    case AddImm(x, kk) => s.(v := s.v[x := (s.v[x] + kk) % 0x100])
    // 0000, and no other instruction of this block
    case _ => s
  }

  /** The 8xyN arms: register to register, with the flag in VF. */
  function StepRegisters(s: State, ins: Instr): (r: State)
    requires WellFormed(s) && Fields(ins).0 == 8
    ensures WellFormed(r)
  {
    match ins
    case Move(x, y) => s.(v := s.v[x := s.v[y]])
    case Or(x, y) => s.(v := s.v[x := BitOr(s.v[x], s.v[y])])
    case And(x, y) => s.(v := s.v[x := BitAnd(s.v[x], s.v[y])])
    case Xor(x, y) => s.(v := s.v[x := BitXor(s.v[x], s.v[y])])
    case AddReg(x, y) =>
      var sum := s.v[x] as int + s.v[y];
      s.(v := s.v[x := sum % 0x100][0xF := if sum > 0xFF then 1 else 0])
    case SubReg(x, y) =>
      var borrow := s.v[x] < s.v[y];
      s.(v := s.v[x := (s.v[x] as int - s.v[y]) % 0x100][0xF := if borrow then 0 else 1])
    case ShiftRight(x, _) =>
      s.(v := s.v[x := s.v[x] / 2][0xF := s.v[x] % 2])
    case SubNeg(x, y) =>
      var borrow := s.v[y] < s.v[x];
      s.(v := s.v[x := (s.v[y] as int - s.v[x]) % 0x100][0xF := if borrow then 0 else 1])
    case ShiftLeft(x, _) =>
      s.(v := s.v[x := s.v[x] as int * 2 % 0x100][0xF := s.v[x] / 0x80])
    // no other instruction has leading nibble 8
    case _ => s
  }

  /** The arms 9xy0 to ExA1: register skip, I, jump with offset, random, draw and key skips. */
  function StepHigh(s: State, ins: Instr, rnd: u8): (r: State)
    requires WellFormed(s) && Safe(s, ins) && 8 < Fields(ins).0 < 0xF
    ensures WellFormed(r)
  {
    match ins
    case SkipNeReg(x, y) => SkipIf(s, s.v[x] != s.v[y])
    case LoadI(nnn) => s.(i := nnn)
    case JumpV0(nnn) => s.(pc := nnn + s.v[0])
    case Random(x, kk) => s.(v := s.v[x := BitAnd(rnd, kk)])
    case DrawSprite(x, y, n) => Graphics.Draw(s, x, y, n)
    case SkipKey(x) => SkipIf(s, s.keyboard[s.v[x]])
    case SkipNotKey(x) => SkipIf(s, !s.keyboard[s.v[x]])
    // no other instruction has a leading nibble from 9 to E
    case _ => s
  }

  /** The FxNN arms: timers, key wait, I, BCD and the register block copies. */
  function StepMisc(s: State, ins: Instr): (r: State)
    requires WellFormed(s) && Safe(s, ins) && Fields(ins).0 == 0xF
    ensures WellFormed(r)
  {
    match ins
    case GetDelay(x) => s.(v := s.v[x := s.delay])
    case WaitKey(x) =>
      (match LowestPressed(s.keyboard)
       case Some(k) => s.(v := s.v[x := k])
       case None => s.(pc := s.pc - 2))
    case SetDelay(x) => s.(delay := s.v[x])
    case SetSound(x) => s.(sound := s.v[x])
    case AddI(x) => s.(i := (s.i + s.v[x]) % 0x1_0000)
    case FontChar(x) => s.(i := s.v[x] * 5)
    case StoreBcd(x) =>
      var number := s.v[x];
      s.(memory := s.memory[s.i := number / 100 % 10][s.i + 1 := number / 10 % 10][s.i + 2 := number % 10])
    case StoreRegs(x) =>
      s.(memory := seq(RamSize, a requires 0 <= a < RamSize =>
        if s.i <= a <= s.i + x then s.v[a - s.i] else s.memory[a]))
    case LoadRegs(x) =>
      s.(v := seq(RegisterCount, k requires 0 <= k < RegisterCount =>
        if k <= x then s.memory[s.i + k] else s.v[k]))
    // no other instruction has leading nibble F
    case _ => s
  }

  /** The outcome of `execute`: the new state, or the fatal `unimplemented!` with the opcode. */
  datatype Outcome = Ok(state: State) | Unimplemented(opcode: u16)

  /** `execute` does not panic on `op`: it is unimplemented, or its arm's demands hold. */
  predicate Executable(s: State, op: u16)
    requires WellFormed(s)
  {
    Decode(op).Some? ==> Safe(s, Decode(op).value)
  }

  /** `execute(opcode)`. */
  function Execute(s: State, op: u16, rnd: u8): (r: Outcome)
    requires WellFormed(s) && Executable(s, op)
    ensures r.Unimplemented? <==> Decode(op).None?
    ensures r.Unimplemented? ==> r.opcode == op
    ensures r.Ok? ==> WellFormed(r.state)
  {
    match Decode(op)
    case None => Unimplemented(op)
    case Some(ins) => Ok(Step(s, ins, rnd))
  }

  /** `fetch_opcode_from` reads `memory[pc]` and `memory[pc + 1]`. */
  predicate CanFetch(s: State)
  {
    s.pc + 1 < RamSize
  }

  /**
    * `fetch_opcode_from`: the big-endian word at the program counter, which moves on by 2.
    * The high byte of the opcode is `memory[pc]` and the low byte `memory[pc + 1]`.
    */
  function Fetch(s: State): (r: (u16, State))
    requires WellFormed(s) && CanFetch(s)
    ensures r.0 / 0x100 == s.memory[s.pc] && r.0 % 0x100 == s.memory[s.pc + 1]
    ensures r.1 == s.(pc := s.pc + 2)
  {
    (s.memory[s.pc] as int * 0x100 + s.memory[s.pc + 1], s.(pc := s.pc + 2))
  }

  predicate CanCycle(s: State)
    requires WellFormed(s)
  {
    CanFetch(s) && Executable(Fetch(s).1, Fetch(s).0)
  }

  /** `cicle`: fetch, then execute. */
  function Cycle(s: State, rnd: u8): (r: Outcome)
    requires WellFormed(s) && CanCycle(s)
    ensures r.Ok? ==> WellFormed(r.state)
  {
    var (op, t) := Fetch(s);
    Execute(t, op, rnd)
  }
}
