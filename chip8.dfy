/**
  * The emulator as the Rust code has it: one struct of fixed-size arrays and scalar
  * fields (`MemoryComponents`, called `Chip8` in src/processor.rs), whose methods
  * update it in place. Every method is proved to have the effect of the matching
  * function of MemorySpec, Graphics or Processor on the abstract state `Abs()`.
  */
module Emulator {
  import opened Bits
  import opened MemorySpec
  import opened Processor
  import Graphics

  class Chip8 {
    /** `display[x][y]`, 64 columns of 32 pixels. */
    var display: array2<bool>
    const memory: array<u8>
    const keyboard: array<bool>
    const stack: array<u16>
    /** The registers V0..VF. */
    const vReg: array<u8>
    var iReg: u16
    var programCounter: u16
    var stackPointer: nat
    var delayTimer: u8
    var soundTimer: u8

    /** The array sizes of the struct's fields; memory and registers are distinct arrays. */
    ghost predicate Valid()
      reads this
    {
      display.Length0 == ScreenWidth && display.Length1 == ScreenHeight &&
      memory.Length == RamSize && keyboard.Length == KeyboardSize &&
      stack.Length == StackSize && vReg.Length == RegisterCount &&
      memory != vReg
    }

    /** The framebuffer as a sequence of columns. */
    ghost function Screen(): (d: seq<seq<bool>>)
      reads this`display, display
      requires display.Length0 == ScreenWidth && display.Length1 == ScreenHeight
      ensures ScreenShaped(d)
      ensures forall x, y :: 0 <= x < ScreenWidth && 0 <= y < ScreenHeight ==> d[x][y] == display[x, y]
    {
      var a := display;
      seq(ScreenWidth, x requires 0 <= x < ScreenWidth reads a =>
        seq(ScreenHeight, y requires 0 <= y < ScreenHeight reads a => a[x, y]))
    }

    /** The whole machine state as a value. */
    ghost function Abs(): (s: State)
      reads this, display, memory, keyboard, stack, vReg
      requires Valid()
      ensures WellFormed(s)
    {
      State(Screen(), memory[..], keyboard[..], stack[..], vReg[..],
            iReg, programCounter, stackPointer, delayTimer, soundTimer)
    }

    /** `MemoryComponents::new`. */
    constructor ()
      ensures Valid() && Abs() == New()
      ensures fresh(display) && fresh(memory) && fresh(keyboard) && fresh(stack) && fresh(vReg)
    {
      display := new bool[ScreenWidth, ScreenHeight]((x, y) => false);
      memory := new u8[RamSize](_ => 0);
      keyboard := new bool[KeyboardSize](_ => false);
      stack := new u16[StackSize](_ => 0);
      vReg := new u8[RegisterCount](_ => 0);
      iReg, programCounter, stackPointer, delayTimer, soundTimer := 0, ProgramStart, 0, 0, 0;
      new;
      SameScreen(Screen(), Blank());
    }

    /** `load_font`: copy the font bytes to the start of memory and return the memory. */
    method LoadFont(font: seq<u8>) returns (contents: seq<u8>)
      requires Valid() && |font| <= RamSize
      modifies memory
      ensures Valid() && Abs() == MemorySpec.LoadFont(old(Abs()), font)
      ensures contents == Abs().memory
    {
      for k := 0 to |font|
        invariant memory[..k] == font[..k]
        invariant memory[k..] == old(memory[k..])
      {
        memory[k] := font[k];
      }
      assert memory[..] == memory[..|font|] + memory[|font|..];
      contents := memory[..];
    }

    /** `load_rom`: copy the ROM bytes to memory from address 0x200 on. */
    method LoadRom(data: seq<u8>)
      requires Valid() && |data| <= MaxRomSize
      modifies memory
      ensures Valid() && Abs() == MemorySpec.LoadRom(old(Abs()), data)
    {
      forall k | 0 <= k < |data| {
        memory[ProgramStart + k] := data[k];
      }
      assert memory[..] == MemorySpec.LoadRom(old(Abs()), data).memory;
    }

    /** `stack_push`. */
    method StackPush(value: u16)
      requires Valid() && CanPush(Abs())
      modifies this`stackPointer, stack
      ensures Valid() && Abs() == Push(old(Abs()), value)
    {
      if stackPointer == OverflowIndex {
        stackPointer := 0;
      } else {
        stack[stackPointer] := value;
        stackPointer := stackPointer + 1;
      }
    }

    /** `stack_pop`. */
    method StackPop() returns (address: u16)
      requires Valid() && CanPop(Abs())
      modifies this`stackPointer
      ensures Valid() && (address, Abs()) == Pop(old(Abs()))
    {
      if stackPointer == 0 {
        stackPointer := 1;
      }
      stackPointer := stackPointer - 1;
      address := stack[stackPointer];
    }

    /** `tick_timers`. */
    method TickTimers()
      requires Valid()
      modifies this`delayTimer, this`soundTimer
      ensures Valid() && Abs() == MemorySpec.TickTimers(old(Abs()))
    {
      if delayTimer > 0 {
        delayTimer := delayTimer - 1;
      }
      if soundTimer > 0 {
        soundTimer := soundTimer - 1;
      }
    }

    /** `keypress`. */
    method KeyPress(keycode: int, status: bool)
      requires Valid() && 0 <= keycode < KeyboardSize
      modifies keyboard
      ensures Valid() && Abs() == MemorySpec.KeyPress(old(Abs()), keycode, status)
    {
      keyboard[keycode] := status;
    }

    /** `fetch_opcode_from`. */
    method FetchOpcode() returns (opcode: u16)
      requires Valid() && CanFetch(Abs())
      modifies this`programCounter
      ensures Valid() && (opcode, Abs()) == Fetch(old(Abs()))
    {
      var mostSigByte := memory[programCounter];
      var lastSigByte := memory[programCounter + 1];
      opcode := mostSigByte as int * 0x100 + lastSigByte;
      programCounter := programCounter + 2;
    }

    /** `draw` (0xDxyn): plot `n` sprite rows from `memory[I..]` at (Vx, Vy), collision in VF. */
    method Draw(x: Nibble, y: Nibble, n: Nibble)
      requires Valid() && Graphics.CanDraw(Abs(), n)
      modifies vReg, display
      ensures Valid() && Abs() == Graphics.Draw(old(Abs()), x, y, n)
    {
      ghost var before := Abs();
      ghost var sprite := Graphics.SpriteRows(before, n);
      vReg[0xF] := 0;
      var xCoord := vReg[x];
      var yCoord := vReg[y];
      var flipped := false;
      for j := 0 to n
        invariant vReg[..] == before.v[0xF := 0]
        invariant forall cx, cy :: 0 <= cx < ScreenWidth && 0 <= cy < ScreenHeight ==>
          display[cx, cy] == (before.display[cx][cy] || Graphics.Covers(xCoord, yCoord, sprite, j, cx, cy))
        invariant flipped == Graphics.Hits(before.display, xCoord, yCoord, sprite, j)
      {
        var address := iReg + j;
        var pixels := memory[address];
        flipped := DrawRow(before.display, sprite, xCoord, yCoord, j, pixels, flipped);
      }
      vReg[0xF] := if flipped then 1 else 0;
      SameScreen(Screen(), Graphics.Plot(before.display, xCoord, yCoord, sprite));
    }

    /**
      * The inner loop of `draw` for sprite row `j`, whose byte is `pixels`: every set bit
      * switches its target pixel on, and `flipped` records a target that was already on.
      * A target is never touched twice in one `draw`, so what the loop reads is `d0`.
      */
    method DrawRow(ghost d0: seq<seq<bool>>, ghost sprite: seq<u8>, xCoord: u8, yCoord: u8, j: nat,
                   pixels: u8, flipped: bool) returns (hit: bool)
      requires display.Length0 == ScreenWidth && display.Length1 == ScreenHeight
      requires ScreenShaped(d0) && j < |sprite| < ScreenHeight && pixels == sprite[j]
      requires forall cx, cy :: 0 <= cx < ScreenWidth && 0 <= cy < ScreenHeight ==>
        display[cx, cy] == (d0[cx][cy] || Graphics.Covers(xCoord, yCoord, sprite, j, cx, cy))
      requires flipped == Graphics.Hits(d0, xCoord, yCoord, sprite, j)
      modifies display
      ensures forall cx, cy :: 0 <= cx < ScreenWidth && 0 <= cy < ScreenHeight ==>
        display[cx, cy] == (d0[cx][cy] || Graphics.Covers(xCoord, yCoord, sprite, j + 1, cx, cy))
      ensures hit == Graphics.Hits(d0, xCoord, yCoord, sprite, j + 1)
    {
      hit := flipped;
      for i := 0 to 8
        invariant forall cx, cy :: 0 <= cx < ScreenWidth && 0 <= cy < ScreenHeight ==>
          display[cx, cy] == (d0[cx][cy] || Graphics.Covers(xCoord, yCoord, sprite, j, cx, cy) ||
                              Graphics.RowCovers(xCoord, yCoord, pixels, j, i, cx, cy))
        invariant hit == (Graphics.Hits(d0, xCoord, yCoord, sprite, j) ||
                          Graphics.RowHits(d0, xCoord, yCoord, pixels, j, i))
      {
        if SpriteBit(pixels, i) {
          var actualX := (xCoord + i) % ScreenWidth;
          var actualY := (yCoord + j) % ScreenHeight;
          Graphics.NotCoveredByEarlierRows(xCoord, yCoord, sprite, j, j, actualX);
          Graphics.NotCoveredByEarlierBits(xCoord, yCoord, pixels, j, i, i, actualY);
          hit := hit || display[actualX, actualY];
          display[actualX, actualY] := true;
        }
      }
    }

    /** Fx0A: latch the lowest pressed key into Vx, or step back to repeat the instruction. */
    method WaitKey(x: Nibble)
      requires Valid() && Safe(Abs(), Processor.WaitKey(x))
      modifies this`programCounter, vReg
      ensures Valid() && Abs() == Step(old(Abs()), Processor.WaitKey(x), 0)
    {
      var pressed := false;
      for k := 0 to KeyboardSize
        invariant !pressed
        invariant forall j :: 0 <= j < k ==> !keyboard[j]
        invariant vReg[..] == old(vReg[..])
      {
        if keyboard[k] {
          vReg[x] := k;
          pressed := true;
          break;
        }
      }
      if !pressed {
        programCounter := programCounter - 2;
      }
    }

    /** Fx33: the hundreds, tens and ones digits of Vx at I, I + 1 and I + 2. */
    method StoreBcd(x: Nibble)
      requires Valid() && Safe(Abs(), Processor.StoreBcd(x))
      modifies memory
      ensures Valid() && Abs() == Step(old(Abs()), Processor.StoreBcd(x), 0)
    {
      var number := vReg[x];
      var hundredDigit := number / 100 % 10;
      var tenDigit := number / 10 % 10;
      var lastDigit := number % 10;
      memory[iReg] := hundredDigit;
      memory[iReg + 1] := tenDigit;
      memory[iReg + 2] := lastDigit;
    }

    /** Fx55: copy V0..Vx to memory from I on. */
    method StoreRegs(x: Nibble)
      requires Valid() && Safe(Abs(), Processor.StoreRegs(x))
      modifies memory
      ensures Valid() && Abs() == Step(old(Abs()), Processor.StoreRegs(x), 0)
    {
      for k := 0 to x + 1
        invariant forall a :: 0 <= a < RamSize ==>
          memory[a] == if iReg <= a < iReg + k then vReg[a - iReg] else old(memory[a])
      {
        memory[iReg + k] := vReg[k];
      }
      assert memory[..] == Step(old(Abs()), Processor.StoreRegs(x), 0).memory;
    }

    /** Fx65: copy memory from I on into V0..Vx. */
    method LoadRegs(x: Nibble)
      requires Valid() && Safe(Abs(), Processor.LoadRegs(x))
      modifies vReg
      ensures Valid() && Abs() == Step(old(Abs()), Processor.LoadRegs(x), 0)
    {
      for k := 0 to x + 1
        invariant forall r :: 0 <= r < RegisterCount ==>
          vReg[r] == if r < k then memory[iReg + r] else old(vReg[r])
      {
        vReg[k] := memory[iReg + k];
      }
      assert vReg[..] == Step(old(Abs()), Processor.LoadRegs(x), 0).v;
    }

    /** `execute`: decode the opcode into four nibbles and run the matching arm. */
    method Execute(opcode: u16, rnd: u8) returns (implemented: bool)
      requires Valid() && Executable(Abs(), opcode)
      modifies this, display, memory, stack, vReg
      ensures Valid()
      ensures Processor.Execute(old(Abs()), opcode, rnd) ==
        if implemented then Ok(Abs()) else Unimplemented(opcode)
    {
      var (msb, secB, thdB, lsb) := Nibbles(opcode);
      match DecodeNibbles(msb, secB, thdB, lsb)
      case None =>
        implemented := false;
      case Some(ins) =>
        implemented := true;
        ExecuteInstr(ins, rnd);
    }

    /** One arm of `execute`'s match, run by the method for its block of arms. */
    method ExecuteInstr(ins: Instr, rnd: u8)
      requires Valid() && Safe(Abs(), ins)
      modifies this, display, memory, stack, vReg
      ensures Valid() && Abs() == Step(old(Abs()), ins, rnd)
    {
      if Fields(ins).0 <= 8 {
        StepIgnoresRandom(Abs(), ins, rnd);
        ExecuteLowArms(ins);
      } else {
        ExecuteHighArms(ins, rnd);
      }
    }

    /** The arms whose opcode starts with 0 to 8. */
    method ExecuteLowArms(ins: Instr)
      requires Valid() && Safe(Abs(), ins) && Fields(ins).0 <= 8
      modifies this`display, this`programCounter, this`stackPointer, stack, vReg
      ensures Valid() && Abs() == Step(old(Abs()), ins, 0)
    {
      match ins
      case Nop | ClearScreen | Return | Jump(_) | Call(_) =>
        ExecuteFlow(ins);
      case SkipEqImm(_, _) | SkipNeImm(_, _) | SkipEqReg(_, _) =>
        ExecuteSkip(ins);
      case LoadImm(_, _) | AddImm(_, _) =>
        ExecuteLoad(ins);
      case Move(_, _) | Or(_, _) | And(_, _) | Xor(_, _) =>
        ExecuteBitwise(ins);
      case AddReg(_, _) | SubReg(_, _) | ShiftRight(_, _) =>
        ExecuteArithmetic(ins);
      case SubNeg(_, _) | ShiftLeft(_, _) =>
        ExecuteNegShift(ins);
      case _ =>
        assert false;
    }

    /** The arms whose opcode starts with 9 to F; only Cxkk reads `rnd`. */
    method ExecuteHighArms(ins: Instr, rnd: u8)
      requires Valid() && Safe(Abs(), ins) && Fields(ins).0 > 8
      modifies this`programCounter, this`iReg, this`delayTimer, this`soundTimer, display, memory, vReg
      ensures Valid() && Abs() == Step(old(Abs()), ins, rnd)
    {
      if !ins.Random? {
        StepIgnoresRandom(Abs(), ins, rnd);
      }
      match ins
      case SkipNeReg(_, _) | LoadI(_) | JumpV0(_) | Random(_, _) =>
        ExecuteAddress(ins, rnd);
      case DrawSprite(x, y, n) =>
        Draw(x, y, n);
      case SkipKey(_) | SkipNotKey(_) =>
        ExecuteSkipKey(ins);
      case WaitKey(x) =>
        WaitKey(x);
      case GetDelay(_) | SetDelay(_) | SetSound(_) | AddI(_) | FontChar(_) =>
        ExecuteTimers(ins);
      case StoreBcd(x) =>
        StoreBcd(x);
      case StoreRegs(x) =>
        StoreRegs(x);
      case LoadRegs(x) =>
        LoadRegs(x);
      case _ =>
        assert false;
    }

    /** 0000, 00E0, 00EE, 1nnn and 2nnn. */
    method ExecuteFlow(ins: Instr)
      requires Valid() && Safe(Abs(), ins)
      requires ins.Nop? || ins.ClearScreen? || ins.Return? || ins.Jump? || ins.Call?
      modifies this`display, this`programCounter, this`stackPointer, stack
      ensures Valid() && Abs() == Step(old(Abs()), ins, 0)
    {
      match ins
      case Nop =>
      case ClearScreen =>
        display := new bool[ScreenWidth, ScreenHeight]((x, y) => false);
        SameScreen(Screen(), Blank());
      case Return =>
        var address := StackPop();
        programCounter := address;
      case Jump(nnn) =>
        programCounter := nnn;
      case Call(nnn) =>
        StackPush(programCounter);
        programCounter := nnn;
    }

    /** 3xkk, 4xkk and 5xy0: skip the next instruction when the comparison holds. */
    method ExecuteSkip(ins: Instr)
      requires Valid() && Safe(Abs(), ins)
      requires ins.SkipEqImm? || ins.SkipNeImm? || ins.SkipEqReg?
      modifies this`programCounter
      ensures Valid() && Abs() == Step(old(Abs()), ins, 0)
    {
      match ins
      case SkipEqImm(x, kk) =>
        if vReg[x] == kk {
          programCounter := programCounter + 2;
        }
      case SkipNeImm(x, kk) =>
        if vReg[x] != kk {
          programCounter := programCounter + 2;
        }
      case SkipEqReg(x, y) =>
        if vReg[x] == vReg[y] {
          programCounter := programCounter + 2;
        }
    }

    /** 6xkk and 7xkk (the addition wraps and sets no flag). */
    method ExecuteLoad(ins: Instr)
      requires Valid() && (ins.LoadImm? || ins.AddImm?)
      modifies vReg
      ensures Valid() && Abs() == Step(old(Abs()), ins, 0)
    {
      match ins
      case LoadImm(x, kk) =>
        vReg[x] := kk;
      case AddImm(x, kk) =>
        vReg[x] := (vReg[x] + kk) % 0x100;
    }

    /** 8xy0, 8xy1, 8xy2 and 8xy3. */
    method ExecuteBitwise(ins: Instr)
      requires Valid() && (ins.Move? || ins.Or? || ins.And? || ins.Xor?)
      modifies vReg
      ensures Valid() && Abs() == Step(old(Abs()), ins, 0)
    {
      match ins
      case Move(x, y) =>
        vReg[x] := vReg[y];
      case Or(x, y) =>
        vReg[x] := BitOr(vReg[x], vReg[y]);
      case And(x, y) =>
        vReg[x] := BitAnd(vReg[x], vReg[y]);
      case Xor(x, y) =>
        vReg[x] := BitXor(vReg[x], vReg[y]);
    }

    /** 8xy4, 8xy5 and 8xy6: the result in Vx, then the flag in VF. */
    method ExecuteArithmetic(ins: Instr)
      requires Valid() && (ins.AddReg? || ins.SubReg? || ins.ShiftRight?)
      modifies vReg
      ensures Valid() && Abs() == Step(old(Abs()), ins, 0)
    {
      match ins
      case AddReg(x, y) =>
        var sum := vReg[x] as int + vReg[y];
        var carry := sum > 0xFF;
        vReg[x] := sum % 0x100;
        vReg[0xF] := if carry then 1 else 0;
      case SubReg(x, y) =>
        var borrow := vReg[x] < vReg[y];
        vReg[x] := (vReg[x] as int - vReg[y]) % 0x100;
        vReg[0xF] := if borrow then 0 else 1;
      case ShiftRight(x, _) =>
        var lsb := vReg[x] % 2;
        vReg[x] := vReg[x] / 2;
        vReg[0xF] := lsb;
    }

    /** 8xy7 and 8xyE: the result in Vx, then the flag in VF. */
    method ExecuteNegShift(ins: Instr)
      requires Valid() && (ins.SubNeg? || ins.ShiftLeft?)
      modifies vReg
      ensures Valid() && Abs() == Step(old(Abs()), ins, 0)
    {
      match ins
      case SubNeg(x, y) =>
        var borrow := vReg[y] < vReg[x];
        vReg[x] := (vReg[y] as int - vReg[x]) % 0x100;
        vReg[0xF] := if borrow then 0 else 1;
      case ShiftLeft(x, _) =>
        var msb := vReg[x] / 0x80;
        vReg[x] := vReg[x] as int * 2 % 0x100;
        vReg[0xF] := msb;
    }

    /** 9xy0, Annn, Bnnn and Cxkk; `rnd` is the byte Cxkk draws from the random source. */
    method ExecuteAddress(ins: Instr, rnd: u8)
      requires Valid() && Safe(Abs(), ins)
      requires ins.SkipNeReg? || ins.LoadI? || ins.JumpV0? || ins.Random?
      modifies this`programCounter, this`iReg, vReg
      ensures Valid() && Abs() == Step(old(Abs()), ins, rnd)
    {
      match ins
      case SkipNeReg(x, y) =>
        if vReg[x] != vReg[y] {
          programCounter := programCounter + 2;
        }
      case LoadI(nnn) =>
        iReg := nnn;
      case JumpV0(nnn) =>
        programCounter := nnn + vReg[0];
      case Random(x, kk) =>
        vReg[x] := BitAnd(rnd, kk);
    }

    /** Ex9E and ExA1: skip the next instruction when key Vx is (not) pressed. */
    method ExecuteSkipKey(ins: Instr)
      requires Valid() && Safe(Abs(), ins) && (ins.SkipKey? || ins.SkipNotKey?)
      modifies this`programCounter
      ensures Valid() && Abs() == Step(old(Abs()), ins, 0)
    {
      match ins
      case SkipKey(x) =>
        var key := keyboard[vReg[x]];
        if key {
          programCounter := programCounter + 2;
        }
      case SkipNotKey(x) =>
        var key := keyboard[vReg[x]];
        if !key {
          programCounter := programCounter + 2;
        }
    }

    /** Fx07, Fx15, Fx18, Fx1E and Fx29. */
    method ExecuteTimers(ins: Instr)
      requires Valid() && Safe(Abs(), ins)
      requires ins.GetDelay? || ins.SetDelay? || ins.SetSound? || ins.AddI? || ins.FontChar?
      modifies this`delayTimer, this`soundTimer, this`iReg, vReg
      ensures Valid() && Abs() == Step(old(Abs()), ins, 0)
    {
      match ins
      case GetDelay(x) =>
        vReg[x] := delayTimer;
      case SetDelay(x) =>
        delayTimer := vReg[x];
      case SetSound(x) =>
        soundTimer := vReg[x];
      case AddI(x) =>
        iReg := (iReg + vReg[x]) % 0x1_0000;
      case FontChar(x) =>
        iReg := vReg[x] * 5;
    }

    /** `cicle`: fetch an opcode and execute it. */
    method Cycle(rnd: u8) returns (implemented: bool)
      requires Valid() && CanCycle(Abs())
      modifies this, display, memory, stack, vReg
      ensures Valid()
      ensures Processor.Cycle(old(Abs()), rnd) ==
        if implemented then Ok(Abs()) else Unimplemented(Fetch(old(Abs())).0)
    {
      var opcode := FetchOpcode();
      implemented := Execute(opcode, rnd);
    }
  }

  /** Two framebuffers that agree on every pixel are equal. */
  lemma SameScreen(a: seq<seq<bool>>, b: seq<seq<bool>>)
    requires ScreenShaped(a) && ScreenShaped(b)
    requires forall x, y :: 0 <= x < ScreenWidth && 0 <= y < ScreenHeight ==> a[x][y] == b[x][y]
    ensures a == b
  {
    forall x | 0 <= x < ScreenWidth
      ensures a[x] == b[x]
    {
      assert forall y :: 0 <= y < ScreenHeight ==> a[x][y] == b[x][y];
    }
  }
}
