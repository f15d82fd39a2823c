/**
  * Whole programs run from a fresh machine: a ROM is loaded at 0x200 and a number of
  * cycles are executed, as the host loop of src/main.rs does between two frames.
  */
module Scenarios {
  import opened Bits
  import opened MemorySpec
  import opened Processor
  import ProcessorProperties

  /**
    * One cycle per byte of `rnds`, each cycle drawing its own random byte, or `None`
    * when one of them faults or reaches an unimplemented opcode.
    */
  function Run(s: State, rnds: seq<u8>): (r: Option<State>)
    requires WellFormed(s)
    ensures r.Some? ==> WellFormed(r.value)
    ensures rnds == [] ==> r == Some(s)
    decreases |rnds|
  {
    if rnds == [] then Some(s)
    else if !CanCycle(s) then None
    else match Cycle(s, rnds[0])
      case Unimplemented(_) => None
      case Ok(t) => Run(t, rnds[1..])
  }

  /** One cycle that executes the instruction with nibbles `m x y n` stored at the program counter. */
  lemma {:induction false} CycleOf(s: State, m: Nibble, x: Nibble, y: Nibble, n: Nibble, ins: Instr, rnd: u8)
    requires WellFormed(s) && s.pc + 3 < RamSize
    requires s.memory[s.pc] == m * 0x10 + x && s.memory[s.pc + 1] == y * 0x10 + n
    requires DecodeNibbles(m, x, y, n) == Some(ins)
    requires Safe(s.(pc := s.pc + 2), ins)
    ensures CanCycle(s)
    ensures Cycle(s, rnd) == Ok(Step(s.(pc := s.pc + 2), ins, rnd))
  {
    ProcessorProperties.DecodeOpcode(m, x, y, n);
    assert Fetch(s).0 == Opcode(m, x, y, n);
  }

  /** A cycle that does not fault, on the first random byte, moves `Run` one step on. */
  lemma RunCycle(s: State, rnds: seq<u8>, t: State)
    requires WellFormed(s) && rnds != [] && CanCycle(s) && Cycle(s, rnds[0]) == Ok(t)
    ensures Run(s, rnds) == Run(t, rnds[1..])
  {
  }

  /** A cycle over 6xkk loads `kk` into Vx. */
  lemma CycleLoadImm(s: State, x: Nibble, kk: u8, rnd: u8)
    requires WellFormed(s) && s.pc + 3 < RamSize
    requires s.memory[s.pc] == 0x60 + x && s.memory[s.pc + 1] == kk
    ensures CanCycle(s) && Cycle(s, rnd) == Ok(s.(pc := s.pc + 2, v := s.v[x := kk]))
  {
    assert kk == (kk / 0x10) * 0x10 + kk % 0x10;
    CycleOf(s, 6, x, kk / 0x10, kk % 0x10, LoadImm(x, kk), rnd);
  }

  /** A cycle over 8xy4 adds Vy to Vx with the carry in VF. */
  lemma CycleAddReg(s: State, x: Nibble, y: Nibble, rnd: u8)
    requires WellFormed(s) && s.pc + 3 < RamSize
    requires s.memory[s.pc] == 0x80 + x && s.memory[s.pc + 1] == y * 0x10 + 4
    ensures CanCycle(s)
    ensures var sum := s.v[x] as int + s.v[y];
      Cycle(s, rnd) == Ok(s.(pc := s.pc + 2, v := s.v[x := sum % 0x100][0xF := if sum > 0xFF then 1 else 0]))
  {
    CycleOf(s, 8, x, y, 4, AddReg(x, y), rnd);
  }

  /** The last cycle of a run that does not fault ends it in that cycle's state. */
  lemma RunLast(s: State, rnds: seq<u8>, t: State)
    requires WellFormed(s) && |rnds| == 1 && CanCycle(s) && Cycle(s, rnds[0]) == Ok(t)
    ensures Run(s, rnds) == Some(t)
  {
    assert rnds[1..] == [];
  }

  /** A 6xkk at the program counter takes `Run` one cycle on with `kk` in Vx. */
  lemma RunLoadImm(s: State, x: Nibble, kk: u8, rnds: seq<u8>)
    requires WellFormed(s) && s.pc + 3 < RamSize && rnds != []
    requires s.memory[s.pc] == 0x60 + x && s.memory[s.pc + 1] == kk
    ensures Run(s, rnds) == Run(s.(pc := s.pc + 2, v := s.v[x := kk]), rnds[1..])
  {
    CycleLoadImm(s, x, kk, rnds[0]);
    RunCycle(s, rnds, s.(pc := s.pc + 2, v := s.v[x := kk]));
  }

  /** `rom` sits at the program counter 0x200 of a machine whose stack is empty. */
  predicate Loaded(s: State, rom: seq<u8>)
    requires WellFormed(s)
  {
    s.pc == ProgramStart && s.sp == 0 && ProgramStart + |rom| <= RamSize &&
    s.memory[ProgramStart .. ProgramStart + |rom|] == rom
  }

  /** `load_rom` on a fresh machine puts the ROM at the program counter. */
  lemma LoadedAfterLoadRom(rom: seq<u8>)
    requires |rom| <= MaxRomSize
    ensures Loaded(LoadRom(New(), rom), rom)
  {
    var s := LoadRom(New(), rom);
    assert s.memory[ProgramStart .. ProgramStart + |rom|] == rom;
  }

  /**
    * V1 := b, V0 += V1, placed at any program counter: after two cycles V0 holds the
    * sum modulo 256 and VF the carry.
    */
  lemma {:induction false} AddRegisterAt(s: State, b: u8, rnds: seq<u8>)
    requires WellFormed(s) && s.pc + 5 < RamSize && |rnds| == 2
    requires s.memory[s.pc] == 0x61 && s.memory[s.pc + 1] == b
    requires s.memory[s.pc + 2] == 0x80 && s.memory[s.pc + 3] == 0x14
    ensures var sum := s.v[0] as int + b;
      Run(s, rnds) == Some(s.(pc := s.pc + 4, v := s.v[1 := b][0 := sum % 0x100][0xF := if sum > 0xFF then 1 else 0]))
  {
    var t := s.(pc := s.pc + 2, v := s.v[1 := b]);
    RunLoadImm(s, 1, b, rnds);
    CycleAddReg(t, 0, 1, rnds[1]);
    var sum := s.v[0] as int + b;
    RunLast(t, rnds[1..], t.(pc := t.pc + 2, v := t.v[0 := sum % 0x100][0xF := if sum > 0xFF then 1 else 0]));
  }

  /**
    * V0 := a, V1 := b, V0 += V1: after three cycles V0 holds (a + b) mod 256 and VF the
    * carry, and nothing but the program counter and those registers changed. With
    * (10, 5) V0 is 15 and VF 0; with (255, 1) V0 wraps to 0 and VF is 1.
    */
  lemma {:induction false} AddProgram(s0: State, a: u8, b: u8, rnds: seq<u8>)
    requires WellFormed(s0) && Loaded(s0, [0x60, a, 0x61, b, 0x80, 0x14]) && |rnds| == 3
    ensures Run(s0, rnds) == Some(s0.(pc := 0x206, v := s0.v[0 := (a as int + b) % 0x100][1 := b]
                                             [0xF := if a as int + b > 0xFF then 1 else 0]))
  {
    var rom := [0x60, a, 0x61, b, 0x80, 0x14];
    assert s0.memory[0x200] == rom[0] && s0.memory[0x201] == rom[1];
    assert s0.memory[0x202] == rom[2] && s0.memory[0x203] == rom[3];
    assert s0.memory[0x204] == rom[4] && s0.memory[0x205] == rom[5];
    var s1 := s0.(pc := 0x202, v := s0.v[0 := a]);
    RunLoadImm(s0, 0, a, rnds);
    AddRegisterAt(s1, b, rnds[1..]);
    OverwriteFirst(s0.v, a, b, (a as int + b) % 0x100);
  }

  /** Writing register 0 twice around a write to register 1 keeps only the second value. */
  lemma OverwriteFirst(v: seq<u8>, a: u8, b: u8, c: u8)
    requires |v| > 1
    ensures v[0 := a][1 := b][0 := c] == v[0 := c][1 := b]
  {
  }

  /** CALL 0x208, whose target is RET, comes back to 0x202 with an empty stack. */
  lemma CallReturn(s0: State, rnds: seq<u8>)
    requires WellFormed(s0) && Loaded(s0, [0x22, 0x08, 0, 0, 0, 0, 0, 0, 0x00, 0xEE]) && |rnds| == 2
    ensures var r := Run(s0, rnds);
      r.Some? && r.value.pc == 0x202 && r.value.sp == 0 && r.value.stack[0] == 0x202
  {
    var rom := [0x22, 0x08, 0, 0, 0, 0, 0, 0, 0x00, 0xEE];
    assert s0.memory[0x200] == rom[0] && s0.memory[0x201] == rom[1];
    assert s0.memory[0x208] == rom[8] && s0.memory[0x209] == rom[9];
    var s1 := Step(s0.(pc := 0x202), Call(0x208), rnds[0]);
    CycleOf(s0, 2, 2, 0, 8, Call(0x208), rnds[0]);
    RunCycle(s0, rnds, s1);
    var s2 := Step(s1.(pc := 0x20A), Return, rnds[1]);
    CycleOf(s1, 0, 0, 0xE, 0xE, Return, rnds[1]);
    RunLast(s1, rnds[1..], s2);
  }

  /** A cycle over Fx15 copies Vx into the delay timer. */
  lemma CycleSetDelay(s: State, x: Nibble, rnd: u8)
    requires WellFormed(s) && s.pc + 3 < RamSize
    requires s.memory[s.pc] == 0xF0 + x && s.memory[s.pc + 1] == 0x15
    ensures CanCycle(s) && Cycle(s, rnd) == Ok(s.(pc := s.pc + 2, delay := s.v[x]))
  {
    CycleOf(s, 0xF, x, 1, 5, SetDelay(x), rnd);
  }

  /**
    * V0 := t, delay := V0: the delay timer then reads t, and after k host ticks it reads
    * max(t - k, 0); with t = 5, five ticks bring it to 0 and a sixth keeps it there.
    */
  lemma {:induction false} DelayTimerDecay(s0: State, t: u8, k: nat, rnds: seq<u8>)
    requires WellFormed(s0) && Loaded(s0, [0x60, t, 0xF0, 0x15]) && |rnds| == 2
    ensures Run(s0, rnds) == Some(s0.(pc := 0x204, v := s0.v[0 := t], delay := t))
    ensures TickTimersTimes(s0.(pc := 0x204, v := s0.v[0 := t], delay := t), k).delay == Floored(t, k)
  {
    var rom := [0x60, t, 0xF0, 0x15];
    assert s0.memory[0x200] == rom[0] && s0.memory[0x201] == rom[1];
    assert s0.memory[0x202] == rom[2] && s0.memory[0x203] == rom[3];
    CycleLoadImm(s0, 0, t, rnds[0]);
    var s1 := s0.(pc := 0x202, v := s0.v[0 := t]);
    RunCycle(s0, rnds, s1);
    CycleSetDelay(s1, 0, rnds[1]);
    var s2 := s0.(pc := 0x204, v := s0.v[0 := t], delay := t);
    RunLast(s1, rnds[1..], s2);
    TickTimersFloor(s2, k);
  }

  /** A cycle over Cxkk masks the byte it draws with kk into Vx. */
  lemma CycleRandom(s: State, x: Nibble, kk: u8, rnd: u8)
    requires WellFormed(s) && s.pc + 3 < RamSize
    requires s.memory[s.pc] == 0xC0 + x && s.memory[s.pc + 1] == kk
    ensures CanCycle(s) && Cycle(s, rnd) == Ok(s.(pc := s.pc + 2, v := s.v[x := BitAnd(rnd, kk)]))
  {
    assert kk == (kk / 0x10) * 0x10 + kk % 0x10;
    CycleOf(s, 0xC, x, kk / 0x10, kk % 0x10, Random(x, kk), rnd);
  }

  /**
    * V0 := rand & kk, V1 := rand & kk: every cycle draws its own byte, so V0 and V1
    * hold the first and the second draw, each masked by kk.
    */
  lemma {:induction false} TwoRandomDraws(s0: State, kk: u8, rnds: seq<u8>)
    requires WellFormed(s0) && Loaded(s0, [0xC0, kk, 0xC1, kk]) && |rnds| == 2
    ensures Run(s0, rnds) ==
      Some(s0.(pc := 0x204, v := s0.v[0 := BitAnd(rnds[0], kk)][1 := BitAnd(rnds[1], kk)]))
  {
    var rom := [0xC0, kk, 0xC1, kk];
    assert s0.memory[0x200] == rom[0] && s0.memory[0x201] == rom[1];
    assert s0.memory[0x202] == rom[2] && s0.memory[0x203] == rom[3];
    CycleRandom(s0, 0, kk, rnds[0]);
    var s1 := s0.(pc := 0x202, v := s0.v[0 := BitAnd(rnds[0], kk)]);
    RunCycle(s0, rnds, s1);
    CycleRandom(s1, 1, kk, rnds[1]);
    var s2 := s1.(pc := 0x204, v := s1.v[1 := BitAnd(rnds[1], kk)]);
    RunLast(s1, rnds[1..], s2);
  }
}
