/**
  * The machine state of `MemoryComponents` (src/memory.rs) as a value, and the
  * state operations of src/memory.rs as functions on that value.
  */
module MemorySpec {
  import opened Bits

  const RamSize: nat := 4096
  const StackSize: nat := 16
  const RegisterCount: nat := 16
  const KeyboardSize: nat := 16
  const ScreenWidth: nat := 64
  const ScreenHeight: nat := 32
  /** Address at which a ROM is loaded and the program counter starts. */
  const ProgramStart: nat := 0x200
  /** Largest ROM that fits above the reserved area: 4096 - 0x200. */
  const MaxRomSize: nat := RamSize - ProgramStart
  /** `stack_push`'s `OVERFLOW_INDEX`, which is `STACK_SIZE + 1`. */
  const OverflowIndex: nat := StackSize + 1

  /** The fields of `MemoryComponents`; `display[x][y]` is column `x`, row `y`. */
  datatype State = State(
    display: seq<seq<bool>>,
    memory: seq<u8>,
    keyboard: seq<bool>,
    stack: seq<u16>,
    v: seq<u8>,
    i: u16,
    pc: u16,
    sp: nat,
    delay: u8,
    sound: u8)

  /** A 64 x 32 framebuffer. */
  ghost predicate ScreenShaped(d: seq<seq<bool>>)
  {
    |d| == ScreenWidth && forall x :: 0 <= x < |d| ==> |d[x]| == ScreenHeight
  }

  /** The fixed array sizes of the struct. */
  ghost predicate WellFormed(s: State)
  {
    ScreenShaped(s.display) &&
    |s.memory| == RamSize &&
    |s.keyboard| == KeyboardSize &&
    |s.stack| == StackSize &&
    |s.v| == RegisterCount
  }

  /** A framebuffer with every pixel off. */
  function Blank(): (d: seq<seq<bool>>)
    ensures ScreenShaped(d)
    ensures forall x, y :: 0 <= x < ScreenWidth && 0 <= y < ScreenHeight ==> !d[x][y]
  {
    seq(ScreenWidth, _ => seq(ScreenHeight, _ => false))
  }

  /** `MemoryComponents::new`. */
  function New(): (s: State)
    ensures WellFormed(s)
    ensures s.pc == 0x200 && s.sp == 0 && s.i == 0 && s.delay == 0 && s.sound == 0
    ensures forall a :: 0 <= a < RamSize ==> s.memory[a] == 0
    ensures forall k :: 0 <= k < RegisterCount ==> s.v[k] == 0
    ensures forall k :: 0 <= k < StackSize ==> s.stack[k] == 0
    ensures forall k :: 0 <= k < KeyboardSize ==> !s.keyboard[k]
    ensures forall x, y :: 0 <= x < ScreenWidth && 0 <= y < ScreenHeight ==> !s.display[x][y]
  {
    State(
      Blank(),
      seq(RamSize, _ => 0),
      seq(KeyboardSize, _ => false),
      seq(StackSize, _ => 0),
      seq(RegisterCount, _ => 0),
      0, ProgramStart, 0, 0, 0)
  }

  /**
    * `load_font`: the font bytes overwrite `memory[0..len)`. The font table lives in a
    * module outside this model, so its bytes are a parameter.
    */
  function LoadFont(s: State, font: seq<u8>): (r: State)
    requires WellFormed(s) && |font| <= RamSize
    ensures WellFormed(r)
    ensures forall a :: 0 <= a < RamSize ==>
      r.memory[a] == if a < |font| then font[a] else s.memory[a]
    ensures r == s.(memory := r.memory)
  {
    s.(memory := font + s.memory[|font|..])
  }

  /** `load_rom`: `data` overwrites `memory[0x200 .. 0x200 + len)`. */
  function LoadRom(s: State, data: seq<u8>): (r: State)
    requires WellFormed(s) && |data| <= MaxRomSize
    ensures WellFormed(r)
    ensures forall a :: 0 <= a < RamSize ==>
      r.memory[a] == if ProgramStart <= a < ProgramStart + |data| then data[a - ProgramStart] else s.memory[a]
    ensures r == s.(memory := r.memory)
  {
    s.(memory := s.memory[..ProgramStart] + data + s.memory[ProgramStart + |data|..])
  }

  /**
    * What `stack_push` demands: the write `stack[stack_pointer]` is in bounds, or the
    * pointer equals `OVERFLOW_INDEX` and is reset. At 16 the write is out of bounds.
    */
  predicate CanPush(s: State)
  {
    s.sp < StackSize || s.sp == OverflowIndex
  }

  /** What `stack_pop` demands: the read `stack[stack_pointer - 1]` is in bounds. */
  predicate CanPop(s: State)
  {
    s.sp <= StackSize
  }

  /** `stack_push`. */
  function Push(s: State, value: u16): (r: State)
    requires WellFormed(s) && CanPush(s)
    ensures WellFormed(r)
    ensures s.sp < StackSize ==>
      r.sp == s.sp + 1 && r.stack[s.sp] == value &&
      forall k :: 0 <= k < StackSize && k != s.sp ==> r.stack[k] == s.stack[k]
    ensures s.sp == OverflowIndex ==> r.sp == 0 && r.stack == s.stack
    ensures r == s.(stack := r.stack, sp := r.sp)
  {
    if s.sp == OverflowIndex then
      s.(sp := 0)
    else
      s.(stack := s.stack[s.sp := value], sp := s.sp + 1)
  }

  /** `stack_pop`: the popped address and the new state. */
  function Pop(s: State): (r: (u16, State))
    requires WellFormed(s) && CanPop(s)
    ensures WellFormed(r.1)
    ensures r.1 == s.(sp := r.1.sp)
    ensures s.sp > 0 ==> r.1.sp == s.sp - 1 && r.0 == s.stack[s.sp - 1]
  {
    var sp := if s.sp == 0 then 1 else s.sp;
    (s.stack[sp - 1], s.(sp := sp - 1))
  }

  /** Pushing and then popping gives back the pushed value and the old stack pointer. */
  lemma PushThenPop(s: State, value: u16)
    requires WellFormed(s) && s.sp < StackSize
    ensures CanPop(Push(s, value))
    ensures Pop(Push(s, value)).0 == value
    ensures Pop(Push(s, value)).1 == s.(stack := s.stack[s.sp := value])
  {
  }

  /** Popping an empty stack returns slot 0 and leaves the pointer at 0. */
  lemma PopAtBottom(s: State)
    requires WellFormed(s) && s.sp == 0
    ensures Pop(s).0 == s.stack[0]
    ensures Pop(s).1 == s
  {
  }

  /**
    * A pointer of at most 16 stays at most 16 under every push and pop that does not
    * fault, so the `OVERFLOW_INDEX` reset branch of `stack_push` is never taken from `new`.
    */
  lemma StackPointerBounded(s: State, value: u16)
    requires WellFormed(s) && s.sp <= StackSize
    ensures CanPop(s)
    ensures Pop(s).1.sp <= StackSize
    ensures CanPush(s) <==> s.sp < StackSize
    ensures CanPush(s) ==> Push(s, value).sp <= StackSize
  {
  }

  /** `tick_timers`: each timer that is above zero goes down by one. */
  function TickTimers(s: State): (r: State)
    ensures r.delay == if s.delay > 0 then s.delay - 1 else 0
    ensures r.sound == if s.sound > 0 then s.sound - 1 else 0
    ensures r == s.(delay := r.delay, sound := r.sound)
  {
    s.(delay := if s.delay > 0 then s.delay - 1 else s.delay,
       sound := if s.sound > 0 then s.sound - 1 else s.sound)
  }

  /** `k` host frames' worth of `tick_timers`. */
  function TickTimersTimes(s: State, k: nat): State
    decreases k
  {
    if k == 0 then s else TickTimersTimes(TickTimers(s), k - 1)
  }

  function Floored(t: int, k: nat): nat
  {
    if t - k > 0 then t - k else 0
  }

  /** After `k` ticks each timer reads max(t - k, 0): it floors at zero and never wraps. */
  lemma {:induction false} TickTimersFloor(s: State, k: nat)
    ensures TickTimersTimes(s, k).delay == Floored(s.delay, k)
    ensures TickTimersTimes(s, k).sound == Floored(s.sound, k)
    ensures TickTimersTimes(s, k) == s.(delay := Floored(s.delay, k), sound := Floored(s.sound, k))
    decreases k
  {
    if k > 0 {
      TickTimersFloor(TickTimers(s), k - 1);
    }
  }

  /** `keypress`: latch the state of one key. */
  function KeyPress(s: State, key: int, status: bool): (r: State)
    requires WellFormed(s) && 0 <= key < KeyboardSize
    ensures WellFormed(r)
    ensures r.keyboard[key] == status
    ensures forall k :: 0 <= k < KeyboardSize && k != key ==> r.keyboard[k] == s.keyboard[k]
    ensures r == s.(keyboard := r.keyboard)
  {
    s.(keyboard := s.keyboard[key := status])
  }
}
