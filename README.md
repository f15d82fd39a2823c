# CHIP-8 interpreter core, modelled in Dafny

This project models the core of a CHIP-8 emulator written in Rust. That core is:

- the machine state `MemoryComponents` and its operations in `src/memory.rs`;
- the fetch/decode/execute interpreter of `src/processor.rs`;
- the sprite plot `draw` of `src/graphics.rs`.

The model has two layers.

- **Specification, on values.** Four modules describe the state and the
  operations as functions on a `State` datatype of sequences:
  - `Bits`: the u8 and u16 widths, and the `&`, `|` and `^` operations.
  - `MemorySpec`: `new`, `load_font`, `load_rom`, the stack, the timers and the keyboard.
  - `Graphics`: `draw`.
  - `Processor`: fetch, the nibble match of `execute`, the effect of every arm, and one `cicle`.
- **Implementation, in place.** `Emulator.Chip8` is a class over fixed-size
  arrays, as the Rust struct is. Its methods update the state step by step, with
  the same loops as the source. Each method is proved to have exactly the effect
  of its specification function on the abstract state `Abs()`.

Two further modules state what the interpreter promises:

- `ProcessorProperties`: the carry and borrow flags, the skips, the key wait,
  BCD, the block copies, and call and return, each stated on whole opcodes.
- `Scenarios`: short ROMs run for a few cycles from a freshly loaded machine.

A Rust panic (an index out of bounds, a u16 overflow in debug arithmetic) becomes
a precondition: `CanPush`, `CanPop`, `CanFetch`, `CanSkip`, `Graphics.CanDraw`,
`Processor.Safe` and `Processor.Executable`. The `unimplemented!` arm becomes the
outcome `Unimplemented(opcode)`.

## Model

| member | source | states |
|---|---|---|
| Bits.BitAnd | src/processor.rs:96-99 | `a & b` of two bytes, computed bit by bit, is at most either operand |
| Bits.BitAndBit | src/processor.rs:96-99 | a bit of `a & b` is set exactly where both `a` and `b` have it |
| Bits.BitAndWithinMask | src/processor.rs:176-179 | masking with `kk` twice is masking once: a result of `rnd & kk` has no bit outside `kk` |
| Bits.BitOr | src/processor.rs:91-94 | `a \| b` of two bytes, computed on their 8 bits; its meaning is stated by `BitOrBit` |
| Bits.BitOrBit | src/processor.rs:91-94 | a bit of `a \| b` is set exactly where `a` or `b` has it |
| Bits.BitXor | src/processor.rs:101-104 | `a ^ b` of two bytes, computed on their 8 bits; its meaning is stated by `BitXorBit` |
| Bits.BitXorBit | src/processor.rs:101-104 | a bit of `a ^ b` is set exactly where `a` and `b` differ |
| Bits.XorTwice | src/processor.rs:101-104 | xor-ing a byte with the same byte twice gives it back |
| Bits.SpriteBit | src/graphics.rs:27 | the test `pixels & (0b1000_0000 >> i) != 0`: bit i of a sprite row, counted from the most significant bit |
| MemorySpec.Blank | src/processor.rs:30-32 | the cleared framebuffer is 64 x 32 with every pixel off |
| MemorySpec.New | src/memory.rs:59-72 | a new machine has zeroed memory, registers, stack, timers and I; no key down; a dark screen; the program counter at 0x200; the stack pointer at 0 |
| MemorySpec.LoadFont | src/memory.rs:26-32 | the font bytes overwrite `memory[0..len)`; the other addresses and all other fields are unchanged |
| MemorySpec.LoadRom | src/memory.rs:92-95 | the ROM bytes overwrite `memory[0x200..0x200+len)`; everything else is unchanged |
| MemorySpec.Push | src/memory.rs:34-44 | below 16 the value goes into `stack[sp]` and `sp` grows by one, other slots unchanged; at `OVERFLOW_INDEX` (17) `sp` is reset to 0 and the stack is untouched; only stack and `sp` change |
| MemorySpec.CanPush | src/memory.rs:34-44 | the push does not panic: the pointer is below 16, so `stack[sp]` is in bounds, or it is `OVERFLOW_INDEX` (17) and is reset |
| MemorySpec.Pop | src/memory.rs:46-57 | above 0 it returns `stack[sp-1]` and decrements `sp`; only `sp` changes |
| MemorySpec.CanPop | src/memory.rs:46-57 | the pop does not panic: after the reset at 0 and the decrement, `stack[sp - 1]` is in bounds |
| MemorySpec.PushThenPop | src/memory.rs:34-57 | a pop right after a push below 16 returns the pushed value and restores `sp` |
| MemorySpec.PopAtBottom | src/memory.rs:48-56 | a pop at `sp == 0` returns `stack[0]` and leaves the state unchanged |
| MemorySpec.StackPointerBounded | src/memory.rs:34-57 | from `sp <= 16` a pop never faults; a push faults exactly at 16; neither takes `sp` above 16, so the reset branch is never reached from `new` |
| MemorySpec.TickTimers | src/memory.rs:74-86 | each timer above zero goes down by one, a zero timer stays zero, nothing else changes |
| MemorySpec.TickTimersFloor | src/memory.rs:74-86 | after k ticks each timer reads max(t - k, 0): it floors at zero and never wraps |
| MemorySpec.KeyPress | src/memory.rs:88-90 | exactly the named key takes the new status |
| Graphics.SpriteRows | src/graphics.rs:21-24 | sprite row j is `memory[I + j]`, for the n rows of the sprite |
| Graphics.CanDraw | src/graphics.rs:21-24 | `draw` does not panic: every row address `I + j` for j below n is inside memory |
| Graphics.Coordinate | src/graphics.rs:14-17 | the coordinate read from Vx or Vy after VF was zeroed, so a coordinate register F reads 0 |
| Graphics.Plot | src/graphics.rs:21-35 | the screen after the loops: a pixel is lit iff it was lit or some set sprite bit lands on it; the contract states only the 64 x 32 shape, and the meaning is stated by `DrawPixel` |
| Graphics.Draw | src/graphics.rs:13-42 | VF ends as 0 or 1; V0..VE are unchanged; only the display and VF change |
| Graphics.DrawPixel | src/graphics.rs:21-35 | after a draw a pixel is lit iff it was lit before or a set sprite bit lands on it at ((Vx + i) mod 64, (Vy + j) mod 32) |
| Graphics.DrawLightsTarget | src/graphics.rs:26-32 | every set bit of every sprite row lights its target pixel |
| Graphics.DrawCollision | src/graphics.rs:19-41 | VF is 1 iff some set sprite bit lands on a pixel that was lit before the draw |
| Graphics.DrawIgnoresOldFlag | src/graphics.rs:14-17 | the old VF never matters: VF is zeroed before the coordinates are read |
| Graphics.DrawTwice | src/graphics.rs:21-41 | a second identical draw leaves the screen as it is, and reports a collision iff the sprite has a set bit |
| Processor.Nibbles | src/processor.rs:19-22 | the four nibbles put back together give the opcode |
| Processor.NibblesOfOpcode | src/processor.rs:19-22 | splitting an opcode built from four nibbles gives them back, with `kk` as its low byte and `nnn` as its low 12 bits |
| Processor.Decode | src/processor.rs:18-24 | the instruction an opcode names, from its four nibbles; its meaning is stated by `DecodeEncode` and `EncodeDecode` |
| Processor.DecodeNibbles | src/processor.rs:24-277 | the arms of the match in their order, `None` for the `unimplemented!` arm; its meaning is stated by `DecodeEncode`, `EncodeDecode` and `SkipRegistersNeedsZero` |
| Processor.DecodeEncode | src/processor.rs:24-275 | every instruction form of the match is decoded from its own opcode |
| Processor.EncodeDecode | src/processor.rs:24-275 | an opcode that one of the match arms takes is the encoding of the instruction it decodes to |
| Processor.LowestPressed | src/processor.rs:218-224 | the search returns the lowest pressed key, and none exactly when no key is down |
| Processor.Safe | src/processor.rs:24-275 | what each arm needs so as not to panic: a stack slot in bounds, a skip or rewind that fits the u16 program counter, a key index below 16, a memory address below 4096, no u8 overflow in Fx29 |
| Processor.Step | src/processor.rs:24-275 | the effect of one arm on the whole state; it keeps the state well formed, and the effect of each arm is stated by the lemmas of `ProcessorProperties` |
| Processor.StepLow | src/processor.rs:26-84 | the arms 0000 to 7xkk; they keep the state well formed |
| Processor.StepRegisters | src/processor.rs:86-153 | the 8xyN arms; they keep the state well formed |
| Processor.StepHigh | src/processor.rs:155-206 | the arms 9xy0 to ExA1; they keep the state well formed |
| Processor.StepMisc | src/processor.rs:208-275 | the FxNN arms; they keep the state well formed |
| Processor.Execute | src/processor.rs:18-279 | the outcome is `Unimplemented(opcode)` exactly when no arm of the match takes the opcode |
| Processor.StepIgnoresRandom | src/processor.rs:24-275 | only Cxkk reads the random byte: every other arm has the same effect whatever its value |
| Processor.Fetch | src/processor.rs:7-16 | the opcode's high byte is `memory[pc]` and its low byte `memory[pc+1]`; the program counter moves on by 2 |
| Processor.Cycle | src/processor.rs:281-284 | fetch, then execute the fetched word on the advanced state; a cycle that does not stop keeps the state well formed |
| ProcessorProperties.AddWithCarry | src/processor.rs:107-115 | 8xy4 leaves the sum mod 256 in Vx and the carry in VF, so Vx + 256 * VF is the full sum when x is not F; other registers are unchanged |
| ProcessorProperties.SubtractWithBorrow | src/processor.rs:118-127 | 8xy5 leaves (Vx - Vy) mod 256 in Vx and VF = 1 iff Vx >= Vy |
| ProcessorProperties.ShiftRightFlag | src/processor.rs:130-134 | 8xy6 halves Vx and puts the dropped low bit in VF |
| ProcessorProperties.SubtractNegated | src/processor.rs:137-146 | 8xy7 leaves (Vy - Vx) mod 256 in Vx and VF = 1 iff Vy >= Vx |
| ProcessorProperties.ShiftLeftFlag | src/processor.rs:149-153 | 8xyE doubles Vx mod 256 and puts the dropped high bit in VF |
| ProcessorProperties.CopyRegister | src/processor.rs:86-89 | 8xy0 copies Vy into Vx and changes nothing else |
| ProcessorProperties.OrRegisters | src/processor.rs:91-94 | after 8xy1 a bit of Vx is set exactly where Vx or Vy had it; nothing else changes |
| ProcessorProperties.OrRegistersTwice | src/processor.rs:91-94 | with x != y, a second 8xy1 changes nothing |
| ProcessorProperties.AndRegisters | src/processor.rs:96-99 | after 8xy2 a bit of Vx is set exactly where both Vx and Vy had it, and Vx is at most either; nothing else changes |
| ProcessorProperties.XorRegisters | src/processor.rs:101-104 | after 8xy3 a bit of Vx is set exactly where Vx and Vy differed; nothing else changes |
| ProcessorProperties.XorRegistersTwice | src/processor.rs:101-104 | with x != y, 8xy3 run twice gives the state back |
| ProcessorProperties.AddImmediateNoFlag | src/processor.rs:80-84 | 7xkk adds kk mod 256 and leaves VF alone, unless x is F |
| ProcessorProperties.RandomMasked | src/processor.rs:176-179 | Cxkk leaves in Vx a value no larger than kk with no bit outside kk |
| ProcessorProperties.SkipImmediate | src/processor.rs:53-64 | 3xkk skips iff Vx == kk, and 4xkk iff Vx != kk |
| ProcessorProperties.SkipEqualRegisters | src/processor.rs:67-71 | 5xy0 skips iff Vx == Vy |
| ProcessorProperties.SkipRegistersNeedsZero | src/processor.rs:67-71 | 5xyN with N != 0 is taken by no arm and is unimplemented |
| ProcessorProperties.SkipDifferentRegisters | src/processor.rs:156-160 | 9xy0 skips iff Vx != Vy |
| ProcessorProperties.SkipIfKeyPressed | src/processor.rs:190-197 | after `keypress(Vx, status)`, Ex9E skips iff status is true |
| ProcessorProperties.SkipIfKeyReleased | src/processor.rs:200-206 | after `keypress(Vx, status)`, ExA1 skips iff status is false |
| ProcessorProperties.WaitForKey | src/processor.rs:214-229 | Fx0A stores the lowest pressed key in Vx; with no key down it rewinds the program counter by 2 so the instruction repeats |
| ProcessorProperties.ReadDelay | src/processor.rs:208-211 | Fx07 copies the delay timer into Vx and changes nothing else |
| ProcessorProperties.SetDelayTimer | src/processor.rs:231-234 | Fx15 copies Vx into the delay timer and changes nothing else |
| ProcessorProperties.DelayReadBack | src/processor.rs:208-234 | Fx15 then Fx07 reads the value of Vx back into Vy |
| ProcessorProperties.SetSoundTimer | src/processor.rs:236-238 | Fx18 copies Vx into the sound timer and changes nothing else |
| ProcessorProperties.AddToIndex | src/processor.rs:240-244 | Fx1E adds Vx to I, wrapping around past 0xFFFF as `wrapping_add` does; nothing else changes |
| ProcessorProperties.BcdDigits | src/processor.rs:253-263 | Fx33 writes the hundreds, tens and ones digits of Vx at I, I+1 and I+2, and 100a + 10b + c == Vx |
| ProcessorProperties.StoreRegisters | src/processor.rs:265-269 | Fx55 copies V0..Vx to `memory[I..I+x]` and changes no other address |
| ProcessorProperties.LoadRegisters | src/processor.rs:271-275 | Fx65 copies `memory[I..I+x]` into V0..Vx and changes no other register |
| ProcessorProperties.StoreThenLoad | src/processor.rs:265-275 | Fx55 followed by Fx65 leaves the registers as they were |
| ProcessorProperties.CallThenReturn | src/processor.rs:35-50 | 2nnn followed by 00EE comes back to the return address with the stack pointer restored |
| ProcessorProperties.JumpAbsolute | src/processor.rs:40-44 | 1nnn sets the program counter to nnn and changes nothing else |
| ProcessorProperties.LoadIndex | src/processor.rs:162-166 | Annn sets I to nnn and changes nothing else |
| ProcessorProperties.JumpWithOffset | src/processor.rs:168-172 | Bnnn sets the program counter to nnn + V0, which stays below 0x1100 so the u16 never overflows; nothing else changes |
| ProcessorProperties.ClearScreenTwice | src/processor.rs:30-32 | 00E0 darkens every pixel and is idempotent |
| ProcessorProperties.FontGlyphAddress | src/processor.rs:248-251 | Fx29 points I at the 5-byte glyph of digit Vx inside the font area 0..0x50 and changes nothing else |
| ProcessorProperties.ExecuteKeepsStackBound | src/processor.rs:18-279 | no instruction takes the stack pointer above 16, and only 2nnn and 00EE move it |
| Scenarios.Run | src/processor.rs:281-284 | one `cicle` per random byte given, each cycle with its own byte; the state stays well formed, and no bytes means no change |
| Scenarios.LoadedAfterLoadRom | src/memory.rs:92-95 | after `load_rom` on a new machine the ROM sits at the program counter 0x200 |
| Scenarios.AddRegisterAt | src/processor.rs:74-115 | `61b 8014` at any program counter leaves V0 + b mod 256 in V0 and the carry in VF after two cycles |
| Scenarios.AddProgram | src/processor.rs:74-115 | the ROM `6a 61b 8014` leaves (a + b) mod 256 in V0 and the carry in VF after three cycles, and changes nothing else |
| Scenarios.CallReturn | src/processor.rs:35-50 | a call to a subroutine that immediately returns comes back to 0x202 with an empty stack |
| Scenarios.DelayTimerDecay | src/processor.rs:232-234 | a program that sets the delay timer to t leaves t there; k ticks later it reads max(t - k, 0) |
| Scenarios.TwoRandomDraws | src/processor.rs:175-179 | `C0kk C1kk` leaves the first draw masked by kk in V0 and the second in V1: each cycle draws its own byte |
| Emulator.Chip8.constructor | src/memory.rs:59-72 | the new arrays hold the state `New()` |
| Emulator.Chip8.LoadFont | src/memory.rs:26-32 | the copy loop has the effect of `MemorySpec.LoadFont` and returns the new memory |
| Emulator.Chip8.LoadRom | src/memory.rs:92-95 | the copy has the effect of `MemorySpec.LoadRom` |
| Emulator.Chip8.StackPush | src/memory.rs:34-44 | has the effect of `Push` |
| Emulator.Chip8.StackPop | src/memory.rs:46-57 | returns the address and has the effect of `Pop` |
| Emulator.Chip8.TickTimers | src/memory.rs:74-86 | has the effect of `MemorySpec.TickTimers` |
| Emulator.Chip8.KeyPress | src/memory.rs:88-90 | has the effect of `MemorySpec.KeyPress` |
| Emulator.Chip8.FetchOpcode | src/processor.rs:7-16 | returns the opcode and has the effect of `Fetch` |
| Emulator.Chip8.Draw | src/graphics.rs:13-42 | the nested loops over the array display have the effect of `Graphics.Draw` |
| Emulator.Chip8.DrawRow | src/graphics.rs:26-34 | the inner loop lights the targets of one sprite row and accumulates the collision flag |
| Emulator.Chip8.WaitKey | src/processor.rs:214-229 | the search loop with its `break` has the effect of the Fx0A step |
| Emulator.Chip8.StoreBcd | src/processor.rs:253-263 | has the effect of the Fx33 step |
| Emulator.Chip8.StoreRegs | src/processor.rs:265-269 | the copy loop has the effect of the Fx55 step |
| Emulator.Chip8.LoadRegs | src/processor.rs:271-275 | the copy loop has the effect of the Fx65 step |
| Emulator.Chip8.Execute | src/processor.rs:18-279 | runs the arm the opcode decodes to, and reports an unimplemented opcode exactly as `Processor.Execute` does |
| Emulator.Chip8.ExecuteInstr | src/processor.rs:24-275 | every arm has the effect of `Step` |
| Emulator.Chip8.ExecuteLowArms | src/processor.rs:24-153 | every arm whose opcode starts with 0 to 8 has the effect of `Step` |
| Emulator.Chip8.ExecuteHighArms | src/processor.rs:155-275 | every arm whose opcode starts with 9 to F has the effect of `Step` |
| Emulator.Chip8.ExecuteFlow | src/processor.rs:26-50 | 0000, 00E0, 00EE, 1nnn and 2nnn have the effect of `Step` |
| Emulator.Chip8.ExecuteSkip | src/processor.rs:52-71 | 3xkk, 4xkk and 5xy0 have the effect of `Step` |
| Emulator.Chip8.ExecuteLoad | src/processor.rs:73-84 | 6xkk and 7xkk have the effect of `Step` |
| Emulator.Chip8.ExecuteBitwise | src/processor.rs:86-104 | 8xy0 to 8xy3 have the effect of `Step` |
| Emulator.Chip8.ExecuteArithmetic | src/processor.rs:106-134 | 8xy4, 8xy5 and 8xy6 have the effect of `Step` |
| Emulator.Chip8.ExecuteNegShift | src/processor.rs:136-153 | 8xy7 and 8xyE have the effect of `Step` |
| Emulator.Chip8.ExecuteAddress | src/processor.rs:155-179 | 9xy0, Annn, Bnnn and Cxkk have the effect of `Step` |
| Emulator.Chip8.ExecuteSkipKey | src/processor.rs:189-206 | Ex9E and ExA1 have the effect of `Step` |
| Emulator.Chip8.ExecuteTimers | src/processor.rs:208-251 | Fx07, Fx15, Fx18, Fx1E and Fx29 have the effect of `Step` |
| Emulator.Chip8.Cycle | src/processor.rs:281-284 | fetch then execute has the effect of `Processor.Cycle` |

## Left out

- The host program in `src/main.rs` is not part of this model. That covers the SDL
  window and event loop, the mapping from keyboard scancodes to CHIP-8 keys, the
  frame pacing, and `draw_on_gui_screen` in `src/graphics.rs`. `Scenarios.Run` stands
  in for the host calling `cicle` a number of times, with no input events or timer
  ticks between the cycles.
- `src/font.rs` is not part of this model. `load_font` takes the font bytes as a
  parameter instead of the `FONT_SET` constant.
- Random numbers: Cxkk draws its byte from the `rand` crate. Here that byte is the
  parameter `rnd` of `Step`, `Execute` and `Cycle`. `Scenarios.Run` takes one byte
  per cycle, so every Cxkk of a run sees its own draw. The model says nothing about
  how the bytes are distributed.
- Fx33 computes its digits in `f32`. For a u8 operand, `floor` of that float
  arithmetic equals integer division and remainder, and the model uses those.
- Diagnostic printing and the unimplemented sound output are not modelled. The sound
  timer only counts down.
- A panic is not modelled as a state. An input that would panic is excluded by a
  precondition:
  - an out-of-bounds stack slot, memory address or key;
  - a u16 overflow of the program counter in a skip or a rewind;
  - a `u8` overflow in Fx29.
- The panic message of the `unimplemented!` arm is not modelled. `Unimplemented`
  carries only the opcode.
- Draw: the usual CHIP-8 convention toggles a pixel with XOR, but `draw` assigns
  `true` to every targeted pixel and raises VF when a targeted pixel was already lit.
  The model follows the code, so pixels are never switched off by a draw.
- Stack: the overflow test in `stack_push` compares against `OVERFLOW_INDEX`, which is
  `STACK_SIZE + 1` (17). A push at a stack pointer of 16 therefore indexes past the
  stack and panics. The model follows the code: `CanPush` excludes 16, and
  `StackPointerBounded` shows the reset branch at 17 is never reached from `new`.
- 5xy0: the comment above this arm speaks of `v[x] != v[y]`, while the code skips on
  equality. The model follows the code.
