# brickboy in Dafny

A model of the core of brickboy, a Game Boy emulator written in C, and of
its companion trace comparator `scripts/linecmp.py`. What is modelled:

- the SM83 processor: the register file, operand access, ALU flag rules, the
  stack, EI delay, interrupt entry and cycle accounting;
- the address decoders of the memory unit and the older bus;
- the MBC0 and MBC1 cartridge mappers;
- the timer, the picture unit (PPU), the joypad and the serial port;
- the growable `String`, the fixed `Strbuf`, the little-endian integer codec
  and the C-string conversion;
- the disassembler's line layout;
- interrupt arbitration and clock division in the main loop;
- the log comparator.

Value logic is written as functions over datatypes. Each C object whose
fields change in place is a class: `CpuCore.Cpu`, `Mmu.Unit`, `Bus.Bus`,
`Mbc0.Mbc0`, `Mbc1.Mbc1`, `Timers.Timer`, `Ppu.Unit`, `Joypad.Joypad`,
`Serial.SerialPort`, `Strings.Str`, `Strbufs.Strbuf` and `Machine.Board`.
Each method of these classes is proved to leave exactly the state a
specification function describes. The properties the program promises are
then proved about those functions.

Conventions:

- 8-bit and 16-bit registers are `bv8` and `bv16`, so C's unsigned
  wrap-around is built in.
- A C `PANIC`, `BOUNDS_CHECK` or `abort` is an error result (`Result.Err`), not
  a precondition.
- State is never shared through aliasing: a component the C code reaches by
  reference is a field of its owner.
- Memory as the processor sees it (through `mmu_read`/`mmu_write`) is a
  64 KiB byte map. The decoding behind it is modelled separately in `Mmu`.

Where the code and its documentation disagree, the model follows the code,
except where the code is evidently wrong (see Findings):

- Several headers are stale. For example, `src/cpu.h` names fields that
  `src/cpu.c` does not use, and `src/strbuf.h` does not declare `Strbuf`.
- The ROM-type constants of `gb_get_mapper` are not defined in the headers.
  The model uses the cartridge-header codes: 0x00 is ROM only, 0x01-0x03 are
  the MBC1 variants, and 0x03 is the one with a battery.
- `mmu_interrupt_requested`, `mmu_interrupt_enabled`, `mmu_clear_interrupt`
  and `mmu_set_interrupt` are not part of this model's sources. They are
  modelled as a bit test, `& ~bit` and `| bit` on IF and IE, with the bits of
  the interrupt enumeration of `src/interrupt.h`.
- `cpu_step` sets `step = cycles - 1` after the handler has run, which
  discards the extra cycle a taken branch added. The code as written is
  `CpuSpec.StepAsWritten`; the step the rest of the model uses adds the
  extra cycles instead (see Findings). Likewise the memory unit's write as
  written is `Mmu.WriteAsWritten`, and the rest of the model uses the
  corrected `Mmu.WriteSpec`.
- `src/common.h` calls the result of `to_cstring` always NUL-terminated, but
  the code is not (see Findings).

## Model

| member | source | states |
|---|---|---|
| LineCmp.FindPosition | scripts/linecmp.py:16-20 | the marker is as long as the longer line; column i is `^` exactly when both lines have a character there and they differ, and a blank otherwise |
| LineCmp.RStripMeaning | scripts/linecmp.py:51-52 | `rstrip` keeps a prefix that does not end in whitespace and drops only whitespace |
| LineCmp.ParseFilename | scripts/linecmp.py:23-28 | no `:` gives (name, 0); two or more give the too-many-values error; exactly one gives the text before it and the integer after it, or the literal error |
| LineCmp.ParseFilenameRoundTrip | scripts/linecmp.py:23-28 | `name:k` for a name without `:` parses back to (name, k) for every integer k |
| LineCmp.ParseIntOfString | scripts/linecmp.py:27 | `int()` of the decimal text of any integer gives that integer back |
| LineCmp.Skip | scripts/linecmp.py:39-46 | exactly `skip` lines are consumed; a file with fewer lines fails with end-of-file instead of being compared |
| LineCmp.FirstDiffMeaning | scripts/linecmp.py:50-54 | the search finds no index exactly when every pair of the zip is equal after `rstrip`; a found index k is unequal and every earlier pair is equal |
| LineCmp.ExpectedSame | scripts/linecmp.py:50-68 | the comparison succeeds exactly when every zipped pair is equal after `rstrip`; lines past the shorter file are never looked at |
| LineCmp.ExpectedDiffer | scripts/linecmp.py:50-66 | on a mismatch at local index k, the report names lines k+1+skip1 and k+1+skip2 and the two stripped lines, every earlier pair is equal, and the context is the last min(k, prev) matching lines, oldest first |
| LineCmp.WindowStep | scripts/linecmp.py:48-66 | appending to a deque bounded by `prev` keeps exactly the last `prev` lines |
| LineCmp.ReportLines | scripts/linecmp.py:55-62 | the printout is the context lines, a blank line, the header, both lines and the marker |
| LineCmp.Walk | scripts/linecmp.py:50-68 | the lockstep loop with its bounded deque returns the verdict the specification function defines |
| LineCmp.Compare | scripts/linecmp.py:37-68 | a first log that fails to parse, open or skip ends compare with that failure; otherwise the second log's failure; otherwise a negative `prev` is rejected; and when both logs open and `prev >= 0` the verdict is the comparison of the two streams after their skips |
| Alu.WithFlags | src/cpu.h:11-17 | writing Z/N/H/C into F sets exactly bits 7-4 and keeps the low nibble |
| Alu.Add | src/cpu.c:587-667 | ADD/ADC: the result is A+v+carry mod 256, Z iff it is zero, N clear |
| Alu.AddCarry | src/cpu.c:593-667 | ADD/ADC sets C exactly when the full sum exceeds 0xFF |
| Alu.AddHalfCarry | src/cpu.c:594-667 | ADD/ADC sets H exactly when the low-nibble sum exceeds 0xF |
| Alu.Sub | src/cpu.c:672-710 | SUB/SBC/CP: the result is A-v-carry mod 256, Z iff it is zero, N set |
| Alu.SubCarry | src/cpu.c:672-710 | SUB/SBC/CP set C exactly on a byte borrow |
| Alu.SubHalfCarry | src/cpu.c:672-710 | SUB/SBC/CP set H exactly on a nibble borrow |
| Alu.Inc | src/cpu.c:527-540 | INC adds one, sets Z and H by the result, clears N and keeps C |
| Alu.Dec | src/cpu.c:557-570 | DEC subtracts one, sets Z and H by the borrow, sets N and keeps C |
| Alu.Rlc | src/cpu.c:1002-1065 | RLC moves bit 7 into bit 0 and shifts the rest left |
| Alu.Rrc | src/cpu.c:1070-1099 | RRC moves bit 0 into bit 7 and shifts the rest right |
| Alu.Rl | src/cpu.c:1019-1048 | RL shifts left with the old carry entering bit 0 |
| Alu.Rr | src/cpu.c:1104-1134 | RR shifts right with the old carry entering bit 7 |
| Alu.Sla | src/cpu.c:1139-1151 | SLA shifts left and clears bit 0 |
| Alu.Sra | src/cpu.c:1156-1168 | SRA shifts right and keeps the sign bit |
| Alu.Srl | src/cpu.c:1173-1185 | SRL shifts right and clears bit 7 |
| Alu.Swap | src/cpu.c:1214-1228 | SWAP exchanges the two nibbles |
| Alu.RotateInverse | src/cpu.c:1002-1099 | RRC undoes RLC and the reverse; SWAP twice is the identity |
| Alu.RotateThroughCarryInverse | src/cpu.c:1036-1134 | RR with RL's carry-out undoes RL; RL's new bit 0 is the old carry |
| Alu.And | src/cpu.c:715-728 | AND leaves A AND v, sets Z exactly when it is zero, sets H and clears N and C |
| Alu.Xor | src/cpu.c:813-826 | XOR leaves A XOR v, sets Z exactly when it is zero and clears N, H and C |
| Alu.Or | src/cpu.c:831-844 | OR leaves A OR v, sets Z exactly when it is zero and clears N, H and C |
| Alu.LogicWithItself | src/cpu.c:715-844 | XOR A clears A and sets Z; OR A and AND A keep A and set Z exactly when it is zero |
| Alu.DaaResult | src/cpu.c:395-422 | DAA adds the correction after an addition and subtracts it after a subtraction; Z from the result, N kept, H cleared, C exactly when the correction holds 0x60 |
| Alu.DaaExample | src/cpu.c:395-422 | the BCD sum 0x19 + 0x28 gives 0x41 with H set, which DAA corrects to 0x47 |
| Alu.DaaCorrection | src/cpu.c:394-422 | DAA adds 0x06 exactly when H is set or (after an addition) the low nibble exceeds 9, and 0x60 exactly when C is set or A exceeds 0x99 |
| Alu.AddHl | src/cpu.c:608-623 | ADD HL,rr adds modulo 2^16, keeps Z and clears N |
| Alu.AddHlCarries | src/cpu.c:614-620 | ADD HL,rr sets C on a 16-bit carry and H on a carry out of bit 11 |
| Alu.SignExtend | src/cpu.c:631 | the 8-bit offset is sign-extended: the high byte is 0 or 0xFF by bit 7 |
| Alu.AddSigned | src/cpu.c:505-645 | ADD SP,e and LD HL,SP+e add the signed offset, clear Z and N, and set C on a carry out of the low byte |
| Alu.AddSignedHalfCarry | src/cpu.c:636-641 | ADD SP,e sets H on a carry out of the low nibble |
| Addresses.Next | src/mmu.c:107-121 | the next address of a 16-bit access wraps from 0xFFFF to 0 |
| CpuSpec.PairHalves | src/cpu.h:20-60 | a register pair is its two bytes, high then low, and splitting it back gives them again |
| CpuSpec.WithHL | src/cpu.c:216-218 | storing a word into HL makes HL read that word |
| CpuSpec.Write16 | src/cpu.c:272-277 | a 16-bit store touches only its two bytes |
| CpuSpec.Read16Write16 | src/mmu.c:107-121 | a 16-bit store then load at the same address round-trips |
| CpuSpec.ResetAddr | src/cpu.c:10-13 | each RST vector is one of 0x00-0x38 and a multiple of 8; its exact value 8n is `ResetVector` |
| CpuSpec.ResetVector | src/cpu.c:10-13 | RST vector n is 8n, as the table lists 0x00, 0x08, ..., 0x38 |
| CpuSpec.Advance | src/cpu.c:46-155 | fetching an immediate advances PC by its size; (HL+) and (HL-) move HL by one; no other operand changes a register |
| CpuSpec.Load | src/cpu.c:46-155 | reading an operand fails exactly for the missing operand |
| CpuSpec.StoreAborts | src/cpu.c:157-251 | storing into an operand fails exactly for the arguments that are not targets |
| CpuSpec.StoreHLIncrement | src/cpu.c:235-237 | a store through (HL+) writes at the old HL and increments HL |
| CpuSpec.StoreHLDecrement | src/cpu.c:238-240 | a store through (HL-) writes at the old HL and decrements HL |
| CpuSpec.Push | src/cpu.c:272-277 | a push lowers SP by two, the word is at the new SP, and every other byte of memory is kept |
| CpuSpec.PushThenPop | src/cpu.c:272-285 | a pop after a push returns the pushed word and restores SP |
| CpuSpec.PopValueBits | src/cpu.c:878-888 | POP AF clears the low four bits of F; other pairs take the word unchanged |
| CpuSpec.PopAfClearsLowNibble | src/cpu.c:878-888 | POP AF succeeds, restores SP+2 and leaves the low nibble of F clear |
| CpuSpec.TestBit | src/cpu.c:253-258 | the bit read is 1 exactly when the selected bit of the operand is set |
| CpuSpec.SetBit | src/cpu.c:260-270 | SET/RES change only the bit selected by the index masked with 7 |
| CpuSpec.BitFlags | src/cpu.c:1233-1242 | BIT n,r and BIT n,(HL) set Z exactly when the selected bit is 0, clear N, set H and keep C |
| CpuSpec.BitResult | src/cpu.c:1233-1242 | BIT changes nothing but F, which it sets from the selected bit of the register or of the byte at HL |
| CpuSpec.RunMisc | src/cpu.c:374-464 | NOP, HALT, DI, EI and the flag instructions change only HALT, IME or the pending EI as each names, and never memory; `MiscResult` gives the registers |
| CpuSpec.MiscResult | src/cpu.c:374-464 | NOP, HALT, DI and EI keep every register; CPL complements A and sets N and H; SCF sets C and CCF inverts it, both clearing N and H; DAA leaves the decimal-adjusted A and its flags; Z is kept except by DAA, no register but A and F changes, and F's low nibble is kept |
| CpuSpec.EiDelays | src/cpu.c:1202-1209 | EI only schedules IME for the next instruction |
| CpuSpec.EiTakesEffectNext | src/cpu.c:340-346 | with EI pending, the next instruction runs with IME set, unless it is DI, and the pending flag is cleared unless it is EI again |
| CpuSpec.LoadOp | src/cpu.c:469-484 | LD leaves the interrupt and cycle state alone; the registers and memory it leaves are in the `Load…` lemmas below |
| CpuSpec.LoadRegister | src/cpu.c:470-474 | LD r,x puts the source's byte in r and keeps memory, F and SP; PC and HL move only as fetching the source moves them |
| CpuSpec.LoadIndirect | src/cpu.c:470-474 | LD (BC), (DE), (HL), (HL+), (HL-) or (C) from a register or d8 writes the source's byte at the address the registers held; the registers change only by the operand fetches (PC past d8, HL stepped) |
| CpuSpec.LoadHighPage | src/cpu.c:470-474 | LDH (a8),A writes A at 0xFF00 plus the immediate byte and moves PC past it; nothing else changes |
| CpuSpec.LoadAbsolute | src/cpu.c:470-474 | LD (a16),A writes A at the immediate address and moves PC past it; nothing else changes |
| CpuSpec.LoadPair | src/cpu.c:480-484 | LD rr,d16 and LD SP,HL put the 16-bit source in the pair, keep memory, A and F, and move PC past the immediate |
| CpuSpec.StoreRegister8 | src/cpu.c:186-205 | a store to an 8-bit register puts the low byte there and keeps memory, F, SP and PC, and HL unless the target is H or L |
| CpuSpec.StorePair | src/cpu.c:210-221 | a store to BC, DE, HL or SP makes the pair read the word and keeps memory, A, F and PC |
| CpuSpec.StoreStackPair | src/cpu.c:207-218 | a store to AF, BC, DE or HL makes the pair read the word and keeps memory, SP and PC |
| CpuSpec.StoreIndirect | src/cpu.c:222-240 | a store through (C), (BC), (DE), (HL), (HL+) or (HL-) writes the low byte at the address the registers give, and only (HL+) and (HL-) change a register |
| CpuSpec.StoreImmediateAddress | src/cpu.c:241-248 | a store through (a8) writes at 0xFF00 plus the immediate byte, through (a16) at the immediate word, and PC moves past the immediate |
| CpuSpec.WithBC | src/cpu.c:210-212 | storing a word into BC makes BC read that word |
| CpuSpec.WithDE | src/cpu.c:213-215 | storing a word into DE makes DE read that word |
| CpuSpec.LoadMemSp | src/cpu.c:489-500 | LD (a16),SP stores SP at the immediate address and advances PC by two |
| CpuSpec.AddSpOp | src/cpu.c:505-645 | ADD SP,e and LD HL,SP+e change neither memory nor the control state; `AddSpResult` gives the registers |
| CpuSpec.AddSpResult | src/cpu.c:629-645 | ADD SP,e (and LD HL,SP+e, cpu.c:506-522) puts SP plus the signed immediate in SP (in HL, keeping SP), sets F from that addition, keeps A and moves PC past the immediate |
| CpuSpec.AddHlOp | src/cpu.c:608-623 | ADD HL,rr changes neither memory nor the control state; `AddHlResult` gives the registers |
| CpuSpec.AddHlResult | src/cpu.c:609-623 | ADD HL,rr puts the 16-bit sum in HL and its flags in F, and keeps A, SP and PC |
| CpuSpec.Step16 | src/cpu.c:545-582 | INC rr and DEC rr leave the control state alone; `Inc16Result` and `Dec16Result` give the rest |
| CpuSpec.Inc16Result | src/cpu.c:546-552 | INC rr adds one to the pair, wrapping from 0xFFFF to 0, and keeps memory, A, F and PC |
| CpuSpec.Dec16Result | src/cpu.c:576-582 | DEC rr subtracts one from the pair, wrapping from 0 to 0xFFFF, and keeps memory, A, F and PC |
| CpuSpec.RunTransfer | src/cpu.c:469-582 | the loads and the 16-bit arithmetic leave the control state alone; each handler it selects has its own result lemma |
| CpuSpec.CallTo | src/cpu.c:893-899 | CALL leaves the control state alone; `CallResult` gives the rest |
| CpuSpec.CallResult | src/cpu.c:894-899 | CALL a16 (and RST n, cpu.c:992-997) pushes the address of the next instruction, lowers SP by two and sets PC to the target; no other register changes, and memory is the old memory with only that word written at SP-2 |
| CpuSpec.PopOp | src/cpu.c:878-888 | POP leaves the control state alone; `PopResult` gives the rest |
| CpuSpec.PopResult | src/cpu.c:879-888 | POP rr puts the word at SP in the pair (for AF with the low nibble cleared), raises SP by two and keeps PC and memory |
| CpuSpec.RunFlow | src/cpu.c:733-997 | jumps, calls and returns leave the control state alone except RETI, which sets IME and cancels a pending EI; the result lemmas below give the registers and memory |
| CpuSpec.JumpResult | src/cpu.c:734-738 | JP a16 and JP HL set PC to the operand and change nothing else |
| CpuSpec.RelativeJumpResult | src/cpu.c:774-778 | JR e8 moves PC, counted from the end of the instruction, by the signed offset; nothing else changes |
| CpuSpec.RelativeTargetDirection | src/cpu.c:776-777 | an offset below 0x80 jumps forward by itself and one of 0x80 or more jumps back by 0x100 minus itself, as the `int8_t` cast makes it |
| CpuSpec.PushResult | src/cpu.c:869-873 | PUSH rr stores the pair at SP-2 and lowers SP by two; no other register changes, and memory is the old memory with only that word written |
| CpuSpec.ReturnResult | src/cpu.c:937-943 | RET (and RETI, cpu.c:977-985) sets PC to the word at SP and raises SP by two; no other register and no memory changes |
| CpuSpec.RunBitAccess | src/cpu.c:1233-1262 | BIT/SET/RES leave the control state alone; `BitResult`, `BitWriteRegister` and `BitWriteIndirect` give the rest |
| CpuSpec.BitWriteRegister | src/cpu.c:1248-1262 | SET n,r and RES n,r set or clear bit n of the register, keeping its other bits, and keep memory, F, SP and PC |
| CpuSpec.BitWriteIndirect | src/cpu.c:1248-1262 | SET n,(HL) and RES n,(HL) set or clear bit n of the byte at HL, keeping its other bits, and change no register |
| CpuSpec.RunUnary | src/cpu.c:1002-1228 | rotates, shifts and SWAP leave the control state alone; `UnaryRegister` and `UnaryIndirect` give the rest |
| CpuSpec.UnaryRegister | src/cpu.c:1003-1228 | a rotation, shift or SWAP of a register (and INC r or DEC r, cpu.c:528-570) puts the computed byte in the register and the computed flags in F, and keeps memory, SP and PC |
| CpuSpec.UnaryIndirect | src/cpu.c:1003-1228 | the (HL) forms write the computed byte at HL, set F to the computed flags and change no other register |
| CpuSpec.RunAccumulator | src/cpu.c:587-863 | the 8-bit ALU instructions change neither memory nor the control state |
| CpuSpec.AccumulatorResult | src/cpu.c:587-863 | with an operand the handler succeeds; ADD, ADC, SUB, SBC, AND, XOR and OR put the ALU's value in A, CP keeps A; the flags are the ALU's, and only the operand's PC or HL advance changes the other registers |
| CpuSpec.RunConditional | src/cpu.c:743-971 | a conditional jump, call or return adds its extra cycles to the countdown exactly when the branch is taken; the lemmas below give the registers and memory |
| CpuSpec.ConditionTaken | src/cpu.c:744-768 | a conditional branch is taken when its flag, Z or C, is set, and for the NZ and NC forms when it is clear |
| CpuSpec.JumpIfResult | src/cpu.c:744-768 | JP cc,a16 sets PC to the address when taken and moves PC past it otherwise; nothing else changes |
| CpuSpec.RelativeIfResult | src/cpu.c:784-808 | JR cc,e8 moves PC by the signed offset from the end of the instruction when taken and past the instruction otherwise; nothing else changes |
| CpuSpec.CallIfResult | src/cpu.c:905-931 | CALL cc,a16, when taken, pushes the address of the next instruction, lowers SP by two and jumps, memory being the old memory with only that word written at SP-2; otherwise only PC moves past the instruction and memory is kept |
| CpuSpec.ReturnIfResult | src/cpu.c:949-971 | RET cc pops PC and raises SP by two when taken and changes nothing otherwise |
| CpuSpec.Run | src/cpu.c:374-1262 | after any handler, HALT, IME and the pending EI change only as HALT, DI, EI and RETI say, and the countdown grows only by taken-branch cycles |
| CpuSpec.Decode | src/cpu.c:287-300 | opcode 0xCB selects the prefixed table by the next byte, which always has a handler; any other opcode selects the main table |
| CpuSpec.Fetch | src/cpu.c:327-334 | fetching decodes at PC and advances PC by one, or by two after 0xCB |
| CpuSpec.ApplyDelay | src/cpu.c:340-344 | a pending EI sets IME and is cleared |
| CpuSpec.Execute | src/cpu.c:324-349 | an opcode without a handler aborts with that opcode; otherwise its handler runs on the state after fetch and delay |
| CpuSpec.StepExecutes | src/cpu.c:351-365 | a step with the countdown at 0 and not halted executes one instruction and sets the countdown from its cycles |
| CpuSpec.StepCycles | src/cpu.c:351-365 | while the countdown is positive a step only decrements it; a halted processor does nothing; after executing, the countdown is cycles-1 plus the taken-branch extras |
| CpuSpec.StepAsWrittenLosesBranchCycles | src/cpu.c:364 | the step as written sets the countdown to cycles-1 and loses the taken-branch extras |
| CpuSpec.JumpTakenAddsCycle | src/cpu.c:743-753 | a taken `JP Z` adds one cycle, so the two steps differ for it |
| CpuSpec.Interrupt | src/cpu.c:308-322 | interrupt entry always ends HALT; with IME clear nothing else changes; otherwise IME is cleared, PC is pushed (memory is the old memory with only that word written at SP-2) and PC becomes the vector |
| CpuSpec.InterruptKeepsOtherBytes | src/cpu.c:308-322 | an interrupt dispatch changes no byte of memory but the two bytes of the pushed PC |
| CpuSpec.InitialValues | src/cpu.c:29-44 | reset gives AF=0x01B0, BC=0x0013, DE=0x00D8, HL=0x014D, SP=0xFFFE and PC=0 |
| CpuCore.Cpu.constructor | src/cpu.c:15-21 | a new processor is in the reset state |
| CpuCore.Cpu.Reset | src/cpu.c:29-44 | reset sets the registers and the control state to their initial values and keeps memory |
| CpuCore.Cpu.Push | src/cpu.c:272-277 | the in-place push leaves the state the push function describes |
| CpuCore.Cpu.Pop | src/cpu.c:279-285 | the in-place pop returns and leaves what the pop function describes |
| CpuCore.Cpu.Interrupt | src/cpu.c:308-322 | the in-place interrupt entry leaves the state `CpuSpec.Interrupt` describes |
| CpuCore.Cpu.Execute | src/cpu.c:324-349 | the in-place fetch, delay and handler leave the state `CpuSpec.Execute` describes, or abort as it does |
| CpuCore.Cpu.Step | src/cpu.c:351-365 | the in-place step leaves the state the corrected `CpuSpec.Step` describes, which keeps the taken-branch cycles that the code as written discards |
| Opcodes.MissingEntries | src/cpu.c:1271-1538 | none of the thirteen opcodes the main table leaves out (STOP at 0x10, the 0xCB prefix and eleven undefined ones) has a handler |
| Opcodes.CbRegister | src/cpu.c:1540-1808 | the prefixed table takes (HL) exactly for the opcodes whose low three bits are 6 |
| Opcodes.CbTable | src/cpu.c:1540-1808 | every prefixed opcode has a handler; 0x00-0x3F are rotates and shifts on one register, the rest are BIT/RES/SET with the bit in bits 3-5; the cycle counts are 2, 3 for BIT n,(HL) and 4 for the other (HL) forms |
| Mmu.HramStore | src/mmu.c:94-95 | an HRAM store succeeds exactly for 0xFF80-0xFFFE |
| Mmu.IntfWriteAsWrittenOutOfBounds | src/mmu.c:91-95 | a write to 0xFF0F as written indexes HRAM at -113 |
| Mmu.WriteAsWrittenElsewhere | src/mmu.c:63-105 | every other write as written is the corrected write |
| Mmu.WriteSpec | src/mmu.c:63-105 | a write keeps all arrays at their sizes |
| Mmu.ReadLy | src/mmu.c:30-32 | a read of 0xFF44 gives 0x90 in every state |
| Mmu.EchoAlias | src/mmu.c:41-81 | a write to either view of work RAM is seen through the other |
| Mmu.InteMasked | src/mmu.c:54-100 | a write to 0xFFFF stores the value masked with 0x1F, and that is what a read returns |
| Mmu.IntfReadAfterWrite | src/mmu.c:49-93 | after the corrected write, a read of 0xFF0F returns the value written |
| Mmu.OamWriteOnly | src/mmu.c:57-84 | OAM writes are stored but OAM reads return 0 |
| Mmu.UnhandledIgnored | src/mmu.c:57-103 | an unhandled address reads 0 and a write to it changes nothing |
| Mmu.MapperForwarded | src/mmu.c:35-75 | ROM and external RAM accesses go to the mapper and leave the unit alone |
| Mmu.Word | src/mmu.c:107-121 | a word is its low byte then its high byte |
| Mmu.WordOfBytes | src/mmu.c:107-121 | splitting a word into bytes and joining them again gives it back |
| Mmu.PlainReadAfterWrite | src/mmu.c:63-105 | on plain RAM, a read returns what the last write stored |
| Mmu.PlainWriteElsewhere | src/mmu.c:63-105 | a plain RAM write leaves every other plain RAM address as it was |
| Mmu.Read16AfterWrite16 | src/mmu.c:107-121 | a 16-bit write then read round-trips on plain RAM |
| Mmu.ResetSpec | src/mmu.c:10-25 | the reset state is well sized |
| Mmu.Fill | src/mmu.c:17-21 | `memset` fills every byte with the value |
| Mmu.Unit.constructor | src/mmu.c:10-25 | a new unit is in the reset state |
| Mmu.Unit.Reset | src/mmu.c:10-25 | reset zeroes RAM, VRAM, OAM, I/O, IE and IF, fills HRAM with 0xFF and resets the timer and the serial port |
| Mmu.Unit.Read | src/mmu.c:27-61 | the in-place read returns what `ReadSpec` gives |
| Mmu.Unit.Write | src/mmu.c:63-105 | the in-place write leaves the state the corrected `WriteSpec` describes (an IF write does not fall through into HRAM) and reports when it went to the mapper |
| Mmu.Unit.Read16 | src/mmu.c:107-114 | the 16-bit read returns `Read16Spec` |
| Mmu.Unit.Write16 | src/mmu.c:116-121 | the 16-bit write leaves the state `Write16Spec` describes |
| Bus.ReadSpec | src/bus.c:14-27 | 0x0000-0x7FFF go to the mapper, 0xC000-0xDFFF to RAM, 0xFE00-0xFE9F to OAM, and everything else reads 0 |
| Bus.WriteSpec | src/bus.c:29-41 | a write changes RAM only inside RAM and OAM only inside OAM |
| Bus.ReadAfterWrite | src/bus.c:29-41 | a RAM or OAM write then read returns the byte, and every other address reads as before |
| Bus.Bus.constructor | src/bus.h:9-20 | a new bus has RAM and OAM of the right sizes |
| Bus.Bus.Reset | src/bus.c:8-12 | the reset is passed on to the mapper; work RAM and OAM keep their contents |
| Bus.Bus.Read | src/bus.c:14-27 | the in-place read returns `ReadSpec` |
| Bus.Bus.Write | src/bus.c:29-41 | the in-place write leaves the arrays `WriteSpec` describes and reports when it went to the mapper |
| Mbc0.ReadSpec | src/mbc0.c:44-54 | a read succeeds exactly below the ROM size and panics otherwise |
| Mbc0.WriteSpec | src/mbc0.c:56-66 | a write succeeds exactly below the ROM size and keeps it |
| Mbc0.ReadAfterWrite | src/mbc0.c:44-66 | a write then read returns the byte and leaves every other address alone |
| Mbc0.Mbc0.Init | src/mbc0.c:23-30 | initialisation records the ROM |
| Mbc0.Mbc0.Reset | src/mbc0.c:38-42 | reset changes nothing |
| Mbc0.Mbc0.Read | src/mbc0.c:44-54 | the read returns `ReadSpec` |
| Mbc0.Mbc0.Write | src/mbc0.c:56-66 | the write stores into the ROM, or panics and leaves it unchanged |
| Mbc1.Checked | src/mbc1.c:70-106 | the bounds check passes exactly below the size |
| Mbc1.ReadSpec | src/mbc1.c:57-82 | bank 0 ignores the bank registers; 0x4000-0x7FFF read the selected bank, bounds-checked; with RAM off external RAM reads 0xFF; other addresses panic |
| Mbc1.RomBankOf | src/mbc1.c:94-99 | the ROM bank is the low five bits, with 0 replaced by 1, so it is always 1-31 |
| Mbc1.WriteSpec | src/mbc1.c:84-113 | 0x0000-0x1FFF enable RAM iff the low nibble is 0xA; 0x2000-0x3FFF set the ROM bank; 0x4000-0x5FFF set the RAM bank unmasked; with RAM off, RAM writes change nothing; other addresses panic |
| Mbc1.WriteKeepsBanksValid | src/mbc1.c:84-113 | every write keeps the ROM bank in 1-31 |
| Mbc1.FixedBankIgnoresBanks | src/mbc1.c:66-67 | reads below 0x4000 do not depend on the bank registers |
| Mbc1.RamReadAfterWrite | src/mbc1.c:72-108 | with RAM on and in range, a RAM write then read returns the byte |
| Mbc1.BankPastRamPanics | src/mbc1.c:74-106 | a RAM bank past the RAM size makes both reads and writes panic |
| Mbc1.Mbc1.constructor | src/mbc1.c:23-39 | a new mapper has RAM of the header's size, a battery exactly for type 0x03, and the reset banks |
| Mbc1.Mbc1.Reset | src/mbc1.c:49-55 | reset gives RAM off, ROM bank 1 and RAM bank 0 |
| Mbc1.Mbc1.Read | src/mbc1.c:57-82 | the read returns `ReadSpec` of the current banks |
| Mbc1.Mbc1.Write | src/mbc1.c:84-113 | the write leaves the banks and RAM `WriteSpec` describes, or panics and changes nothing |
| Timers.Frequency | src/timer.c:7-96 | the prescaler period is one of 1024, 16, 64 and 256 |
| Timers.ReadSpec | src/timer.c:46-61 | reads of 0xFF04-0xFF07 give DIV, TIMA, TMA and TAC; other addresses panic |
| Timers.WriteSpec | src/timer.c:63-82 | writes to 0xFF04 zero DIV whatever the value; 0xFF05-0xFF07 store it; other addresses panic |
| Timers.ReadAfterWrite | src/timer.c:46-82 | a write then read returns the byte, or 0 for DIV, and leaves the other registers alone |
| Timers.DividerStepBounds | src/timer.c:89-93 | the internal divider stays in 0-255 and DIV advances exactly when it wraps |
| Timers.CounterStepKeepsDivider | src/timer.c:95-109 | the counter half of a step leaves DIV and its prescaler alone |
| Timers.DividerCounts | src/timer.c:89-93 | after n steps the internal divider is (d+n) mod 256 and DIV has advanced once per 256 steps |
| Timers.DisabledCounterHolds | src/timer.c:87-95 | with TAC bit 2 clear, TIMA, its prescaler, TMA, TAC and the interrupt flag do not change |
| Timers.CounterStepBounds | src/timer.c:95-107 | while enabled the prescaler counts up to the period; below it TIMA and the interrupt stay; on reaching it the prescaler restarts at 0, TIMA ticks (TMA on the wrap) and the interrupt is raised if TIMA reaches 0xFF |
| Timers.CounterCounts | src/timer.c:95-107 | over n enabled steps TIMA ticks once per period, (c+n) div the period times in all |
| Timers.CounterPrescaler | src/timer.c:96-101 | after n steps the prescaler is (c+n) mod the period |
| Timers.CounterOverflow | src/timer.c:103-107 | TIMA reaching 0xFF raises the interrupt; wrapping to 0 reloads TMA |
| Timers.PassedPrescalerStalls | src/timer.c:96-99 | a prescaler already past the period, after TAC shrank the period, is never equal to it again, so TIMA stops |
| Timers.TakeInterruptTwice | src/timer.c:112-121 | the interrupt flag is read and cleared: a second read without a step gives false |
| Timers.Timer.constructor | src/timer.c:20-26 | a new timer is in the reset state |
| Timers.Timer.Reset | src/timer.c:34-44 | reset zeroes every register, the interrupt flag and both prescalers |
| Timers.Timer.Read | src/timer.c:46-61 | the read returns `ReadSpec` |
| Timers.Timer.Write | src/timer.c:63-82 | the write leaves the state `WriteSpec` describes, or panics and changes nothing |
| Timers.Timer.Step | src/timer.c:84-110 | the step leaves the state `StepSpec` describes |
| Timers.Timer.StepDivider | src/timer.c:89-93 | the divider half of the step |
| Timers.Timer.StepCounter | src/timer.c:95-109 | the counter half of the step |
| Timers.Timer.TakeInterrupt | src/timer.c:112-121 | returns the interrupt flag and clears it |
| Serial.ReadSpec | src/serial.c:28-39 | 0xFF01 and 0xFF02 read the data and control bytes; other addresses panic |
| Serial.WriteSpec | src/serial.c:41-54 | 0xFF01 and 0xFF02 store; other addresses panic |
| Serial.ReadAfterWrite | src/serial.c:28-54 | a write then read returns the byte and leaves the other register alone |
| Serial.PrintSpec | src/serial.c:56-65 | printing keeps the data byte, clears the transfer bit and keeps the other control bits |
| Serial.PrintIdempotent | src/serial.c:56-65 | printing twice is printing once, and without the transfer bit nothing changes |
| Serial.SerialPort.constructor | src/serial.c:8-14 | a new port has both bytes zero |
| Serial.SerialPort.Reset | src/serial.c:21-26 | reset zeroes both bytes |
| Serial.SerialPort.Read | src/serial.c:28-39 | the read returns `ReadSpec` |
| Serial.SerialPort.Write | src/serial.c:41-54 | the write leaves what `WriteSpec` describes, or panics and changes nothing |
| Serial.SerialPort.Print | src/serial.c:56-65 | the print leaves the state `PrintSpec` describes |
| Joypad.ButtonOf | src/joypad.c:60-74 | a button code is valid exactly in 0-7, and the button decoded has that code |
| Joypad.ButtonOfCode | src/joypad.c:60-74 | decoding a button's code gives the button |
| Joypad.MaskDistinct | src/joypad.c:64-71 | two buttons of the same group have disjoint bits |
| Joypad.ReadSpec | src/joypad.c:30-44 | the read is the d-pad if selected, OR the buttons if selected, and 0 with neither |
| Joypad.WriteSpec | src/joypad.c:46-51 | a write selects the d-pad iff bit 4 is clear and the buttons iff bit 5 is clear, and changes nothing else |
| Joypad.ClearSpec | src/joypad.c:53-58 | clear sets both groups to 0x0F and keeps the selects |
| Joypad.PressDpad | src/joypad.c:64-67 | a d-pad press clears exactly its bit and leaves the buttons and selects alone |
| Joypad.PressButton | src/joypad.c:68-71 | a button press clears exactly its bit and leaves the d-pad and selects alone |
| Joypad.PressTwice | src/joypad.c:60-74 | pressing twice is pressing once |
| Joypad.PressReads | src/joypad.c:30-74 | with only its group selected, a pressed button reads as 0 |
| Joypad.PressesStayInNibble | src/joypad.c:60-74 | presses keep both groups within 0x0F |
| Joypad.ClearThenPresses | src/joypad.c:53-74 | after a clear and any presses, both groups stay within 0x0F |
| Joypad.Joypad.constructor | src/joypad.c:7-13 | a new joypad is in the reset state |
| Joypad.Joypad.Reset | src/joypad.c:21-28 | reset clears both selects and zeroes both groups |
| Joypad.Joypad.Read | src/joypad.c:30-44 | the read returns `ReadSpec` |
| Joypad.Joypad.Write | src/joypad.c:46-51 | the write leaves the state `WriteSpec` describes |
| Joypad.Joypad.Clear | src/joypad.c:53-58 | the clear leaves the state `ClearSpec` describes |
| Joypad.Joypad.Press | src/joypad.c:60-74 | the press leaves the state the press function describes |
| Ppu.ModeBitsInjective | src/ppu.c:15-20 | the four modes have distinct STAT codes |
| Ppu.StatByteFields | src/ppu.c:36-47 | STAT is the writable high bits, the LY=LYC bit and the mode in bits 0-1 |
| Ppu.SetModeSpec | src/ppu.c:279-302 | entering OAM scan or HBLANK raises the STAT interrupt when its source bit is set; entering VBLANK raises VBLANK only when the STAT VBLANK bit is set |
| Ppu.LyIncrementSpec | src/ppu.c:304-317 | LY advances mod 256; the LY=LYC flag becomes LY==LYC, and equality raises the STAT interrupt when the LYC source is set |
| Ppu.StepKeepsInv | src/ppu.c:367-388 | every step keeps the tick counter below the end of its mode and LY in 0-143 or, in VBLANK, 144-152 |
| Ppu.RendersVisibleLine | src/ppu.c:327-334 | a line is only rendered while LY is below 144 |
| Ppu.LineModeSequence | src/ppu.c:319-334 | OAM scan becomes pixel draw at tick 80; pixel draw becomes HBLANK at 252, raising STAT when its source is set |
| Ppu.EndOfLine | src/ppu.c:336-350 | at tick 456 in HBLANK the counter restarts and LY advances; line 144 enters VBLANK with the frame complete; any other line starts an OAM scan |
| Ppu.EndOfBlankLine | src/ppu.c:352-365 | at tick 456 in VBLANK LY advances; reaching 153 starts an OAM scan at LY 0 |
| Ppu.QuietTick | src/ppu.c:367-388 | on every other tick only the tick counter advances |
| Ppu.TileMapAddr | src/ppu.c:226-227 | the tile map entry lies in 0x9800-0x9FFF |
| Ppu.Signed | src/ppu.c:220 | the signed tile id is the byte read as two's complement |
| Ppu.TileAddr | src/ppu.c:213-221 | the tile is at 0x8000+16·id in unsigned mode and 0x8800+16·signed(id) otherwise, and always inside 0x8000-0x8FFF |
| Ppu.PixelOf | src/ppu.c:236-240 | a pixel is one of four colour ids |
| Ppu.PixelBits | src/ppu.c:236-240 | the high bit of a pixel comes from the first byte and the low bit from the second |
| Ppu.PixelColumn | src/ppu.c:236-240 | pixel 7-x is (b0 bit x)<<1 OR (b1 bit x) |
| Ppu.TilePixel | src/ppu.c:223-242 | every rendered pixel is a colour id read inside VRAM |
| Ppu.Shade | src/ppu.c:271-274 | the palette maps a colour id to one of four shades |
| Ppu.IdentityPalette | src/ppu.c:271-272 | palette 0xE4 maps each id to itself |
| Ppu.RegisterReadAfterWrite | src/ppu.c:105-201 | LCDC, SCY, SCX, LYC, DMA, BGP, OBP0, OBP1, WY and WX read back what was written |
| Ppu.StatWriteKeepsLowBits | src/ppu.c:168-170 | a STAT write sets bits 3-7 and keeps the read-only bits 0-2 |
| Ppu.LyWriteIgnored | src/ppu.c:155-201 | LY has no write case, so a write to it is ignored |
| Ppu.ResetRegs | src/ppu.c:87-103 | reset sets LCDC to 0x91 and zeroes STAT, SCY, SCX, LYC, DMA, WY and WX |
| Ppu.ResetTiming | src/ppu.c:87-103 | reset zeroes LY and the mode bits |
| Ppu.ResetKeepsInv | src/ppu.c:87-103 | reset keeps the mode-machine invariant |
| Ppu.Unit.constructor | src/ppu.c:73-79 | a new unit has a black frame, zeroed VRAM and OAM and the reset registers |
| Ppu.Unit.Reset | src/ppu.c:87-103 | reset gives the reset registers and timing and clears the frame, VRAM and OAM |
| Ppu.Unit.Read | src/ppu.c:105-141 | the read returns `ReadSpec` |
| Ppu.Unit.Write | src/ppu.c:155-201 | the write changes the registers as `WriteRegs` says, and VRAM or OAM at exactly the address written |
| Ppu.Unit.ClearFrame | src/ppu.c:203-211 | every pixel of the frame becomes the colour |
| Ppu.Unit.FetchTile | src/ppu.c:223-242 | every pixel of the 8×8 block is the tile pixel of the map entry |
| Ppu.DecodeRow | src/ppu.c:232-241 | one tile row decodes into pixels and leaves the other rows alone |
| Ppu.Unit.RenderScanline | src/ppu.c:244-277 | the current line gets the background colour of each column through the palette; no other line changes |
| Ppu.Unit.RenderPixel | src/ppu.c:256-275 | one pixel of the scanline, fetching a new tile when the column enters one |
| Ppu.Unit.SetMode | src/ppu.c:279-302 | the in-place mode change leaves the state `SetModeSpec` describes |
| Ppu.Unit.LyIncrement | src/ppu.c:304-317 | the in-place LY increment leaves the state `LyIncrementSpec` describes |
| Ppu.Unit.StepOamScan | src/ppu.c:319-325 | the OAM-scan step |
| Ppu.Unit.StepPixelDraw | src/ppu.c:327-334 | the pixel-draw step, rendering the line at tick 252 and nothing else |
| Ppu.Unit.StepHBlank | src/ppu.c:336-350 | the HBLANK step |
| Ppu.Unit.StepVBlank | src/ppu.c:352-365 | the VBLANK step, clearing the frame to colour 0 when LY reaches 153 |
| Ppu.Unit.Step | src/ppu.c:367-388 | the step keeps the invariant, leaves the timing `StepSpec` describes, renders the line when pixel draw ends and clears the frame at the end of VBLANK |
| Ppu.Unit.TakeFrameComplete | src/ppu.c:402-411 | returns the frame-complete flag and clears it |
| Ppu.Unit.TakeStatInterrupt | src/ppu.c:413-423 | returns the STAT request and clears it |
| Ppu.Unit.TakeVBlankInterrupt | src/ppu.c:425-434 | returns the VBLANK request and clears it |
| Strings.PadText | src/str.c:67-78 | padding to n keeps the text and adds the pad character up to length n |
| Strings.GrowSpec | src/str.c:9-20 | growing keeps the length and gives room for newlen+1 bytes |
| Strings.GrowKeepsContents | src/str.c:9-20 | growing keeps the contents and the terminator, and changes nothing when the room suffices |
| Strings.NewSizeEmpty | src/str.c:28-38 | a new string of size n is empty with n+1 bytes |
| Strings.NewFromContents | src/str.c:40-48 | a string made from s holds s and is terminated |
| Strings.CloneAsWrittenLosesContents | src/str.c:59-65 | the clone as written is empty whenever the original is not |
| Strings.CloneAsWrittenExample | src/str.c:59-65 | cloning "a" as written does not give "a" |
| Strings.CloneKeepsContents | src/str.c:59-65 | the corrected clone holds the same contents in len+1 bytes |
| Strings.PadContents | src/str.c:67-78 | padding a shorter string adds n-len copies of the pad; a longer one is unchanged; padding is idempotent |
| Strings.AddContents | src/str.c:80-91 | appending adds the text after the old contents and grows the length by its size |
| Strings.AddcContents | src/str.c:93-104 | appending a character adds exactly that character |
| Strings.TruncContents | src/str.c:137-146 | truncating keeps the first min(len, n) characters |
| Strings.CopyInto | src/str.c:80-91 | `memcpy` replaces exactly the target range |
| Strings.FillRange | src/str.c:67-78 | `memset` fills exactly the target range |
| Strings.Str.NewSize | src/str.c:28-38 | the constructor leaves `NewSizeSpec` |
| Strings.Str.NewFrom | src/str.c:40-48 | the constructor leaves `NewFromSpec` |
| Strings.Str.Free | src/str.c:50-57 | freeing leaves the empty string |
| Strings.Str.Grow | src/str.c:9-20 | growing reallocates only when the room is short |
| Strings.Str.CloneAsWritten | src/str.c:59-65 | the clone as written |
| Strings.Str.Clone | src/str.c:59-65 | the corrected clone |
| Strings.Str.Pad | src/str.c:67-78 | the in-place pad leaves `PadSpec` |
| Strings.Str.Add | src/str.c:80-91 | the in-place append leaves `AddSpec` |
| Strings.Str.Addc | src/str.c:93-104 | the in-place character append leaves `AddcSpec` |
| Strings.Str.Trunc | src/str.c:137-146 | the in-place truncation leaves `TruncSpec` |
| Strbufs.CheckSpec | src/strbuf.c:9-15 | the check passes exactly when newpos+1 is below the capacity, and fails with both numbers otherwise |
| Strbufs.NewEmpty | src/strbuf.c:17-25 | a new buffer of size n has capacity n and is empty |
| Strbufs.AddContents | src/strbuf.c:46-56 | an append fails exactly when it would not leave room; otherwise it adds the text, advances pos by its length and keeps pos+1 below the capacity |
| Strbufs.PadContents | src/strbuf.c:35-44 | the corrected pad changes nothing when pos is at least len; otherwise it fills up to len, sets pos to len and is idempotent |
| Strbufs.PadAsWrittenContents | src/strbuf.c:35-44 | the pad as written fills the same text and pos as the corrected one |
| Strbufs.PadAsWrittenLosesTerminator | src/strbuf.c:41 | the pad as written can leave the byte at len unterminated |
| Strbufs.ClearEmpties | src/strbuf.c:80-85 | clear empties the buffer and keeps its capacity |
| Strbufs.Strbuf.New | src/strbuf.c:17-25 | the constructor leaves `NewSpec` |
| Strbufs.Strbuf.Free | src/strbuf.c:27-33 | freeing leaves the empty buffer |
| Strbufs.Strbuf.Check | src/strbuf.c:9-15 | the check returns `CheckSpec` |
| Strbufs.Strbuf.PadAsWritten | src/strbuf.c:35-44 | the in-place pad as written |
| Strbufs.Strbuf.Pad | src/strbuf.c:35-44 | the in-place corrected pad |
| Strbufs.Strbuf.Add | src/strbuf.c:46-56 | the in-place append |
| Strbufs.Strbuf.Clear | src/strbuf.c:80-85 | the in-place clear |
| Binario.RoundTrip16 | src/binario.c:13-60 | the 16-bit encoding is little-endian and decoding inverts it both ways |
| Binario.DecodeEncode32 | src/binario.c:24-33 | decoding the 32-bit encoding gives the value |
| Binario.EncodeDecode32 | src/binario.c:24-33 | encoding the decoded four bytes gives them back |
| Binario.DecodeEncode64 | src/binario.c:35-44 | decoding the full 64-bit encoding gives the value |
| Binario.EncodeDecode64 | src/binario.c:35-44 | encoding the decoded eight bytes gives them back |
| Binario.OrBytes32Decodes | src/binario.c:68-70 | the OR-accumulation loop gives the initial value OR the decoded word |
| Binario.OrBytes64Decodes | src/binario.c:81-83 | the 64-bit OR-accumulation likewise |
| Binario.Write16 | src/binario.c:13-22 | the two bytes are the little-endian encoding |
| Binario.Write32 | src/binario.c:24-33 | the loop fills the four bytes of the encoding |
| Binario.Write64AsWritten | src/binario.c:35-44 | the loop as written fills only the low four bytes; the rest are what the buffer held |
| Binario.Write64 | src/binario.c:35-44 | the corrected loop fills all eight bytes |
| Binario.Read16 | src/binario.c:52-60 | the value is the little-endian decoding |
| Binario.Read32AsWritten | src/binario.c:62-73 | the loop ORs the decoded word into the old value |
| Binario.Read32 | src/binario.c:62-73 | the corrected read starts from 0 and gives the decoded word |
| Binario.Read64AsWritten | src/binario.c:75-86 | the 64-bit loop ORs into the old value |
| Binario.Read64 | src/binario.c:75-86 | the corrected 64-bit read gives the decoded value |
| Binario.ReadAsWrittenKeepsOld | src/binario.c:62-73 | reading back a written word as written gives old OR value, not the value |
| Binario.ReadAsWrittenKeepsOld64 | src/binario.c:75-86 | likewise for 64 bits |
| Binario.ReadAsWrittenExample | src/binario.c:62-73 | reading 2 into a variable holding 1 gives 3 |
| Binario.Write64AsWrittenTruncates | src/binario.c:35-44 | with zeroed upper bytes the round trip keeps only the low 32 bits, so 2^32 reads back as 0 |
| CStrings.CopyLen | src/common.c:14 | `strncpy` copies up to the first NUL, at most n characters |
| CStrings.Strncpy | src/common.c:14-17 | `strncpy` stores exactly n bytes |
| CStrings.CText | src/common.h:36 | a buffer reads as C text exactly when it holds a NUL, and the text is what comes before it |
| CStrings.StrncpyCopies | src/common.c:14-17 | the copy is the source up to its first NUL, then zeros; it reads as that text only when it stopped before n |
| CStrings.ToCStringTerminated | src/shared.c:8-14 | the corrected conversion has size+1 bytes, ends in NUL, and reads as the source cut at its first NUL or at size |
| CStrings.ToCStringAsWrittenDiffers | src/common.c:12-19 | the conversion as written is the corrected one when data[size] is not NUL and lacks the terminator when it is |
| CStrings.ToCStringAsWrittenUnterminated | src/common.c:12-14 | converting "ab" followed by NUL with size 2 gives two bytes and no terminator |
| CStrings.MustAlloc | src/common.c:24-34 | the allocator gives zeroed memory of the size, or panics |
| CStrings.StrncpyInto | src/common.c:14 | copying into a buffer writes exactly the first n bytes |
| CStrings.ToCStringAsWritten | src/common.c:7-22 | the conversion as written |
| CStrings.ToCString | src/common.c:7-22 | the corrected conversion through the allocator |
| CStrings.SharedToCString | src/shared.c:8-14 | the shared conversion gives size+1 bytes, the bounded copy and a terminator, and never reads data[size] |
| Disasm.HexRoundTrip | src/disasm.c:73-78 | `%0wX` prints only hex digits that read back as the value, at least w of them and exactly w when the value fits |
| Disasm.HexWidths | src/disasm.c:73-78 | a byte prints as two hex digits and a word as four, each reading back as the value |
| Disasm.ArgSize | src/disasm.c:10-23 | the operand size is 1 exactly for IMM_8/IND_8, 2 exactly for IMM_16/IND_16, and 0 otherwise |
| Disasm.ArgValueSized | src/disasm.c:25-38 | an operand without size has value 0 and a one-byte operand is the byte at the address |
| Disasm.ArgValueIsImmediate | src/disasm.c:25-38 | the printed immediate is the one the processor reads |
| Disasm.FormatPlain | src/disasm.c:141 | a template without `%` prints as itself |
| Disasm.FormatOne | src/disasm.c:136-139 | a template with one `%02X` or `%04X` prints with the value in hex in its place |
| Disasm.FieldLayout | src/disasm.c:87-112 | k bytes print as k two-digit hex fields of the bytes at pc, pc+1, …, separated by single blanks |
| Disasm.Lookup | src/disasm.c:90-101 | the lookup takes the prefixed table after 0xCB and returns the instruction and its template |
| Disasm.PrefixedHasNoOperand | src/cpu.c:1540-1808 | no prefixed instruction has an immediate operand |
| Disasm.PrintedLenAsWritten | src/disasm.c:94-109 | the loop as written prints 1 to 7 bytes |
| Disasm.BytesAsWrittenExtra | src/disasm.c:94-109 | without a prefix the bytes as written are the instruction's bytes; after 0xCB they carry one more byte |
| Disasm.BytesAsWrittenSwap | src/disasm.c:96-109 | `CB 37` (SWAP A) followed by 00 prints as "CB 37 00" as written and "CB 37" corrected |
| Disasm.AppendBytes | src/disasm.c:107-109 | the loop appends the next `count` bytes as fields |
| Disasm.OpcodeBytes | src/disasm.c:90-101 | the opcode and its prefix print as one or two fields |
| Disasm.FormatBytesAsWritten | src/disasm.c:87-112 | the bytes field as the code prints it |
| Disasm.FormatBytes | src/disasm.c:87-112 | the bytes field with exactly the instruction's bytes |
| Disasm.TextShowsOperand | src/disasm.c:127-142 | an opcode without a handler prints "???"; otherwise the value of arg1 if it has a size, else of arg2, replaces the conversion in the template |
| Disasm.TextWithoutOperand | src/disasm.c:140-146 | without a sized operand the template prints as is, followed by the memory notes |
| Disasm.MemvalShowsRegisterOperand | src/disasm.c:47-69 | for (C), (BC), (DE) and (HL) the note is the label and the byte the processor would read through it |
| Disasm.MemvalShowsHighOperand | src/disasm.c:70-74 | the corrected note for ($FF00+n) names the address and the byte the processor reads there |
| Disasm.MemvalShowsWordOperand | src/disasm.c:75-79 | the corrected note for (a16) names the address and the byte the processor reads there |
| Disasm.MemvalOnlyIndirect | src/disasm.c:80-81 | other operands add no note |
| Disasm.MemvalAsWrittenReadsZero | src/disasm.c:70-79 | as written, the notes for IND_8 and IND_16 show the byte at address 0 |
| Disasm.MemvalAsWrittenExample | src/disasm.c:70-74 | `LDH A,($44)` with LY=0x90 and 00 at address 0 prints "=00" as written and "=90" corrected |
| Disasm.FlagsShows | src/disasm.c:166-171 | the flags field has nine characters with Z, N, H and C, or `-` for each clear flag, at columns 1, 3, 5 and 7 |
| Disasm.RegsTextLength | src/disasm.c:174-176 | the register field has 47 characters |
| Disasm.LineStartsWithBytes | src/disasm.c:154-159 | the line keeps what the string held, then the ten-character address text, then the bytes right after it (the pad to 9 never adds anything) |
| Disasm.LineShowsText | src/disasm.c:160-163 | the text starts at column 28, or right after the bytes if they are longer, with blanks before it |
| Disasm.LineShowsFlags | src/disasm.c:164-171 | the flags start at column 54, or right after the text, with blanks before them |
| Disasm.LineEndsWithRegs | src/disasm.c:172-178 | the registers start at column 68, or right after the flags, end the line, and have blanks before them |
| Disasm.AddOperandText | src/disasm.c:118-142 | the text step appends the template with the operand substituted |
| Disasm.FormatTextFor | src/disasm.c:114-149 | the corrected text with its memory notes |
| Disasm.FormatTextAsWrittenFor | src/disasm.c:114-149 | the text as written with its memory notes |
| Disasm.Assemble | src/disasm.c:151-179 | the line is built by the appends and pads in order |
| Disasm.Step | src/disasm.c:151-179 | the corrected disassembly line, computed from memory and registers without changing either |
| Disasm.StepAsWritten | src/disasm.c:151-179 | the disassembly line as written |
| Machine.FirstPending | src/main.c:113-125 | the first source from i on that is both requested and enabled, with none before it; none when none is |
| Machine.HandleIdle | src/main.c:109-111 | with IF or IE zero, or nothing both requested and enabled, nothing changes |
| Machine.HandlePriority | src/main.c:105-125 | a pending source is never passed over for a lower-priority one |
| Machine.HandleMasked | src/main.c:117-124 | with IME clear, IF keeps its bit and the processor, PC included, is untouched |
| Machine.ClearOnly | src/main.c:119 | clearing a source's bit keeps every other source's bit |
| Machine.HandleServesClears | src/main.c:117-120 | serving a source clears exactly its IF bit |
| Machine.HandleServesEnters | src/main.c:106-120 | serving a source ends HALT, clears IME, pushes PC and jumps to 0x40, 0x48, 0x50, 0x58 or 0x60 by its priority |
| Machine.HandleExample | src/main.c:105-125 | VBLANK and TIMER both pending: VBLANK is served at 0x40 and TIMER stays requested |
| Machine.HandleInterrupts | src/main.c:102-126 | the loop with its early return leaves IF and the processor as `HandleSpec` says and keeps IE |
| Machine.RaiseSets | src/main.c:184-213 | a tick's requests set the VBLANK, STAT and TIMER bits that were raised and keep every other bit |
| Machine.CpuTickEveryFourth | src/main.c:156 | the processor runs on exactly one tick of every four |
| Machine.Board.constructor | src/main.c:152 | a new loop state starts at tick 0 |
| Machine.Board.CpuTurn | src/main.c:156-177 | on a tick divisible by 4, interrupts are handled and then the processor takes the corrected step; on other ticks neither changes |
| Machine.Board.StepDevices | src/main.c:180-181 | the timer and the PPU step on every tick |
| Machine.Board.RaiseRequests | src/main.c:184-213 | the PPU and timer requests are read, cleared and set in IF |
| Machine.Board.ClockTurn | src/main.c:179-213 | the device half of a tick |
| Machine.Board.Tick | src/main.c:155-215 | one tick, with the corrected processor step and memory write: the processor on every fourth, the devices and their requests on all, and the tick count advances; the picture unit takes its step with its requests moved to IF, and IE is kept; a processor panic ends it |
| Machine.GetMapperKnown | src/main.c:221-235 | exactly types 0x00-0x03 get a mapper: MBC0 for 0x00 and MBC1 for 0x01-0x03 |

## Left out

- File and terminal I/O is not modelled: `fopen`, `fread`, `fwrite`, gzip, `putchar`, `fputs`, `argparse` and `print`. The byte codec is modelled on the buffers, and linecmp on the lines of the files.
- The ROM loader, option parsing, `main`, `bitfield_test` and `print_logo` are not modelled. They are I/O and libc wrappers.
- The raylib user interface is not modelled, and neither is `gb_handle_input` (it depends on the UI's key state). Reset and close requests from the UI, and the joypad interrupt they raise, are left out because they come from outside input.
- `mapper.c`'s dispatch through a table of mapper functions is not modelled. The memory unit takes the mapper's read as a function parameter and reports when a write goes to the mapper.
- `mbc1_save` and `mbc1_load` are not modelled: they are file I/O.
- `gb_print_state` and the writing of the disassembly are not modelled; only the disassembly line itself is.
- DMA is not modelled: `mmu_dma_step` and the memory unit's reference to the PPU are not part of this model's sources.
- printf formatting is modelled only for the conversions the disassembler uses: `%02X`, `%04X` and `%c`. The `str_addf` and `strbuf_addf` routines themselves are not modelled.
- The opcode text templates are data, taken as given in `Opcodes.MainText` and `Opcodes.CbText`.
- The processor's memory is a function from addresses to bytes rather than calls into the memory unit. The processor and the memory unit are two separate states in `Machine.Board`.
- The allocator (`xalloc`, `calloc`) is assumed to zero memory. Running out of memory is a parameter of `CStrings.MustAlloc`. `strbuf_new` and the `String` allocations are assumed to succeed.
- The shared `to_cstring` does not check `malloc` for NULL. The model assumes the allocation succeeds.
- The run loop itself runs forever, so only one tick is modelled; repeated ticks are repeated calls of `Machine.Board.Tick`.
- Mbc1.ReadSpec: a bank-0 read past the end of the ROM image is a panic here. `mbc1_read` reads `rom->data[addr]` there without a bounds check, which C leaves undefined.
- `bus.h` declares `gb_bus_read16` and `gb_bus_step`, which `bus.c` does not define; they are not modelled.
- Machine.GetMapper: only picks which mapper to build. Construction is `Mbc0.Mbc0.Init` and `Mbc1.Mbc1.constructor`, because the two mappers are separate classes here without a common interface.
- Disasm.Lookup: the table lookup that `disasm_format_bytes` and `disasm_format_text` each repeat is done once and passed to both.
- Disasm.RegsTextLength: only the length of the register field is proved, not each field's digits, because the proof of the full layout of that nine-field concatenation was too costly.
- Disasm.TextWithoutOperand: states that the template is printed as is. It does not decompose the memory notes further; those have their own lemmas.
- Disasm.Step: the disassembly reads memory through the processor's byte map, not through `mmu_read`. So the 0x90 that `mmu_read` returns for LY is whatever the map holds.
- Strings.Str: the `String` is passed by value in C and returned. Here it is an object whose methods update it, which has the same effect for the callers in the source.
- Ppu.Unit.RenderScanline: scroll registers are not applied, as in the source; the window and sprites are not drawn by the source either.
- Timers.Timer: `internal_divider` and `internal_counter` are C `int`s; the model uses unbounded integers. The divider stays within 0-255 (proved), and the counter never overflows in practice.

- The handler result lemmas (`MiscResult` through `ReturnIfResult`) are stated for the operand kinds the opcode tables give each handler. A handler called with any other operand is described only by its function's own contract.
- CpuSpec.LoadRegister: names memory, F, SP, PC and HL (unless the target is H or L) as kept, not each other 8-bit register, because stating every register for every target made the proof too costly.
- CpuSpec.StoreRegister8: as for `LoadRegister`, the other 8-bit registers are not listed one by one.
- CpuSpec.BitWriteRegister: as for `LoadRegister`, the other 8-bit registers are not listed one by one.
- CpuSpec.UnaryRegister: as for `LoadRegister`, the other 8-bit registers and HL are not listed as kept.
- CpuSpec.Inc16Result: says the stepped pair, memory, A, F and PC; the other pairs are not listed as kept.
- CpuSpec.Dec16Result: as for `Inc16Result`.
- CpuSpec.AddHlResult: BC and DE are not listed as kept.
- CpuSpec.LoadPair: the registers other than the target pair, A, F and PC are not listed as kept.
- CpuCore.Cpu.Step: follows the corrected `CpuSpec.Step`, not the code as written, which is `CpuSpec.StepAsWritten`.
- Mmu.Unit.Write: follows the corrected `Mmu.WriteSpec`, not the code as written, which is `Mmu.WriteAsWritten`.
- Machine.Board.CpuTurn: uses the corrected processor step (`CpuSpec.StepAsWritten` is the code as written).
- Machine.Board.Tick: uses the corrected processor step and memory write (`CpuSpec.StepAsWritten` and `Mmu.WriteAsWritten` are the code as written).
- LineCmp.ParseInt: accepts ASCII digits with single underscores between them. Python's `int()` at linecmp.py:27 also accepts other Unicode decimal digits.
- Mmu.Unit.Reset: does not reset the cartridge mapper as mmu.c:14 does, because the mapper is not a field of the memory unit here (reads and writes take it as a parameter); its reset is `Mbc0.Mbc0.Reset` or `Mbc1.Mbc1.Reset`, and the caller runs it.
- Strings.Str.NewFrom and Strings.Str.Add take any character sequence. The C functions measure their argument with `strlen`, so an argument is assumed to contain no NUL character; one with an embedded NUL would be cut short there and is not modelled.

## Findings

| source | as written | input that shows it | evidently intended | confidence | as-written member | corrected member |
|---|---|---|---|---|---|---|
| src/mmu.c:91-95 | the IF write case has no `return`, so it falls into the HRAM store with index 0xFF0F-0xFF80 | any write to 0xFF0F, which indexes HRAM at -113 | store IF and return | high, not executed | Mmu.IntfWriteAsWrittenOutOfBounds | Mmu.IntfReadAfterWrite |
| src/str.c:59-65 | `str_clone` copies len+1 bytes but leaves the new length at 0 | cloning "a" gives "" | the clone has the original's length | high, not executed | Strings.CloneAsWrittenExample | Strings.CloneKeepsContents |
| src/binario.c:35-44 | `fwrite_u64` fills only buf[0..3] but writes 8 bytes | 0x1_0000_0000 reads back as 0 | fill all eight bytes | high, not executed | Binario.Write64AsWrittenTruncates | Binario.DecodeEncode64 |
| src/cpu.c:364 | `step = cycles - 1` overwrites the extra cycle a taken branch added during the handler | a taken `JP Z,a16` | add to the countdown | medium, not executed | CpuSpec.StepAsWrittenLosesBranchCycles | CpuSpec.StepCycles |
| src/common.c:12-14 | when data[size] is NUL only `size` bytes are allocated, so no terminator fits | "ab" followed by NUL with size 2 | always allocate size+1 and terminate | high, not executed | CStrings.ToCStringAsWrittenUnterminated | CStrings.ToCStringTerminated |
| src/strbuf.c:41 | `strbuf_pad` writes the terminator at str[len+1] instead of str[len] | pad an emptied buffer that held "abc" to 2 | terminate at the new position | high, not executed | Strbufs.PadAsWrittenLosesTerminator | Strbufs.PadContents |
| src/disasm.c:70-79 | for IND_8 and IND_16 the value is read before the address is computed, from address 0 | `LDH A,($44)` with 00 at address 0 and 0x90 at 0xFF44 | read the value at the computed address | high, not executed | Disasm.MemvalAsWrittenExample | Disasm.MemvalShowsHighOperand |
| src/binario.c:62-86 | `fread_u32` and `fread_u64` OR into `*data` without clearing it | reading 2 into a variable holding 1 gives 3 | start from 0 | high, not executed | Binario.ReadAsWrittenExample | Binario.Read32 |
| src/disasm.c:96-109 | with the 0xCB prefix `opsize` is 2 before the operand sizes, so the loop prints one more byte than the instruction has | `CB 37` followed by 00 | print only the prefix and opcode | high, not executed | Disasm.BytesAsWrittenSwap | Disasm.FormatBytes |
