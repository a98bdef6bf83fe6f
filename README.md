# LEGv8 instruction simulator: decode, dispatch and execute

This project models the core of a LEGv8 simulator, the ARMv8 subset used in
teaching. The simulator reads the 32-bit word at `CURRENT_STATE.PC`, decides
which instruction it is, and executes it against the machine state. The
machine state is:

- `CURRENT_STATE` and `NEXT_STATE`: registers, PC and the Z and N flags;
- `RUN_BIT`;
- the word-addressed memory of the shell;
- `branch_taken`, the latch of the modular drafts.

The repository holds several drafts of this engine. Each draft is modelled in
its own module, and each module's doc comment says what it stands for.

| module | source | what it is |
|---|---|---|
| `Shell` | shell interface | Machine state as a value (`Sim`), the `Machine` class over the globals, and the word store behind `mem_read_32`/`mem_write_32` |
| `Bits` | all | Two's-complement helpers: sign bit, arithmetic shift, rotation, wrapping add/subtract, narrowing casts |
| `Decode` | src/decode.c | Field decoders, `sign_extend`, `extend_register`, `calculate_mathOps`, `update_flags`, and the 8-, 16- and 64-bit accessors |
| `Handlers` | src/handlers.c | The 24 handlers of the modular engine |
| `HandlerProperties` | src/handlers.c | What the handlers promise |
| `Hashmap` | src/hashmap.c | The chained hash map keyed by (length, opcode), with its `put` and `get` |
| `Table` | old/sim3.c, src/sim1.c | What a table filled by `hashmap_put` holds, and the first-hit probe over several key widths |
| `Sim3` | old/sim3.c | The modular engine: opcode table, `decode_instruction`, `process_instruction` |
| `Sim1Handlers`, `Sim1Properties`, `Sim1` | src/sim1.c | The monolithic table engine, with its own format decoders and handlers |
| `SimChain`, `SimChainProperties` | sim.c | The if/else-chain draft |
| `SimSwitch`, `SimSwitchProperties` | src/sim.c | The four-switch draft |

Imperative C code is modelled as imperative Dafny. Every handler and every
`process_instruction` is a method on a `Machine`. Each method's `ensures`
ties the new state to a pure step function of the old state, and the
properties are lemmas about those functions. The hash map is a class over an
array of bucket chains.

Each such lemma links an operation to a partner:

- a round trip: a store followed by a load, or `put` followed by `get`;
- a second definition: the Arm condition table, or the decoder of another
  draft;
- a frame saying what an operation leaves alone.

A few behaviours of the code are stated as plain lemmas: where drafts part
ways, and edge cases that are easy to misread.

- **B.cond in src/sim1.c, and CBZ and CBNZ in src/handlers.c.** The
  offset passes through an unsigned value, so a branch meant to go
  backwards lands forward. This is stated by
  `Sim1Properties.BCondBackOne` and `HandlerProperties.CompareBranchBackOne`.
- **The two SUBS-immediate drafts.** The chain (sim.c) leaves `operand2`
  uninitialised for a reserved shift. The model excludes that case as
  undefined. The switch draft (src/sim.c) returns from the function
  instead, and the model includes that.
- **LDURH in the switch draft.** LDURH is keyed on 0x5C2 there and on 0x3C2
  in the chain. This is stated by `SimSwitchProperties.LdurhKeysDiffer`.
- **Several cases for one word in the switch draft.** A single word can
  run more than one switch case, for example B and then BR. This is stated
  by `SimSwitchProperties.BThenBr` and
  `SimSwitchProperties.BrAfterExtendedArithmetic`.

## Model

| member | source | states |
|---|---|---|
| `Bits.SignedNegative` | TP1-ARM/src/decode.c:91-94 | The N test `result < 0` on an `int64_t` holds exactly when bit 63 is set |
| `Decode.DecodeIGroup` | TP1-ARM/src/decode.c:8-13 | `imm12`, `shift`, `d` and `n` are in range, and reassembled they give back bits 23:0 of the word |
| `Decode.DecodeRGroup` | TP1-ARM/src/decode.c:15-21 | `opt`, `imm3`, `d`, `n` and `m` are in range, and reassembled they give back bits 20:0 |
| `Decode.DecodeShiftedRegister` | TP1-ARM/src/decode.c:23-29 | `shift`, `imm6`, `d`, `n` and `m` are in range, and reassembled they give back bits 23:22 and 20:0 |
| `Decode.DecodeMemAccess` | TP1-ARM/src/decode.c:31-35 | `imm9`, `n` and `t` are in range, and reassembled they give back bits 20:12 and 9:0 |
| `Decode.DecodeConditionalBranch` | TP1-ARM/src/decode.c:37-42 | `t` is bits 4:0; the offset is `imm19 * 4`, with bits 31:21 copying bit 23 of the word and nothing above bit 31 |
| `Decode.SignExtend` | TP1-ARM/src/decode.c:59-62 | A value below `2^(bits-1)` is unchanged; a value in `[2^(bits-1), 2^bits)` becomes `value - 2^bits` |
| `Decode.SignExtend64Identity` | TP1-ARM/src/decode.c:59-62 | `sign_extend(v, 64)` is `v` for every non-negative `v` |
| `Decode.SignExtend19NonNegative` | TP1-ARM/src/decode.c:59-62 | A 19-bit field with bit 18 clear extends to itself |
| `Decode.SignExtend19Negative` | TP1-ARM/src/decode.c:59-62 | A 19-bit field with bit 18 set keeps its 19 bits and fills bits 63:18 with ones |
| `Decode.ExtendValue` | TP1-ARM/src/decode.c:64-78 | Options 0, 1 and 2 (UXTB, UXTH, UXTW) mask to 8, 16 and 32 bits; UXTX and SXTX keep the value |
| `Decode.ExtendValueSignExtends` | TP1-ARM/src/decode.c:64-78 | SXTB, SXTH and SXTW agree with `sign_extend` of the low 8, 16 and 32 bits |
| `Decode.Cast8SignExtends` | TP1-ARM/src/decode.c:64-78 | The `(int8_t)` cast of a byte is `sign_extend(x, 8)` |
| `Decode.Cast16SignExtends` | TP1-ARM/src/decode.c:64-78 | The `(int16_t)` cast of a halfword is `sign_extend(x, 16)` |
| `Decode.Cast32SignExtends` | TP1-ARM/src/decode.c:64-78 | The `(int32_t)` cast of a word is `sign_extend(x, 32)` |
| `Decode.ExtendRegister` | TP1-ARM/src/decode.c:64-78 | UXTX with no shift returns the register unchanged |
| `Decode.MathOpsUnfold` | TP1-ARM/src/decode.c:80-89 | `calculate_mathOps` is `REGS[n]` plus or minus the second operand, wrapping modulo 2^64 |
| `Decode.ImmediateOperand` | TP1-ARM/src/decode.c:80-89 | For a 12-bit immediate the 32-bit `imm << 12` loses nothing: the operand is `imm` or `imm << 12` in 64 bits |
| `Decode.RegisterOperand` | TP1-ARM/src/decode.c:80-89 | The register form's operand is `extend_register(REGS[m], opt, imm3)` |
| `Decode.MathOpsPlainRegisters` | TP1-ARM/src/decode.c:80-89 | With UXTX and no shift the register form is a plain 64-bit add or subtract of `REGS[n]` and `REGS[m]` |
| `Decode.MathOpsSubtractUndoesAdd` | TP1-ARM/src/decode.c:80-89 | Subtracting the same operand from a written-back sum restores `REGS[n]`, provided the operand does not read `n` |
| `Decode.UpdateFlags` | TP1-ARM/src/decode.c:91-94 | Z is `result == 0`, N is `result < 0` as a signed value, and NEXT_STATE's registers and PC are unchanged |
| `Decode.InsertByteSame` | TP1-ARM/src/decode.c:126-133 | The mask-and-or of `mem_write_8` puts the byte at its offset |
| `Decode.InsertByteOther` | TP1-ARM/src/decode.c:126-133 | The mask-and-or of `mem_write_8` keeps the other three bytes |
| `Decode.InsertHalfSame` | TP1-ARM/src/decode.c:135-144 | The mask-and-or of `mem_write_16` puts the halfword in its half |
| `Decode.InsertHalfBytes` | TP1-ARM/src/decode.c:135-144 | The written half holds the value's low and high bytes in little-endian order, and the other half is kept |
| `Decode.StoreByteReadsBack` | TP1-ARM/src/decode.c:96-99 | `mem_read_8` after `mem_write_8` at the same address gives the byte written |
| `Decode.StoreByteFrame` | TP1-ARM/src/decode.c:126-133 | `mem_write_8` changes no other byte address |
| `Decode.StoreHalfReadsBack` | TP1-ARM/src/decode.c:101-106 | `mem_read_16` after `mem_write_16` at the same address gives the halfword written, odd addresses included |
| `Decode.StoreHalfFrame` | TP1-ARM/src/decode.c:135-144 | `mem_write_16` changes no byte outside its (even-aligned) halfword |
| `Decode.HalfIsLittleEndian` | TP1-ARM/src/decode.c:135-144 | At an even address the halfword is stored low byte first |
| `Decode.StoreDoubleFrame` | TP1-ARM/src/decode.c:146-161 | `mem_write_64` writes only the two words of the 8-aligned block holding the address |
| `Decode.DoubleRoundTrip` | TP1-ARM/src/decode.c:108-124 | At an 8-aligned address `mem_read_64` after `mem_write_64` gives the value written |
| `Decode.AlignedRead64` | TP1-ARM/src/decode.c:108-124 | At an 8-aligned address `mem_read_64` joins the word at `addr` (low) and the word at `addr + 4` (high) |
| `Decode.MemWrite8` | TP1-ARM/src/decode.c:126-133 | The in-place byte write leaves `StoreByte` of the old memory |
| `Decode.MemWrite16` | TP1-ARM/src/decode.c:135-144 | The in-place halfword write leaves `StoreHalf` of the old memory |
| `Decode.MemWrite64` | TP1-ARM/src/decode.c:146-161 | The in-place doubleword write leaves `StoreDouble` of the old memory |
| `Handlers.LoadByte` | TP1-ARM/src/handlers.c:131-137 | The LDURB value is the byte read, zero-extended |
| `Handlers.LoadHalf` | TP1-ARM/src/handlers.c:139-145 | The LDURH value is the halfword read, zero-extended |
| `Handlers.HandleHlt` | TP1-ARM/src/handlers.c:10-12 | Only `RUN_BIT` changes, to 0 |
| `Handlers.HandleAddsImm` | TP1-ARM/src/handlers.c:14-20 | NEXT_STATE gets the sum in `d` and the flags of the sum (`AddsImmStep`) |
| `Handlers.HandleAddsReg` | TP1-ARM/src/handlers.c:22-28 | The same for the extended-register form (`AddsRegStep`) |
| `Handlers.HandleSubsImm` | TP1-ARM/src/handlers.c:30-38 | The flags of the difference; the difference itself only when `d != 31` (`SubsImmStep`) |
| `Handlers.HandleSubsReg` | TP1-ARM/src/handlers.c:40-48 | The same for the extended-register form (`SubsRegStep`) |
| `Handlers.HandleAnds` | TP1-ARM/src/handlers.c:50-64 | `REGS[n] & shift(REGS[m])` to `d`, with flags (`AndsStep`) |
| `Handlers.HandleEor` | TP1-ARM/src/handlers.c:66-80 | `REGS[n] ^ shift(REGS[m])` to `d`, with flags; a zero amount skips the shift (`EorStep`) |
| `Handlers.HandleOrr` | TP1-ARM/src/handlers.c:82-86 | `REGS[n] \| REGS[m]` to `d`, flags unchanged (`OrrStep`) |
| `Handlers.HandleB` | TP1-ARM/src/handlers.c:88-92 | NEXT_STATE.PC moves by the offset minus 4, so that a later `+ 4` would land on the target; no draft supplies that `+ 4` (`BStep`) |
| `Handlers.HandleBr` | TP1-ARM/src/handlers.c:94-97 | NEXT_STATE.PC becomes `REGS[n] - 4` (`BrStep`) |
| `Handlers.HandleStur` | TP1-ARM/src/handlers.c:99-105 | `mem_write_64` of `REGS[t]` at `REGS[n] + imm9` (`SturStep`) |
| `Handlers.HandleSturb` | TP1-ARM/src/handlers.c:107-113 | `mem_write_8` of the low byte of `REGS[t]` (`SturbStep`) |
| `Handlers.HandleSturh` | TP1-ARM/src/handlers.c:115-121 | `mem_write_16` of the low halfword of `REGS[t]` (`SturhStep`) |
| `Handlers.HandleLdur` | TP1-ARM/src/handlers.c:123-129 | `mem_read_64` at `REGS[n] + imm9` into `REGS[t]` of NEXT_STATE (`LdurStep`) |
| `Handlers.HandleLdurb` | TP1-ARM/src/handlers.c:131-137 | The zero-extended byte into `REGS[t]` (`LdurbStep`) |
| `Handlers.HandleLdurh` | TP1-ARM/src/handlers.c:139-145 | The zero-extended halfword into `REGS[t]` (`LdurhStep`) |
| `Handlers.HandleBCond` | TP1-ARM/src/handlers.c:147-162 | The latch is set when the condition holds; while it is set, NEXT_STATE.PC is `PC + offset` (`BCondStep`) |
| `Handlers.HandleMovz` | TP1-ARM/src/handlers.c:164-171 | `imm16` zero-extended into `d`; `hw` is ignored (`MovzStep`) |
| `Handlers.HandleAddImm` | TP1-ARM/src/handlers.c:173-178 | The sum into `d`, flags unchanged (`AddImmStep`) |
| `Handlers.HandleAddReg` | TP1-ARM/src/handlers.c:180-185 | The sum into `d`, flags unchanged (`AddRegStep`) |
| `Handlers.HandleMul` | TP1-ARM/src/handlers.c:187-191 | The low 64 bits of `REGS[n] * REGS[m]` into `d` (`MulStep`) |
| `Handlers.HandleCbz` | TP1-ARM/src/handlers.c:193-200 | When `REGS[t] == 0`, the latch is set and NEXT_STATE.PC is the target (`CbzStep`) |
| `Handlers.HandleCbnz` | TP1-ARM/src/handlers.c:202-209 | When `REGS[t] != 0`, the latch is set and NEXT_STATE.PC is the target (`CbnzStep`) |
| `Handlers.HandleShift` | TP1-ARM/src/handlers.c:211-224 | `REGS[n] >> 63` into `d` when bits 21:16 are 63, otherwise `REGS[n] <<` that amount (`ShiftStep`) |
| `Handlers.Dispatch` | TP1-ARM/old/sim3.c:77 | A call through the handler pointer runs exactly the step function of that handler |
| `HandlerProperties.SubsImmSkipsRegister31` | TP1-ARM/src/handlers.c:30-38 | SUBS immediate always sets Z and N from the difference, writes it only to a register other than 31, and changes nothing else |
| `HandlerProperties.SubsRegSkipsRegister31` | TP1-ARM/src/handlers.c:40-48 | SUBS register: the same guard on register 31, with nothing else changed |
| `HandlerProperties.AddsImmWritesAnyRegister` | TP1-ARM/src/handlers.c:14-20 | ADDS immediate writes the sum to `d` for every `d`, 31 included, and sets the flags from it |
| `HandlerProperties.AddsRegWritesAnyRegister` | TP1-ARM/src/handlers.c:22-28 | ADDS register writes the sum to `d` for every `d` and sets the flags from it |
| `HandlerProperties.AddImmIsAddsWithoutFlags` | TP1-ARM/src/handlers.c:173-178 | ADD immediate gives the same registers as ADDS immediate and leaves the flags and PC alone |
| `HandlerProperties.AddRegIsAddsWithoutFlags` | TP1-ARM/src/handlers.c:180-185 | ADD register gives the same registers as ADDS register and leaves the flags and PC alone |
| `HandlerProperties.EorGuardOnlyMattersForRor` | TP1-ARM/src/handlers.c:66-80 | EOR's zero-amount guard changes the result only where ANDS is undefined (ROR by 0); a zero amount is the identity |
| `HandlerProperties.OrrKeepsFlags` | TP1-ARM/src/handlers.c:82-86 | ORR writes `REGS[n] \| REGS[m]` to `d` and keeps Z and N |
| `HandlerProperties.BranchOffsetBits` | TP1-ARM/src/handlers.c:88-92 | The B offset is `sign_extend(imm26) * 4`: low two bits clear, bits 27:2 are `imm26`, bits 63:28 copy bit 25 |
| `HandlerProperties.BLandsOnOffset` | TP1-ARM/src/handlers.c:88-92 | B followed by a later `+ 4` lands on `NEXT_STATE.PC + offset`, and only NEXT_STATE.PC changes; no draft supplies that `+ 4` (old/sim3.c does not advance the PC, and the handler's own `+= 4` is commented out) |
| `HandlerProperties.BrLandsOnRegister` | TP1-ARM/src/handlers.c:94-97 | BR followed by a later `+ 4` lands on `REGS[n]`, and only NEXT_STATE.PC changes; no draft supplies that `+ 4` |
| `HandlerProperties.CondBranchOffsetIs` | TP1-ARM/src/handlers.c:147-162 | The B.cond offset is the sign-extended 19-bit field, narrowed to 32 bits, widened back and multiplied by 4 |
| `HandlerProperties.CondBranchOffsetBits` | TP1-ARM/src/handlers.c:147-162 | That offset has the low two bits clear, `imm19` in bits 20:2, and bit 23 of the word copied into bits 63:21 |
| `HandlerProperties.PositiveCondOffset` | TP1-ARM/src/handlers.c:147-162 | A non-negative field gives the offset `imm19 << 2` |
| `HandlerProperties.NegativeCondOffset` | TP1-ARM/src/handlers.c:147-162 | A negative field gives the sign-extended field shifted by 2 |
| `HandlerProperties.BCondMatchesArm` | TP1-ARM/src/handlers.c:147-162 | The six codes handled (EQ, NE, GE, LT, GT, LE) agree with the Arm condition table (section C1.2.4 of the Arm Architecture Reference Manual) when V is clear |
| `HandlerProperties.BCondBranchesIff` | TP1-ARM/src/handlers.c:147-162 | With the latch clear, B.cond branches exactly when its condition holds, to `PC + offset`; otherwise, and for every other code, the state is unchanged |
| `HandlerProperties.CompareBranchesIff` | TP1-ARM/src/handlers.c:193-209 | CBZ branches exactly when `REGS[t] == 0`, and CBNZ exactly when it is not; an untaken branch changes nothing |
| `HandlerProperties.CompareBranchNeverBackward` | TP1-ARM/src/handlers.c:193-209 | The CBZ/CBNZ target always lies less than 4 GiB above PC: the `uint32_t` offset is never negative |
| `HandlerProperties.CompareBranchBackOne` | TP1-ARM/src/handlers.c:193-200 | CBZ with `imm19 = 0x7FFFF` goes to `PC + 0xFFFFFFFC`, not to `PC - 4` |
| `HandlerProperties.UnsignedMemOffset` | TP1-ARM/src/handlers.c:99-105 | `sign_extend(imm9, 64)` and the `int32_t` round trip leave the 9-bit offset unsigned |
| `HandlerProperties.MemAddressUnsigned` | TP1-ARM/src/handlers.c:99-145 | Every load and store address is `REGS[n] + imm9`, with `imm9` read as unsigned |
| `HandlerProperties.StoreThenLoadByte` | TP1-ARM/src/handlers.c:107-137 | STURB then LDURB with the same base and offset loads the stored low byte, zero-extended |
| `HandlerProperties.StoreThenLoadHalf` | TP1-ARM/src/handlers.c:115-145 | STURH then LDURH with the same base and offset loads the stored low halfword, zero-extended |
| `HandlerProperties.LoadAfterStoreByte` | TP1-ARM/src/handlers.c:131-137 | `LoadByte` after `StoreByte` at one address gives the byte written, widened |
| `HandlerProperties.LoadAfterStoreHalf` | TP1-ARM/src/handlers.c:139-145 | `LoadHalf` after `StoreHalf` at one address gives the halfword written, widened |
| `HandlerProperties.StoreThenLoadDouble` | TP1-ARM/src/handlers.c:99-129 | STUR then LDUR with the same base and offset, at an 8-aligned address, loads the stored register back |
| `HandlerProperties.SameMemAddress` | TP1-ARM/src/handlers.c:99-145 | Equal `n` and `imm9` fields give equal addresses |
| `HandlerProperties.MovzIgnoresHw` | TP1-ARM/src/handlers.c:164-171 | MOVZ ignores the `hw` bits, and the value written is `imm16`, below 2^16 |
| `HandlerProperties.ShiftRightBy63` | TP1-ARM/src/handlers.c:211-224 | LSR by 63 leaves 1 exactly for a negative register and 0 otherwise |
| `HandlerProperties.ShiftResultRight` | TP1-ARM/src/handlers.c:211-224 | Bits 21:16 (`imm12`) equal to 63 select `REGS[n] >> 63`; `imms` (bits 15:10) is read and never used |
| `HandlerProperties.ExecuteFrame` | TP1-ARM/src/handlers.c:10-224 | No handler changes CURRENT_STATE. Only HLT clears the run flag, only the stores write memory, and only B.cond, CBZ and CBNZ set the latch, never clearing it. HLT and the stores leave NEXT_STATE alone |
| `HandlerProperties.AddFrames` | TP1-ARM/src/handlers.c:14-28 | The frame for ADDS and ADD |
| `HandlerProperties.SubtractFrames` | TP1-ARM/src/handlers.c:30-48 | The frame for SUBS |
| `HandlerProperties.LogicFrames` | TP1-ARM/src/handlers.c:50-86 | The frame for ANDS, EOR and ORR |
| `HandlerProperties.MoveFrames` | TP1-ARM/src/handlers.c:164-171 | The frame for MOVZ and the shifts |
| `HandlerProperties.MultiplyFrames` | TP1-ARM/src/handlers.c:187-191 | The frame for MUL |
| `HandlerProperties.LoadFrames` | TP1-ARM/src/handlers.c:123-145 | The frame for the loads |
| `HandlerProperties.StoreFrames` | TP1-ARM/src/handlers.c:99-121 | The frame for the stores |
| `HandlerProperties.JumpFrames` | TP1-ARM/src/handlers.c:88-97 | The frame for HLT, B and BR |
| `HandlerProperties.ConditionalFrames` | TP1-ARM/src/handlers.c:147-209 | The frame for B.cond, CBZ and CBNZ |
| `Hashmap.Hash` | TP1-ARM/src/hashmap.c:3-5 | The bucket index `((length * 31) ^ opcode) % size` lies in `[0, size)` |
| `Hashmap.IndexOf` | TP1-ARM/src/hashmap.c:18-24 | The walk stops at the first entry with the key, or at the end of the chain when no entry has it |
| `Hashmap.FindAtIndex` | TP1-ARM/src/hashmap.c:34-40 | `get` on a chain returns the value of the entry found at `IndexOf`, or nothing |
| `Hashmap.FindAfterPut` | TP1-ARM/src/hashmap.c:15-40 | After `put(k, v)`, `get(k)` on that chain returns `v` |
| `Hashmap.FindOtherAfterPut` | TP1-ARM/src/hashmap.c:15-40 | `put(k, v)` does not change `get` for any other key |
| `Hashmap.PutExistingOverwrites` | TP1-ARM/src/hashmap.c:18-22 | A key already present has its value overwritten in place: same length, other entries unchanged |
| `Hashmap.PutNewPrepends` | TP1-ARM/src/hashmap.c:25-31 | A new key is pushed at the head of its bucket's chain |
| `Hashmap.PutKeepsDistinct` | TP1-ARM/src/hashmap.c:15-32 | `put` keeps the keys of a chain distinct |
| `Hashmap.PutKeepsBucket` | TP1-ARM/src/hashmap.c:15-32 | `put` keeps every entry of a chain in the bucket its key hashes to |
| `Hashmap.HashMap.constructor` | TP1-ARM/src/hashmap.c:7-13 | `hashmap_create`: 101 empty buckets, no key found |
| `Hashmap.HashMap.Get` | TP1-ARM/src/hashmap.c:34-40 | `hashmap_get` returns what the abstract lookup gives: the value of the key's entry in its bucket, or NULL |
| `Hashmap.HashMap.Put` | TP1-ARM/src/hashmap.c:15-32 | `hashmap_put` changes only the key's bucket. Afterwards `get(k)` is `v` and every other key is unchanged |
| `Table.LoadedDistinct` | TP1-ARM/old/sim3.c:50-55 | After `put`s of pairwise distinct keys, each key finds its own value |
| `Table.LoadedMissing` | TP1-ARM/old/sim3.c:50-55 | A key no `put` used finds nothing |
| `Table.LoadedStep` | TP1-ARM/old/sim3.c:50-55 | One more `put` decides its own key and leaves every other key as it was |
| `Table.FirstHitAt` | TP1-ARM/old/sim3.c:61-68 | The probe loop returns the handler of the first width that hits |
| `Table.FirstHitMisses` | TP1-ARM/old/sim3.c:61-69 | The probe loop returns NULL exactly when every width misses |
| `Sim3.EntriesDistinct` | TP1-ARM/old/sim3.c:24-49 | The 24 (length, key) pairs of the modular opcode map are pairwise distinct |
| `Sim3.EntryRetrievable` | TP1-ARM/old/sim3.c:24-56 | After `init_opcode_map`, every entry's key finds its own handler |
| `Sim3.BrKey` | TP1-ARM/old/sim3.c:63-64 | A BR word's 22-bit key, `instr >> 10` shifted left by 2, is `0xD61F00` |
| `Sim3.BrWordsClassify` | TP1-ARM/old/sim3.c:58-70 | Every word whose bits 31:10 are those of BR decodes to BR |
| `Sim3.WideProbeMisses` | TP1-ARM/old/sim3.c:58-70 | A 22-bit probe finds nothing for a word whose bits 31:21 are not BR's |
| `Sim3.MovzHw0Classifies` | TP1-ARM/old/sim3.c:34 | MOVZ with `hw = 0` (bits 31:21 = 0x694) decodes to MOVZ |
| `Sim3.MovzHw1Misses` | TP1-ARM/old/sim3.c:34 | MOVZ with `hw = 1` (bits 31:21 = 0x695) decodes to nothing |
| `Sim3.ProcessClearsLatch` | TP1-ARM/old/sim3.c:72-82 | After a handler that cannot set it, `branch_taken` is clear |
| `Sim3.ProcessMissChangesNothing` | TP1-ARM/old/sim3.c:78-81 | A word no entry matches changes no state |
| `Sim3.ProbeLengths` | TP1-ARM/old/sim3.c:60-69 | The loop over `lengths[]` on the loaded map returns the first-hit classification |
| `Sim3.LoadEntries` | TP1-ARM/old/sim3.c:50-55 | Putting every entry in order into an empty map leaves it holding, for every key, what the last matching entry put |
| `Sim3.Engine.constructor` | TP1-ARM/old/sim3.c:17 | The program starts with no map (`opcode_map = NULL`), and `Valid` holds |
| `Sim3.Engine.InitOpcodeMap` | TP1-ARM/old/sim3.c:21-56 | An existing map is kept (`if (opcode_map) return;`); otherwise a fresh map is created and filled, and `Valid` ties every key's lookup to `Loaded(Puts())` |
| `Sim3.Engine.DecodeInstruction` | TP1-ARM/old/sim3.c:58-70 | Builds the map on first use, keeps an existing map, and returns the first-hit handler |
| `Sim3.Engine.ProcessInstruction` | TP1-ARM/old/sim3.c:72-82 | The new state is `Process` of the old state. The outcome says which handler ran, or that the word is unsupported |
| `Sim1Handlers.DecodeRFormat` | TP1-ARM/src/sim1.c:210-218 | The R-format fields are in range, reassemble to bits 24:0, and the other fields are zero |
| `Sim1Handlers.DecodeIFormat` | TP1-ARM/src/sim1.c:220-228 | The I-format fields are in range, reassemble to bits 23:0, and `opcode` mirrors `shamt` |
| `Sim1Handlers.DecodeDFormat` | TP1-ARM/src/sim1.c:230-236 | `rt`, `rn` and `imm` are those of `decode_mem_access`, and nothing else is set |
| `Sim1Handlers.DecodeBFormat` | TP1-ARM/src/sim1.c:238-242 | Only `imm` is set |
| `Sim1Handlers.DecodeCbFormat` | TP1-ARM/src/sim1.c:244-250 | `cond` is the low four bits of `rt`, and `imm` is `imm19 * 4` with nothing above bit 20 |
| `Sim1Handlers.DecodeIwFormat` | TP1-ARM/src/sim1.c:252-258 | `rd`, `imm16` and `hw` are in range and reassemble to bits 22:0 |
| `Sim1Handlers.PairStore64` | TP1-ARM/src/sim1.c:190-195 | The low word lands at `addr` and the high word at `addr + 4`, and no other word changes |
| `Sim1Handlers.PairWrite64` | TP1-ARM/src/sim1.c:190-195 | The in-place write leaves `PairStore64` of the old memory |
| `Sim1Handlers.DoubleAddress` | TP1-ARM/src/sim1.c:283-297 | The STUR/LDUR address is `REGS[rn] + sign_extend(imm9, 9)`: `imm9` below 0x100 is added, at or above it `imm9 - 0x200` is |
| `Sim1Handlers.NarrowStoreAddress` | TP1-ARM/src/sim1.c:406-422 | The STURB/STURH address is `REGS[Rn] + imm9`, unsigned |
| `Sim1Handlers.AdvancePc` | TP1-ARM/src/sim1.c:262 | `if (!branch_taken) NEXT_STATE.PC += 4` and nothing else |
| `Sim1Handlers.WriteWithFlags` | TP1-ARM/src/sim1.c:269-270 | The register write with `update_flags`, NEXT_STATE only |
| `Sim1Handlers.HandleHlt` | TP1-ARM/src/sim1.c:260-263 | The run flag is cleared and the PC advanced |
| `Sim1Handlers.HandleAddsImm` | TP1-ARM/src/sim1.c:265-272 | The sum with flags into `rd`, then the PC advance |
| `Sim1Handlers.HandleAddsReg` | TP1-ARM/src/sim1.c:274-281 | The plain register sum with flags into `rd`, then the advance |
| `Sim1Handlers.HandleStur` | TP1-ARM/src/sim1.c:283-289 | A pair write of `REGS[rt]`, then the advance |
| `Sim1Handlers.HandleLdur` | TP1-ARM/src/sim1.c:291-297 | A pair read into `rt`, then the advance |
| `Sim1Handlers.HandleB` | TP1-ARM/src/sim1.c:299-303 | NEXT_STATE.PC is `PC + offset` and the latch is set |
| `Sim1Handlers.HandleBCond` | TP1-ARM/src/sim1.c:305-315 | When `check_condition` holds, the latch is set and NEXT_STATE.PC is `PC + imm`; otherwise NEXT_STATE.PC moves by 4 whatever the latch |
| `Sim1Handlers.HandleMovz` | TP1-ARM/src/sim1.c:317-322 | `imm16` into `rd`, then the advance |
| `Sim1Handlers.HandleSubsImm` | TP1-ARM/src/sim1.c:324-335 | The flags of the difference; the difference into `rd` unless 31; the advance |
| `Sim1Handlers.HandleSubsReg` | TP1-ARM/src/sim1.c:337-349 | The same for the register form |
| `Sim1Handlers.HandleAnds` | TP1-ARM/src/sim1.c:351-370 | The shifted AND with flags, then the advance |
| `Sim1Handlers.HandleEor` | TP1-ARM/src/sim1.c:372-390 | The shifted XOR with flags, then the advance |
| `Sim1Handlers.HandleOrr` | TP1-ARM/src/sim1.c:392-398 | The OR without flags, then the advance |
| `Sim1Handlers.HandleBr` | TP1-ARM/src/sim1.c:400-404 | CURRENT_STATE.PC becomes `REGS[Rn]` and the latch is set |
| `Sim1Handlers.HandleSturb` | TP1-ARM/src/sim1.c:406-413 | A byte store of the low byte of `REGS[Rt]`, then the advance |
| `Sim1Handlers.HandleSturh` | TP1-ARM/src/sim1.c:415-422 | A halfword store of the low halfword, then the advance |
| `Sim1Handlers.HandleLdurb` | TP1-ARM/src/sim1.c:425-433 | The zero-extended byte into `Rt`, then the advance |
| `Sim1Handlers.HandleLdurh` | TP1-ARM/src/sim1.c:435-443 | The zero-extended halfword into `Rt`, then the advance |
| `Sim1Handlers.HandleAddImm` | TP1-ARM/src/sim1.c:445-453 | The sum into `Rd` without flags, then the advance |
| `Sim1Handlers.HandleAddReg` | TP1-ARM/src/sim1.c:455-464 | The sum into `Rd` without flags, then the advance |
| `Sim1Handlers.HandleMul` | TP1-ARM/src/sim1.c:466-472 | The product into `Rd`, then the advance |
| `Sim1Handlers.HandleCbz` | TP1-ARM/src/sim1.c:474-485 | NEXT_STATE.PC is the target when `REGS[Rt] == 0`, else `PC + 4`; the latch records which |
| `Sim1Handlers.HandleCbnz` | TP1-ARM/src/sim1.c:487-498 | The same with the test reversed |
| `Sim1Handlers.HandleShifts` | TP1-ARM/src/sim1.c:500-509 | `REGS[rn]` shifted left (bit 22 clear) or right (bit 22 set) by bits 15:10 into `rd`, then the advance |
| `Sim1Handlers.Dispatch` | TP1-ARM/src/sim1.c:117 | A call through the handler pointer runs exactly that handler's step function |
| `Sim1Properties.NonBranchFrame` | TP1-ARM/src/sim1.c:260-509 | Every handler other than B, BR, B.cond, CBZ and CBNZ advances NEXT_STATE.PC by the latch rule. It leaves CURRENT_STATE and the latch alone; only HLT clears the run flag and only stores write memory |
| `Sim1Properties.AddWithFlagsFrame` | TP1-ARM/src/sim1.c:265-281 | The frame for ADDS |
| `Sim1Properties.AddFrame` | TP1-ARM/src/sim1.c:445-464 | The frame for ADD |
| `Sim1Properties.SubtractFrame` | TP1-ARM/src/sim1.c:324-349 | The frame for SUBS |
| `Sim1Properties.LogicFrame` | TP1-ARM/src/sim1.c:351-398 | The frame for ANDS, EOR, ORR and the shifts |
| `Sim1Properties.MoveFrame` | TP1-ARM/src/sim1.c:317-322 | The frame for MOVZ, HLT and MUL |
| `Sim1Properties.LoadFrame` | TP1-ARM/src/sim1.c:425-443 | The frame for the loads |
| `Sim1Properties.StoreFrame` | TP1-ARM/src/sim1.c:406-422 | The frame for the stores |
| `Sim1Properties.AddsImmAgrees` | TP1-ARM/src/sim1.c:265-272 | The monolithic ADDS immediate computes what `calculate_mathOps` (src/decode.c) does for the same word |
| `Sim1Properties.AddsRegAgrees` | TP1-ARM/src/sim1.c:274-281 | ADDS register agrees with `calculate_mathOps` |
| `Sim1Properties.SubsImmAgrees` | TP1-ARM/src/sim1.c:324-335 | SUBS immediate agrees with `calculate_mathOps` |
| `Sim1Properties.SubsRegAgrees` | TP1-ARM/src/sim1.c:337-349 | SUBS register agrees with `calculate_mathOps` |
| `Sim1Properties.SubsImmSkipsRegister31` | TP1-ARM/src/sim1.c:324-335 | SUBS immediate sets the flags from the difference and writes it only to a register other than 31 |
| `Sim1Properties.SubsRegSkipsRegister31` | TP1-ARM/src/sim1.c:337-349 | SUBS register: the same guard |
| `Sim1Properties.AddsImmWritesAnyRegister` | TP1-ARM/src/sim1.c:265-272 | ADDS immediate writes any `rd`, 31 included |
| `Sim1Properties.BFormatOffsetBits` | TP1-ARM/src/sim1.c:238-242 | The B-format offset has the low two bits clear, `imm26` in bits 27:2, and bit 25 copied above |
| `Sim1Properties.BFormatAgreesWithHandlers` | TP1-ARM/src/sim1.c:238-242 | The B-format decoder (a signed 32-bit shift pair) gives the same offset as src/handlers.c |
| `Sim1Properties.BLandsOnOffset` | TP1-ARM/src/sim1.c:299-303 | B sets NEXT_STATE.PC to `PC + offset`, sets the latch, and changes nothing else |
| `Sim1Properties.BrWritesCurrentPc` | TP1-ARM/src/sim1.c:400-404 | BR writes CURRENT_STATE.PC, not NEXT_STATE.PC, and sets the latch |
| `Sim1Properties.BCondNeverBackward` | TP1-ARM/src/sim1.c:305-315 | A taken B.cond lands less than 2 MiB above PC, word-aligned: it never goes backwards |
| `Sim1Properties.BCondBackOne` | TP1-ARM/src/sim1.c:305-315 | `B.EQ` with `imm19 = 0x7FFFF` goes to `PC + 0x1FFFFC`, while src/handlers.c goes to `PC - 4` |
| `Sim1Properties.BCondUntaken` | TP1-ARM/src/sim1.c:305-315 | An untaken B.cond only moves NEXT_STATE.PC by 4, even with the latch already set |
| `Sim1Properties.CbzBranchesIff` | TP1-ARM/src/sim1.c:474-485 | CBZ branches exactly when `REGS[Rt] == 0`; otherwise NEXT_STATE.PC is `PC + 4`; nothing else changes |
| `Sim1Properties.CbnzBranchesIff` | TP1-ARM/src/sim1.c:487-498 | CBNZ branches exactly when `REGS[Rt] != 0` |
| `Sim1Properties.PairRoundTrip` | TP1-ARM/src/sim1.c:162-195 | The pair read after the pair write gives the value back at any address |
| `Sim1Properties.StoreThenLoadDouble` | TP1-ARM/src/sim1.c:283-297 | STUR then LDUR through the same base and offset load the stored register back, at any address |
| `Sim1Properties.NarrowAddressesAgree` | TP1-ARM/src/sim1.c:406-433 | The `int64_t` and `int32_t` offsets of the narrow stores and loads give the same address |
| `Sim1Properties.StoreThenLoadByte` | TP1-ARM/src/sim1.c:406-433 | STURB then LDURB load the stored low byte, zero-extended |
| `Sim1Properties.StoreThenLoadHalf` | TP1-ARM/src/sim1.c:415-443 | STURH then LDURH load the stored low halfword, zero-extended |
| `Sim1Properties.MovzIgnoresHw` | TP1-ARM/src/sim1.c:317-322 | MOVZ ignores `hw` and writes `imm16` |
| `Sim1.EntryAt` | TP1-ARM/src/sim1.c:48-72 | Every entry's length lies between 6 and 22 |
| `Sim1.MaskedKey` | TP1-ARM/src/sim1.c:98-99 | `(instr & mask) >> (32 - len)` is the top `len` bits of the word |
| `Sim1.EntriesDistinct` | TP1-ARM/src/sim1.c:47-73 | The 25 (length, key) pairs are pairwise distinct, the two shift rows included |
| `Sim1.EntryRetrievable` | TP1-ARM/src/sim1.c:47-79 | After `init_opcode_map`, every entry's key finds its own handler |
| `Sim1.BrWordsClassify` | TP1-ARM/src/sim1.c:82-110 | Every word whose bits 31:10 are those of BR decodes to BR |
| `Sim1.WideProbeMisses` | TP1-ARM/src/sim1.c:82-110 | The 22-bit probe misses every word whose bits 31:21 are not BR's |
| `Sim1.ElevenBitProbeMisses` | TP1-ARM/src/sim1.c:82-110 | The 11-bit probe misses every word outside the eight 11-bit keys |
| `Sim1.MovzAnyHwClassifies` | TP1-ARM/src/sim1.c:59 | MOVZ decodes for every `hw`, through the 9-bit key |
| `Sim1.ShiftWordsClassify` | TP1-ARM/src/sim1.c:60-61 | Both nine-bit patterns the table maps to `handle_shifts`, `0x1A6` and `0x1A7`, classify to it |
| `Sim1.BWordsClassify` | TP1-ARM/src/sim1.c:50 | Every word with 0b000101 in bits 31:26 decodes to B |
| `Sim1.ProcessAdvancesPc` | TP1-ARM/src/sim1.c:112-122 | After a handler that is not a branch, NEXT_STATE.PC has moved by 4 and the latch is clear. CURRENT_STATE is untouched, only HLT clears the run flag, and only stores change memory |
| `Sim1.ProcessMissChangesNothing` | TP1-ARM/src/sim1.c:112-122 | A word no entry matches changes no state |
| `Sim1.ProbeLengths` | TP1-ARM/src/sim1.c:96-109 | The loop over `format_map[]` on the loaded map returns the first-hit classification |
| `Sim1.LoadEntries` | TP1-ARM/src/sim1.c:74-79 | Putting every entry under its pattern shifted down to its top `length` bits leaves the map holding, for every key, what the last matching entry put |
| `Sim1.Engine.constructor` | TP1-ARM/src/sim1.c:15 | The program starts with no map (`opcode_map = NULL`), and `Valid` holds |
| `Sim1.Engine.InitOpcodeMap` | TP1-ARM/src/sim1.c:44-80 | An existing map is kept (`if (opcode_map) return;`); otherwise a fresh map is created and filled, and `Valid` ties every key's lookup to `Loaded(Puts())` |
| `Sim1.Engine.DecodeInstruction` | TP1-ARM/src/sim1.c:82-110 | Builds the map on first use, keeps an existing map, and returns the first-hit handler |
| `Sim1.Engine.ProcessInstruction` | TP1-ARM/src/sim1.c:112-122 | The new state is `Process` of the old state. The outcome says which handler ran, or that the word is unsupported |
| `SimChain.AddsImmediateResult` | TP1-ARM/sim.c:53-60 | `execute_ADDS_immediate` adds `imm12`, or `imm12 << 12` when the shift is 1, to `REGS[n]` |
| `SimChain.SubsImmediateOperand` | TP1-ARM/sim.c:71-91 | The helper's `imm` is `imm12 << 12` for shift 1, and 0 for a shift of 2 or 3 |
| `SimChain.ComplementSumSubtracts` | TP1-ARM/sim.c:71-107 | The helpers' `operand1 + ~imm + 1` is `operand1 - imm` modulo 2^64 |
| `SimChain.SubsReservedShiftSubtractsNothing` | TP1-ARM/sim.c:71-91 | For a reserved shift the helper returns `operand1` unchanged |
| `SimChain.ExecuteAddsImmediate` | TP1-ARM/sim.c:53-60 | The sum with flags into NEXT_STATE `d` |
| `SimChain.ExecuteAddsExtended` | TP1-ARM/sim.c:62-69 | The extended sum with flags into NEXT_STATE `d` |
| `SimChain.ExecuteSubsImmediate` | TP1-ARM/sim.c:71-91 | `operand1 + ~imm + 1` with flags into NEXT_STATE `d` |
| `SimChain.ExecuteSubsExtended` | TP1-ARM/sim.c:93-107 | The same with the extended register |
| `SimChain.ProcessInstruction` | TP1-ARM/sim.c:217-464 | Returns the case the chain selects, and leaves `Process` of the old state |
| `SimChain.RunCase` | TP1-ARM/sim.c:231-458 | The selected case's body leaves `Run` of the old state |
| `SimChain.RunStur` | TP1-ARM/sim.c:377-389 | The pair write of `REGS[Rt]` at `REGS[Rn] + imm9` |
| `SimChain.RunSturb` | TP1-ARM/sim.c:390-403 | The byte store of the low byte of `REGS[Rt]` |
| `SimChain.RunSturh` | TP1-ARM/sim.c:404-417 | The halfword store of the low halfword of `REGS[Rt]` |
| `SimChain.RunLdur` | TP1-ARM/sim.c:418-431 | The pair read into CURRENT_STATE `Rt` |
| `SimChain.RunLdurb` | TP1-ARM/sim.c:432-445 | The zero-extended byte into CURRENT_STATE `Rt` |
| `SimChain.RunLdurh` | TP1-ARM/sim.c:446-458 | The zero-extended halfword into CURRENT_STATE `Rt` |
| `SimChainProperties.TopByteCases` | TP1-ARM/sim.c:231-360 | Each bits 31:24 case is reached exactly by its top byte |
| `SimChainProperties.BCaseReached` | TP1-ARM/sim.c:361-368 | The B case is reached exactly by 0x14 in bits 31:26 |
| `SimChainProperties.BrCaseReached` | TP1-ARM/sim.c:369-376 | BR is reached exactly by 0xD61F in bits 25:10, unless ADDS or SUBS extended or B takes the word first |
| `SimChainProperties.MemoryCasesReached` | TP1-ARM/sim.c:377-458 | The six load and store cases are reached exactly by their bits 31:21 |
| `SimChainProperties.StandardBrWordUnmatched` | TP1-ARM/sim.c:369-376 | The architectural BR word has 0x87C0 in bits 25:10 and reaches no case |
| `SimChainProperties.StandardBWordMissesB` | TP1-ARM/sim.c:361-376 | An architectural B word (5 in bits 31:26) never reaches B; it reaches BR or nothing |
| `SimChainProperties.RunKeepsControl` | TP1-ARM/sim.c:231-458 | No case changes NEXT_STATE.PC or the latch, and only HLT clears the run flag |
| `SimChainProperties.ProcessKeepsDefaultPc` | TP1-ARM/sim.c:217-219 | After `process_instruction`, NEXT_STATE.PC is `CURRENT_STATE.PC + 4` whatever case ran |
| `SimChainProperties.UnmatchedWordOnlyMovesNextPc` | TP1-ARM/sim.c:460-463 | A word no case matches only gets the default NEXT_STATE.PC |
| `SimChainProperties.BranchCasesWriteCurrentPc` | TP1-ARM/sim.c:361-376 | B and BR write CURRENT_STATE.PC, to `PC + offset` and to `REGS[Rn]`, and change nothing else |
| `SimChainProperties.AddsImmCaseWritesCurrentRegister` | TP1-ARM/sim.c:235-242 | ADDS immediate reads the shift from bit 22 and writes the sum to CURRENT_STATE `Rd`, 31 included. The flags go to NEXT_STATE and memory is unchanged |
| `SimChainProperties.SubsCasesSkipRegister31` | TP1-ARM/sim.c:252-290 | The inline SUBS cases always set the flags but write CURRENT_STATE `Rd` only when it is not 31 |
| `SimChainProperties.InlineSubsImmAgreesWithHelper` | TP1-ARM/sim.c:252-274 | The inline SUBS immediate computes what `execute_SUBS_immediate` would |
| `SimChainProperties.InlineSubsExtAgreesWithHelper` | TP1-ARM/sim.c:275-290 | The inline SUBS extended computes what `execute_SUBS_extended` would |
| `SimChainProperties.InlineCasesWriteCurrentCopy` | TP1-ARM/sim.c:235-458 | ADDS, SUBS, EOR and the loads leave NEXT_STATE's registers, memory and CURRENT_STATE.PC alone |
| `SimChainProperties.HandlerCasesWriteNextCopy` | TP1-ARM/sim.c:291-360 | ANDS and ORR leave CURRENT_STATE and memory alone |
| `SimChainProperties.LdurWritesCurrentRegister` | TP1-ARM/sim.c:418-431 | LDUR writes the pair read at `REGS[Rn] + imm9` to CURRENT_STATE `Rt` and changes nothing else |
| `SimChainProperties.LdurbWritesCurrentRegister` | TP1-ARM/sim.c:432-445 | LDURB writes the zero-extended byte and nothing else |
| `SimChainProperties.LdurhWritesCurrentRegister` | TP1-ARM/sim.c:446-458 | LDURH writes the zero-extended halfword and nothing else |
| `SimChainProperties.SturWritesOnlyMemory` | TP1-ARM/sim.c:377-389 | STUR changes memory only, with a pair write at `REGS[Rn] + imm9` |
| `SimChainProperties.SturbWritesOnlyMemory` | TP1-ARM/sim.c:390-403 | STURB changes memory only |
| `SimChainProperties.SturhWritesOnlyMemory` | TP1-ARM/sim.c:404-417 | STURH changes memory only |
| `SimChainProperties.StoreThenLoadDouble` | TP1-ARM/sim.c:377-431 | STUR then LDUR through the same base and offset load the stored register back |
| `SimSwitch.ProcessInstruction` | TP1-ARM/src/sim.c:114-384 | The four switches in place, or the early return, leave `Process` of the old state |
| `SimSwitch.RunSwitch8` | TP1-ARM/src/sim.c:121-261 | Reports the early return exactly for SUBS immediate with shift 2 or 3, leaving the state as it was; otherwise leaves `Switch8` |
| `SimSwitch.RunLaterSwitches` | TP1-ARM/src/sim.c:263-382 | B, then BR, then the memory switch, each on the state the previous one left |
| `SimSwitch.RunSwitch11` | TP1-ARM/src/sim.c:292-382 | The load and store switch, with LDURH on 0x5C2 |
| `SimSwitchProperties.TopByteWordFields` | TP1-ARM/src/sim.c:121-382 | A top-byte word is no B and no load or store. It is a BR only for ADDS and SUBS extended |
| `SimSwitchProperties.BWordFields` | TP1-ARM/src/sim.c:263-382 | A B word is no load or store and has no top-byte key |
| `SimSwitchProperties.MemoryWordFields` | TP1-ARM/src/sim.c:278-382 | A load or store word is no BR and has no top-byte key |
| `SimSwitchProperties.Switch8KeepsControl` | TP1-ARM/src/sim.c:121-261 | The first switch never changes NEXT_STATE.PC or the latch; only HLT clears the run flag |
| `SimSwitchProperties.LaterSwitchesKeepControl` | TP1-ARM/src/sim.c:263-382 | B, BR and the memory cases leave NEXT_STATE, the run flag and the latch alone |
| `SimSwitchProperties.ProcessSetsDefaultPc` | TP1-ARM/src/sim.c:114-118 | After `process_instruction`, NEXT_STATE.PC is `CURRENT_STATE.PC + 4`, the early return included |
| `SimSwitchProperties.SubsImmediateWordsReachNoLaterSwitch` | TP1-ARM/src/sim.c:147-168 | No later switch has a case for a word with top byte 0xF1, so the early return loses nothing else |
| `SimSwitchProperties.StackPointerOnlyReachesSubs` | TP1-ARM/src/sim.c:147-185 | `SP` changes the outcome only for SUBS with `Rn` = 31 |
| `SimSwitchProperties.DraftsAgree` | TP1-ARM/src/sim.c:114-384 | With `SP` equal to REGS[31], the switch draft and the chain (sim.c) agree on every word the chain defines, except BR after another case and the LDURH keys |
| `SimSwitchProperties.LdurhKeysDiffer` | TP1-ARM/src/sim.c:365-377 | On 0x3C2 the chain loads a halfword and the switches do nothing; on 0x5C2 it is the other way round |
| `SimSwitchProperties.BrAfterExtendedArithmetic` | TP1-ARM/src/sim.c:278-291 | A word that is both ADDS/SUBS extended and BR runs both and jumps to `Rn` as the arithmetic left it, while the chain stays on its PC |
| `SimSwitchProperties.BThenBr` | TP1-ARM/src/sim.c:263-291 | A word that is both B and BR ends on `REGS[Rn]`: BR overrides the B target |
| `SimSwitchProperties.BAndBrShareAWord` | TP1-ARM/src/sim.c:263-291 | Such words exist: 0x53587C00 has 0x14 in bits 31:26 and 0xD61F in bits 25:10 |

## Left out

- The shell (shell.h, `mem_read_32`, `mem_write_32`, `RUN_BIT`, the state
  structs) is not part of this model. The word store is a map from byte
  address to a 32-bit word, and an unwritten word reads as 0. Words stored
  at different addresses do not overlap, even when their four bytes would.
- Unaligned word and doubleword accesses are not related to aligned ones.
  `mem_write_64` writes words at `addr` and `addr + 4` at any address
  (src/sim1.c:190-195, sim.c's copy is the same), while `mem_read_8` and
  `mem_read_16` read the aligned word at `addr & ~0x3` (src/sim1.c:150-160).
  A byte-addressed shell would let a narrow read see part of an unaligned
  word write, and a word read see an unaligned narrow write. The model does
  not: STUR at 0x1002 followed by LDURB at 0x1002 returns the byte held by
  the word at 0x1000. The round trips are stated only between accesses of
  the same width at the same address.
- `printf` messages, the "not implemented" and "Unsupported instruction"
  output, and the `instruction_handled` flag that only chooses whether to
  print are left out.
- `exit(1)` is the `Unsupported` outcome.
- `check_condition` (src/sim1.c) is a parameter of the model, because its
  definition is not part of this model.
- `SP` (src/sim.c) is a parameter of the model, because it comes from the
  shell.
- `decode_lsl_lsr` (src/decode.c:44-57) is left out: no draft calls it.
- `hashmap_free` is left out, because memory release has no observable
  effect in the model.
- The `malloc` failure paths of `hashmap_create` and `hashmap_put` are left
  out, because allocation does not fail in Dafny.
- `CURRENT_STATE.decoded` (src/sim1.c:104) is left out, because no handler
  reads it.
- The commented-out `handle_lsl` and `handle_lsr` are left out.
- The model excludes these undefined corners by their preconditions:
  - ANDS with ROR by 0 shifts a 64-bit value by 64;
  - `mem_write_64` at offset 4 in src/decode.c shifts `1U` by 32;
  - SUBS immediate with shift 2 or 3 in sim.c reads an uninitialised
    `operand2`.
- Signed left shifts that overflow (`(int32_t)x << 6`, `1 << 63`) wrap as
  in two's complement. C leaves them undefined.
- old/sim3.c's `process_instruction` never moves NEXT_STATE.PC for
  non-branches, because the src/handlers.c handlers do not. The model keeps
  that.
- src/handlers.c's B and BR do not set `branch_taken`. The model keeps
  that.
- Copies of identical code are modelled once:
  - `sign_extend`, `extend_register`, `update_flags` and the 8- and 16-bit
    accessors, in Decode;
  - the word-pair 64-bit accessors of src/sim1.c and sim.c, in
    Sim1Handlers;
  - the `execute_*` helpers of sim.c and src/sim.c, in SimChain.
- src/sim.c defines no memory accessors of its own, and the ones it links
  against are not part of this model. The switch draft uses sim.c's
  word-pair accessors.
- `Sim1Handlers.ShiftsResult` has no contract of its own. Its behaviour is
  covered through `HandleShifts` and the frame lemmas.
- `SimChain.EorCase` has no lemma at chain level. The zero-amount guard it
  shares with src/handlers.c is covered by
  `HandlerProperties.EorGuardOnlyMattersForRor`.
- `Decode.ExtendRegister` states only the UXTX identity. Its other options
  are stated through `ExtendValue` and `ExtendValueSignExtends`.
