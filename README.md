# crypt.py in Dafny

A model of `crypt.py`, a small file cipher and its container format, together with proofs about that model. It has three layers.

- **The register `LFSR`** (module `Lfsr`) is a 32-bit clocked shift register.
  - Its state is the datatype `Reg`. `Reg.Peek` is the low bit of the value and `Reg.Next` is one clock.
  - Class `LFSR` holds a mutable `value: bv32` and two constant fields, `mask` and `rot`.
  - Its `Next()` method updates `value` in place with the same steps as the source. It is proved equal to `Reg.Next`.
- **The keystream generator `Crypter`** (module `Keystream`) is an alternating-step generator over three registers A, B and C.
  - The pure mirror:
    - `Seed`: the registers seeded from a 12-byte key;
    - `Step` and `Steps`: one iteration of the `next(n)` loop and a run of them, on a `Round` that carries the generator and the locals `b` and `c`;
    - `Value`: the packed result of `next(n)`;
    - `Stream`: the keystream bytes, one `next(8)` per byte;
    - `Crypt`: a fresh generator's `crypt`.
  - Class `Crypter` owns three `LFSR` objects. It has the methods `Next(n)`, `CryptBlock` and `Crypt`, with loops that follow the source's loops. Each method is proved against the pure functions.
- **The container** (module `Container`) covers the 28-byte `MAGIC`, the 104-byte header, decryption (`Decrypt`), encryption (`Encrypt`) and the choice between them (`Process`).
  - `Transform` runs the same steps with fresh `Crypter` objects, the way the main block does, and is proved to agree with `Process`.
  - The two `os.urandom` draws are parameters: `key` is 12 bytes and `pad` is 48 bytes.
- `Words` holds the shared helpers: bytes (`bv8`), the little-endian word of `struct.unpack('<III', key)`, the bit packing of `v <<= 1; v |= bit`, and the bytewise XOR.

The 32-bit width of the registers comes from their `bv32` type. Every operation of `next()` maps 32-bit operands to a 32-bit result, and `~rot & 0xFFFFFFFF` becomes the `bv32` complement `!rot`.

Inside the loop of `next(n)`, `b` and `c` take the flag that `self.b.next()` / `self.c.next()` return (crypt.py:39, 41). That flag is the register's low bit *before* the clock, not a fresh sample taken after it. `Step` does the same, and `Lfsr.FlagIsPeek` states it.

A magic-prefixed input shorter than 104 bytes makes the source raise an exception:
- below 92 bytes, the key-encryption-key slice is short and `struct.unpack` fails;
- from 92 to 103 bytes, the unwrapped key is short and the second `Crypter` fails.

The model represents this error path as the `Malformed` outcome of `Decrypt`. It is not a precondition.

Replacing a zero key word by a default keeps every seed nonzero (`Keystream.Seed`). It does not rule out every seed that dies, though. Only register A's refill constant keeps a nonzero value nonzero (`Lfsr.NonzeroStaysNonzero`). Register B seeded 0x80000000 and register C seeded 0x20000000 are 0 after their first clock and stay 0 for good (`Lfsr.NarrowRotCollapses`, `Lfsr.NarrowRotCollapsesC`).

## Model

| member | source | states |
|---|---|---|
| Lfsr.Reg.Next | crypt.py:13-22 | the flag of a clock is true exactly when the low bit was 1 before it; `mask` and `rot` are unchanged |
| Lfsr.Refill | crypt.py:14-22 | after a clock returning true every bit outside `rot` is 1; after one returning false every such bit is 0 |
| Lfsr.FlagIsPeek | crypt.py:10-22 | the k-th flag of a run of clocks is what `peek()` said after k clocks |
| Lfsr.TakenPassed | crypt.py:37-41 | of n clocks, the number returning true plus the number returning false is n |
| Lfsr.ZeroStaysZero | crypt.py:19-22 | a register at 0 stays 0 under any number of clocks and every clock returns false |
| Lfsr.NonzeroStaysNonzero | crypt.py:13-22 | with A's refill constant 0x7FFFFFFF a nonzero register never reaches 0 |
| Lfsr.NarrowRotCollapses | crypt.py:19-22 | with B's refill constant 0x3FFFFFFF the nonzero seed 0x80000000 is 0 after one clock and for good |
| Lfsr.DeadAfterFirstClock | crypt.py:13-22 | a register that is 0 after one clock is 0 after every later clock |
| Lfsr.NarrowRotCollapsesC | crypt.py:19-22 | with C's refill constant 0x0FFFFFFF the nonzero seed 0x20000000 is 0 after one clock and for good |
| Lfsr.Reg.Peek | crypt.py:10-11 | definition of `peek()`, the low bit of the value; its meaning is stated by `Lfsr.Reg.Next` and `Lfsr.FlagIsPeek` |
| Lfsr.LFSR.Peek | crypt.py:10-11 | `peek()` on the object, the low bit of its current state; `Lfsr.LFSR.Next` ties it to the flag |
| Lfsr.LFSR.constructor | crypt.py:5-8 | the new register holds the seed, mask and refill constant given |
| Lfsr.LFSR.Next | crypt.py:13-22 | the in-place update yields exactly the state and flag of `Reg.Next`, and the flag is the old low bit |
| Words.LeWord | crypt.py:26 | the word's four bytes, least significant first, are the key's bytes 4i..4i+3; the word is 0 exactly when those bytes are all 0 |
| Words.Pack | crypt.py:42-43 | n bits packed most significant first give a value below 2^n |
| Words.XorTwice | crypt.py:47-51 | XORing twice with the same keystream gives the input back |
| Keystream.SeedOr | crypt.py:28-30 | a zero key word becomes the nonzero default and any other word is kept, so the seed is never 0 |
| Keystream.Seed | crypt.py:25-30 | registers A, B, C are seeded from the key's little-endian words 0, 1, 2 (or the defaults 0x13579bdf, 0x2468ace0, 0xFDB97531) with their masks and refill constants, and all start nonzero |
| Keystream.ZeroKeySeedsDefaults | crypt.py:26-30 | the all-zero key seeds every register with its default |
| Keystream.Start | crypt.py:34-35 | definition: entering `next(n)`, b and c are sampled once with `peek()`; `Keystream.Crypter.Next` is proved against it |
| Keystream.Step | crypt.py:37-41 | one iteration clocks A; on true it clocks B and sets b to B's flag, else it clocks C and sets c; the other register and its bit stay as they were |
| Keystream.Output | crypt.py:43 | definition of the output bit `b ^ c` of an iteration |
| Keystream.Steps | crypt.py:37-41 | definition: the loop state after i iterations; `Keystream.StepsClockA`/`B`/`C` state what it does to the registers |
| Keystream.Bits | crypt.py:37-45 | the output bits of the first i iterations, one per iteration, in order |
| Keystream.Advance | crypt.py:32-45 | definition: the generator after `next(n)`; `Keystream.NextClocks` states how often each register is clocked |
| Keystream.Value | crypt.py:32-45 | the value of `next(n)` is below 2^n |
| Keystream.StepsClockA | crypt.py:37-38 | in i iterations A is clocked i times |
| Keystream.StepsClockB | crypt.py:37-39 | in i iterations B is clocked once per clock of A that returned true |
| Keystream.StepsClockC | crypt.py:37-41 | in i iterations C is clocked once per clock of A that returned false |
| Keystream.NextClocks | crypt.py:32-45 | `next(n)` clocks A n times, B once per true flag of A and C once per false flag, so B and C together n times |
| Keystream.KeyByte | crypt.py:48 | definition of one keystream byte, `next(8)`, a value below 256 by `Keystream.Value` |
| Keystream.After | crypt.py:50-51 | definition: the generator after k calls of `crypt_block`; `Keystream.AfterAdd` states that calls compose |
| Keystream.Stream | crypt.py:50-51 | the first n keystream bytes, n of them, byte k taken from the state k blocks on |
| Keystream.AfterAdd | crypt.py:47-51 | m `crypt_block` calls followed by n more equal m + n calls |
| Keystream.StreamAdd | crypt.py:50-51 | the keystream of m + n bytes is the first m bytes followed by the keystream of the state those m bytes leave |
| Keystream.StreamPrefix | crypt.py:50-51 | a longer keystream from the same state extends a shorter one |
| Keystream.Crypt | crypt.py:50-51 | `crypt` on a fresh generator keeps the length |
| Keystream.CryptAt | crypt.py:47-51 | output byte i is input byte i XOR keystream byte i, and that keystream byte depends only on the key and i |
| Keystream.CryptInvolution | crypt.py:47-51 | for fresh generators on one key, crypting twice gives the input back |
| Keystream.CryptConcat | crypt.py:50-51 | crypting x ++ y is crypting x and then y with the state x left, never a fresh one |
| Keystream.Crypter.constructor | crypt.py:25-30 | the three new registers are distinct fresh objects in the state `Seed(key)` |
| Keystream.Crypter.Next | crypt.py:32-45 | the loop returns `Value(g, n)` and leaves the registers in `Advance(g, n)`, sampling b and c once before the loop |
| Keystream.Crypter.CryptBlock | crypt.py:47-48 | the byte is XORed with the next keystream byte and the state moves on by one byte |
| Keystream.Crypter.Crypt | crypt.py:50-51 | the output is the data XOR the keystream of the starting state, and the state moves on by one byte per input byte |
| Container.MAGIC | crypt.py:53 | the 28 bytes "Encrypted program file.\r\n2\0\0" |
| Container.HasMagic | crypt.py:65 | definition of `fw.startswith(MAGIC)` |
| Container.Decrypt | crypt.py:65-71 | the result is malformed exactly when the input is shorter than 104 bytes, and otherwise is 104 bytes shorter than the input: the tail decrypted under the key unwrapped from 92..103 with the key at 80..91 |
| Container.Assemble | crypt.py:77-83 | the header parts and the body are found again at offsets 0, 28, 76, 80, 92 and 104 |
| Container.Encrypt | crypt.py:72-83 | the encrypting branch with the key and padding as parameters; it has no ensures of its own, and its contract is `Container.EncryptLayout` |
| Container.EncryptLayout | crypt.py:74-83 | the encrypted file is 104 + n bytes long: magic, padding, four zeros, the zero key-encryption-key, the key wrapped under it, and the payload crypted under the key |
| Container.HeaderZeros | crypt.py:80-81 | bytes 76 to 91 of every encrypted file are zero |
| Container.Process | crypt.py:65-83 | the mode choice: input with the magic is decrypted and any other input is encrypted |
| Container.ProcessShape | crypt.py:65-83 | a magic-prefixed input fails exactly when it is shorter than 104 bytes and otherwise loses 104 bytes; any other input always succeeds, comes out with the magic and is 104 bytes longer |
| Container.UnwrapKey | crypt.py:67-82 | decrypting the stored wrapped key with the stored key-encryption-key gives back the payload key |
| Container.RoundTrip | crypt.py:65-83 | decrypting an encrypted file gives back exactly the payload |
| Container.ProcessTwice | crypt.py:65-83 | processing a file without the magic twice gives it back, whatever key and padding the second pass draws |
| Container.Transform | crypt.py:65-83 | the main block's steps on fresh `Crypter` objects produce exactly `Process` |

## Left out

- Command-line handling: the argument count check, the usage message and `sys.exit(255)` (crypt.py:58-60).
- Reading the input file and writing the output file (crypt.py:62-63, 85-86). The model works on the byte sequences directly.
- The "Decrypting" / "Encrypting" messages (crypt.py:66, 73): console output only.
- `os.urandom` (crypt.py:74, 79). The payload key and the 48 padding bytes are parameters of `Encrypt`, `Process` and `Transform`.
- Python exceptions for a `Crypter` key that is not 12 bytes. `Keystream.Crypter.constructor` and `Keystream.Crypt` require a 12-byte key. Every caller in the source passes one, except on a short magic-prefixed input, which `Decrypt` reports as `Malformed`.
- `struct.unpack` is not modelled as a library call. Only its meaning here is modelled: three little-endian unsigned 32-bit words (`Words.LeWord`).
- Lfsr.LFSR.Next and `Lfsr.Reg.Next` do not model Python's unbounded integers, because `value`, `mask` and `rot` are `bv32`. The source keeps `value` within 32 bits only as long as seed, mask and complement are all 32-bit, which every caller guarantees.
- No concrete keystream value for a particular key is pinned down. Nothing of the program was run, so the only such value available would come from the model itself.
