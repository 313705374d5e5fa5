# Bloom filter with MurmurHash3: a Dafny model

This project models the C Bloom filter in `src/bloom_filter.c`. It has three modules, one per piece of that file.

- **`Murmur`** (`murmur.dfy`) is the 32-bit x86 MurmurHash3 (`MurmurHash3_x86_32`). The arithmetic is in `bv32`, so it wraps exactly as `uint32_t` does.
  - `Murmur3` is the specification. It folds the `len / 4` little-endian blocks (`Body`), mixes the `len % 4` tail bytes (`Tail`), then xors in the length and applies `fmix32` (`Finish`).
  - `MurmurHash3X86` is the loop from the source, and its contract proves it equal to `Murmur3`.
  - Lemmas show:
    - the block phase reads only the bytes of the full blocks;
    - the block phase can be streamed across a 4-byte-aligned split;
    - the function gives the published MurmurHash3 values on fixed keys.
- **`Bloom`** (`bloom.dfy`) is the `BloomFilter`.
  - The filter is a class `Filter`. It has a `size` in bits, `numHashes`, and an `array<bv8>` of `(size + 7) / 8` bytes.
  - Its constructor is the allocation done by `create_bloom_filter`.
  - `Add` is `bloom_add` and sets bits in place. `Check` is `bloom_check`, which is read-only and answers false at the first clear bit.
  - Probe `i` of an item is `((h1 + i * h2) mod 2^32) mod size`. Here `h1` and `h2` are `Murmur3` of the item under the seeds `0x9747b28c` and `0x3c6ef372`.
  - Both methods are proved against pure functions on the byte sequence: `Insert` and `MayContain`.
  - Lemmas about those functions state what the filter promises:
    - every probe is in bounds;
    - there are no false negatives;
    - an add never clears a bit, so earlier answers survive;
    - adding twice is adding once, and the order of adds does not matter;
    - a negative answer means the item was never added.
- **`Atoi`** (`atoi.dfy`) is `atoi_ex`, over the characters before the terminating NUL.
  - `Parse` is the specification and `AtoiEx` is the pointer-walking loop, proved equal to it.
  - Lemmas show:
    - leading spaces are skipped and a sign is read;
    - commas anywhere among the digits are ignored;
    - any other non-digit makes the result 0;
    - otherwise the result is the sign times the decimal value of the digits;
    - numbers written with thousands separators (for example `1,000,000`) parse back to themselves, with or without a sign.

All item lengths are below 2^31 (`MaxLen`), because the C code passes `strlen` as an `int`.

## Model

| member | source | states |
|---|---|---|
| Murmur.MurmurHash3X86 | src/bloom_filter.c:32-69 | The loop computes `Murmur3(data, seed)`: `len / 4` block mixes, the tail mix, then xor with the length and `fmix32`. |
| Murmur.BodyStep | src/bloom_filter.c:39-47 | One more block turns the running hash after `n` blocks into `BlockStep` of it and block `n`. |
| Murmur.TailCases | src/bloom_filter.c:49-59 | The tail changes the hash only when `len % 4 != 0`. It then xors in the mixed little-endian tail word. |
| Murmur.TailWordIsPaddedBlock | src/bloom_filter.c:49-54 | The word the fall-through switch builds from the last `len % 4` bytes is the little-endian load of those bytes padded with zero bytes to a full block. |
| Murmur.SameBytesSameBlock | src/bloom_filter.c:40 | A block depends only on its four bytes. |
| Murmur.FoldReadsOnlyBlocks | src/bloom_filter.c:39-47 | Folding `n` blocks reads only the first `4n` bytes. |
| Murmur.FoldConcat | src/bloom_filter.c:39-47 | Folding the blocks of `a + b`, with `a` a multiple of 4 long, is folding `b` from the state after `a`. |
| Murmur.BodyReadsOnlyBlocks | src/bloom_filter.c:39-47 | The block phase of the hash is fixed by the first `4n` bytes. |
| Murmur.BodyConcat | src/bloom_filter.c:39-47 | The block phase can be streamed across a split at a multiple of 4 bytes. |
| Murmur.EmptyKeyVectors | src/bloom_filter.c:32-69 | The empty key hashes to the published values under seeds 0, 1 and 0xffffffff. |
| Murmur.TwoByteTailVector | src/bloom_filter.c:49-59 | "ab" under seed 0x9747b28c hashes to 0x74875592, which exercises the 2-byte tail. |
| Murmur.ThreeByteTailVector | src/bloom_filter.c:49-59 | "abc" under seed 0x9747b28c hashes to 0xc84a62dd, which exercises the 3-byte tail. |
| Murmur.OneBlockVector | src/bloom_filter.c:39-47 | "abcd" under seed 0x9747b28c hashes to 0xf0478627: one block and no tail. |
| Murmur.ThreeBlocksVector | src/bloom_filter.c:32-69 | "Hello, world!" under seed 0x9747b28c hashes to 0x24884cba: three blocks and a 1-byte tail. |
| Bloom.OrMask | src/bloom_filter.c:106 | OR-ing in bit `c` makes bit `d` set iff it was set before or `c == d`. |
| Bloom.BitsExtensionality | src/bloom_filter.c:72-76 | Two byte arrays of the same length with the same bits are equal. |
| Bloom.SetBit | src/bloom_filter.c:106 | Setting one bit keeps the array length. |
| Bloom.SetBitBits | src/bloom_filter.c:106 | After setting bit `p`, bit `q` is set iff it was set before or `q == p`. |
| Bloom.Probe | src/bloom_filter.c:105 | The index `((h1 + i * h2) mod 2^32) mod size` is `< size`, and its byte `index / 8` is inside the `(size + 7) / 8` allocated bytes. |
| Bloom.Probes | src/bloom_filter.c:104-105 | There are `k` probe indices, and the `j`th is probe `j`. |
| Bloom.Positions | src/bloom_filter.c:101-105 | An item has `k` probe positions, derived from its two seeded hashes. |
| Bloom.SetAll | src/bloom_filter.c:104-107 | Setting a run of bits keeps the array length. |
| Bloom.SetAllBits | src/bloom_filter.c:104-107 | After setting the bits `ps`, bit `q` is set iff it was set before or `q` is in `ps`. |
| Bloom.SetAllThenAllSet | src/bloom_filter.c:104-107 | After setting the bits `ps`, all of them test as set. |
| Bloom.SetAllKeepsAllSet | src/bloom_filter.c:106 | Setting bits never clears bits that were set. |
| Bloom.SetAllIdempotent | src/bloom_filter.c:104-107 | Setting the same bits twice is setting them once. |
| Bloom.SetAllCommutes | src/bloom_filter.c:104-107 | Setting two runs of bits gives the same array in either order. |
| Bloom.SetProbesStep | src/bloom_filter.c:104-107 | One more iteration of the add loop sets exactly probe `i` on top of the first `i` probes. |
| Bloom.Insert | src/bloom_filter.c:99-108 | An add keeps the array fitted to `size`. |
| Bloom.Empty | src/bloom_filter.c:87 | The fresh array has `(size + 7) / 8` bytes and no bit set. |
| Bloom.InsertAll | src/bloom_filter.c:99-108 | A sequence of adds keeps the array fitted to `size`. |
| Bloom.AddThenCheck | src/bloom_filter.c:99-123 | After adding an item, checking it answers true: there are no false negatives. |
| Bloom.InsertBits | src/bloom_filter.c:99-108 | After an add, a bit is set iff it was set before or it is one of the item's probe positions. No other bit changes. |
| Bloom.InsertKeepsAnswers | src/bloom_filter.c:106 | An item that checked as present still does after any further add. |
| Bloom.InsertIdempotent | src/bloom_filter.c:104-107 | Adding the same item twice leaves the array as adding it once. |
| Bloom.InsertCommutes | src/bloom_filter.c:99-108 | Two adds give the same array in either order. |
| Bloom.InsertAllKeepsAnswers | src/bloom_filter.c:99-123 | An item that checked as present still does after any sequence of adds. |
| Bloom.AddedAreFound | src/bloom_filter.c:99-123 | Every item of a sequence of adds checks as present afterwards. |
| Bloom.AbsentNeverAdded | src/bloom_filter.c:116-122 | If checking `y` on a fresh filter after some adds answers false, then `y` was not among the added items. |
| Bloom.EmptyRejects | src/bloom_filter.c:87 | With at least one hash, a fresh zeroed filter answers false for every item. |
| Bloom.NoHashesAcceptAll | src/bloom_filter.c:116-123 | With `num_hashes == 0` the loop never runs and every item checks as present. |
| Bloom.Filter.constructor | src/bloom_filter.c:84-87 | The filter stores `size` and `numHashes`, and its array is fresh with `(size + 7) / 8` zero bytes. |
| Bloom.Filter.Add | src/bloom_filter.c:99-108 | The array becomes `Insert` of the old array and the item. Nothing else changes. |
| Bloom.Filter.SetProbes | src/bloom_filter.c:104-107 | The loop ORs the bit of each of the `numHashes` probes into the array, in place. |
| Bloom.Filter.Check | src/bloom_filter.c:111-123 | The answer is true iff all of the item's probe bits are set (`MayContain`). The array is not modified. |
| Bloom.Filter.ProbesSet | src/bloom_filter.c:116-122 | The loop, with its early return, answers true iff every probe bit is set. |
| Atoi.AtoiEx | src/bloom_filter.c:136-164 | The result equals `Parse(str)`: spaces skipped, optional sign, commas ignored, 0 on any other non-digit, otherwise sign times value. |
| Atoi.ConvertDigits | src/bloom_filter.c:154-161 | The conversion loop returns `Scan` of the rest: the value, or failure at an invalid character. |
| Atoi.SkipSpaces | src/bloom_filter.c:141-143 | What is left after the skip is no longer than the text and does not start with a space. |
| Atoi.SkipSpacesSplit | src/bloom_filter.c:141-143 | The text is a run of spaces followed by what `SkipSpaces` leaves: only spaces are skipped. |
| Atoi.SkipSpacesPrefix | src/bloom_filter.c:141-143 | Any number of spaces in front of the text are all skipped. |
| Atoi.LeadingSpacesSkipped | src/bloom_filter.c:141-143 | Leading spaces do not change the result. |
| Atoi.ScanFailureSticks | src/bloom_filter.c:157-159 | Once a prefix has failed, the whole text fails: the early `return 0`. |
| Atoi.ScanFailsIff | src/bloom_filter.c:154-161 | The conversion fails iff some character is neither a digit nor a comma. |
| Atoi.CommasIgnored | src/bloom_filter.c:154-161 | Removing every comma does not change the conversion. |
| Atoi.RemoveCommasDigits | src/bloom_filter.c:155-157 | Digits and commas with the commas removed are digits only. |
| Atoi.DecimalSnoc | src/bloom_filter.c:155-156 | The place-value reading of digits equals ten times the reading without the last digit, plus that digit. |
| Atoi.ScanIsDecimal | src/bloom_filter.c:154-156 | On digits, the loop's `result * 10 + digit` accumulation yields the place-value decimal number. |
| Atoi.InvalidGivesZero | src/bloom_filter.c:157-159 | An invalid character after the sign makes the result 0. |
| Atoi.ValidGivesValue | src/bloom_filter.c:146-163 | With no invalid character, the result is the sign times the decimal value of the digits with the commas dropped. |
| Atoi.DigitChar | src/bloom_filter.c:156 | The character of digit `d` is a digit whose value `*str - '0'` is `d`. |
| Atoi.ScanFormat | src/bloom_filter.c:154-161 | The decimal text of `n` converts back to `n`. |
| Atoi.ScanGrouped | src/bloom_filter.c:154-161 | The text of `n` with commas between groups of three digits converts back to `n`. |
| Atoi.ParseGrouped | src/bloom_filter.c:136-164 | `atoi_ex` reads back `n`, `-n` and `+n` written with thousands separators. |

## Left out

- The sizing formula of `create_bloom_filter` (`src/bloom_filter.c:81-82`) uses `ceil`, `log` and `round` on doubles. `size` and `numHashes` are constructor parameters instead.
- `timer_start` and `timer_end` read the system clock and are not part of this model.
- `gen_rand_str` depends on `rand()` and is not part of this model.
- `test` and `main` handle argv, `setlocale` and `printf`, and are not part of this model.
- `free_bloom_filter` only deallocates, which has no counterpart in Dafny.
- The Python scripts and Count-Min Sketch/HyperLogLog call external libraries whose code is not part of this model.
- Murmur.MurmurHash3X86: the unaligned `uint32_t *` block load is modelled as a little-endian 4-byte load, which is what x86 does.
- Murmur.MurmurHash3X86: keys of 2^31 bytes or more are excluded (`MaxLen`), because `len` is an `int` in the source.
- Bloom.Filter.Add: the item is its bytes before the NUL. The model also accepts zero bytes inside an item, which `strlen` would cut off.
- Bloom.Filter.Add: `size == 0` is excluded, because the source divides by zero there whenever `num_hashes > 0`. With `num_hashes == 0` its loop never runs and the add does nothing.
- Bloom.Filter.Check: `size == 0` is excluded for the same reason. With `num_hashes == 0` the source answers 1 without dividing.
- Bloom.Filter.constructor: `numHashes` is a `nat` below 2^31. A negative `num_hashes` would behave like 0 in the loops.
- Bloom.Filter.Check: it returns `bool` where the source returns the `int` 1 or 0.
- Bloom.Filter: `size`, `numHashes` and the array reference are `const`, because `bloom_add` and `bloom_check` never reassign them. Only the array's contents change.
- Atoi.AtoiEx: the text is the characters before the terminating NUL. A `'\0'` inside the sequence is treated as an invalid character (result 0), whereas C would stop there and return the value read so far.
- Atoi.AtoiEx: the arithmetic is unbounded, so signed `int` overflow (undefined behaviour in C) is not modelled.
- Atoi.AtoiEx: `isdigit` is taken as `'0'..'9'`. Locale-specific digits and negative `char` values are not modelled.
- The loops of `MurmurHash3_x86_32`, `bloom_add`, `bloom_check` and `atoi_ex` are split into helper methods (`LoadTail`, `MixTail`, `SetProbes`, `ProbesSet`, `ConvertDigits`). Each is proved on its own; together they do the same steps as the source function.
