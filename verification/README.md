# ordered-buffer: the `ReliabilityBuffer` reorder buffer in Dafny

This project models `ReliabilityBuffer<T, N>` from the `ordered-buffer`
crate. The buffer is a fixed-capacity reorder buffer. Items arrive tagged
with `u64` sequence numbers in any order, and it hands them back in
sequence-number order as soon as a contiguous run is present.

The buffer stores an arrival `s` in slot `s % N` of an array of `N`
optional `(u64, T)` pairs. It keeps three counters: `next_slot`,
`read_pos` and `next_sequence_number`. `insert` classifies an arrival:
it returns `PacketExpired`, `Duplicate` or `WrappedAround`, or it stores
the item and returns an iterator. Each call of the iterator's `next` takes
the slot at `read_pos`. `reset` restores the freshly built state.

The model is functional:

- A buffer is an immutable `Buffer(items, nextSlot, readPos, nextSeq)` with
  `N = |items|`.
- `Insert` returns the new buffer together with its status. `Ok` stands for
  the iterator that `insert` hands back.
- `DrainStep` is one call of `next`.
- `Drain` iterates `DrainStep` until it yields nothing.
- `InsertThenDrain` is the caller's
  `if let Ok(it) = buffer.insert(s, x) { for msg in it { .. } }`.
- `Replay` runs a whole session of such loops.

Modules:

- `ReliabilityBuffer` (`reliability_buffer.dfy`) holds the data model,
  `new`, `reset`, `insert` and the structural invariant `Valid`.
- `BufferIterator` (`buffer_iterator.dfy`) holds the drain step, the full
  drain and the consuming loop.
- `Residues` (`residues.dfy`) holds the modular-arithmetic facts the slot
  indexing needs.
- `Window` (`window.dfy`) holds the sliding window
  `[nextSeq, nextSeq + N)`. Under its invariant the buffer delivers in
  order.
- `Session` (`session.dfy`) covers sequences of insert-then-drain: item
  conservation, and the absence of overflow when the arrivals leave enough
  room below `u64::MAX`.
- `ItWorks` (`it_works.dfy`) is the crate's `it_works` test, proved as a
  scenario.
- `StaleArrival` (`stale_arrival.dfy`) covers arrivals just below the
  window (see Findings).

On an empty slot, the code rejects an arrival below
`next_sequence_number` only when it is at least `N` below, with
`PacketExpired`, and stores the rest. On an empty slot, an arrival that
was already delivered should instead be answered `Duplicate` and not
stored. On an occupied slot the code compares with the resident, and the
corrected insert keeps that comparison, so a resend there can still be
answered `PacketExpired`. The model follows the code, and the Findings
section below records the difference.

## Model

| member | source | states |
|---|---|---|
| ReliabilityBuffer.New | src/lib.rs:25-32 | `new` builds `N` empty slots with all three counters at zero: nothing is held under any sequence number, and the structural invariant holds |
| ReliabilityBuffer.Reset | src/lib.rs:89-94 | `reset` leaves exactly the state `new` builds for the same capacity: every slot is empty, all counters are zero and the invariant holds |
| ReliabilityBuffer.Insert | src/lib.rs:34-87 | Occupied slot: `PacketExpired` iff `s` is below the resident, `Duplicate` iff equal, `WrappedAround` iff above. Empty slot: `WrappedAround` iff `s >= nextSeq + N`, `PacketExpired` iff `s + N <= nextSeq`, never `Duplicate`. `Ok` iff the slot is empty and `s` is less than `N` from `nextSeq` on either side. `Duplicate` iff `s` is already held. Every error leaves the buffer unchanged. `Ok` stores `(s, x)` in slot `s % N` and changes no other slot, `readPos` or `nextSeq`; the item is then held under `s` and nothing else held changes. `nextSlot` advances iff the write lands on it |
| ReliabilityBuffer.InsertPreservesValid | src/lib.rs:41-77 | After any `insert`, every occupied slot still holds a sequence number congruent to its index, and `readPos` is still the slot of `nextSeq` |
| ReliabilityBuffer.DuplicateIsIdempotent | src/lib.rs:43-53 | Right after `s` is accepted, while it is still held and before a drain delivers it, inserting `s` again, with any item and any number of times, is `Duplicate` and changes nothing (the test's repeated `insert(15)`) |
| BufferIterator.DrainStep | src/lib.rs:105-110 | `next` on an occupied `read_pos` slot yields its item and empties that slot. It moves `readPos` on by one modulo `N`, sets `nextSeq` to the delivered number plus one, and leaves `nextSlot` alone. On an empty slot it yields nothing and changes nothing |
| BufferIterator.DrainStepPreservesValid | src/lib.rs:106-108 | A drain step keeps the structural invariant: the new `readPos` is the slot of the new `nextSeq` |
| BufferIterator.Drain | src/lib.rs:105-110 | Draining to exhaustion terminates. It yields at most `N` items, each of which empties one occupied slot. It stops at an empty `read_pos` slot and keeps the invariant |
| BufferIterator.DrainAll | src/lib.rs:130-132 | The test's `for msg in ...` loop, which calls `next` until `None`, collects exactly what the full drain yields and ends in the same state |
| BufferIterator.InsertThenDrain | src/lib.rs:71-77 | An `Err` hands back no iterator, so nothing is delivered and the buffer is unchanged. After `Ok`, the number of items delivered plus the number still held is the number held before plus one, and the drain ends at an empty slot |
| Window.InsertPreservesWindow | src/lib.rs:60-77 | An arrival at or above `nextSeq` keeps every resident inside `[nextSeq, nextSeq + N)` |
| Window.ExpiredOnlyBelowWindow | src/lib.rs:45-68 | Under the window invariant, `PacketExpired` is only returned for an arrival below `nextSeq`, on either path: the occupied-slot comparison at lines 45-47 and the empty-slot test at lines 66-68 |
| Window.CapacityLaw | src/lib.rs:61-64 | Under the window invariant, `insert(nextSeq + N)` is always `WrappedAround` |
| Window.DrainStepInWindow | src/lib.rs:105-110 | Under the window invariant, a drain step yields exactly the item held for `nextSeq`, advances `nextSeq` by one, and removes only that item |
| Window.DrainInOrder | src/lib.rs:105-110 | Under the window invariant, a full drain yields the items held for `nextSeq, nextSeq + 1, ...` in that order. It stops at the first number not held, keeps everything above it, and leaves the window invariant in place |
| Window.InsertThenDrainInOrder | src/lib.rs:60-77 | An arrival at or above `nextSeq` followed by the drain keeps the window invariant and delivers consecutive sequence numbers from `nextSeq` |
| Session.DrainKeepsHeadroom | src/lib.rs:108 | If every resident is more than `N` below `u64::MAX` and `nextSeq + N` is at most `u64::MAX`, draining keeps that room, so `sequence_number + 1` cannot overflow |
| Session.FitsNeverOverflows | src/lib.rs:61-66 | An arrival more than `N` below `u64::MAX`, into a buffer with that room, cannot overflow `next_sequence_number + N` or `seq + N` |
| Session.InsertThenDrainKeepsHeadroom | src/lib.rs:61-66 | With an arrival that fits, insert-then-drain keeps the room below `u64::MAX` |
| Session.Replay | src/lib.rs:130-199 | A session of insert-then-drain loops, as the test runs them. It keeps the invariant and conserves the item count: the number held at the start plus the number accepted equals the number delivered plus the number held at the end. With room below `u64::MAX` and arrivals that fit, no insert panics, so every arrival is processed |
| Session.ReplayFollows | src/lib.rs:130-199 | A session whose every step takes one given state to the next returns exactly those steps' answers and batches |
| Session.RunFollows | src/lib.rs:130-199 | A session laid out as tables of states, arrivals, answers and batches, whose every step from a valid state is one insert-then-drain to the next state, keeps every state valid and returns exactly the tabled answers and batches |
| ItWorks.ItWorks | src/lib.rs:126-202 | On a capacity-5 buffer, the test's twenty inserts do not panic. Every unwrapped insert is `Ok`, the two repeated inserts of 15 are `Duplicate`, and the final `insert(2)` is `PacketExpired`. Each loop yields the batch the code delivers at that step; the test prints these items and asserts nothing about them |
| StaleArrival.StaleArrivalAccepted | src/lib.rs:60-71 | As written, with `N > 1`, the already-delivered arrival `nextSeq - 1` is accepted when its slot is free, and a resident then lies below the window |
| StaleArrival.Redelivery | src/lib.rs:66-71 | As written, on a capacity-5 buffer, inserting 0 to 4 and then 3, 5, 6, 7 delivers 3 twice. The last drain yields `7` then `3` and leaves `nextSeq` at 4, after the drain started from 7 |
| StaleArrival.InsertChecked | src/lib.rs:60-71 | Corrected insert. Every rejection leaves the buffer unchanged. At or above `nextSeq` it answers exactly as the code does. Below `nextSeq` it never stores |
| StaleArrival.CheckedRejectsPrevious | src/lib.rs:66-71 | The capacity law for the corrected insert: with `N > 1`, `insert(nextSeq - 1)` into a free slot is `Duplicate`, where the code returns `Ok` |
| StaleArrival.CheckedBelowWindow | src/lib.rs:43-69 | Under the window invariant, the corrected insert answers every arrival below `nextSeq` with `Duplicate` or `PacketExpired` and changes nothing |
| StaleArrival.CheckedDeliversInOrder | src/lib.rs:60-77 | The corrected insert keeps the window invariant for every arrival, so the drain after an `Ok` delivers in order |

## Left out

- The `println!` calls and the `Debug` and `Display` bounds and derives: debug output only.
- The `Default` impl: it only calls `new`.
- `std::array::from_fn`, and the ownership and moves of `T`: `T` is a type parameter, and slots are values.
- The iterator's `&mut` borrow of the buffer: the buffer state is threaded through each drain step instead. A partial drain is simply fewer `DrainStep`s.
- The const generic `N`: it is the length of `items`. `N = 0` is excluded by `requires`, since the source would panic on `% N`.
- `u64 as usize` truncation: `usize` is taken to be 64 bits wide, so the casts are the identity.
- ReliabilityBuffer.Insert: requires `NoInsertOverflow`. A debug build panics when `next_sequence_number + N` or `seq + N` overflows, and release-mode wrap-around is not modelled.
- ReliabilityBuffer.Valid: includes "every resident is below `u64::MAX`". `insert` keeps this under `NoInsertOverflow`, and it makes the drain's `+ 1` safe.
- Session.Replay: ends the session at the first arrival whose insert would overflow, which is where the source panics. It assumes each successful insert is drained to exhaustion, as the test does.

## Findings

| source | as written | input that shows it | evidently intended | confidence | as-written member | corrected member |
|---|---|---|---|---|---|---|
| src/lib.rs:66-71 | On an empty slot, an arrival `s` with `nextSeq - N < s < nextSeq` is stored, although it was already delivered | `N = 5`: insert 0, 1, 2, 3, 4 (each delivered at once), then 3, 5, 6, 7. The last drain yields `7` and then `3` a second time, and `nextSeq` falls back to 4 | On an empty slot, an arrival below `nextSeq` and less than `N` below it is a `Duplicate` (already delivered) and is not stored. One `N` or more below stays `PacketExpired`, as the test at src/lib.rs:201 expects. On an occupied slot the code's comparison with the resident stays, so a resend there may be `PacketExpired` | not executed | StaleArrival.Redelivery | StaleArrival.InsertChecked |

`StaleArrival.CheckedDeliversInOrder` proves that the corrected insert
keeps the window invariant for every arrival. The rest of the model keeps
the code's `insert`, because it models the crate as it is. On arrivals at
or above `nextSeq` the two inserts agree (`InsertChecked`'s contract), and
every in-order result in `Window` is stated for those arrivals.
