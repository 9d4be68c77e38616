# Rounds tracker and BigNumber decoder

A Dafny model of the logic in the `smart-contracts-hooks` React library. This library tracks the sale
"rounds" of a smart contract. It has two pieces of logic:

- **The rounds tracker** (`useERCRoundsData`). It keeps the round list fetched from an endpoint. It splits
  that list into active, next and past rounds, and derives an overall `RoundsState` from them. It also
  computes the delays after which the split is redone because a round starts or ends.
- **The BigNumber decoder** (`convertBigNumberEntries`). It rewrites every top-level entry of the form
  `{"type": "BigNumber", "hex": "0x…"}` into the integer that the hex string denotes.

Files:

- `wrappers.dfy`: `Option` and `Result`.
- `numerals.dfy`: hexadecimal strings as `BigNumber.from` reads them, and decimal strings as `String(n)`
  writes them. It also holds lexicographic order on strings (by Unicode scalar value) and the first element of JavaScript's default
  `sort()`. That sort compares numbers by their decimal strings.
- `json.dfy`: JSON values (`JVal`), property lookup, truthiness and `Object.entries`.
- `big_number_entries.dfy`: the decoder (`src/utils/index.tsx`).
- `rounds_tracker.dfy`: the `RoundsState` enum (`src/types/rounds.ts:4-15`), the decoding of a sync
  response, the state rule, the two timer deadlines, and the class `RoundsTracker`. The class has the
  hook's seven state variables as fields.

In the hook, each effect is a separate reaction to a state change. In the model, each one is a method of
`RoundsTracker`:

- `Sync` is `syncData`.
- `UpdateRoundCategories` is `updateRoundCategories`. The two boundary timers call this method directly.
- `OnRoundsChange` is the effect that runs on a change of `rounds`.
- `UpdateRoundsState` is the effect that sets `roundsState`.

The hook's inputs are also modelled explicitly:

- The `endpoint` option and whether `onSyncData` was supplied are constructor arguments.
- The response body that `axios.get` returns is an argument of `Sync`.
- The clocks are method arguments: `nowTimestamp()` in seconds and `Date.now()` in milliseconds.
- The round library's `getRoundsByState`, `sortRoundsByPrice` and `sortRoundsByStartTime` come in as
  function values (`RoundsLibrary`). The model assumes nothing about them. The hook calls
  `getRoundsByState(rounds)` with one argument (`src/hooks/useERCRoundsData.ts:54`), and the library reads
  the clock itself; the model passes that time in as a second argument.

`Sync` returns the value that `onSyncData` would receive, if it is called. This is the raw response body.

Some points about what the code does:

- **State precedence.** The enum's comments (`src/types/rounds.ts:4-15`) suggest ACTIVE whenever a round
  is active. The code checks NO_ROUNDS first (`src/hooks/useERCRoundsData.ts:126`), and the model follows
  the code. `RoundsStateByPrecedence` is the alternative order ACTIVE > SOON > PAST > NO_ROUNDS > UNKNOWN.
  `RoundsStateMatchesPrecedence` proves that the two orders agree whenever an empty round list comes with
  empty buckets. `NoRoundsOutranksStaleBuckets` shows where they differ.
- **Past-round order.** Past rounds are sorted with the same start-time sort as next rounds
  (`src/hooks/useERCRoundsData.ts:67-69`), even though a comment there says "newest to oldest".
- **The round-end time.** It is chosen with `sort()` and no comparator, so it is the end time whose
  decimal string is least. `SortFirstIsMinimum` proves that this is the numeric minimum when all end times
  are non-negative and have as many digits as each other. Unix timestamps do between 2001 and 2286.
  `SortFirstNotMinimum` shows that `[9, 10]` yields 10, and `SortFirstNegativeNotMinimum` that `[-5, -3]`
  yields -3.

## Model

| member | source | states |
|---|---|---|
| Numerals.HexDecode | src/utils/index.tsx:11 | a string decodes exactly when it is `0x`/`0X` followed by at least one hex digit, and the value fits in four bits per digit |
| Numerals.HexDigitsValue | src/utils/index.tsx:11 | the value of a hex digit string is below 16 to the power of its length |
| Numerals.LeadingZero | src/utils/index.tsx:11 | a leading zero digit leaves a hex digit string's value unchanged, so zero-padded `hex` strings decode to the same number |
| Numerals.ToHexString | src/utils/index.tsx:5 | the `hex` string a serialised BigNumber carries is a `0x` string with an even number of digits, at most one of them a padding zero |
| Numerals.ToHexStringExamples | src/utils/index.tsx:5 | 0 and 1 are written `0x00` and `0x01`, as ethers writes them |
| Numerals.HexRoundTrip | src/utils/index.tsx:11 | decoding the padded `0x` form of any natural number gives that number back |
| Numerals.SortFirst | src/hooks/useERCRoundsData.ts:147 | the element `sort()[0]` yields is one of the array's elements |
| Numerals.SortFirstIsLeast | src/hooks/useERCRoundsData.ts:147 | that element's decimal string is lexicographically at or below every element's string |
| Numerals.SortFirstIsMinimum | src/hooks/useERCRoundsData.ts:147 | for non-negative numbers with equal digit counts, that element is the numeric minimum |
| Numerals.SortFirstNotMinimum | src/hooks/useERCRoundsData.ts:147 | with unequal digit counts it need not be: `[9, 10]` yields 10 |
| Numerals.SortFirstNegativeNotMinimum | src/hooks/useERCRoundsData.ts:147 | nor with negative numbers: `[-5, -3]` yields -3, because `"-3"` sorts before `"-5"` |
| Numerals.DecimalDigitsMonotone | src/hooks/useERCRoundsData.ts:147 | for numbers with the same number of digits, a smaller number has a lexicographically smaller decimal string |
| Numerals.DecimalDigitsInjective | src/utils/index.tsx:9 | distinct natural numbers have distinct decimal strings, so index keys never collide |
| Json.Get | src/utils/index.tsx:10 | a property read finds a value exactly when some entry has the key, and the value found is stored under that key |
| Json.ObjectEntries | src/utils/index.tsx:9 | `Object.entries` throws exactly on `null`; a number or boolean gives no entries; a string gives one entry per character, keyed by its decimal index; an array gives its elements keyed by their decimal indices; an object gives its own entries |
| Json.ObjectEntriesIndexKeysDistinct | src/utils/index.tsx:9 | the index keys of a string's or an array's entries are pairwise distinct |
| BigNumberEntries.ConvertValue | src/utils/index.tsx:10-13 | a value not of the BigNumber shape (`type === 'BigNumber'` and a truthy `hex`) is returned unchanged; a BigNumber-shaped value decodes exactly when its `hex` is a `0x` string, to the number that string denotes, and otherwise throws |
| BigNumberEntries.ConvertBigNumberEntries | src/utils/index.tsx:7-15 | on success, one output entry per input entry, each with the same key at the same position and the converted value; it fails exactly when some entry fails, with the error of the first failing entry |
| BigNumberEntries.ConvertKeepsKeys | src/utils/index.tsx:8-15 | the output's key sequence equals the input's |
| BigNumberEntries.WireRoundTrip | src/utils/index.tsx:10-11 | the BigNumber wire form of any natural number, with its even-length padded `hex`, decodes to that number |
| BigNumberEntries.WireExample | src/utils/index.tsx:10-11 | `{"type": "BigNumber", "hex": "0x64"}` decodes to 100 |
| BigNumberEntries.HexMissingOrEmptyPassesThrough | src/utils/index.tsx:10-13 | a `type: 'BigNumber'` object whose `hex` is missing or empty is returned unchanged |
| BigNumberEntries.ConvertIsShallow | src/utils/index.tsx:9-14 | in any successful conversion, an entry whose value is not itself of the BigNumber shape keeps its key and that exact JSON value |
| BigNumberEntries.NestedBigNumberStaysEncoded | src/utils/index.tsx:9-14 | a BigNumber wire form at any position of an entry's object value (one without a `type` key) is still there, undecoded, in the output |
| Rounds.DecodeRound | src/hooks/useERCRoundsData.ts:84-86 | a `null` element makes the sync throw (`NullRound`), and only a `null` one does; any other element decodes exactly when its `Object.entries` convert, to those converted entries, and otherwise throws with the converter's error |
| Rounds.ScalarRoundIsEmpty | src/hooks/useERCRoundsData.ts:84-86 | a number or boolean element becomes a round with no fields |
| Rounds.StringRoundIsIndexed | src/hooks/useERCRoundsData.ts:84-86 | a string element becomes a round with one raw one-character string per character, keyed by its decimal index |
| Rounds.DecodeRounds | src/hooks/useERCRoundsData.ts:84-86 | the decoded list has the payload's length, element i is the conversion of payload element i, and decoding fails exactly when some element fails |
| Rounds.RoundsOfResponse | src/hooks/useERCRoundsData.ts:83-86 | a body with no `rounds` array throws; a body decodes exactly when it has a `rounds` array whose every element decodes, and then yields one round per element |
| Rounds.EmptyRoundsDecode | src/hooks/useERCRoundsData.ts:83-86 | an empty `rounds` array always decodes, to an empty round list |
| Rounds.RoundsStateOf | src/hooks/useERCRoundsData.ts:125-137 | NO_ROUNDS exactly when the list is empty and `lastUpdate > 0`; ACTIVE exactly when some round is active and NO_ROUNDS does not apply; SOON only with no active and some next round; PAST only with no active, no next and some past round; UNKNOWN only with all buckets empty |
| Rounds.RoundsStateMatchesPrecedence | src/hooks/useERCRoundsData.ts:125-137 | when an empty list has empty buckets, the rule equals the precedence ACTIVE > SOON > PAST > NO_ROUNDS > UNKNOWN |
| Rounds.NoRoundsOutranksStaleBuckets | src/hooks/useERCRoundsData.ts:126-127 | with an empty list and `lastUpdate > 0`, NO_ROUNDS results whatever the buckets hold |
| Rounds.EndTimes | src/hooks/useERCRoundsData.ts:144-146 | the end times exist exactly when every round's `startTime` and `duration` are BigNumbers, and element i is `startTime + duration` of round i |
| Rounds.EndTimeSortedFirst | src/hooks/useERCRoundsData.ts:144-147 | an end time is chosen exactly when there is an active round and every end time can be computed; it is the end time of one of the active rounds, and its decimal string sorts at or before every other end time's |
| Rounds.EndTimeSortedFirstIsSoonest | src/hooks/useERCRoundsData.ts:144-147 | with non-negative end times of equal digit count, the chosen end time is at or before every active round's end |
| Rounds.RoundEndDeadline | src/hooks/useERCRoundsData.ts:140-150 | no timer exactly when there is no active round; the effect throws exactly when some end time cannot be computed; otherwise the delay passed to `setTimeout` is `(end − now + 1) * 1000` ms, aiming one second after the chosen end time whatever `now` is |
| Rounds.RoundStartDeadline | src/hooks/useERCRoundsData.ts:157-164 | no timer exactly for no next rounds; the effect throws exactly when the first next round lacks a BigNumber `startTime`; otherwise the delay passed to `setTimeout` is `(start − now + 1) * 1000` ms, aiming one second after that start |
| Rounds.RoundStartDeadlineIsFuture | src/hooks/useERCRoundsData.ts:161-164 | a first next round that starts after `now` gives a delay of at least 2000 ms |
| Rounds.RoundsTracker.constructor | src/hooks/useERCRoundsData.ts:33-41 | a fresh tracker has empty rounds and buckets, state UNKNOWN, `firstFetch` false and `lastUpdate` 0 |
| Rounds.RoundsTracker.Sync | src/hooks/useERCRoundsData.ts:80-93 | with no endpoint or an empty one, nothing changes and no callback runs; a body that fails to decode changes nothing; otherwise `rounds` becomes the decoded list, `firstFetch` becomes true, and `onSyncData` receives the raw body exactly when it was supplied; the tracker's invariant is kept |
| Rounds.RoundsTracker.UpdateRoundCategories | src/hooks/useERCRoundsData.ts:46-75 | an empty list clears all three buckets; otherwise the buckets are the library's split, sorted by price, start time and start time; `rounds` and `lastUpdate` never change, which is also what the boundary timers at lines 148-150 and 162-164 rely on |
| Rounds.RoundsTracker.OnRoundsChange | src/hooks/useERCRoundsData.ts:116-122 | before the first sync nothing changes; afterwards the buckets are recomputed and `lastUpdate` is stamped |
| Rounds.RoundsTracker.UpdateRoundsState | src/hooks/useERCRoundsData.ts:125-137 | `roundsState` becomes the state the rule derives from the current fields; until the first sync it stays UNKNOWN |

## Left out

- HTTP fetching (`axios.get`, `src/hooks/useERCRoundsData.ts:82`): `Sync` receives the response body. Network errors are left out.
- React machinery: `useState`, `useCallback`, `useMemo`, dependency arrays, the order of re-renders and the returned object (`src/hooks/useERCRoundsData.ts:170-202`). Each effect is modelled as a separate method instead.
- Timer firing and cancellation: `setTimeout`, `setInterval`, `clearTimeout`, the 300 ms first sync and the `syncInterval` option (`src/hooks/useERCRoundsData.ts:96-113`). Only the computed delays are modelled.
- `setTimeout` clamps delays outside [0, 2^31−1] ms: a negative delay, or one above about 24.8 days, fires at once. The model states the delay passed to `setTimeout` (`src/hooks/useERCRoundsData.ts:150` and `:164`), not when the timer fires. From reading the code, and without any run: a round that ends or starts more than 24.8 days ahead makes its timer fire immediately and recompute the buckets, and likely again after every re-render that re-arms it.
- The race between a boundary timer and an in-flight sync. It depends on event-loop scheduling.
- The round library's `getRoundsByState`, `sortRoundsByPrice`, `sortRoundsByStartTime` and `nowTimestamp`. Their code is not part of this model. The first three are function values with no assumed properties. The clock is an argument: `getRoundsByState(rounds)` reads it itself (`src/hooks/useERCRoundsData.ts:54`), and the model passes it in explicitly.
- `BigNumber.from` also accepts decimal strings, numbers, negative `-0x` strings, byte arrays and other non-string forms, such as `{_hex}` objects or a nested `{type, hex}` object. The model treats all of these as values it throws on.
- `.toNumber()` throws above 2^53. The model uses unbounded integers instead.
- `.add()` also accepts as the duration any value `BigNumber.from` accepts (numbers, decimal strings, byte arrays, `{_hex}` objects and so on); the model computes an end time only from two BigNumbers.
- JSON numbers are integers in the model. Fractions, NaN and `-0` are floating-point matters.
- An object is its entries in `Object.entries` order. JavaScript's reordering of integer-like keys and duplicate keys are not modelled. With duplicate keys, `Get` reads the first.
- Strings are sequences of Unicode scalar values, not UTF-16 code units. The only strings the model compares are digit strings, possibly with a leading `-`, and for those the two orders coincide. `ObjectEntries` also splits a string by scalar value, while JavaScript splits it by UTF-16 code unit: `Object.entries("😀")` has two entries in JavaScript and one in the model.
- `src/hooks/useERC721RoundsData.ts` and `src/hooks/useERC1155RoundsData.ts` are not part of this model. Each only stores `data.totalSupply` and forwards the callback.
- Rounds.RoundsTracker.Sync: an exception after the request, such as a malformed body, is reported as a `Failed` outcome. The model does not capture that the exception propagates to the caller.
