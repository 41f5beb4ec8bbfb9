# UniqueChoices: a verified model of the answer-choice collector

The multiple-choice "change of base" question generator collects answer
choices in a `UniqueChoices` object (paq-utils/index.js). It is a list of
choice strings with a fixed capacity. It keeps the strings in insertion order
and refuses duplicates. A `Set` next to the list answers membership tests.

This project models that collector in Dafny:

- `wrappers.dfy` (module `Wrappers`) holds `Option`, which models an argument
  that may be missing or of the wrong kind, and `Outcome`, which models a
  call that either returns or throws.
- `choice_spec.dfy` (module `ChoiceSpec`) is the pure specification. `AddStep`
  is the effect of one `add` on the accepted sequence. `AddAllSpec` is the
  effect of `addAll`. The lemmas relate them to two independent readings: `add`
  applied to every element with no early exit (`AddEach`), and "the
  not-yet-present elements in first-occurrence order, cut off at the remaining
  room" (`Unseen`, `Take`, `Room`).
- `unique_choices.dfy` (module `PaqUtils`) is the class `UniqueChoices`. Its
  fields `limit`, `choices` and `seen` stand for `_limit`, `_choices` and
  `_uniqueChoices`. `Add` and `AddAll` update them in place. `Valid()` is the
  invariant they keep: `seen` is exactly the set of elements of `choices`,
  `choices` has no duplicates, and its length is at most `max(limit, 0)`.
  `AddAll` is the source's `for` loop, proved against `AddAllSpec`.

The constructor's argument is an `Option<int>`. `None` stands for any value
that is not an integer, and the constructor then uses the default capacity 4.
The argument of `addAll` is a `ChoicesArg`: either `Array(items)` or
`NotArray`. On `NotArray`, `AddAll` returns `Fail` carrying the message the
source throws, and it changes nothing.

One might expect a positive capacity that the length never exceeds. The code
accepts any integer (`Number.isInteger` admits 0 and negatives), so with a
non-positive limit the collector is full from the start, and the model bounds
the length by `max(limit, 0)`.

## Model

| member | source | states |
|---|---|---|
| `PaqUtils.UniqueChoices.constructor` | paq-utils/index.js:1-5 | the limit is the supplied integer, or 4 when none is given; the collector starts with no choices and an empty seen-set, and is valid |
| `PaqUtils.UniqueChoices.Full` | paq-utils/index.js:28-30 | true exactly when the number of stored choices is at least the limit |
| `PaqUtils.UniqueChoices.GetChoices` | paq-utils/index.js:24-26 | returns the stored sequence, which is duplicate-free, within capacity, has exactly the values of the seen-set and is as long as the seen-set is large |
| `PaqUtils.UniqueChoices.Add` | paq-utils/index.js:7-15 | returns true iff the collector was not full and the choice was not yet seen; on true the choice is appended to the sequence and inserted in the seen-set (length grows by one), on false nothing changes; the invariant is kept and the limit is unchanged |
| `PaqUtils.UniqueChoices.AddAll` | paq-utils/index.js:17-22 | a non-array argument fails with the source's message and changes nothing; an array gives the result of adding each element in order until full, that is the old sequence followed by the not-yet-present input values in first-occurrence order, truncated to the remaining room; the invariant is kept |
| `ChoiceSpec.AddStep` | paq-utils/index.js:7-15 | one `add`: the old sequence is a prefix of the new one, which is at most one longer; only the added value can be new; a non-full collector holds the value afterwards; a full one or a duplicate leaves it unchanged; well-formedness (no duplicates, length within capacity) is preserved |
| `ChoiceSpec.AddAllSpec` | paq-utils/index.js:17-22 | `addAll` on an array: the old sequence is a prefix of the result; no value outside the old sequence and the input appears; well-formedness is preserved; if the result is not full, every input value is in it |
| `ChoiceSpec.AddEachWhenFull` | paq-utils/index.js:8-9 | once full, adding any further elements changes nothing |
| `ChoiceSpec.AddAllIsAddEach` | paq-utils/index.js:20-21 | the loop's early exit on `full()` is unobservable: the result equals `add` applied to every input element in order |
| `ChoiceSpec.AddAllAppendsUnseen` | paq-utils/index.js:17-22 | the result of `addAll` is the old sequence followed by the input values not already present, each once, in first-occurrence order, cut off at the remaining room |
| `ChoiceSpec.AddAllLength` | paq-utils/index.js:20-21 | after `addAll` the length is the old length plus the smaller of the remaining room and the number of new distinct values |
| `ChoiceSpec.DistinctCount` | paq-utils/index.js:12-13 | a duplicate-free sequence has as many distinct values as elements, so the seen-set's size equals the number of choices |
| `PaqUtils.CapacityThreeScenario` | paq-utils/index.js:1-30 | a capacity-3 collector given "a", "a", "b", "c", "d" by `add` accepts exactly "a", "b", "c" (the second "a" as a duplicate, "d" because it is full), is then full, and refuses a non-array `addAll` without change |
| `PaqUtils.CapacityThreeAddAllScenario` | paq-utils/index.js:17-22 | the same five choices given at once to `addAll` on a fresh capacity-3 collector leave exactly "a", "b", "c" |

## Left out

- The question generator, which builds distractors and assembles the question, is outside paq-utils and is not modelled.
- Randomness, radix formatting and parsing (`toString(radix)`, `parseInt`), and the external conversion and phrasing providers belong to that generator and are left out with it.
- `PaqUtils.UniqueChoices.GetChoices`: returns the sequence as a value. In the source it returns the live array by reference, so a caller can alias and mutate the collector's list. Aliasing is not modelled.
- `PaqUtils.UniqueChoices.AddAll`: the thrown string becomes a `Fail` result. The unwinding of the exception through callers is not modelled.
- Choices are strings only. JavaScript values of other types and the `Set`'s SameValueZero equality on them (for example `NaN` or objects) are not modelled.
- `PaqUtils.UniqueChoices.constructor`: `Number.isInteger` on arbitrary JavaScript values is reduced to an `Option<int>`. Floating-point limits such as `2.5`, strings, `undefined` and `NaN` are all `None`.
