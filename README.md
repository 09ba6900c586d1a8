# ExampleClass counter, modelled in Dafny

The CMake example project has one class with behaviour, `ExampleClass`. It has
a single private `uint8_t counter` that starts at 0. Its members are
`CounterAddOne` (`counter++`), `GetCounter` (returns the counter), `Reset`
(sets it to 0) and `PrintConfigured` (writes the project name and version,
leaving the counter alone).

The model has three modules:

- `FixedWidth` (`fixed_width.dfy`): the `uint8_t` value range. It also has the
  C++ conversion from `int` back to `uint8_t`, which reduces modulo 2^8, and
  the increment built on it. `counter++` at 255 therefore gives 0.
- `CounterCalls` (`counter_calls.dfy`): the object as a state machine over its
  public calls. `Run` gives the counter after a sequence of calls. The lemmas
  show that the counter is the number of `CounterAddOne` calls since the last
  `Reset`, modulo 256 (plus the start value if there was no `Reset`). They also
  show that the two observers change nothing, that a `Reset` forgets the
  history, and that resetting is idempotent.
- `ExampleClassModel` (`example_class.dfy`): the class itself. Its methods
  update the `counter` field in place. A ghost call history together with
  `Valid()` ties the field to `Run`. The unit test's scenario is replayed as a
  verified method.

The field is `uint8_t`, and C++ defines the conversion back from the
promoted `int` sum as reduction modulo 2^8, so the model wraps.

## Model

| member | source | states |
|---|---|---|
| `FixedWidth.ToUint8` | Code/CppCmakeExample/src/example_class.cpp:8 | the `uint8_t` produced by converting an `int` is congruent to it modulo 2^8, and values already in 0..255 are unchanged |
| `FixedWidth.ToUint8Unique` | Code/CppCmakeExample/src/example_class.cpp:8 | any value in 0..255 congruent to `x` modulo 2^8 is the conversion of `x`, so the conversion is the one C++ prescribes |
| `FixedWidth.Increment` | Code/CppCmakeExample/src/example_class.cpp:6-9 | `counter++` on a `uint8_t` adds exactly one below 255 and wraps 255 to 0 |
| `FixedWidth.IncrementToUint8` | Code/CppCmakeExample/src/example_class.cpp:8 | incrementing the converted value equals converting the value plus one, so repeated increments accumulate modulo 2^8 |
| `CounterCalls.Step` | Code/CppCmakeExample/src/example_class.cpp:6-25 | one call's effect: `CounterAddOne` adds one below 255 and wraps 255 to 0; `Reset` gives 0 from any state; `GetCounter` and `PrintConfigured` leave the counter as it was |
| `CounterCalls.RunAppend` | Code/CppCmakeExample/src/example_class.hpp:6-14 | running one sequence of calls then another is the same as running the second from the state the first leaves |
| `CounterCalls.RunWithoutReset` | Code/CppCmakeExample/src/example_class.cpp:6-19 | with no `Reset`, the counter is the start value plus the number of `CounterAddOne` calls, modulo 256 |
| `CounterCalls.ObserversChangeNothing` | Code/CppCmakeExample/src/example_class.cpp:11-25 | any sequence of `GetCounter` and `PrintConfigured` calls leaves the counter unchanged; only `CounterAddOne` and `Reset` change it |
| `CounterCalls.ResetForgetsHistory` | Code/CppCmakeExample/src/example_class.cpp:16-19 | after a `Reset`, whatever came before, the counter evolves exactly as on a fresh object |
| `CounterCalls.SinceLastReset` | Code/CppCmakeExample/src/example_class.cpp:6-19 | after the last `Reset`, the counter is the number of later `CounterAddOne` calls modulo 256, whatever the earlier history and start value |
| `CounterCalls.ResetIdempotent` | Code/CppCmakeExample/src/example_class.cpp:16-19 | calling `Reset` twice in a row is the same as calling it once, in any context |
| `CounterCalls.FreshIncrements` | Code/CppCmakeExample/src/example_class.cpp:6-14 | from a fresh object, `n` calls to `CounterAddOne` followed by `GetCounter` read `n mod 256`, for every `n` |
| `CounterCalls.ObserversAnywhere` | Code/CppCmakeExample/src/example_class.cpp:11-25 | `GetCounter` and `PrintConfigured` calls inserted anywhere in a sequence of calls leave the final counter as it was without them |
| `ExampleClassModel.ExampleClass.constructor` | Code/CppCmakeExample/src/example_class.hpp:8 | a new object has `counter == 0` and an empty call history |
| `ExampleClassModel.ExampleClass.CounterAddOne` | Code/CppCmakeExample/src/example_class.cpp:6-9 | the field becomes the wrapped increment of its old value, the object invariant is kept, and the call is recorded |
| `ExampleClassModel.ExampleClass.GetCounter` | Code/CppCmakeExample/src/example_class.cpp:11-14 | returns the current counter, a value in 0..255, and modifies nothing |
| `ExampleClassModel.ExampleClass.Reset` | Code/CppCmakeExample/src/example_class.cpp:16-19 | the field becomes 0 from any state (no precondition), the object invariant holds afterwards, and the call is recorded |
| `ExampleClassModel.ExampleClass.PrintConfigured` | Code/CppCmakeExample/src/example_class.cpp:21-25 | writes the name line then the version line, and leaves the object, its counter included, unchanged |
| `ExampleClassModel.TestScenario` | Code/CppCmakeExample/tests/test_example.cpp:16-22 | a fresh object reads 0 (after `PrintConfigured`), and reads 1 after one `CounterAddOne`, as the test requires |
| `ExampleClassModel.FreshIncrementsRead` | Code/CppCmakeExample/src/example_class.cpp:6-14 | on a fresh object, `n` calls to `CounterAddOne` followed by `GetCounter` return `n mod 256`, for every `n` |
| `ExampleClassModel.CounterSinceLastReset` | Code/CppCmakeExample/src/example_class.cpp:6-19 | a valid object that has been reset holds the number of increments since its last reset, modulo 256 |
| `ExampleClassModel.CounterWithoutReset` | Code/CppCmakeExample/src/example_class.cpp:6-14 | a valid object never reset holds its total number of increments, modulo 256 |

## Left out

- Standard output: `PrintConfigured` returns the text it would write instead of writing it.
- `config.hpp` is not part of this model. It is generated at build time and supplies `project_name` and `project_version`, so these two strings are parameters of `PrintConfigured`.
- `app/main.cpp` is not modelled: it only prints the two configuration strings and calls `PrintConfigured` once.
- The Catch2 harness is not modelled. Only its two `REQUIRE` checks are mirrored, by `TestScenario`.
- `ExampleClassModel.ExampleClass.calls`: the ghost history records only `CounterAddOne` and `Reset`. `ObserversAnywhere` shows that leaving out `GetCounter` and `PrintConfigured`, wherever they occur, does not change what `Run` gives.
- C++ access control (`private`) is not modelled: Dafny cannot stop code outside the class from assigning the field. What is guaranteed is that the constructor establishes `Valid()`, `CounterAddOne` keeps it, `Reset` establishes it from any state, `GetCounter` and `PrintConfigured` modify nothing, and the lemmas about an object assume `Valid()`.
