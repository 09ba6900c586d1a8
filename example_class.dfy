/**
 * The `ExampleClass` counter object: one private `uint8_t` field that its
 * member functions update in place.
 *
 * The ghost field `calls` records the mutating calls made on the object so
 * far; `Valid()` ties the real field to the state machine of `CounterCalls`,
 * so every lemma proved there about `Run` holds of the object.
 */
module ExampleClassModel {
  import opened FixedWidth
  import opened CounterCalls

  class ExampleClass {
    /** The private counter; its type keeps it within 0..255. */
    var counter: Uint8
    /** The calls that changed or could change `counter`, oldest first. */
    ghost var calls: seq<Call>

    ghost predicate Valid()
      reads this
    {
      counter == Run(0, calls)
    }

    /** A new object starts with `counter` at its default member initialiser, 0. */
    constructor ()
      ensures Valid() && calls == []
      ensures counter == 0
    {
      counter := 0;
      calls := [];
    }

    /** `counter++`: one more, wrapping from 255 to 0. */
    method CounterAddOne()
      requires Valid()
      modifies this
      ensures Valid() && calls == old(calls) + [Call.CounterAddOne]
      ensures counter == Increment(old(counter))
    {
      counter := Increment(counter);
      calls := calls + [Call.CounterAddOne];
    }

    /** Returns the counter and changes nothing. */
    method GetCounter() returns (value: Uint8)
      ensures value == counter
    {
      value := counter;
    }

    /** Sets the counter back to 0 from any state. */
    method Reset()
      modifies this
      ensures Valid() && calls == old(calls) + [Call.Reset]
      ensures counter == 0
    {
      counter := 0;
      calls := calls + [Call.Reset];
    }

    /**
     * Writes the project name and version, each on its own line. Both come
     * from build-time configuration, so they are parameters here, and the text
     * written to standard output is returned. The object is left unchanged.
     */
    method PrintConfigured(projectName: string, projectVersion: string) returns (output: string)
      ensures output == projectName + "\n" + projectVersion + "\n"
      ensures unchanged(this)
    {
      output := projectName + "\n" + projectVersion + "\n";
    }
  }

  /**
   * The unit test's scenario: a fresh object, PrintConfigured, read 0,
   * CounterAddOne, read 1.
   */
  method TestScenario(projectName: string, projectVersion: string) returns (before: Uint8, after: Uint8)
    ensures before == 0
    ensures after == 1
  {
    var example := new ExampleClass();
    var _ := example.PrintConfigured(projectName, projectVersion);
    before := example.GetCounter();
    example.CounterAddOne();
    after := example.GetCounter();
  }

  /** A fresh object, `n` calls to `CounterAddOne`, then `GetCounter`: the read is `n` modulo 2^8. */
  method FreshIncrementsRead(n: nat) returns (value: Uint8)
    ensures value == n % Modulus
  {
    var example := new ExampleClass();
    var i := 0;
    while i < n
      invariant 0 <= i <= n
      invariant example.Valid() && example.calls == seq(i, _ => Call.CounterAddOne)
    {
      example.CounterAddOne();
      i := i + 1;
    }
    CountRepeated(n);
    CounterWithoutReset(example);
    value := example.GetCounter();
  }

  /** An object's counter follows the state machine: increments since the last reset, wrapped. */
  lemma CounterSinceLastReset(example: ExampleClass, pre: seq<Call>, post: seq<Call>)
    requires example.Valid()
    requires example.calls == pre + [Call.Reset] + post && Call.Reset !in post
    ensures example.counter == ToUint8(multiset(post)[Call.CounterAddOne])
  {
    SinceLastReset(0, pre, post);
  }

  /** An object that was never reset holds its number of increments, wrapped. */
  lemma CounterWithoutReset(example: ExampleClass)
    requires example.Valid()
    requires Call.Reset !in example.calls
    ensures example.counter == ToUint8(multiset(example.calls)[Call.CounterAddOne])
  {
    RunWithoutReset(0, example.calls);
  }
}
