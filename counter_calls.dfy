/**
 * The counter object as a state machine over its public calls.
 *
 * The state is the private `uint8_t counter`; the public members are the only
 * transitions. `Run` gives the counter after a sequence of calls, and the
 * lemmas below characterise it without mentioning the individual steps: the
 * counter holds the number of `CounterAddOne` calls since the last `Reset`
 * (or since the start, added to the start value), reduced modulo 2^8.
 */
module CounterCalls {
  import opened FixedWidth

  /** The public members of the counter class. */
  datatype Call = CounterAddOne | GetCounter | Reset | PrintConfigured

  /** Effect of one call on the counter. */
  function Step(counter: Uint8, call: Call): (r: Uint8)
    ensures call == Reset ==> r == 0
    ensures call == CounterAddOne && counter < MaxUint8 ==> r == counter + 1
    ensures call == CounterAddOne && counter == MaxUint8 ==> r == 0
    ensures call in {GetCounter, PrintConfigured} ==> r == counter
  {
    match call
    case CounterAddOne => Increment(counter)
    case Reset => 0
    case GetCounter => counter
    case PrintConfigured => counter
  }

  /** The counter after `calls`, made in order, starting from `start`. */
  function Run(start: Uint8, calls: seq<Call>): Uint8
    decreases |calls|
  {
    if calls == [] then start
    else Step(Run(start, calls[..|calls| - 1]), calls[|calls| - 1])
  }

  /** Running `pre` then `post` is running `post` from where `pre` left off. */
  lemma {:induction false} RunAppend(start: Uint8, pre: seq<Call>, post: seq<Call>)
    ensures Run(start, pre + post) == Run(Run(start, pre), post)
    decreases |post|
  {
    if post == [] {
      assert pre + post == pre;
    } else {
      var n := |post| - 1;
      assert (pre + post)[..|pre + post| - 1] == pre + post[..n];
      RunAppend(start, pre, post[..n]);
    }
  }

  /** Without a `Reset`, the counter is the start value plus the number of increments, wrapped. */
  lemma {:induction false} RunWithoutReset(start: Uint8, calls: seq<Call>)
    requires Reset !in calls
    ensures Run(start, calls) == ToUint8(start + multiset(calls)[CounterAddOne])
    decreases |calls|
  {
    if calls == [] {
    } else {
      var n := |calls| - 1;
      var init, last := calls[..n], calls[n];
      assert calls == init + [last];
      assert multiset(calls) == multiset(init) + multiset{last};
      assert Reset !in init by {
        forall i | 0 <= i < |init| ensures init[i] != Reset {
          assert init[i] == calls[i];
        }
      }
      RunWithoutReset(start, init);
      if last == CounterAddOne {
        IncrementToUint8(start + multiset(init)[CounterAddOne]);
      }
    }
  }

  /** Only `CounterAddOne` and `Reset` change the counter: the observers leave it as it was. */
  lemma {:induction false} ObserversChangeNothing(start: Uint8, calls: seq<Call>)
    requires forall i :: 0 <= i < |calls| ==> calls[i] in {GetCounter, PrintConfigured}
    ensures Run(start, calls) == start
    decreases |calls|
  {
    if calls != [] {
      ObserversChangeNothing(start, calls[..|calls| - 1]);
    }
  }

  /** Observer calls inserted anywhere in a sequence of calls do not change where it ends. */
  lemma ObserversAnywhere(start: Uint8, pre: seq<Call>, obs: seq<Call>, post: seq<Call>)
    requires forall i :: 0 <= i < |obs| ==> obs[i] in {GetCounter, PrintConfigured}
    ensures Run(start, pre + obs + post) == Run(start, pre + post)
  {
    RunAppend(start, pre + obs, post);
    RunAppend(start, pre, obs);
    ObserversChangeNothing(Run(start, pre), obs);
    RunAppend(start, pre, post);
  }

  /** After a `Reset`, the earlier history no longer matters: it is as if the object were fresh. */
  lemma ResetForgetsHistory(start: Uint8, pre: seq<Call>, post: seq<Call>)
    ensures Run(start, pre + [Reset] + post) == Run(0, post)
  {
    RunAppend(start, pre + [Reset], post);
    assert (pre + [Reset])[..|pre + [Reset]| - 1] == pre;
  }

  /** After the last `Reset`, the counter is the number of later increments, wrapped. */
  lemma SinceLastReset(start: Uint8, pre: seq<Call>, post: seq<Call>)
    requires Reset !in post
    ensures Run(start, pre + [Reset] + post) == ToUint8(multiset(post)[CounterAddOne])
  {
    ResetForgetsHistory(start, pre, post);
    RunWithoutReset(0, post);
  }

  /** Resetting twice is the same as resetting once, whatever comes before or after. */
  lemma ResetIdempotent(start: Uint8, pre: seq<Call>, post: seq<Call>)
    ensures Run(start, pre + [Reset, Reset] + post) == Run(start, pre + [Reset] + post)
  {
    assert pre + [Reset, Reset] + post == (pre + [Reset]) + [Reset] + post;
    ResetForgetsHistory(start, pre + [Reset], post);
    ResetForgetsHistory(start, pre, post);
  }

  /** `n` increments on a fresh object followed by `GetCounter` read `n` modulo 2^8. */
  lemma FreshIncrements(n: nat)
    ensures Run(0, seq(n, _ => CounterAddOne) + [GetCounter]) == n % Modulus
  {
    var calls := seq(n, _ => CounterAddOne) + [GetCounter];
    CountRepeated(n);
    assert multiset(calls) == multiset(seq(n, _ => CounterAddOne)) + multiset{GetCounter};
    assert Reset !in calls;
    RunWithoutReset(0, calls);
  }

  /** `n` copies of `CounterAddOne` hold `n` of them. */
  lemma {:induction false} CountRepeated(n: nat)
    ensures multiset(seq(n, _ => CounterAddOne))[CounterAddOne] == n
  {
    if n > 0 {
      assert seq(n, _ => CounterAddOne) == seq(n - 1, _ => CounterAddOne) + [CounterAddOne];
      CountRepeated(n - 1);
    }
  }
}
