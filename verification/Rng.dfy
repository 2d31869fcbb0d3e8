/** Seeded randomness with restorable state (src/testbed_kernel/rng.py). */
module Randomness {
  import opened KernelState

  function Index(r: Rng, stream: Label): nat {
    if stream in r.counters then r.counters[stream] else 0
  }

  function Advance(r: Rng, stream: Label): Rng {
    r.(counters := r.counters[stream := Index(r, stream) + 1])
  }

  class DeterministicRng {
    const draw: (int, Label, nat) -> real
    const seed: int
    var counters: map<Label, nat>
    var decisions: seq<(Label, real)>

    function Rng(): Rng
      reads this
    {
      KernelState.Rng.Rng(seed, counters)
    }

    /** `DeterministicRng(seed)`, and `restore(state)`: the counters come back, the decision list starts over. */
    constructor (draw: (int, Label, nat) -> real, state: Rng)
      ensures Rng() == state && this.draw == draw && decisions == []
    {
      this.draw, this.seed, this.counters, this.decisions := draw, state.seed, state.counters, [];
    }

    method Random(stream: Label) returns (value: real)
      modifies this
      ensures Rng() == Advance(old(Rng()), stream)
      ensures value == draw(seed, stream, Index(old(Rng()), stream))
      ensures decisions == old(decisions) + [(stream, value)]
    {
      var index := if stream in counters then counters[stream] else 0;
      counters := counters[stream := index + 1];
      value := draw(seed, stream, index);
      decisions := decisions + [(stream, value)];
    }
  }

  // ---- streams do not disturb each other ----

  function After(r: Rng, labels: seq<Label>): Rng {
    if |labels| == 0 then r else Advance(After(r, labels[..|labels| - 1]), labels[|labels| - 1])
  }

  function Uses(labels: seq<Label>, stream: Label): nat {
    if |labels| == 0 then 0
    else Uses(labels[..|labels| - 1], stream) + (if labels[|labels| - 1] == stream then 1 else 0)
  }

  /** After any interleaving of draws, the next value of a stream depends only on how often
      that stream was drawn from: new call sites under other labels cannot shift it. */
  lemma {:induction false} StreamsAreIndependent(r: Rng, labels: seq<Label>, stream: Label)
    ensures Index(After(r, labels), stream) == Index(r, stream) + Uses(labels, stream)
    ensures After(r, labels).seed == r.seed
  {
    if |labels| > 0 {
      StreamsAreIndependent(r, labels[..|labels| - 1], stream);
    }
  }
}
