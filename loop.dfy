/** The control skeleton the generators share: start from a seed, run at most
    a given number of iterations, and in each one either stop (the network
    chose the end marker, index 0), append one word and carry on, or raise.

    A variant supplies its own `step` over its own loop state (the token or
    vector fed next, the hidden state, the random sources). `Run` is the
    reference meaning of a loop: the words it appends and why it halted.
    `Accumulate` is the loop as the source writes it, growing a string. */
module Loop {
  import opened Common

  /** What one iteration does. Every case carries the state the next
      iteration (or the caller) sees. */
  datatype Step<S> = Stop(next: S) | Emit(word: string, next: S) | Raise(error: Error, next: S)

  /** Why a loop that did not raise ended: the end marker, or the cap on
      iterations. */
  datatype Halt = Marker | Length

  datatype Outcome<S> = Done(words: seq<string>, halt: Halt, last: S) | Failed(error: Error, last: S)

  /** The words a loop with `fuel` iterations left appends, the end marker
      never among them. */
  function Run<S>(step: S -> Step<S>, s: S, fuel: nat): (o: Outcome<S>)
    ensures o.Done? ==> |o.words| <= fuel
    ensures o.Done? ==> (o.halt == Length <==> |o.words| == fuel)
    decreases fuel
  {
    if fuel == 0 then Done([], Length, s)
    else
      match step(s)
      case Stop(s') => Done([], Marker, s')
      case Raise(e, s') => Failed(e, s')
      case Emit(w, s') =>
        match Run(step, s', fuel - 1)
        case Done(ws, h, l) => Done([w] + ws, h, l)
        case Failed(e, l) => Failed(e, l)
  }

  /** The loop as the source writes it: `output` grows by `sep + word` per
      iteration; the end marker breaks out; an exception discards it. */
  function Accumulate<S>(step: S -> Step<S>, sep: string, s: S, fuel: nat, output: string): (r: (Result<string>, S))
    ensures r.0.Ok? ==> output <= r.0.value
    decreases fuel
  {
    if fuel == 0 then (Ok(output), s)
    else
      match step(s)
      case Stop(s') => (Ok(output), s')
      case Raise(e, s') => (Err(e), s')
      case Emit(w, s') =>
        var r' := Accumulate(step, sep, s', fuel - 1, output + sep + w);
        assert r'.0.Ok? ==> output <= output + sep + w <= r'.0.value;
        r'
  }

  /** What a loop that started from `seed` returns, given its outcome. */
  function Render<S>(seed: string, sep: string, o: Outcome<S>): Result<string> {
    match o
    case Done(ws, _, _) => Ok(seed + Joined(sep, ws))
    case Failed(e, _) => Err(e)
  }

  /** The source's string-building loop returns the seed followed by the
      outcome's words, each preceded by `sep`, and ends in the same state. */
  lemma {:induction false} AccumulateRun<S>(step: S -> Step<S>, sep: string, s: S, fuel: nat, output: string)
    ensures Accumulate(step, sep, s, fuel, output) == (Render(output, sep, Run(step, s, fuel)), Run(step, s, fuel).last)
    decreases fuel
  {
    if fuel > 0 && step(s).Emit? {
      var w, s' := step(s).word, step(s).next;
      AccumulateRun(step, sep, s', fuel - 1, output + sep + w);
      match Run(step, s', fuel - 1)
      case Done(ws, _, _) =>
        assert Joined(sep, [w] + ws) == sep + w + Joined(sep, ws) by {
          assert ([w] + ws)[1..] == ws;
        }
        assert output + sep + w + Joined(sep, ws) == output + Joined(sep, [w] + ws);
      case Failed(_, _) =>
    } else {
      assert output + Joined(sep, []) == output;
    }
  }

  /** When the network chooses the end marker at iteration j + 1 (after j
      words), any loop allowed more than j iterations returns exactly those
      j words, without the marker. */
  lemma {:induction false} StopAfter<S>(step: S -> Step<S>, s: S, j: nat, fuel: nat, ws: seq<string>, l: S)
    requires Run(step, s, j) == Done(ws, Length, l)
    requires step(l).Stop?
    requires j < fuel
    ensures Run(step, s, fuel) == Done(ws, Marker, step(l).next)
    decreases j
  {
    if j > 0 {
      match step(s)
      case Emit(w, s') =>
        StopAfter(step, s', j - 1, fuel - 1, ws[1..], l);
        assert ws == [w] + ws[1..];
    }
  }

  /** A step that always emits (never stops and never raises) makes the
      loop append exactly `fuel` words. */
  lemma {:induction false} NeverStops<S>(step: S -> Step<S>, s: S, fuel: nat)
    requires forall t :: step(t).Emit?
    ensures Run(step, s, fuel).Done?
    ensures |Run(step, s, fuel).words| == fuel && Run(step, s, fuel).halt == Length
    decreases fuel
  {
    if fuel > 0 {
      NeverStops(step, step(s).next, fuel - 1);
    }
  }

  /** A loop without a stop check appends exactly `fuel` words whenever it
      does not raise. */
  lemma {:induction false} NoMarker<S>(step: S -> Step<S>, s: S, fuel: nat)
    requires forall t :: !step(t).Stop?
    ensures Run(step, s, fuel).Done? ==> |Run(step, s, fuel).words| == fuel
    decreases fuel
  {
    if fuel > 0 && step(s).Emit? {
      NoMarker(step, step(s).next, fuel - 1);
    }
  }

  /** Every word a loop appends is one that some single iteration can emit. */
  lemma {:induction false} WordsFrom<S>(step: S -> Step<S>, s: S, fuel: nat, words: set<string>)
    requires forall t :: step(t).Emit? ==> step(t).word in words
    ensures Run(step, s, fuel).Done? ==> forall w <- Run(step, s, fuel).words :: w in words
    decreases fuel
  {
    if fuel > 0 && step(s).Emit? {
      WordsFrom(step, step(s).next, fuel - 1, words);
    }
  }
}
