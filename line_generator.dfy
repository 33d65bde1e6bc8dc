/** `LineGenerator` (generate/base_generator.py, lines 13-46): greedy
    generation over a vocabulary of strings. The network's forward pass
    followed by `topk(1)` is one oracle, `rnn`, from the token fed in and the
    hidden state to the chosen index and the next hidden state; encoding a
    token as an input tensor is folded into it. */
module LineGen {
  import opened Common
  import Loop

  /** What the loop carries from one iteration to the next. */
  datatype State<H> = State(token: string, hidden: H)

  /** One iteration of `sample`: index 0 ends the line; any other index is
      looked up in `idx2word` (KeyError when absent), appended, and fed back. */
  function Step<H>(rnn: (string, H) -> (int, H), idx2word: map<int, string>, s: State<H>): (r: Loop.Step<State<H>>)
    ensures r.Stop? <==> rnn(s.token, s.hidden).0 == 0
    ensures r.Emit? ==> r.word in (idx2word - {0}).Values && r.next.token == r.word
    ensures r.Raise? ==> r.error == KeyError && rnn(s.token, s.hidden).0 !in idx2word
    ensures r.next.hidden == rnn(s.token, s.hidden).1
    ensures var topi := rnn(s.token, s.hidden).0;
      && (r.Emit? <==> topi != 0 && topi in idx2word)
      && (r.Emit? ==> r.word == idx2word[topi])
      && (r.Raise? <==> topi != 0 && topi !in idx2word)
  {
    var (topi, h) := rnn(s.token, s.hidden);
    if topi == 0 then Loop.Stop(State(s.token, h))
    else if topi !in idx2word then Loop.Raise(KeyError, State(s.token, h))
    else
      assert topi in idx2word - {0};
      Loop.Emit(idx2word[topi], State(idx2word[topi], h))
  }

  class LineGenerator<H> {
    const rnn: (string, H) -> (int, H)
    const initHidden: H
    const idx2word: map<int, string>
    const maxLength: int

    constructor(rnn: (string, H) -> (int, H), initHidden: H, idx2word: map<int, string>, maxLength: int := 20)
      ensures this.rnn == rnn && this.initHidden == initHidden
      ensures this.idx2word == idx2word && this.maxLength == maxLength
    {
      this.rnn := rnn;
      this.initHidden := initHidden;
      this.idx2word := idx2word;
      this.maxLength := maxLength;
    }

    function Next(): State<H> -> Loop.Step<State<H>> {
      s => Step(rnn, idx2word, s)
    }

    /** What `sample(startLetter)` returns. */
    function Output(startLetter: string): Result<string> {
      Loop.Accumulate(Next(), "", State(startLetter, initHidden), RangeLen(maxLength), startLetter).0
    }

    /** The line starts with the letter; then come at most `maxLength` words
        of the vocabulary, never the end marker's, appended with no
        separator. */
    lemma OutputWords(startLetter: string)
      ensures var o := Loop.Run(Next(), State(startLetter, initHidden), RangeLen(maxLength));
        && Output(startLetter) == Loop.Render(startLetter, "", o)
        && (o.Done? ==> |o.words| <= RangeLen(maxLength))
        && (o.Done? ==> forall w <- o.words :: w in (idx2word - {0}).Values)
    {
      var s0 := State(startLetter, initHidden);
      Loop.AccumulateRun(Next(), "", s0, RangeLen(maxLength), startLetter);
      Loop.WordsFrom(Next(), s0, RangeLen(maxLength), (idx2word - {0}).Values);
    }

    /** A network that never chooses index 0 and only chooses indices of the
        vocabulary yields a line of exactly `maxLength` words after the
        letter. */
    lemma FullLength(startLetter: string)
      requires forall t, h :: rnn(t, h).0 != 0 && rnn(t, h).0 in idx2word
      ensures var o := Loop.Run(Next(), State(startLetter, initHidden), RangeLen(maxLength));
        && o.Done? && |o.words| == RangeLen(maxLength)
        && Output(startLetter) == Ok(startLetter + Joined("", o.words))
    {
      var s0 := State(startLetter, initHidden);
      forall t: State<H> ensures Next()(t).Emit? {
        var (topi, h) := rnn(t.token, t.hidden);
      }
      Loop.NeverStops(Next(), s0, RangeLen(maxLength));
      Loop.AccumulateRun(Next(), "", s0, RangeLen(maxLength), startLetter);
    }

    method Sample(startLetter: string := "A") returns (r: Result<string>)
      ensures r == Output(startLetter)
      ensures r.Ok? ==> startLetter <= r.value
      ensures maxLength > 0 && rnn(startLetter, initHidden).0 == 0 ==> r == Ok(startLetter)
    {
      var input := startLetter;
      var hidden := initHidden;
      var outputName := startLetter;
      var n := RangeLen(maxLength);
      for i := 0 to n
        invariant Loop.Accumulate(Next(), "", State(input, hidden), n - i, outputName)
               == Loop.Accumulate(Next(), "", State(startLetter, initHidden), n, startLetter)
      {
        var (topi, h) := rnn(input, hidden);
        hidden := h;
        if topi == 0 {
          break;
        }
        if topi !in idx2word {
          return Err(KeyError);
        }
        var letter := idx2word[topi];
        assert outputName + "" + letter == outputName + letter;
        outputName := outputName + letter;
        input := letter;
      }
      r := Ok(outputName);
    }

    /** `sample` as a call of the batch loop (no state to thread). */
    function Each(): (string, ()) -> (Result<string>, ()) {
      (letter, u) => (Output(letter), u)
    }

    /** `samples(startLetters)`: one line per letter, in order; the first
        failing letter's exception propagates. */
    method Samples(startLetters: seq<string> := ["A", "B", "C"]) returns (r: Result<seq<string>>)
      ensures r == Collect(Each(), startLetters, ()).0
      ensures r.Ok? ==> |r.value| == |startLetters| &&
                        forall i :: 0 <= i < |startLetters| ==> Output(startLetters[i]) == Ok(r.value[i])
      ensures r.Err? ==> exists i :: 0 <= i < |startLetters| && Output(startLetters[i]) == Err(r.error)
    {
      var results: seq<string> := [];
      CollectStart(Each(), startLetters, ());
      for i := 0 to |startLetters|
        invariant Collect(Each(), startLetters, ()) == Prefixed(results, Collect(Each(), startLetters[i..], ()))
      {
        var line := Sample(startLetters[i]);
        if line.Err? {
          CollectRaise(Each(), startLetters, (), results, i, ());
          return Err(line.error);
        }
        CollectNext(Each(), startLetters, (), results, i, ());
        results := results + [line.value];
      }
      CollectEnd(Each(), startLetters, (), results, ());
      r := Ok(results);
      CollectEntries(Each(), startLetters, ());
    }
  }
}
