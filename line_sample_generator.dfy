/** `LineSampleGenerator` (generate/base_generator.py, lines 48-84): top-k
    random generation over a vocabulary of keys such as (word, tag) pairs.
    The network's forward pass followed by `topk(10)` is one oracle, `rnn`,
    from the token fed in and the hidden state to the ranked candidate
    indices and the next hidden state. Python's `random` and numpy's
    `np.random` are two random sources passed in and returned. */
module LineSampleGen {
  import opened Common
  import Loop
  import Seeds

  /** A vocabulary key, of which Python only ever reads element [0] and that
      element's first character: a (word, tag) tuple, or a string seen as the
      sequence of its one-character strings. */
  type Entry = seq<string>

  /** What is fed to the network: the start letter first, vocabulary keys
      afterwards. */
  datatype Token = Letter(letter: string) | Key(key: Entry)

  /** `key[0][0]`: raises IndexError on an empty key or an empty first
      element. */
  function First(key: Entry): (r: Result<string>)
    ensures r.Ok? <==> |key| > 0 && |key[0]| > 0
    ensures r.Ok? ==> r.value == key[0][..1]
    ensures r.Err? ==> r.error == IndexError
  {
    if |key| == 0 || |key[0]| == 0 then Err(IndexError) else Ok([key[0][0]])
  }

  /** `tt[1].numpy()[0][np.random.randint(len(tt[0][0]))]`: a candidate at a
      random position of the ranked list; an empty list raises ValueError. */
  function TopKPick(candidates: seq<int>, np: Rng): (r: Result<(int, Rng)>)
    ensures r.Ok? <==> |candidates| > 0
    ensures r.Ok? ==> r.value.0 in candidates && r.value.1 == np.Next()
    ensures r.Err? ==> r.error == ValueError
  {
    match RandInt(np, |candidates|)
    case Err(e) => Err(e)
    case Ok((k, np')) => Ok((candidates[k], np'))
  }

  /** What the loop carries from one iteration to the next. */
  datatype State<H> = State(token: Token, hidden: H, np: Rng)

  /** One iteration of `sample`: index 0 ends the line; any other index is
      looked up (KeyError when absent), its key's first element is appended
      after a space (IndexError on an empty key), and the key is fed back. */
  function Step<H>(rnn: (Token, H) -> (seq<int>, H), idx2word: map<int, Entry>, s: State<H>): (r: Loop.Step<State<H>>)
    ensures r.Emit? ==> exists i :: i in rnn(s.token, s.hidden).0 && i != 0 && i in idx2word && |idx2word[i]| > 0 &&
                                    r.word == idx2word[i][0] && r.next.token == Key(idx2word[i])
    ensures r.Stop? ==> 0 in rnn(s.token, s.hidden).0
    ensures r.next.hidden == rnn(s.token, s.hidden).1
    ensures var p := TopKPick(rnn(s.token, s.hidden).0, s.np);
      && (r.Stop? <==> p.Ok? && p.value.0 == 0)
      && (r.Emit? ==> p.Ok? && p.value.0 in idx2word && |idx2word[p.value.0]| > 0 &&
                      r.word == idx2word[p.value.0][0] && r.next.token == Key(idx2word[p.value.0]) &&
                      r.next.np == s.np.Next())
      && (r.Raise? <==> p.Err? || (p.value.0 != 0 && (p.value.0 !in idx2word || |idx2word[p.value.0]| == 0)))
      && (r.Raise? && p.Ok? ==> r.error == (if p.value.0 !in idx2word then KeyError else IndexError))
      && (p.Err? ==> r == Loop.Raise(ValueError, State(s.token, rnn(s.token, s.hidden).1, s.np)))
  {
    var (candidates, h) := rnn(s.token, s.hidden);
    match TopKPick(candidates, s.np)
    case Err(e) => Loop.Raise(e, State(s.token, h, s.np))
    case Ok((topi, np)) =>
      if topi == 0 then Loop.Stop(State(s.token, h, np))
      else if topi !in idx2word then Loop.Raise(KeyError, State(s.token, h, np))
      else if |idx2word[topi]| == 0 then Loop.Raise(IndexError, State(s.token, h, np))
      else Loop.Emit(idx2word[topi][0], State(Key(idx2word[topi]), h, np))
  }

  /** The words a line can gain: the first element of every non-empty key
      at a non-zero index. */
  function Words(idx2word: map<int, Entry>): (ws: set<string>)
    ensures forall i :: i in idx2word && i != 0 && |idx2word[i]| > 0 ==> idx2word[i][0] in ws
  {
    set i | i in idx2word && i != 0 && |idx2word[i]| > 0 :: idx2word[i][0]
  }

  /** A line, and the two random sources after it. */
  datatype Sampled = Sampled(line: Result<string>, random: Rng, np: Rng)

  class LineSampleGenerator<H> {
    const rnn: (Token, H) -> (seq<int>, H)
    const initHidden: H
    /** `word2idx.keys()`, in dictionary order. */
    const keys: seq<Entry>
    const idx2word: map<int, Entry>
    const maxLength: int

    constructor(rnn: (Token, H) -> (seq<int>, H), initHidden: H, keys: seq<Entry>, idx2word: map<int, Entry>,
                maxLength: int := 20)
      ensures this.rnn == rnn && this.initHidden == initHidden
      ensures this.keys == keys && this.idx2word == idx2word && this.maxLength == maxLength
    {
      this.rnn := rnn;
      this.initHidden := initHidden;
      this.keys := keys;
      this.idx2word := idx2word;
      this.maxLength := maxLength;
    }

    function Next(): State<H> -> Loop.Step<State<H>> {
      s => Step(rnn, idx2word, s)
    }

    /** What `sample(startLetter)` returns, with the random sources after it:
        the seed is drawn first, the line starts with its first element, and
        the network is first fed the letter itself. */
    function Output(startLetter: string, random: Rng, np: Rng): Sampled {
      match Seeds.PickSeed(keys, First, startLetter, random)
      case Err(e) => Sampled(Err(e), random, np)
      case Ok((startWord, random')) =>
        var (line, last) :=
          Loop.Accumulate(Next(), " ", State(Letter(startLetter), initHidden, np), RangeLen(maxLength), startWord[0]);
        Sampled(line, random', last.np)
    }

    /** A line is the first element of a key starting with the letter,
        followed by at most `maxLength` words, each preceded by a space and
        each the first element of a vocabulary key at a non-zero index. No
        key starts with the letter: IndexError. */
    lemma OutputShape(startLetter: string, random: Rng, np: Rng)
      ensures Output(startLetter, random, np).line.Ok? ==>
        exists seed, o ::
          && seed in keys && First(seed) == Ok(startLetter)
          && o == Loop.Run(Next(), State(Letter(startLetter), initHidden, np), RangeLen(maxLength))
          && o.Done? && |o.words| <= RangeLen(maxLength)
          && (forall w <- o.words :: w in Words(idx2word))
          && Output(startLetter, random, np).line.value == seed[0] + Joined(" ", o.words)
      ensures (forall k <- keys :: First(k).Ok? && First(k) != Ok(startLetter)) ==>
        Output(startLetter, random, np).line == Err(IndexError)
    {
      match Seeds.PickSeed(keys, First, startLetter, random)
      case Err(_) =>
      case Ok((seed, _)) =>
        var s0 := State(Letter(startLetter), initHidden, np);
        var n := RangeLen(maxLength);
        Loop.AccumulateRun(Next(), " ", s0, n, seed[0]);
        forall t | Next()(t).Emit? ensures Next()(t).word in Words(idx2word) {
          var i :| i in rnn(t.token, t.hidden).0 && i != 0 && i in idx2word && |idx2word[i]| > 0 &&
                   Next()(t).word == idx2word[i][0];
        }
        Loop.WordsFrom(Next(), s0, n, Words(idx2word));
    }

    method Sample(startLetter: string := "A", nameonly random: Rng, nameonly np: Rng) returns (r: Result<string>, random': Rng, np': Rng)
      ensures Sampled(r, random', np') == Output(startLetter, random, np)
      ensures r.Ok? ==> exists k <- keys :: First(k) == Ok(startLetter) && k[0] <= r.value
      ensures maxLength > 0 && TopKPick(rnn(Letter(startLetter), initHidden).0, np).Ok? &&
              TopKPick(rnn(Letter(startLetter), initHidden).0, np).value.0 == 0 ==>
                r.Ok? ==> exists k <- keys :: First(k) == Ok(startLetter) && r.value == k[0]
    {
      var seed := Seeds.PickSeed(keys, First, startLetter, random);
      if seed.Err? {
        return Err(seed.error), random, np;
      }
      var startWord;
      startWord, random' := seed.value.0, seed.value.1;
      var input := Letter(startLetter);
      var hidden := initHidden;
      np' := np;
      var outputName := startWord[0];
      var n := RangeLen(maxLength);
      for i := 0 to n
        invariant Loop.Accumulate(Next(), " ", State(input, hidden, np'), n - i, outputName)
               == Loop.Accumulate(Next(), " ", State(Letter(startLetter), initHidden, np), n, startWord[0])
      {
        var (candidates, h) := rnn(input, hidden);
        hidden := h;
        var pick := TopKPick(candidates, np');
        if pick.Err? {
          return Err(pick.error), random', np';
        }
        var topi;
        topi, np' := pick.value.0, pick.value.1;
        if topi == 0 {
          break;
        }
        if topi !in idx2word {
          return Err(KeyError), random', np';
        }
        var letter := idx2word[topi];
        if |letter| == 0 {
          return Err(IndexError), random', np';
        }
        outputName := outputName + " " + letter[0];
        input := Key(letter);
      }
      r := Ok(outputName);
    }

    /** `sample` as a call of the batch loop, threading both random sources. */
    function Each(): (string, (Rng, Rng)) -> (Result<string>, (Rng, Rng)) {
      (letter, rngs: (Rng, Rng)) =>
        var s := Output(letter, rngs.0, rngs.1);
        (s.line, (s.random, s.np))
    }

    /** `samples(startLetters)`: one line per letter, in order, each drawn
        from the random state the previous ones left; the first failing
        letter's exception propagates. */
    method Samples(startLetters: seq<string> := ["A", "B", "C"], nameonly random: Rng, nameonly np: Rng) returns (r: Result<seq<string>>, random': Rng, np': Rng)
      ensures (r, (random', np')) == Collect(Each(), startLetters, (random, np))
      ensures r.Ok? ==> (|r.value| == |startLetters| &&
                         forall i :: 0 <= i < |startLetters| ==>
                           Each()(startLetters[i], StateBefore(Each(), startLetters, (random, np), i)).0 == Ok(r.value[i]))
    {
      var results: seq<string> := [];
      random', np' := random, np;
      CollectStart(Each(), startLetters, (random, np));
      for i := 0 to |startLetters|
        invariant Collect(Each(), startLetters, (random, np)) ==
                  Prefixed(results, Collect(Each(), startLetters[i..], (random', np')))
      {
        ghost var before := (random', np');
        var line;
        line, random', np' := Sample(startLetters[i], random := random', np := np');
        assert Each()(startLetters[i], before) == (line, (random', np'));
        if line.Err? {
          CollectRaise(Each(), startLetters, (random, np), results, i, before);
          return Err(line.error), random', np';
        }
        CollectNext(Each(), startLetters, (random, np), results, i, before);
        results := results + [line.value];
      }
      CollectEnd(Each(), startLetters, (random, np), results, (random', np'));
      r := Ok(results);
      CollectEntries(Each(), startLetters, (random, np));
    }
  }

  /** `sample` as the source writes it: numpy is never imported, so once the
      seed is drawn the first iteration raises NameError at
      `np.random.randint`. */
  function SampleAsWritten<H>(g: LineSampleGenerator<H>, startLetter: string, random: Rng): (r: Result<string>)
    ensures r.Ok? <==> Seeds.PickSeed(g.keys, First, startLetter, random).Ok? && g.maxLength <= 0
    ensures r.Ok? ==> exists k <- g.keys :: First(k) == Ok(startLetter) && r.value == k[0]
    ensures Seeds.PickSeed(g.keys, First, startLetter, random).Err? ==>
      r == Err(Seeds.PickSeed(g.keys, First, startLetter, random).error)
  {
    match Seeds.PickSeed(g.keys, First, startLetter, random)
    case Err(e) => Err(e)
    case Ok((startWord, _)) =>
      if RangeLen(g.maxLength) == 0 then Ok(startWord[0]) else Err(NameError)
  }

  /** As written, a generator allowed any iteration at all never produces a
      line: every call either fails to find a seed or raises NameError. The
      corrected generator does produce a line once a seed is found, for a
      network whose first ranking holds only the end marker. */
  lemma NumpyMissing<H>(g: LineSampleGenerator<H>, startLetter: string, random: Rng, np: Rng)
    requires g.maxLength > 0
    ensures SampleAsWritten(g, startLetter, random).Err?
    ensures Seeds.PickSeed(g.keys, First, startLetter, random).Ok? ==>
      SampleAsWritten(g, startLetter, random) == Err(NameError)
    ensures Seeds.PickSeed(g.keys, First, startLetter, random).Ok? && g.rnn(Letter(startLetter), g.initHidden).0 == [0] ==>
      g.Output(startLetter, random, np).line.Ok?
  {
  }
}
