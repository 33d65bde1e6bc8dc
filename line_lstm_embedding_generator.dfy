/** `LineLstmEmbeddingGenerator` (generate/base_generator.py, lines 129-171):
    generation in a word-embedding space with a stateful recurrent network.
    The network keeps its hidden state in an attribute that every forward
    pass updates in place; the embedding space looks words up as vectors and
    answers similarity queries with a list of candidate words. */
module LineLstmEmbeddingGen {
  import opened Common
  import Loop
  import Seeds

  /** The embedding space: `vocab` in dictionary order, `wv` the vector of a
      word, `similar` the words `findSimilarWordByVector` returns for a
      vector (their similarity scores dropped). */
  datatype Embedding<!V> = Embedding(vocab: seq<string>, wv: string -> V, similar: V -> seq<string>)

  /** The recurrent network: one forward pass maps the input vector and the
      current hidden state to an output vector and the next hidden state,
      which it stores in `hidden`. */
  class LstmModel<V, H> {
    const cell: (V, H) -> (V, H)
    const initHidden: H
    var hidden: H

    constructor(cell: (V, H) -> (V, H), initHidden: H)
      ensures this.cell == cell && this.initHidden == initHidden && hidden == initHidden
    {
      this.cell := cell;
      this.initHidden := initHidden;
      hidden := initHidden;
    }

    method Forward(x: V) returns (out: V)
      modifies this
      ensures (out, hidden) == cell(x, old(hidden))
    {
      out, hidden := cell(x, hidden).0, cell(x, hidden).1;
    }
  }

  /** What the loop carries from one iteration to the next: the vector fed
      next, the network's hidden state, Python's random source. */
  datatype State<V, H> = State(vec: V, hidden: H, rng: Rng)

  /** One iteration of `generateLine`. There is no stop check: a random one
      of the similar words is always appended; an empty candidate list raises
      IndexError, and a word outside the vocabulary raises AttributeError
      (`self.unknown` is never set). */
  function Step<V, H>(cell: (V, H) -> (V, H), embedding: Embedding<V>, s: State<V, H>): (r: Loop.Step<State<V, H>>)
    ensures !r.Stop?
    ensures r.Emit? ==> r.word in embedding.similar(cell(s.vec, s.hidden).0) && r.word in embedding.vocab
    ensures r.Emit? ==> r.next.vec == embedding.wv(r.word)
    ensures r.next.hidden == cell(s.vec, s.hidden).1
    ensures var c := Choice(s.rng, embedding.similar(cell(s.vec, s.hidden).0));
      && (r.Emit? <==> c.Ok? && c.value.0 in embedding.vocab)
      && (r.Emit? ==> r.word == c.value.0 && r.next.rng == s.rng.Next())
      && (r.Raise? ==> r.error == if c.Err? then IndexError else AttributeError)
  {
    var (out, h) := cell(s.vec, s.hidden);
    match Choice(s.rng, embedding.similar(out))
    case Err(e) => Loop.Raise(e, State(s.vec, h, s.rng))
    case Ok((word, rng)) =>
      if word in embedding.vocab then Loop.Emit(word, State(embedding.wv(word), h, rng))
      else Loop.Raise(AttributeError, State(s.vec, h, rng))
  }

  /** `key[0]` of a vocabulary word: IndexError on the empty word. */
  function First(word: string): (r: Result<string>)
    ensures r.Ok? <==> |word| > 0
    ensures r.Ok? ==> r.value == word[..1]
    ensures r.Err? ==> r.error == IndexError
  {
    if |word| == 0 then Err(IndexError) else Ok([word[0]])
  }

  /** The result of `generateLine`, with the network's hidden state and the
      random source after it. */
  datatype Generated<H> = Generated(line: Result<string>, hidden: H, rng: Rng)

  /** What `sample` and `samples` thread from call to call: the network's
      hidden state, the random source, and the lines printed so far. */
  datatype Ctx<H> = Ctx(hidden: H, rng: Rng, stdout: seq<string>)

  class LineLstmEmbeddingGenerator<V, H> {
    const rnn: LstmModel<V, H>
    const embedding: Embedding<V>
    const maxLength: int

    constructor(rnn: LstmModel<V, H>, embedding: Embedding<V>, maxLength: int := 20)
      ensures this.rnn == rnn && this.embedding == embedding && this.maxLength == maxLength
    {
      this.rnn := rnn;
      this.embedding := embedding;
      this.maxLength := maxLength;
    }

    function Next(): State<V, H> -> Loop.Step<State<V, H>> {
      s => Step(rnn.cell, embedding, s)
    }

    /** What `generateLine(seedWord)` returns, from the hidden state the
        network had before the call. The seed is looked up before the hidden
        state is reset, so an unknown seed leaves it untouched. */
    function Line(seedWord: string, rng: Rng, hidden: H): Generated<H> {
      if seedWord !in embedding.vocab then Generated(Err(AttributeError), hidden, rng)
      else
        var (line, last) :=
          Loop.Accumulate(Next(), " ", State(embedding.wv(seedWord), rnn.initHidden, rng), RangeLen(maxLength), seedWord);
        Generated(line, last.hidden, last.rng)
    }

    /** Without a stop check, every line is the seed followed by exactly
        `maxLength` words, each preceded by a space, each a vocabulary word
        (and, by `Step`, one the similarity search offered at that iteration). */
    lemma LineShape(seedWord: string, rng: Rng, hidden: H)
      ensures Line(seedWord, rng, hidden).line.Ok? ==>
        var o := Loop.Run(Next(), State(embedding.wv(seedWord), rnn.initHidden, rng), RangeLen(maxLength));
        && o.Done? && |o.words| == RangeLen(maxLength) && o.halt == Loop.Length
        && (forall w <- o.words :: w in embedding.vocab)
        && Line(seedWord, rng, hidden).line.value == seedWord + Joined(" ", o.words)
      ensures seedWord !in embedding.vocab ==> Line(seedWord, rng, hidden) == Generated(Err(AttributeError), hidden, rng)
    {
      if seedWord in embedding.vocab {
        var s0 := State(embedding.wv(seedWord), rnn.initHidden, rng);
        var n := RangeLen(maxLength);
        Loop.AccumulateRun(Next(), " ", s0, n, seedWord);
        Loop.NoMarker(Next(), s0, n);
        Loop.WordsFrom(Next(), s0, n, set w <- embedding.vocab);
      }
    }

    method GenerateLine(seedWord: string, rng: Rng) returns (r: Result<string>, rng': Rng)
      modifies rnn
      ensures Generated(r, rnn.hidden, rng') == Line(seedWord, rng, old(rnn.hidden))
    {
      if seedWord !in embedding.vocab {
        return Err(AttributeError), rng;
      }
      var inputWordVec := embedding.wv(seedWord);
      var outputName := seedWord;
      rnn.hidden := rnn.initHidden;
      rng' := rng;
      var n := RangeLen(maxLength);
      for i := 0 to n
        invariant Loop.Accumulate(Next(), " ", State(inputWordVec, rnn.hidden, rng'), n - i, outputName)
               == Loop.Accumulate(Next(), " ", State(embedding.wv(seedWord), rnn.initHidden, rng), n, seedWord)
      {
        var out := rnn.Forward(inputWordVec);
        var letter := Choice(rng', embedding.similar(out));
        if letter.Err? {
          return Err(letter.error), rng';
        }
        var outputLetter;
        outputLetter, rng' := letter.value.0, letter.value.1;
        outputName := outputName + " " + outputLetter;
        if outputLetter !in embedding.vocab {
          return Err(AttributeError), rng';
        }
        inputWordVec := embedding.wv(outputLetter);
      }
      r := Ok(outputName);
    }

    /** One iteration of `sample`'s loop: pick a seed starting with the
        letter, generate its line and print it. */
    function PrintLine(letter: char, ctx: Ctx<H>): (Result<()>, Ctx<H>) {
      match Seeds.PickSeed(embedding.vocab, First, [letter], ctx.rng)
      case Err(e) => (Err(e), ctx)
      case Ok((startWord, rng)) =>
        var g := Line(startWord, rng, ctx.hidden);
        match g.line
        case Err(e) => (Err(e), Ctx(g.hidden, g.rng, ctx.stdout))
        case Ok(line) => (Ok(()), Ctx(g.hidden, g.rng, ctx.stdout + [line]))
    }

    /** A line `generateLine` can print for a letter: a vocabulary word
        starting with the letter, then `maxLength` vocabulary words, each
        preceded by a space. */
    ghost predicate LineFor(line: string, letter: char) {
      exists seed, ws ::
        && seed in embedding.vocab && |seed| > 0 && seed[0] == letter
        && |ws| == RangeLen(maxLength) && (forall w <- ws :: w in embedding.vocab)
        && line == seed + Joined(" ", ws)
    }

    /** Each letter prints exactly one line of that shape, or raises having
        printed nothing; a letter no vocabulary word starts with raises
        IndexError. */
    lemma PrintedLine(letter: char, ctx: Ctx<H>)
      ensures PrintLine(letter, ctx).0.Ok? ==>
        var out := PrintLine(letter, ctx).1.stdout;
        |out| == |ctx.stdout| + 1 && out[..|ctx.stdout|] == ctx.stdout && LineFor(out[|ctx.stdout|], letter)
      ensures PrintLine(letter, ctx).0.Err? ==> PrintLine(letter, ctx).1.stdout == ctx.stdout
      ensures (forall w <- embedding.vocab :: |w| > 0 && w[0] != letter) ==> PrintLine(letter, ctx).0 == Err(IndexError)
    {
      match Seeds.PickSeed(embedding.vocab, First, [letter], ctx.rng)
      case Err(e) =>
        assert (forall w <- embedding.vocab :: |w| > 0 && w[0] != letter) ==>
          forall w <- embedding.vocab :: First(w).Ok? && First(w) != Ok([letter]);
      case Ok((seed, rng)) =>
        var g := Line(seed, rng, ctx.hidden);
        if g.line.Ok? {
          assert First(seed) == Ok([letter]);
          LineShape(seed, rng, ctx.hidden);
          var o := Loop.Run(Next(), State(embedding.wv(seed), rnn.initHidden, rng), RangeLen(maxLength));
          var out := PrintLine(letter, ctx).1.stdout;
          assert out[|ctx.stdout|] == seed + Joined(" ", o.words);
          assert out[..|ctx.stdout|] == ctx.stdout;
        }
    }

    function PrintEach(): (char, Ctx<H>) -> (Result<()>, Ctx<H>) {
      (letter, ctx) => PrintLine(letter, ctx)
    }

    /** `sample(startLetter)`: prints one line per character of
        `startLetter` and returns None. */
    function SampleOutput(startLetter: string, ctx: Ctx<H>): (Result<()>, Ctx<H>) {
      var (printed, ctx') := Collect(PrintEach(), startLetter, ctx);
      (if printed.Ok? then Ok(()) else Err(printed.error), ctx')
    }

    /** `sample(startLetter)` prints exactly one line per character of
        `startLetter`, in order, after what was printed before, line i being
        one for character i. */
    lemma PrintedLines(startLetter: string, ctx: Ctx<H>)
      ensures SampleOutput(startLetter, ctx).0.Ok? ==>
        Appended(ctx.stdout, SampleOutput(startLetter, ctx).1.stdout, startLetter, (line, c) => LineFor(line, c))
    {
      forall c, ctx0 | PrintEach()(c, ctx0).0.Ok?
        ensures Appended(ctx0.stdout, PrintEach()(c, ctx0).1.stdout, [c], (line, c) => LineFor(line, c))
      {
        PrintedLine(c, ctx0);
      }
      CollectAppends(PrintEach(), startLetter, ctx, (ctx0: Ctx<H>) => ctx0.stdout, (line, c) => LineFor(line, c));
    }

    /** One iteration of `sample`'s loop (lines 141-142). */
    method SampleLetter(letter: char, rng: Rng, stdout: seq<string>) returns (r: Result<()>, rng': Rng, stdout': seq<string>)
      modifies rnn
      ensures (r, Ctx(rnn.hidden, rng', stdout')) == PrintLine(letter, Ctx(old(rnn.hidden), rng, stdout))
    {
      var seed := Seeds.PickSeed(embedding.vocab, First, [letter], rng);
      if seed.Err? {
        return Err(seed.error), rng, stdout;
      }
      var line;
      line, rng' := GenerateLine(seed.value.0, seed.value.1);
      if line.Err? {
        return Err(line.error), rng', stdout;
      }
      r, stdout' := Ok(()), stdout + [line.value];
    }

    method Sample(startLetter: string := "A", nameonly rng: Rng, nameonly stdout: seq<string>) returns (r: Result<()>, rng': Rng, stdout': seq<string>)
      modifies rnn
      ensures (r, Ctx(rnn.hidden, rng', stdout')) == SampleOutput(startLetter, Ctx(old(rnn.hidden), rng, stdout))
    {
      rng', stdout' := rng, stdout;
      ghost var ctx0 := Ctx(old(rnn.hidden), rng, stdout);
      ghost var done: seq<()> := [];
      CollectStart(PrintEach(), startLetter, ctx0);
      for i := 0 to |startLetter|
        invariant Collect(PrintEach(), startLetter, ctx0) ==
                  Prefixed(done, Collect(PrintEach(), startLetter[i..], Ctx(rnn.hidden, rng', stdout')))
      {
        ghost var before := Ctx(rnn.hidden, rng', stdout');
        var none;
        none, rng', stdout' := SampleLetter(startLetter[i], rng', stdout');
        assert PrintEach()(startLetter[i], before) == (none, Ctx(rnn.hidden, rng', stdout'));
        if none.Err? {
          CollectRaise(PrintEach(), startLetter, ctx0, done, i, before);
          return Err(none.error), rng', stdout';
        }
        CollectNext(PrintEach(), startLetter, ctx0, done, i, before);
        done := done + [()];
      }
      CollectEnd(PrintEach(), startLetter, ctx0, done, Ctx(rnn.hidden, rng', stdout'));
      r := Ok(());
    }

    function SampleEach(): (string, Ctx<H>) -> (Result<()>, Ctx<H>) {
      (startLetter, ctx) => SampleOutput(startLetter, ctx)
    }

    /** `samples(startLetters)`: one None per string, in order, every line
        printed along the way; the first exception propagates. */
    method Samples(startLetters: seq<string> := ["A", "B", "C"], nameonly rng: Rng, nameonly stdout: seq<string>)
      returns (r: Result<seq<()>>, rng': Rng, stdout': seq<string>)
      modifies rnn
      ensures (r, Ctx(rnn.hidden, rng', stdout')) == Collect(SampleEach(), startLetters, Ctx(old(rnn.hidden), rng, stdout))
      ensures r.Ok? ==> |r.value| == |startLetters|
    {
      var results: seq<()> := [];
      rng', stdout' := rng, stdout;
      ghost var ctx0 := Ctx(old(rnn.hidden), rng, stdout);
      CollectStart(SampleEach(), startLetters, ctx0);
      for i := 0 to |startLetters|
        invariant Collect(SampleEach(), startLetters, ctx0) ==
                  Prefixed(results, Collect(SampleEach(), startLetters[i..], Ctx(rnn.hidden, rng', stdout')))
      {
        ghost var before := Ctx(rnn.hidden, rng', stdout');
        var none;
        none, rng', stdout' := Sample(startLetters[i], rng := rng', stdout := stdout');
        assert SampleEach()(startLetters[i], before) == (none, Ctx(rnn.hidden, rng', stdout'));
        if none.Err? {
          CollectRaise(SampleEach(), startLetters, ctx0, results, i, before);
          return Err(none.error), rng', stdout';
        }
        CollectNext(SampleEach(), startLetters, ctx0, results, i, before);
        results := results + [()];
      }
      CollectEnd(SampleEach(), startLetters, ctx0, results, Ctx(rnn.hidden, rng', stdout'));
      r := Ok(results);
      CollectEntries(SampleEach(), startLetters, ctx0);
    }
  }
}
