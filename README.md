# Line generators of `generate/base_generator.py`

This project models the text generators in `generate/base_generator.py`. Each
generator produces one "line" by starting from a seed and repeatedly asking a
recurrent network for the next word. There are three generators:

- `LineGenerator` is greedy. At each step the network's single best index is
  looked up in `idx2word` and appended to the line with no separator. The
  line ends at index 0 or after `max_length` words.
- `LineSampleGenerator` draws the seed key at random among the vocabulary keys
  whose first character is the start letter. At each step it picks a random
  entry of the network's top-10 list. Index 0 ends the line. Any other index
  contributes its key's first element, preceded by a space.
- `LineLstmEmbeddingGenerator` works in a word-embedding space.
  `generateLine` resets the network's hidden state. It then appends exactly
  `max_length` words, each chosen at random among the words the embedding
  calls similar to the network's output. `sample` prints one such line per
  character of its argument.

Each `samples` runs `sample` once per start letter, in order.

The modules mirror this structure:

- `Common` holds the exceptions, the random sources (`random.choice`,
  `np.random.randint`) and the batch loop `Collect` of the `samples`
  methods.
- `Loop` holds the shared generation loop. `Run` is its reference meaning:
  the words appended and why the loop halted. `Accumulate` is the loop as
  the source writes it, growing a string.
- `Seeds` holds the seed choice.
- `LineGen`, `LineSampleGen` and `LineLstmEmbeddingGen` hold one class each.

Each `sample`, `samples` and `generateLine` is a method with the source's
loop. It is proved equal to a specification function. Lemmas then state what
that function's lines look like.

The network, `topk` and the embedding are parameters. Randomness is a
stream of draws passed in and returned. Where the code and its documentation
disagree, the model follows the code:

- In `LineLstmEmbeddingGenerator`, an out-of-vocabulary word does not map to
  a fallback vector. `self.unknown` is never assigned, so such a word raises
  AttributeError.
- In `LineSampleGenerator`, the network is first fed the start letter, not
  the seed word (line 59).
- The LSTM variant's `sample` returns None, so its `samples` returns a list
  of Nones. The lines only reach standard output.

## Model

| member | source | states |
|---|---|---|
| Common.Choice | generate/base_generator.py:58 | `random.choice` returns an element of the list and consumes one draw; an empty list raises IndexError |
| Common.RandInt | generate/base_generator.py:69 | `np.random.randint(n)` returns a position below n and consumes one draw; n = 0 raises ValueError |
| Common.Collect | generate/base_generator.py:42-46 | the batch loop used by every `samples` (42-46, 80-84, 167-171) and by the LSTM `sample` (140-142) returns one result per input when no call raises, and none for no input |
| Common.CollectEntries | generate/base_generator.py:42-46 | the batch loop returns one result per input, in order, result i being what call i returned from the state the earlier calls left; it fails exactly when some call fails, with the first failure |
| Common.CollectAppends | generate/base_generator.py:139-142 | if every call appends one entry satisfying a property to a log, the whole loop appends one such entry per input, in order, after the log's old contents |
| Loop.Run | generate/base_generator.py:28-37 | a loop with n iterations appends at most n words, and exactly n precisely when it halted on the iteration cap rather than the end marker |
| Loop.Accumulate | generate/base_generator.py:26-39 | the string a loop returns always extends the seed it started from |
| Loop.AccumulateRun | generate/base_generator.py:26-39 | the source's string-building loop returns the seed followed by the reference run's words, each preceded by the separator, and raises exactly when the run raises |
| Loop.StopAfter | generate/base_generator.py:32-33 | when index 0 comes after j words, any loop allowed more than j iterations returns exactly those j words, the marker not among them |
| Loop.NeverStops | generate/base_generator.py:28-37 | a step that always emits (never stops and never raises) makes the loop append exactly `max_length` words |
| Loop.NoMarker | generate/base_generator.py:150-162 | a loop with no stop check appends exactly `max_length` words whenever it does not raise |
| Loop.WordsFrom | generate/base_generator.py:35-36 | every word a loop appends is one that a single iteration can emit |
| Seeds.Matching | generate/base_generator.py:58 | the comprehension keeps exactly the keys whose first character is the letter; a malformed key raises |
| Seeds.PickSeed | generate/base_generator.py:141 | the seed is a vocabulary key starting with the letter; when no key does, IndexError |
| LineGen.Step | generate/base_generator.py:29-37 | an iteration stops iff the index is 0; it emits iff the index is a non-zero known index, and then appends and feeds back `idx2word[topi]`; it raises KeyError iff the index is non-zero and unknown |
| LineGen.LineGenerator.OutputWords | generate/base_generator.py:22-39 | a line is the start letter followed by at most `max_length` vocabulary words other than index 0's |
| LineGen.LineGenerator.FullLength | generate/base_generator.py:28-37 | a network that never picks 0 and always picks known indices yields exactly `max_length` words |
| LineGen.LineGenerator.Sample | generate/base_generator.py:22-39 | the loop computes `Output`; the line extends the start letter; an immediate 0 returns the letter alone |
| LineGen.LineGenerator.Samples | generate/base_generator.py:42-46 | one line per start letter, in order, line i being `Output` of letter i; the exception of some letter otherwise |
| LineSampleGen.First | generate/base_generator.py:58 | `key[0][0]` is the first character of the key's first element, IndexError when either is empty |
| LineSampleGen.TopKPick | generate/base_generator.py:68-69 | the pick is one of the ranked candidates; an empty ranking raises ValueError |
| LineSampleGen.Step | generate/base_generator.py:65-75 | an iteration stops iff the randomly picked candidate is 0; it emits iff the pick is a non-zero index of a non-empty key, appending that key's first element, feeding the key back and consuming one numpy draw; it raises ValueError on an empty ranking, KeyError on an unknown index and IndexError on an empty key |
| LineSampleGen.LineSampleGenerator.OutputShape | generate/base_generator.py:57-77 | a line is the first element of a key starting with the letter, then at most `max_length` vocabulary words each preceded by a space; no matching key raises IndexError |
| LineSampleGen.LineSampleGenerator.Sample | generate/base_generator.py:57-77 | the loop computes `Output` with both random sources; the line extends a matching key's first element, and equals it when the first pick is 0 |
| LineSampleGen.LineSampleGenerator.Samples | generate/base_generator.py:80-84 | one line per letter, in order, each drawn from the random state the earlier ones left |
| LineSampleGen.NumpyMissing | generate/base_generator.py:69 | as written, with `max_length` ≥ 1, `sample` never returns a line: once a seed is found it raises NameError. The corrected generator returns a line for a network that ranks only index 0 (that line is the seed's first element, by `LineSampleGenerator.Sample`) |
| LineSampleGen.SampleAsWritten | generate/base_generator.py:57-77 | `sample` as written returns a line only when no iteration runs (`max_length` ≤ 0), and that line is a matching key's first element; a failed seed choice propagates its exception |
| LineLstmEmbeddingGen.LstmModel.Forward | generate/base_generator.py:155 | a forward pass returns the cell's output and stores its next hidden state in place |
| LineLstmEmbeddingGen.Step | generate/base_generator.py:155-162 | an iteration never stops; it emits iff the randomly chosen similar word is in the vocabulary, appending exactly that word and feeding back its vector; it raises IndexError on no similar words and AttributeError on a word outside the vocabulary |
| LineLstmEmbeddingGen.First | generate/base_generator.py:141 | `key[0]` is a word's first character, IndexError on the empty word |
| LineLstmEmbeddingGen.LineLstmEmbeddingGenerator.LineShape | generate/base_generator.py:144-164 | a line is the seed followed by exactly `max_length` vocabulary words, each preceded by a space; an unknown seed raises AttributeError and leaves the hidden state untouched |
| LineLstmEmbeddingGen.LineLstmEmbeddingGenerator.GenerateLine | generate/base_generator.py:144-164 | the loop, updating the network's hidden state in place, computes `Line` from the hidden state before the call |
| LineLstmEmbeddingGen.LineLstmEmbeddingGenerator.PrintedLine | generate/base_generator.py:141-142 | each letter prints exactly one line starting with a vocabulary word beginning with that letter, or raises having printed nothing; no such word raises IndexError |
| LineLstmEmbeddingGen.LineLstmEmbeddingGenerator.PrintedLines | generate/base_generator.py:139-142 | `sample` prints one such line per character, in order, after what was printed before |
| LineLstmEmbeddingGen.LineLstmEmbeddingGenerator.SampleLetter | generate/base_generator.py:141-142 | one iteration of `sample` computes `PrintLine` on the network's hidden state, the random source and the output |
| LineLstmEmbeddingGen.LineLstmEmbeddingGenerator.Sample | generate/base_generator.py:139-142 | the loop computes `SampleOutput`, the batch of `PrintLine` over the characters |
| LineLstmEmbeddingGen.LineLstmEmbeddingGenerator.Samples | generate/base_generator.py:167-171 | one None per string, in order, the lines printed along the way; the first exception propagates |

## Left out

- Tensors are abstracted: `Variable`, `inputTensor`, `view`, `unsqueeze`, `pad`, `squeeze` and `.numpy()`. The network and `topk` are one oracle from the token and hidden state to the chosen index or indices. A failure while encoding a token is therefore not modelled.
- The recurrent networks' internals and their floating-point scores are not modelled. `findSimilarWordByVector` is an oracle returning the candidate words with their scores dropped.
- LineSampleGen.TopKPick does not require the ranking to hold exactly ten entries. Any length the oracle returns is accepted.
- Randomness is a stream of draws reduced into range. The model does not capture that the draws are uniform. Python's `random` and numpy's generator are two separate streams.
- `print` is modelled as appending the line to an output log carried in `Ctx`.
- `LineEmbeddingGenerator` (lines 87-125) is not modelled. Once its seed choice succeeds, its `sample` evaluates the undefined name `word` in the condition on line 100 and always raises NameError there. The fallback `self.unknown` (also line 100) and the undefined `hidden` (line 106) are never reached.
- The unused imports `re`, `Counter`, `time`, `math`, `pickle` and `torch.nn` (lines 1-9) are not modelled. The used ones (`random`, `torch`, `Variable`, `F`) appear only through the random sources and the abstracted tensor operations.
- The `data_reader`, `dataloader` and `vector_size` fields are folded into the oracles that use them.
- The class that defines `data_reader.idx2word` is not part of this model. `idx2word` is modelled as a dictionary, so an unknown index raises KeyError (lines 35 and 73). If it were a list, an out-of-range index would raise IndexError instead.

## Findings

| source | as written | input that shows it | evidently intended | confidence | as-written member | corrected member |
|---|---|---|---|---|---|---|
| generate/base_generator.py:69 | `np.random.randint` is called but numpy is never imported, so `LineSampleGenerator.sample` raises NameError in its first iteration | any start letter that some key starts with, with `max_length` ≥ 1 | a random position in the top-10 list, with numpy imported | not executed | LineSampleGen.NumpyMissing | LineSampleGen.LineSampleGenerator.Sample |
