/** Choosing the seed word of a line: keep the vocabulary keys whose first
    character is the requested letter, then pick one at random. */
module Seeds {
  import opened Common

  /** `[key for key in keys if first(key) == letter]`, in key order, where
      evaluating `first` on a malformed key raises (an empty string has no
      first character). */
  function Matching<K(!new)>(keys: seq<K>, first: K -> Result<string>, letter: string): (r: Result<seq<K>>)
    ensures r.Ok? <==> forall k <- keys :: first(k).Ok?
    ensures r.Err? ==> exists k <- keys :: first(k) == Err(r.error)
    ensures r.Ok? ==> forall k :: k in r.value <==> k in keys && first(k) == Ok(letter)
    ensures r.Ok? ==> |r.value| <= |keys|
    decreases |keys|
  {
    if keys == [] then Ok([])
    else
      match first(keys[0])
      case Err(e) => Err(e)
      case Ok(c) =>
        match Matching(keys[1..], first, letter)
        case Err(e) => Err(e)
        case Ok(rest) => Ok(if c == letter then [keys[0]] + rest else rest)
  }

  /** `random.choice([key for key in keys if first(key) == letter])`: the
      seed is a key that starts with the letter; when no key does, the
      choice on an empty list raises IndexError. */
  function PickSeed<K(!new)>(keys: seq<K>, first: K -> Result<string>, letter: string, rng: Rng): (r: Result<(K, Rng)>)
    ensures r.Ok? ==> r.value.0 in keys && first(r.value.0) == Ok(letter) && r.value.1 == rng.Next()
    ensures r.Ok? <==> (forall k <- keys :: first(k).Ok?) && (exists k <- keys :: first(k) == Ok(letter))
    ensures (forall k <- keys :: first(k).Ok? && first(k) != Ok(letter)) ==> r == Err(IndexError)
  {
    match Matching(keys, first, letter)
    case Err(e) => Err(e)
    case Ok(candidates) => Choice(rng, candidates)
  }
}
