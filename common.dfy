/** Values shared by the three generators: the Python exceptions they can
    raise, a result type for them, injectable random sources, string joining
    and Python's "append one result per item" batch loop. */
module Common {

  /** The Python exceptions the generators let through to their callers. */
  datatype Error = KeyError | IndexError | ValueError | NameError | AttributeError

  datatype Result<T> = Ok(value: T) | Err(error: Error)

  /** A random source: an endless stream of raw draws and the position of the
      next one. Python's `random` module and numpy's `np.random` are each one
      of these; a fixed stream makes a run reproducible. */
  datatype Rng = Rng(draws: nat -> nat, pos: nat) {

    /** The next draw, reduced into [0, n). */
    function Below(n: nat): (k: nat)
      requires n > 0
      ensures k < n
    {
      draws(pos) % n
    }

    function Next(): Rng {
      Rng(draws, pos + 1)
    }
  }

  /** `random.choice(xs)`: one draw picks an element; an empty sequence
      raises IndexError. */
  function Choice<T>(rng: Rng, xs: seq<T>): (r: Result<(T, Rng)>)
    ensures r.Ok? <==> |xs| > 0
    ensures r.Err? ==> r.error == IndexError
    ensures r.Ok? ==> r.value.0 in xs && r.value.1 == rng.Next()
  {
    if |xs| == 0 then Err(IndexError) else Ok((xs[rng.Below(|xs|)], rng.Next()))
  }

  /** `np.random.randint(n)`: one draw picks a position in [0, n); n == 0
      raises ValueError. */
  function RandInt(rng: Rng, n: nat): (r: Result<(nat, Rng)>)
    ensures r.Ok? <==> n > 0
    ensures r.Err? ==> r.error == ValueError
    ensures r.Ok? ==> r.value.0 < n && r.value.1 == rng.Next()
  {
    if n == 0 then Err(ValueError) else Ok((rng.Below(n), rng.Next()))
  }

  /** The number of iterations of `for i in range(n)`. */
  function RangeLen(n: int): nat {
    if n < 0 then 0 else n
  }

  /** The words concatenated, each preceded by `sep`. */
  function Joined(sep: string, ws: seq<string>): string {
    if ws == [] then "" else sep + ws[0] + Joined(sep, ws[1..])
  }

  /** Python's batch loop: start from an empty list and append `f(x)` for
      each `x` in order, where each call also threads a state `r` (a random
      source, a hidden state, an output stream) and the first exception ends
      the loop. */
  function Collect<X, T, R>(f: (X, R) -> (Result<T>, R), xs: seq<X>, r: R): (res: (Result<seq<T>>, R))
    ensures res.0.Ok? ==> |res.0.value| == |xs|
    ensures xs == [] ==> res == (Ok([]), r)
    decreases |xs|
  {
    if xs == [] then (Ok([]), r)
    else
      var (y, r1) := f(xs[0], r);
      match y
      case Err(e) => (Err(e), r1)
      case Ok(v) =>
        var (rest, r2) := Collect(f, xs[1..], r1);
        (if rest.Ok? then Ok([v] + rest.value) else rest, r2)
  }

  /** The state the i-th call of a Collect loop starts from, when the calls
      before it have all returned. */
  function StateBefore<X, T, R>(f: (X, R) -> (Result<T>, R), xs: seq<X>, r: R, i: nat): R
    requires i <= |xs|
  {
    if i == 0 then r else f(xs[i - 1], StateBefore(f, xs, r, i - 1)).1
  }

  /** Results collected so far, followed by those of the rest of the loop. */
  function Prefixed<T, R>(done: seq<T>, rest: (Result<seq<T>>, R)): (Result<seq<T>>, R) {
    (if rest.0.Ok? then Ok(done + rest.0.value) else rest.0, rest.1)
  }

  lemma {:induction false} StateBeforeTail<X, T, R>(f: (X, R) -> (Result<T>, R), xs: seq<X>, r: R, i: nat)
    requires 0 < |xs| && i < |xs|
    ensures StateBefore(f, xs[1..], f(xs[0], r).1, i) == StateBefore(f, xs, r, i + 1)
  {
    if i > 0 {
      StateBeforeTail(f, xs, r, i - 1);
    }
  }

  /** The batch loop returns one entry per input, in input order, entry i
      being what the i-th call returned from the state the earlier calls left;
      it fails exactly when some call fails, with the first failure. */
  lemma {:induction false} CollectEntries<X, T, R>(f: (X, R) -> (Result<T>, R), xs: seq<X>, r: R)
    ensures var res := Collect(f, xs, r).0;
      res.Ok? ==> (|res.value| == |xs| &&
                   forall i :: 0 <= i < |xs| ==> f(xs[i], StateBefore(f, xs, r, i)).0 == Ok(res.value[i]))
    ensures var res := Collect(f, xs, r).0;
      res.Err? ==> (exists i :: 0 <= i < |xs| && f(xs[i], StateBefore(f, xs, r, i)).0 == Err(res.error) &&
                      forall j :: 0 <= j < i ==> f(xs[j], StateBefore(f, xs, r, j)).0.Ok?)
    decreases |xs|
  {
    if xs != [] {
      var (y, r1) := f(xs[0], r);
      if y.Ok? {
        CollectEntries(f, xs[1..], r1);
        forall i | 0 <= i < |xs| - 1
          ensures StateBefore(f, xs[1..], r1, i) == StateBefore(f, xs, r, i + 1)
        {
          StateBeforeTail(f, xs, r, i);
        }
        var res := Collect(f, xs, r).0;
        if res.Err? {
          var i :| 0 <= i < |xs| - 1 && f(xs[1..][i], StateBefore(f, xs[1..], r1, i)).0 == Err(res.error) &&
            forall j :: 0 <= j < i ==> f(xs[1..][j], StateBefore(f, xs[1..], r1, j)).0.Ok?;
          assert f(xs[i + 1], StateBefore(f, xs, r, i + 1)).0 == Err(res.error);
          forall j | 0 <= j < i + 1
            ensures f(xs[j], StateBefore(f, xs, r, j)).0.Ok?
          {
            if j > 0 {
              assert f(xs[1..][j - 1], StateBefore(f, xs[1..], r1, j - 1)).0.Ok?;
            }
          }
        } else {
          forall i | 0 <= i < |xs|
            ensures f(xs[i], StateBefore(f, xs, r, i)).0 == Ok(res.value[i])
          {
            if i > 0 {
              assert f(xs[1..][i - 1], StateBefore(f, xs[1..], r1, i - 1)).0 == Ok(res.value[i]);
            }
          }
        }
      } else {
        assert f(xs[0], StateBefore(f, xs, r, 0)).0 == Err(y.error);
      }
    }
  }

  /** The log of the state (an output stream, say) after a batch loop whose
      every successful call appends exactly one entry, related to the input
      by `P`: one entry per input, in input order, after the earlier ones. */
  ghost predicate Appended<X, L>(before: seq<L>, after: seq<L>, xs: seq<X>, P: (L, X) -> bool) {
    && |after| == |before| + |xs|
    && after[..|before|] == before
    && forall i :: 0 <= i < |xs| ==> P(after[|before| + i], xs[i])
  }

  lemma {:induction false} CollectAppends<X, T, R, L>(f: (X, R) -> (Result<T>, R), xs: seq<X>, r: R,
                                                      log: R -> seq<L>, P: (L, X) -> bool)
    requires forall x, r0 :: f(x, r0).0.Ok? ==> Appended(log(r0), log(f(x, r0).1), [x], P)
    ensures Collect(f, xs, r).0.Ok? ==> Appended(log(r), log(Collect(f, xs, r).1), xs, P)
    decreases |xs|
  {
    if xs != [] {
      var (y, r1) := f(xs[0], r);
      if y.Ok? {
        CollectAppends(f, xs[1..], r1, log, P);
        var all := Collect(f, xs, r);
        if all.0.Ok? {
          var n := |log(r)|;
          var out := log(all.1);
          assert Appended(log(r), log(r1), [xs[0]], P);
          assert out[..n + 1] == log(r1);
          assert out[..n] == log(r1)[..n];
          forall i | 0 <= i < |xs|
            ensures P(out[n + i], xs[i])
          {
            if i > 0 {
              assert xs[1..][i - 1] == xs[i];
              assert P(out[n + 1 + (i - 1)], xs[1..][i - 1]);
            } else {
              assert out[n] == log(r1)[n];
              assert P(log(r1)[n + 0], [xs[0]][0]);
            }
          }
        }
      }
    }
  }

  /** The batch loop's invariant before the first iteration. */
  lemma CollectStart<X, T, R>(f: (X, R) -> (Result<T>, R), xs: seq<X>, r: R)
    ensures Collect(f, xs, r) == Prefixed([], Collect(f, xs[0..], r))
  {
    assert xs[0..] == xs;
    var all := Collect(f, xs, r);
    assert all.0.Ok? ==> [] + all.0.value == all.0.value;
  }

  /** An iteration whose call returns keeps the invariant. */
  lemma CollectNext<X, T, R>(f: (X, R) -> (Result<T>, R), xs: seq<X>, r0: R, done: seq<T>, i: nat, r: R)
    requires i < |xs| && f(xs[i], r).0.Ok?
    requires Collect(f, xs, r0) == Prefixed(done, Collect(f, xs[i..], r))
    ensures Collect(f, xs, r0) == Prefixed(done + [f(xs[i], r).0.value], Collect(f, xs[i + 1..], f(xs[i], r).1))
  {
    assert xs[i..][0] == xs[i] && xs[i..][1..] == xs[i + 1..];
    var v := f(xs[i], r).0.value;
    var rest := Collect(f, xs[i + 1..], f(xs[i], r).1).0;
    assert rest.Ok? ==> done + [v] + rest.value == done + ([v] + rest.value);
  }

  /** An iteration whose call raises ends the loop with that exception. */
  lemma CollectRaise<X, T, R>(f: (X, R) -> (Result<T>, R), xs: seq<X>, r0: R, done: seq<T>, i: nat, r: R)
    requires i < |xs| && f(xs[i], r).0.Err?
    requires Collect(f, xs, r0) == Prefixed(done, Collect(f, xs[i..], r))
    ensures Collect(f, xs, r0) == (Err(f(xs[i], r).0.error), f(xs[i], r).1)
  {
    assert xs[i..][0] == xs[i];
  }

  /** After the last iteration the invariant gives the loop's result. */
  lemma CollectEnd<X, T, R>(f: (X, R) -> (Result<T>, R), xs: seq<X>, r0: R, done: seq<T>, r: R)
    requires Collect(f, xs, r0) == Prefixed(done, Collect(f, xs[|xs|..], r))
    ensures Collect(f, xs, r0) == (Ok(done), r)
  {
    assert xs[|xs|..] == [];
    assert done + [] == done;
  }
}
