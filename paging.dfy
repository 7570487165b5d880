/**
  The pagination arithmetic of the `tasksByStatus` handler: coercion and
  clamping of `limit` and `skip`, the page window, and the `nextSkip` rule.
 */
module Paging {
  import opened TaskModel

  function Min(a: int, b: int): int { if a <= b then a else b }

  function Max(a: int, b: int): int { if a >= b then a else b }

  /**
    What `Number(x)` makes of a `limit` or `skip` parameter: an integer, or
    NaN. Fractional numbers are not modelled.
   */
  datatype NumArg = Int(n: int) | NaN

  /** `Number(x) || dflt`, where an absent parameter first takes the destructuring default `dflt`. */
  function NumberOr(arg: Option<NumArg>, dflt: int): (v: int)
    ensures v == dflt || (arg == Some(Int(v)) && v != 0)
    ensures arg.Some? && arg.value.Int? && arg.value.n != 0 ==> v == arg.value.n
  {
    match arg
    case Some(Int(n)) => if n != 0 then n else dflt
    case _ => dflt
  }

  /** `Math.min(Math.max(Number(limit) || 10, 1), 50)`. */
  function ClampLimit(arg: Option<NumArg>): (lim: int)
    ensures 1 <= lim <= 50
    // absent, NaN and 0 fall back to 10 before the clamp, so they give 10, not 1
    ensures arg.None? || arg == Some(NaN) || arg == Some(Int(0)) ==> lim == 10
    ensures arg.Some? && arg.value.Int? && arg.value.n < 0 ==> lim == 1
    ensures arg.Some? && arg.value.Int? && arg.value.n > 50 ==> lim == 50
    ensures arg.Some? && arg.value.Int? && 1 <= arg.value.n <= 50 ==> lim == arg.value.n
  {
    Min(Max(NumberOr(arg, 10), 1), 50)
  }

  /** `Math.max(Number(skip) || 0, 0)`. */
  function ClampSkip(arg: Option<NumArg>): (sk: int)
    ensures sk >= 0
    ensures arg.Some? && arg.value.Int? && arg.value.n >= 0 ==> sk == arg.value.n
    ensures !(arg.Some? && arg.value.Int? && arg.value.n >= 0) ==> sk == 0
  {
    Max(NumberOr(arg, 0), 0)
  }

  /** The window `query.skip(sk).limit(lim)` cuts out of the ordered matches `s`. */
  function Page<T>(s: seq<T>, lim: nat, sk: nat): (p: seq<T>)
    ensures |p| == Min(lim, Max(|s| - sk, 0))
    ensures forall k :: 0 <= k < |p| ==> p[k] == s[sk + k]
  {
    if sk >= |s| then [] else s[sk..Min(sk + lim, |s|)]
  }

  /** `sk + returned < total ? sk + returned : null`. */
  function NextSkip(sk: nat, returned: nat, total: nat): (r: Option<nat>)
    ensures r.Some? <==> sk + returned < total
    ensures r.Some? ==> r.value == sk + returned
  {
    if sk + returned < total then Some(sk + returned) else None
  }

  /** There is a next page exactly when the current window ends before the last match. */
  lemma NextSkipAfterPage<T>(s: seq<T>, lim: nat, sk: nat)
    ensures NextSkip(sk, |Page(s, lim, sk)|, |s|).Some? <==> sk + lim < |s|
    ensures NextSkip(sk, |Page(s, lim, sk)|, |s|).Some? ==> NextSkip(sk, |Page(s, lim, sk)|, |s|).value == sk + lim
  {
  }

  /** The records a client sees by starting at `sk` and following `nextSkip` until it is null. */
  function Walk<T>(s: seq<T>, lim: nat, sk: nat): seq<T>
    requires lim >= 1
    decreases if sk <= |s| then |s| - sk else 0
  {
    var p := Page(s, lim, sk);
    match NextSkip(sk, |p|, |s|)
    case None => p
    case Some(n) => p + Walk(s, lim, n)
  }

  /**
    Following `nextSkip` from `sk` yields every match from position `sk` on,
    once each and in order; a skip past the end yields nothing.
   */
  lemma {:induction false} WalkCovers<T>(s: seq<T>, lim: nat, sk: nat)
    requires lim >= 1
    ensures Walk(s, lim, sk) == if sk <= |s| then s[sk..] else []
    decreases if sk <= |s| then |s| - sk else 0
  {
    if sk > |s| {
      return;
    }
    var p := Page(s, lim, sk);
    assert p == s[sk..sk + |p|];
    match NextSkip(sk, |p|, |s|)
    case None =>
      assert sk + |p| == |s|;
    case Some(n) =>
      WalkCovers(s, lim, n);
      assert s[sk..] == s[sk..n] + s[n..];
  }

  /** Paging from skip 0 visits the whole ordered match list. */
  lemma {:induction false} WalkFromStart<T>(s: seq<T>, lim: nat)
    requires lim >= 1
    ensures Walk(s, lim, 0) == s
  {
    WalkCovers(s, lim, 0);
  }

  /** Seven matches, limit 5: a page of 5 with `nextSkip` 5, then a page of 2 with `nextSkip` null. */
  lemma SevenMatchesInPagesOfFive<T>(s: seq<T>)
    requires |s| == 7
    ensures |Page(s, 5, 0)| == 5 && NextSkip(0, 5, 7) == Some(5)
    ensures |Page(s, 5, 5)| == 2 && NextSkip(5, 2, 7) == None
  {
  }
}
