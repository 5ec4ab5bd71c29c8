/** A context document that states its own encoded length and token estimate. */
module RenderedSize {
  import opened Json
  import opened Wrappers

  const ROUNDS: nat := 16

  /** ceil(n / 4) */
  function Quarter(n: nat): nat {
    (n + 3) / 4
  }

  predicate IsCount(j: Json) {
    j.Number? && j.n >= 0
  }

  /** The document carries the two numbers that describe it. */
  predicate Measured(pack: Json) {
    && Has(pack, "truncation")
    && Has(Get(pack, "truncation"), "rendered_bytes") && IsCount(Get(Get(pack, "truncation"), "rendered_bytes"))
    && Has(Get(pack, "truncation"), "estimated_tokens") && IsCount(Get(Get(pack, "truncation"), "estimated_tokens"))
  }

  function RenderedBytes(pack: Json): nat
    requires Measured(pack)
  {
    Get(Get(pack, "truncation"), "rendered_bytes").n
  }

  function EstimatedTokens(pack: Json): nat
    requires Measured(pack)
  {
    Get(Get(pack, "truncation"), "estimated_tokens").n
  }

  lemma SizedTruncation(t: Json, bytes: nat, tokens: nat)
    requires Has(t, "rendered_bytes") && IsCount(Get(t, "rendered_bytes"))
    requires Has(t, "estimated_tokens") && IsCount(Get(t, "estimated_tokens"))
    ensures Has(Set(t, "rendered_bytes", Number(bytes)), "estimated_tokens")
    ensures
      var u := Set(Set(t, "rendered_bytes", Number(bytes)), "estimated_tokens", Number(tokens));
      && Has(u, "rendered_bytes") && Get(u, "rendered_bytes") == Number(bytes)
      && Has(u, "estimated_tokens") && Get(u, "estimated_tokens") == Number(tokens)
  {
    var v := Set(t, "rendered_bytes", Number(bytes));
    GetSet(t, "rendered_bytes", Number(bytes), "estimated_tokens");
    GetSet(t, "rendered_bytes", Number(bytes), "rendered_bytes");
    GetSet(v, "estimated_tokens", Number(tokens), "rendered_bytes");
    GetSet(v, "estimated_tokens", Number(tokens), "estimated_tokens");
  }

  lemma SizedTruncationKeeps(t: Json, bytes: nat, tokens: nat, key: string)
    requires Has(t, "rendered_bytes") && Has(t, "estimated_tokens")
    requires Has(t, key) && key != "rendered_bytes" && key != "estimated_tokens"
    ensures Has(Set(t, "rendered_bytes", Number(bytes)), "estimated_tokens")
    ensures
      var u := Set(Set(t, "rendered_bytes", Number(bytes)), "estimated_tokens", Number(tokens));
      Has(u, key) && Get(u, key) == Get(t, key)
  {
    var v := Set(t, "rendered_bytes", Number(bytes));
    GetSet(t, "rendered_bytes", Number(bytes), "estimated_tokens");
    GetSet(t, "rendered_bytes", Number(bytes), key);
    GetSet(v, "estimated_tokens", Number(tokens), key);
  }

  lemma SizedTruncationLength(t: Json, bytes: nat, tokens: nat)
    requires Has(t, "rendered_bytes") && IsCount(Get(t, "rendered_bytes"))
    requires Has(t, "estimated_tokens") && IsCount(Get(t, "estimated_tokens"))
    ensures Has(Set(t, "rendered_bytes", Number(bytes)), "estimated_tokens")
    ensures Length(Set(Set(t, "rendered_bytes", Number(bytes)), "estimated_tokens", Number(tokens)))
            + Digits(Get(t, "rendered_bytes").n) + Digits(Get(t, "estimated_tokens").n)
         == Length(t) + Digits(bytes) + Digits(tokens)
  {
    var v := Set(t, "rendered_bytes", Number(bytes));
    GetSet(t, "rendered_bytes", Number(bytes), "estimated_tokens");
    SetLength(t, "rendered_bytes", Number(bytes));
    SetLength(v, "estimated_tokens", Number(tokens));
  }

  /** Both size fields assigned; nothing else changes. */
  function WithSizes(pack: Json, bytes: nat, tokens: nat): (r: Json)
    requires Measured(pack)
    ensures Measured(r) && RenderedBytes(r) == bytes && EstimatedTokens(r) == tokens
  {
    var t := Get(pack, "truncation");
    SizedTruncation(t, bytes, tokens);
    var u := Set(Set(t, "rendered_bytes", Number(bytes)), "estimated_tokens", Number(tokens));
    GetSet(pack, "truncation", u, "truncation");
    Set(pack, "truncation", u)
  }

  /** The bytes that do not depend on the two numbers. */
  function Rest(pack: Json): nat
    requires Measured(pack)
  {
    RestExists(pack);
    Length(pack) - Digits(RenderedBytes(pack)) - Digits(EstimatedTokens(pack))
  }

  lemma RestExists(pack: Json)
    requires Measured(pack)
    ensures Length(pack) >= Digits(RenderedBytes(pack)) + Digits(EstimatedTokens(pack)) + 10
  {
    var t := Get(pack, "truncation");
    SetLength(pack, "truncation", Null);
    var v := Set(t, "rendered_bytes", Null);
    GetSet(t, "rendered_bytes", Null, "estimated_tokens");
    SetLength(t, "rendered_bytes", Null);
    SetLength(v, "estimated_tokens", Null);
    TextLengthAtLeast("truncation");
    TextLengthAtLeast("rendered_bytes");
    TextLengthAtLeast("estimated_tokens");
  }

  lemma SizesLength(pack: Json, bytes: nat, tokens: nat)
    requires Measured(pack)
    ensures Length(WithSizes(pack, bytes, tokens)) == Rest(pack) + Digits(bytes) + Digits(tokens)
    ensures Rest(WithSizes(pack, bytes, tokens)) == Rest(pack)
  {
    var t := Get(pack, "truncation");
    SizedTruncationLength(t, bytes, tokens);
    SetLength(pack, "truncation", Set(Set(t, "rendered_bytes", Number(bytes)), "estimated_tokens", Number(tokens)));
  }

  lemma SizesOfSizes(pack: Json, b0: nat, t0: nat, bytes: nat, tokens: nat)
    requires Measured(pack)
    ensures WithSizes(WithSizes(pack, b0, t0), bytes, tokens) == WithSizes(pack, bytes, tokens)
  {
    var t := Get(pack, "truncation");
    TwoSets(t, b0, t0, bytes, tokens);
    var u := Set(Set(t, "rendered_bytes", Number(b0)), "estimated_tokens", Number(t0));
    var x := Set(Set(t, "rendered_bytes", Number(bytes)), "estimated_tokens", Number(tokens));
    GetSet(pack, "truncation", u, "truncation");
    SetSet(pack, "truncation", u, x);
  }

  lemma TwoSets(t: Json, b0: nat, t0: nat, bytes: nat, tokens: nat)
    requires Has(t, "rendered_bytes") && Has(t, "estimated_tokens")
    ensures Has(Set(t, "rendered_bytes", Number(b0)), "estimated_tokens")
    ensures Has(Set(t, "rendered_bytes", Number(bytes)), "estimated_tokens")
    ensures
      var u := Set(Set(t, "rendered_bytes", Number(b0)), "estimated_tokens", Number(t0));
      && Has(u, "rendered_bytes") && Has(Set(u, "rendered_bytes", Number(bytes)), "estimated_tokens")
      && Set(Set(u, "rendered_bytes", Number(bytes)), "estimated_tokens", Number(tokens))
         == Set(Set(t, "rendered_bytes", Number(bytes)), "estimated_tokens", Number(tokens))
  {
    var v := Set(t, "rendered_bytes", Number(b0));
    SetIndex(t, "rendered_bytes", Number(b0), "rendered_bytes");
    SetIndex(t, "rendered_bytes", Number(b0), "estimated_tokens");
    SetIndex(t, "rendered_bytes", Number(bytes), "estimated_tokens");
    SetIndex(v, "estimated_tokens", Number(t0), "rendered_bytes");
    SetIndex(v, "estimated_tokens", Number(t0), "estimated_tokens");
    SetIndex(Set(v, "estimated_tokens", Number(t0)), "rendered_bytes", Number(bytes), "estimated_tokens");
  }

  lemma SizesUnchanged(pack: Json)
    requires Measured(pack)
    ensures WithSizes(pack, RenderedBytes(pack), EstimatedTokens(pack)) == pack
  {
    var t := Get(pack, "truncation");
    SetGet(t, "rendered_bytes");
    SetGet(t, "estimated_tokens");
    SetGet(pack, "truncation");
  }

  // ------------------------------------------------------------------------- convergence

  /** The length of a document with `rest` other bytes after it records `size`. */
  function NextSize(rest: nat, size: nat): nat {
    rest + Digits(size) + Digits(Quarter(size))
  }

  /** The sizes recorded from a start at zero. */
  function Sizes(rest: nat, k: nat): nat {
    if k == 0 then 0 else NextSize(rest, Sizes(rest, k - 1))
  }

  lemma NextSizeMonotone(rest: nat, a: nat, b: nat)
    requires a <= b
    ensures NextSize(rest, a) <= NextSize(rest, b)
  {
    DigitsMonotone(a, b);
    DigitsMonotone(Quarter(a), Quarter(b));
  }

  lemma {:induction false} SizesIncrease(rest: nat, k: nat)
    ensures Sizes(rest, k) <= Sizes(rest, k + 1)
  {
    if k > 0 {
      SizesIncrease(rest, k - 1);
      NextSizeMonotone(rest, Sizes(rest, k - 1), Sizes(rest, k));
    }
  }

  /** From the second size on, at most two more bytes are ever needed. */
  lemma SizesSettle(rest: nat, k: nat)
    requires rest >= 10 && k >= 2
    ensures Sizes(rest, k) <= Sizes(rest, 2) + 2
  {
    if k > 2 {
      SizesSettle(rest, k - 1);
      var first, second := NextSize(rest, 0), Sizes(rest, 2);
      assert Sizes(rest, 1) == first && Quarter(0) == 0;
      DigitsSmall(first);
      DigitsSmall(Quarter(first));
      var bound := second + 2;
      NextSizeMonotone(rest, Sizes(rest, k - 1), bound);
      assert first >= 12;
      assert bound <= 3 * first + 2;
      DigitsStep(first, bound);
      DigitsStep(Quarter(first), Quarter(bound));
    }
  }

  /** Five rounds reach a size that describes itself. */
  lemma SizesConverge(rest: nat)
    requires rest >= 10
    ensures NextSize(rest, Sizes(rest, 5)) == Sizes(rest, 5)
  {
    SizesSettle(rest, 5);
    SizesIncrease(rest, 2);
    SizesIncrease(rest, 3);
    SizesIncrease(rest, 4);
    if Sizes(rest, 3) == Sizes(rest, 2) {
      assert Sizes(rest, 4) == Sizes(rest, 3);
      assert Sizes(rest, 5) == Sizes(rest, 4);
    } else if Sizes(rest, 4) == Sizes(rest, 3) {
      assert Sizes(rest, 5) == Sizes(rest, 4);
    } else {
      SizesIncrease(rest, 5);
      SizesSettle(rest, 6);
    }
    assert Sizes(rest, 6) == NextSize(rest, Sizes(rest, 5));
  }

  /** The size the rounds settle on. */
  function StableSize(rest: nat): nat {
    Sizes(rest, 5)
  }

  /** It is the least size that describes itself. */
  lemma {:induction false} StableSizeIsLeast(rest: nat, size: nat, k: nat)
    requires NextSize(rest, size) == size
    ensures Sizes(rest, k) <= size
  {
    if k > 0 {
      StableSizeIsLeast(rest, size, k - 1);
      NextSizeMonotone(rest, Sizes(rest, k - 1), size);
    }
  }

  /** A document whose recorded size is its length and whose estimate is a quarter of it, rounded up. */
  predicate DescribesItself(pack: Json) {
    Measured(pack) && RenderedBytes(pack) == Length(pack) && EstimatedTokens(pack) == Quarter(Length(pack))
  }

  function Stable(pack: Json): (r: Json)
    requires Measured(pack)
    ensures Measured(r)
  {
    WithSizes(pack, StableSize(Rest(pack)), Quarter(StableSize(Rest(pack))))
  }

  lemma StableDescribesItself(pack: Json)
    requires Measured(pack)
    ensures DescribesItself(Stable(pack)) && Length(Stable(pack)) == StableSize(Rest(pack))
  {
    RestExists(pack);
    SizesConverge(Rest(pack));
    SizesLength(pack, StableSize(Rest(pack)), Quarter(StableSize(Rest(pack))));
  }

  /** Rounds of measuring and recording. A document that already describes itself is returned
      as it is; one started from zeros always converges, on the smallest size that describes it. */
  method SetStableRenderedSize(pack: Json) returns (result: Result<Json, string>)
    requires Measured(pack)
    ensures DescribesItself(pack) ==> result == Ok(pack)
    ensures RenderedBytes(pack) == 0 && EstimatedTokens(pack) == 0 ==> result == Ok(Stable(pack))
    ensures result.Ok? ==>
              DescribesItself(result.value)
              && result.value == WithSizes(pack, Length(result.value), Quarter(Length(result.value)))
  {
    var current := pack;
    ghost var bytes, estimate := RenderedBytes(pack), EstimatedTokens(pack);
    ghost var fromZeros := bytes == 0 && estimate == 0;
    ghost var rest := Rest(pack);
    SizesUnchanged(pack);
    RestExists(pack);
    SizesConverge(rest);
    for k := 0 to ROUNDS
      invariant k == 0 ==> current == pack
      invariant current == WithSizes(pack, bytes, estimate)
      invariant k > 0 ==> !DescribesItself(pack)
      invariant fromZeros ==> k <= 5 && bytes == Sizes(rest, k) && estimate == Quarter(bytes)
    {
      var size := Length(current);
      var tokens := Quarter(size);
      SizesLength(pack, bytes, estimate);
      if RenderedBytes(current) == size && EstimatedTokens(current) == tokens {
        if fromZeros {
          FirstFixpoint(rest, k);
        }
        return Ok(current);
      }
      if fromZeros {
        assert size == Sizes(rest, k + 1) && k < 5;
      }
      SizesOfSizes(pack, bytes, estimate, size, tokens);
      current := WithSizes(current, size, tokens);
      bytes, estimate := size, tokens;
    }
    return Err("context size metadata did not converge");
  }

  lemma {:induction false} FirstFixpoint(rest: nat, k: nat)
    requires k <= 5 && NextSize(rest, Sizes(rest, k)) == Sizes(rest, k)
    ensures Sizes(rest, k) == StableSize(rest)
    decreases 5 - k
  {
    if k < 5 {
      FirstFixpoint(rest, k + 1);
    }
  }
}
