/**
 * Option chains: the expirations a symbol lists, and the slice of a chain
 * around the spot price (calls at or above it ascending, puts at or below it
 * descending, at most `strikes_each_side` of each).
 */
module Options {
  import opened Wrappers
  import opened Text
  import opened Dates
  import opened Seqs
  import opened FinanceErrors

  /** A contract as the client library returns it; only the strike matters here. */
  datatype OptionContract = OptionContract(contractSymbol: string, strike: real)

  datatype OptionChain = OptionChain(underlyingPrice: Option<real>, calls: seq<OptionContract>, puts: seq<OptionContract>)

  datatype OptionSlice = OptionSlice(
    symbol: string, expiration: string, spot: real,
    calls: seq<OptionContract>, puts: seq<OptionContract>)

  datatype Ordering = Less | Equal | Greater

  /** `float_cmp`: the strike order. On reals no pair is incomparable. */
  function FloatCmp(a: real, b: real): (r: Ordering) {
    if a < b then Less else if a > b then Greater else Equal
  }

  /** Swapping the arguments reverses the order, and Equal means equal. */
  lemma FloatCmpAntisymmetric(a: real, b: real)
    ensures FloatCmp(a, b) == Less <==> FloatCmp(b, a) == Greater
    ensures FloatCmp(a, b) == Equal <==> a == b
  {
  }

  datatype Side = Call | Put

  /** Calls are kept at or above the spot, puts at or below it. */
  predicate Qualifies(side: Side, c: OptionContract, spot: real) {
    match side
    case Call => c.strike >= spot
    case Put => c.strike <= spot
  }

  /** The comparator passed to `sort_by`: ascending strikes for calls, descending for puts. */
  function Compare(side: Side, x: OptionContract, y: OptionContract): Ordering {
    match side
    case Call => FloatCmp(x.strike, y.strike)
    case Put => FloatCmp(y.strike, x.strike)
  }

  /** The key the comparator orders by: the strike, negated for puts. */
  function Key(side: Side, c: OptionContract): real {
    match side
    case Call => c.strike
    case Put => -c.strike
  }

  /** The comparator is the plain order on keys. */
  lemma CompareByKey(side: Side, x: OptionContract, y: OptionContract)
    ensures Compare(side, x, y) == FloatCmp(Key(side, x), Key(side, y))
  {
  }

  predicate InOrder(side: Side, x: OptionContract, y: OptionContract) {
    Key(side, x) <= Key(side, y)
  }

  predicate SortedFor(side: Side, s: seq<OptionContract>) {
    forall k, l :: 0 <= k < l < |s| ==> InOrder(side, s[k], s[l])
  }

  /** The contracts of `s` whose key is `x`, in their order in `s`. */
  function WithKey(side: Side, s: seq<OptionContract>, x: real): seq<OptionContract> {
    if s == [] then []
    else WithKey(side, s[..|s| - 1], x) + (if Key(side, s[|s| - 1]) == x then [s[|s| - 1]] else [])
  }

  /** Contracts that compare equal keep their relative order: what a stable sort promises. */
  ghost predicate SameTies(side: Side, s: seq<OptionContract>, t: seq<OptionContract>) {
    forall x :: WithKey(side, s, x) == WithKey(side, t, x)
  }

  lemma {:induction false} WithKeyAppend(side: Side, a: seq<OptionContract>, b: seq<OptionContract>, x: real)
    ensures WithKey(side, a + b, x) == WithKey(side, a, x) + WithKey(side, b, x)
  {
    if b == [] {
      assert a + b == a;
    } else {
      assert (a + b)[..|a + b| - 1] == a + b[..|b| - 1];
      WithKeyAppend(side, a, b[..|b| - 1], x);
    }
  }

  /** `into_iter().filter(..).collect()`. */
  function Qualifying(side: Side, contracts: seq<OptionContract>, spot: real): (r: seq<OptionContract>)
    ensures forall c :: c in r <==> c in contracts && Qualifies(side, c, spot)
    ensures multiset(r) <= multiset(contracts)
  {
    if contracts == [] then []
    else
      var init, last := contracts[..|contracts| - 1], contracts[|contracts| - 1];
      assert contracts == init + [last];
      Qualifying(side, init, spot) + (if Qualifies(side, last, spot) then [last] else [])
  }

  /** Exchange `a[j - 1]` and `a[j]`. */
  method SwapDown(a: array<OptionContract>, j: nat)
    requires 0 < j < a.Length
    modifies a
    ensures a[j - 1] == old(a[j]) && a[j] == old(a[j - 1])
    ensures forall k :: 0 <= k < a.Length && k != j - 1 && k != j ==> a[k] == old(a[k])
  {
    a[j - 1], a[j] := a[j], a[j - 1];
  }

  /** `s` with `s[i]` moved down to position `j`. */
  function Inserted(s: seq<OptionContract>, i: nat, j: nat): seq<OptionContract>
    requires j <= i < |s|
  {
    s[..j] + [s[i]] + s[j..i] + s[i + 1..]
  }

  /** Every contract in `s[j..i]` has a key above that of `s[i]`: these are what `s[i]` sinks past. */
  predicate SinksPast(side: Side, s: seq<OptionContract>, i: nat, j: nat)
    requires j <= i < |s|
  {
    forall l :: j <= l < i ==> Key(side, s[l]) > Key(side, s[i])
  }

  lemma InsertedPermutes(s: seq<OptionContract>, i: nat, j: nat)
    requires j <= i < |s|
    ensures multiset(Inserted(s, i, j)) == multiset(s)
    ensures Inserted(s, i, j)[i + 1..] == s[i + 1..]
  {
    assert s == s[..j] + s[j..i] + [s[i]] + s[i + 1..];
    var t := Inserted(s, i, j);
    assert t[i + 1..] == s[i + 1..];
  }

  /** The insertion point found, the element moved there leaves the prefix sorted. */
  lemma InsertedSorted(side: Side, s: seq<OptionContract>, i: nat, j: nat)
    requires j <= i < |s| && SortedFor(side, s[..i]) && SinksPast(side, s, i, j)
    requires j == 0 || Key(side, s[j - 1]) <= Key(side, s[i])
    ensures SortedFor(side, Inserted(s, i, j)[..i + 1])
  {
    var t := Inserted(s, i, j);
    assert forall k :: 0 <= k < j ==> t[k] == s[k];
    assert t[j] == s[i];
    assert forall k :: j < k <= i ==> t[k] == s[k - 1];
    forall k, l | 0 <= k < l <= i
      ensures Key(side, t[k]) <= Key(side, t[l])
    {
      if l < j {
        assert s[..i][k] == s[k] && s[..i][l] == s[l];
      } else if l == j {
        if k < j - 1 {
          assert s[..i][k] == s[k] && s[..i][j - 1] == s[j - 1];
        }
      } else if k < j {
        assert s[..i][k] == s[k] && s[..i][l - 1] == s[l - 1];
      } else if k > j {
        assert s[..i][k - 1] == s[k - 1] && s[..i][l - 1] == s[l - 1];
      }
    }
  }

  lemma {:induction false} WithKeyNone(side: Side, s: seq<OptionContract>, x: real)
    requires forall k :: 0 <= k < |s| ==> Key(side, s[k]) != x
    ensures WithKey(side, s, x) == []
  {
    if s != [] {
      WithKeyNone(side, s[..|s| - 1], x);
    }
  }

  /** Moving `e` past contracts whose keys all differ from its own leaves every key's contracts in order. */
  lemma MoveKeepsKey(side: Side, pre: seq<OptionContract>, mid: seq<OptionContract>, e: OptionContract,
                     post: seq<OptionContract>, x: real)
    requires forall k :: 0 <= k < |mid| ==> Key(side, mid[k]) != Key(side, e)
    ensures WithKey(side, pre + [e] + mid + post, x) == WithKey(side, pre + mid + [e] + post, x)
  {
    WithKeyAppend(side, pre + [e] + mid, post, x);
    WithKeyAppend(side, pre + [e], mid, x);
    WithKeyAppend(side, pre, [e], x);
    WithKeyAppend(side, pre + mid + [e], post, x);
    WithKeyAppend(side, pre + mid, [e], x);
    WithKeyAppend(side, pre, mid, x);
    assert [e][..0] == [];
    if x == Key(side, e) {
      WithKeyNone(side, mid, x);
    }
  }

  /** Sinking only past strictly greater keys keeps every tie in order: the sort is stable. */
  lemma InsertedTies(side: Side, s: seq<OptionContract>, i: nat, j: nat)
    requires j <= i < |s| && SinksPast(side, s, i, j)
    ensures SameTies(side, Inserted(s, i, j), s)
  {
    var pre, mid, post := s[..j], s[j..i], s[i + 1..];
    assert s == pre + mid + [s[i]] + post;
    forall x
      ensures WithKey(side, Inserted(s, i, j), x) == WithKey(side, s, x)
    {
      MoveKeepsKey(side, pre, mid, s[i], post, x);
    }
  }

  /**
   * Part way through sinking `s[i]`: it sits at `j`, the elements from `j`
   * to `i - 1` have moved up by one, and everything else is in place.
   */
  ghost predicate SinkingAt(s: seq<OptionContract>, t: seq<OptionContract>, i: nat, j: nat) {
    && j <= i < |s| == |t|
    && (forall k :: 0 <= k < j ==> t[k] == s[k])
    && t[j] == s[i]
    && (forall k :: j < k <= i ==> t[k] == s[k - 1])
    && (forall k :: i < k < |t| ==> t[k] == s[k])
  }

  /** Swapping the sinking element with a strictly greater left neighbour moves it down by one. */
  lemma SinkStep(side: Side, s: seq<OptionContract>, u: seq<OptionContract>, v: seq<OptionContract>, i: nat, j: nat)
    requires SinkingAt(s, u, i, j) && SinksPast(side, s, i, j) && 0 < j
    requires Key(side, u[j - 1]) > Key(side, u[j])
    requires |v| == |u| && v[j - 1] == u[j] && v[j] == u[j - 1]
    requires forall k :: 0 <= k < |v| && k != j - 1 && k != j ==> v[k] == u[k]
    ensures SinkingAt(s, v, i, j - 1) && SinksPast(side, s, i, j - 1)
  {
  }

  /** Once sinking stops, the array read index by index is `Inserted(s, i, j)`. */
  lemma InsertedAt(s: seq<OptionContract>, t: seq<OptionContract>, i: nat, j: nat)
    requires SinkingAt(s, t, i, j)
    ensures t == Inserted(s, i, j)
  {
  }

  /**
   * The inner loop of `sort_by`'s insertion sort: sink `a[i]` down,
   * swapping it with its left neighbour while that neighbour compares
   * strictly greater; `j` is where it comes to rest.
   */
  method Sink(a: array<OptionContract>, side: Side, i: nat) returns (j: nat)
    requires i < a.Length
    modifies a
    ensures j <= i
    ensures a[..] == Inserted(old(a[..]), i, j)
    ensures SinksPast(side, old(a[..]), i, j)
    ensures j == 0 || Key(side, old(a[j - 1])) <= Key(side, old(a[i]))
  {
    ghost var s := a[..];
    j := i;
    while j > 0 && Compare(side, a[j - 1], a[j]) == Greater
      invariant SinkingAt(s, a[..], i, j)
      invariant SinksPast(side, s, i, j)
    {
      CompareByKey(side, a[j - 1], a[j]);
      ghost var u := a[..];
      SwapDown(a, j);
      SinkStep(side, s, u, a[..], i, j);
      j := j - 1;
    }
    if j > 0 {
      CompareByKey(side, a[j - 1], a[j]);
      assert a[j - 1] == s[j - 1] && a[j] == s[i];
    }
    InsertedAt(s, a[..], i, j);
  }

  /** One step of `sort_by`: the sorted prefix grows by one, stably. */
  method Insert(a: array<OptionContract>, side: Side, i: nat)
    requires i < a.Length && SortedFor(side, a[..i])
    modifies a
    ensures SortedFor(side, a[..i + 1])
    ensures a[i + 1..] == old(a[i + 1..])
    ensures multiset(a[..]) == multiset(old(a[..]))
    ensures SameTies(side, a[..], old(a[..]))
  {
    ghost var s := a[..];
    var j := Sink(a, side, i);
    InsertedPermutes(s, i, j);
    InsertedSorted(side, s, i, j);
    InsertedTies(side, s, i, j);
  }

  /**
   * `sort_by` with the side's comparator: sorted, a permutation of the input,
   * and stable (contracts with equal strikes keep their input order).
   */
  method SortBy(a: array<OptionContract>, side: Side)
    modifies a
    ensures SortedFor(side, a[..])
    ensures multiset(a[..]) == multiset(old(a[..]))
    ensures SameTies(side, a[..], old(a[..]))
  {
    for i := 0 to a.Length
      invariant SortedFor(side, a[..i])
      invariant multiset(a[..]) == multiset(old(a[..]))
      invariant SameTies(side, a[..], old(a[..]))
    {
      Insert(a, side, i);
    }
  }

  /** What one side of a slice promises about the chain's contracts of that side. */
  ghost predicate SideSlice(side: Side, contracts: seq<OptionContract>, spot: real, n: nat, r: seq<OptionContract>) {
    var q := Qualifying(side, contracts, spot);
    && (forall c :: c in r ==> Qualifies(side, c, spot))
    && SortedFor(side, r)
    && |r| == (if n < |q| then n else |q|)
    && multiset(r) <= multiset(q)
    && (forall c, d :: c in multiset(q) - multiset(r) && d in r ==> InOrder(side, d, c))
    && (forall x :: WithKey(side, r, x) <= WithKey(side, q, x))
  }

  lemma SortedPrefix(side: Side, s: seq<OptionContract>, m: nat)
    requires SortedFor(side, s) && m <= |s|
    ensures s == s[..m] + s[m..]
    ensures multiset(s) - multiset(s[..m]) == multiset(s[m..])
    ensures forall c, d :: c in s[m..] && d in s[..m] ==> InOrder(side, d, c)
  {
    assert s == s[..m] + s[m..];
    forall c, d | c in s[m..] && d in s[..m]
      ensures InOrder(side, d, c)
    {
      var l :| 0 <= l < |s[m..]| && s[m..][l] == c;
      var k :| 0 <= k < |s[..m]| && s[..m][k] == d;
      assert s[k] == d && s[m + l] == c;
    }
  }

  /** Taking a prefix of the sorted qualifying contracts yields a side slice. */
  lemma TakeSorted(side: Side, contracts: seq<OptionContract>, spot: real, n: nat, sorted: seq<OptionContract>)
    requires SortedFor(side, sorted)
    requires multiset(sorted) == multiset(Qualifying(side, contracts, spot))
    requires SameTies(side, sorted, Qualifying(side, contracts, spot))
    ensures var m := if n < |sorted| then n else |sorted|;
      SideSlice(side, contracts, spot, n, sorted[..m])
  {
    var q := Qualifying(side, contracts, spot);
    var m := if n < |sorted| then n else |sorted|;
    var r := sorted[..m];
    SortedPrefix(side, sorted, m);
    assert |q| == |sorted| by {
      assert |multiset(q)| == |multiset(sorted)|;
    }
    forall c | c in r
      ensures Qualifies(side, c, spot)
    {
      assert c in multiset(sorted);
      assert c in multiset(q);
    }
    forall k, l | 0 <= k < l < |r|
      ensures InOrder(side, r[k], r[l])
    {
      assert r[k] == sorted[k] && r[l] == sorted[l];
    }
    assert multiset(sorted) == multiset(r) + multiset(sorted[m..]);
    forall x
      ensures WithKey(side, r, x) <= WithKey(side, q, x)
    {
      WithKeyAppend(side, r, sorted[m..], x);
    }
  }

  /** Filter, sort, take: one side of the slice. */
  method SliceSide(side: Side, contracts: seq<OptionContract>, spot: real, n: nat) returns (r: seq<OptionContract>)
    ensures SideSlice(side, contracts, spot, n, r)
  {
    var kept := Qualifying(side, contracts, spot);
    var a := new OptionContract[|kept|](i requires 0 <= i < |kept| => kept[i]);
    assert a[..] == kept;
    SortBy(a, side);
    var m := if n < a.Length then n else a.Length;
    r := a[..m];
    TakeSorted(side, contracts, spot, n, a[..]);
  }

  /** The facts about a side slice that pin down which tied contract it holds. */
  lemma SliceFacts(side: Side, contracts: seq<OptionContract>, spot: real, n: nat, r: seq<OptionContract>, x: real)
    requires SideSlice(side, contracts, spot, n, r)
    ensures var q := Qualifying(side, contracts, spot);
      && |r| == (if n < |q| then n else |q|)
      && (forall c :: c in r ==> c in q)
      && WithKey(side, r, x) <= WithKey(side, q, x)
  {
    var q := Qualifying(side, contracts, spot);
    forall c | c in r
      ensures c in q
    {
      assert c in multiset(r);
    }
  }

  /** When every contract qualifies, the filter keeps the list as it is. */
  lemma {:induction false} QualifyingAll(side: Side, s: seq<OptionContract>, spot: real)
    requires forall k :: 0 <= k < |s| ==> Qualifies(side, s[k], spot)
    ensures Qualifying(side, s, spot) == s
  {
    if s != [] {
      var init, last := s[..|s| - 1], s[|s| - 1];
      assert s == init + [last];
      QualifyingAll(side, init, spot);
    }
  }

  /** Of two contracts at one strike, the only one-element prefix of their tie is the first. */
  lemma FirstOfTie(c1: OptionContract, c2: OptionContract, q: seq<OptionContract>, r: seq<OptionContract>)
    requires c1.strike == c2.strike && q == [c1, c2]
    requires |r| == 1 && (forall c :: c in r ==> c in q)
    requires WithKey(Call, r, c1.strike) <= WithKey(Call, q, c1.strike)
    ensures r == [c1]
  {
    var k := c1.strike;
    assert WithKey(Call, [c1, c2], k) == [c1, c2] by {
      assert [c1, c2][..1] == [c1] && [c1][..0] == [];
    }
    assert r == [r[0]] && r[0] in r;
    assert WithKey(Call, [r[0]], k) == [r[0]] by {
      assert [r[0]][..0] == [];
    }
  }

  /**
   * Ties at the cut go to the contract listed first: of two calls at the
   * same strike above the spot, a one-strike slice holds the first.
   */
  lemma TieTakesFirst(c1: OptionContract, c2: OptionContract, spot: real, r: seq<OptionContract>)
    requires c1.strike == c2.strike && c1.strike >= spot
    requires SideSlice(Call, [c1, c2], spot, 1, r)
    ensures r == [c1]
  {
    var q := [c1, c2];
    assert |r| == 1 && (forall c :: c in r ==> c in q) && WithKey(Call, r, c1.strike) <= WithKey(Call, q, c1.strike) by {
      QualifyingAll(Call, q, spot);
      SliceFacts(Call, q, spot, 1, r, c1.strike);
    }
    FirstOfTie(c1, c2, q, r);
  }

  lemma SlicePair(side: Side, contracts: seq<OptionContract>, spot: real, n: nat, r: seq<OptionContract>, k: nat, l: nat)
    requires SideSlice(side, contracts, spot, n, r)
    requires k < l < |r|
    ensures Qualifies(side, r[k], spot) && InOrder(side, r[k], r[l])
  {
    assert r[k] in r;
  }

  /** Calls come out ascending and puts descending, each on their side of the spot. */
  lemma SideSliceOrder(side: Side, contracts: seq<OptionContract>, spot: real, n: nat, r: seq<OptionContract>)
    requires SideSlice(side, contracts, spot, n, r)
    ensures side == Call ==> forall c :: c in r ==> c.strike >= spot
    ensures side == Call ==> forall k, l :: 0 <= k < l < |r| ==> r[k].strike <= r[l].strike
    ensures side == Put ==> forall c :: c in r ==> c.strike <= spot
    ensures side == Put ==> forall k, l :: 0 <= k < l < |r| ==> r[k].strike >= r[l].strike
  {
    forall k, l | 0 <= k < l < |r|
      ensures side == Call ==> r[k].strike <= r[l].strike
      ensures side == Put ==> r[k].strike >= r[l].strike
    {
      SlicePair(side, contracts, spot, n, r, k, l);
    }
  }

  /**
   * The shared tail of both slice operations: a failed chain request passes
   * the client's error through, a chain without an underlying price is
   * NotFound, and otherwise both sides are sliced around it.
   */
  method SliceChain(symbol: string, expiration: string, n: nat, chain: Result<OptionChain, YahooError>)
    returns (r: Result<OptionSlice, FinanceServiceError>)
    ensures chain.Failure? ==> r == Failure(Yahoo(chain.error))
    ensures chain.Success? && chain.value.underlyingPrice.None? ==> r == Failure(NotFound("no underlying price"))
    ensures chain.Success? && chain.value.underlyingPrice.Some? ==>
      var spot := chain.value.underlyingPrice.value;
      && r.Success?
      && r.value.symbol == ToUpper(symbol)
      && r.value.expiration == expiration
      && r.value.spot == spot
      && SideSlice(Call, chain.value.calls, spot, n, r.value.calls)
      && SideSlice(Put, chain.value.puts, spot, n, r.value.puts)
  {
    if chain.Failure? {
      return Failure(Yahoo(chain.error));
    }
    var c := chain.value;
    if c.underlyingPrice.None? {
      return Failure(NotFound("no underlying price"));
    }
    var spot := c.underlyingPrice.value;
    var calls := SliceSide(Call, c.calls, spot, n);
    var puts := SliceSide(Put, c.puts, spot, n);
    r := Success(OptionSlice(ToUpper(symbol), expiration, spot, calls, puts));
  }

  /**
   * `get_option_slice`: the chain is requested for the expiration rendered
   * as YYYY-MM-DD, and that text is the slice's expiration. `chainFor`
   * stands for the client's chain request.
   */
  method GetOptionSlice(
    symbol: string, expiration: NaiveDate, strikesEachSide: nat,
    chainFor: (string, Option<string>) -> Result<OptionChain, YahooError>)
    returns (r: Result<OptionSlice, FinanceServiceError>)
    ensures var chain := chainFor(symbol, Some(IsoDate(expiration)));
      && (chain.Failure? ==> r == Failure(Yahoo(chain.error)))
      && (chain.Success? && chain.value.underlyingPrice.None? ==> r == Failure(NotFound("no underlying price")))
      && (chain.Success? && chain.value.underlyingPrice.Some? ==>
            var spot := chain.value.underlyingPrice.value;
            && r.Success?
            && r.value == r.value.(symbol := ToUpper(symbol), expiration := IsoDate(expiration), spot := spot)
            && SideSlice(Call, chain.value.calls, spot, strikesEachSide, r.value.calls)
            && SideSlice(Put, chain.value.puts, spot, strikesEachSide, r.value.puts))
  {
    var expirationText := IsoDate(expiration);
    r := SliceChain(symbol, expirationText, strikesEachSide, chainFor(symbol, Some(expirationText)));
  }

  /** The index of the first string equal to `target`, as `iter().find`. */
  function Find(s: seq<string>, target: string): (r: Option<nat>)
    ensures r.None? <==> target !in s
    ensures r.Some? ==> r.value < |s| && s[r.value] == target && target !in s[..r.value]
  {
    if s == [] then None
    else if s[0] == target then Some(0)
    else
      match Find(s[1..], target)
      case None => None
      case Some(k) => assert s[1..][..k] == s[1..k + 1]; Some(k + 1)
  }

  /**
   * `get_option_slice_today`: today's YYYY-MM-DD must be among the listed
   * expirations; then the chain for it is sliced as above. `today` stands
   * for the clock and `expirationsFor` for the client's expiration request.
   */
  method GetOptionSliceToday(
    symbol: string, strikesEachSide: nat, today: NaiveDate,
    expirationsFor: string -> Result<seq<string>, YahooError>,
    chainFor: (string, Option<string>) -> Result<OptionChain, YahooError>)
    returns (r: Result<OptionSlice, FinanceServiceError>)
    ensures expirationsFor(symbol).Failure? ==> r == Failure(Yahoo(expirationsFor(symbol).error))
    ensures expirationsFor(symbol).Success? && IsoDate(today) !in expirationsFor(symbol).value ==>
              r == Failure(NotFound("no expiration for today (" + IsoDate(today) + ") for symbol " + symbol))
    ensures expirationsFor(symbol).Success? && IsoDate(today) in expirationsFor(symbol).value ==>
      var chain := chainFor(symbol, Some(IsoDate(today)));
      && (chain.Failure? ==> r == Failure(Yahoo(chain.error)))
      && (chain.Success? && chain.value.underlyingPrice.None? ==> r == Failure(NotFound("no underlying price")))
      && (chain.Success? && chain.value.underlyingPrice.Some? ==>
            var spot := chain.value.underlyingPrice.value;
            && r.Success?
            && r.value == r.value.(symbol := ToUpper(symbol), expiration := IsoDate(today), spot := spot)
            && SideSlice(Call, chain.value.calls, spot, strikesEachSide, r.value.calls)
            && SideSlice(Put, chain.value.puts, spot, strikesEachSide, r.value.puts))
  {
    var listed := expirationsFor(symbol);
    if listed.Failure? {
      return Failure(Yahoo(listed.error));
    }
    var todayText := IsoDate(today);
    var found := Find(listed.value, todayText);
    if found.None? {
      return Failure(NotFound("no expiration for today (" + todayText + ") for symbol " + symbol));
    }
    var expiration := listed.value[found.value];
    r := SliceChain(symbol, expiration, strikesEachSide, chainFor(symbol, Some(expiration)));
  }

  /**
   * `get_option_expirations`: the listed strings that parse as dates, in
   * order; NotFound when none does.
   */
  function GetOptionExpirations(symbol: string, listed: Result<seq<string>, YahooError>): (r: Result<seq<NaiveDate>, FinanceServiceError>)
    ensures listed.Failure? ==> r == Failure(Yahoo(listed.error))
    ensures listed.Success? ==>
      && (r.Failure? <==> forall i :: 0 <= i < |listed.value| ==> ParseIsoDate(listed.value[i]).None?)
      && (r.Failure? ==> r.error == NotFound("no option expirations for symbol " + symbol))
      && (r.Success? ==> r.value == FilterMap(listed.value, ParseIsoDate) && |r.value| <= |listed.value|)
  {
    match listed
    case Failure(e) => Failure(Yahoo(e))
    case Success(strings) =>
      var parsed := FilterMap(strings, ParseIsoDate);
      FilterMapEmpty(strings, ParseIsoDate);
      FilterMapLength(strings, ParseIsoDate);
      if parsed == [] then Failure(NotFound("no option expirations for symbol " + symbol))
      else Success(parsed)
  }

  /** Every date listed in canonical YYYY-MM-DD form comes back. */
  lemma ExpirationsKeepCanonicalDates(symbol: string, listed: seq<string>, d: NaiveDate)
    requires 0 <= d.year < 10000
    requires IsoDate(d) in listed
    ensures GetOptionExpirations(symbol, Success(listed)).Success?
    ensures d in GetOptionExpirations(symbol, Success(listed)).value
  {
    var i :| 0 <= i < |listed| && listed[i] == IsoDate(d);
    ParseIsoDateRoundTrip(d);
    FilterMapKeeps(listed, ParseIsoDate, i);
  }
}
