/** The decision logic of the Cetus liquidity service: the fee-tier table, the
    explorer links, the network check at start-up, and the guards, canonical
    reordering and amount selection of pool creation, position opening and
    removal, and token swaps. The SDK's tick and liquidity maths and every
    ledger call are parameters (`Clients`), left uninterpreted. */
module CetusService {
  import opened JsValues
  import Text

  // ---------------------------------------------------------------------------
  // Ledger and SDK values

  datatype TokenMetadata = TokenMetadata(id: string, tokenAddress: string, decimals: nat)

  datatype Pool = Pool(poolAddress: string, coinTypeA: string, coinTypeB: string,
                       tickSpacing: nat, currentSqrtPrice: int)

  datatype Position = Position(posObjectId: string, pool: string, tickLowerIndex: int, tickUpperIndex: int)

  datatype LiquidityEstimate = LiquidityEstimate(liquidityAmount: int, tokenMaxA: int, tokenMaxB: int)

  /** A route found by the aggregator: its hops (opaque here) and quoted output. */
  datatype Route = Route(hops: seq<string>, amountOut: int)

  datatype Coin = Coin(coinObjectId: string)

  // ---------------------------------------------------------------------------
  // Transactions handed to the signer

  datatype CreatePoolPayload = CreatePoolPayload(
    coinTypeA: string, coinTypeB: string, tickSpacing: nat, initializeSqrtPrice: int, uri: string,
    amountA: int, amountB: int, fixAmountA: bool, tickLower: int, tickUpper: int,
    metadataA: string, metadataB: string, slippage: real)

  datatype AddLiquidityPayload = AddLiquidityPayload(
    coinTypeA: string, coinTypeB: string, amountA: int, amountB: int, fixAmountA: bool,
    tickLower: int, tickUpper: int, slippage: real, poolId: string, isOpen: bool,
    collectFee: bool, posId: string, curSqrtPrice: int)

  datatype RemoveLiquidityPayload = RemoveLiquidityPayload(
    coinTypeA: string, coinTypeB: string, deltaLiquidity: int, minAmountA: int, minAmountB: int,
    poolId: string, posId: string, collectFee: bool)

  /** Where a swap's input coin comes from: split off the gas coin, or all the
      wallet's coins of the type merged into the first and then split. */
  datatype InputCoin =
    | SplitFromGas(amount: int)
    | MergeThenSplit(primary: string, merged: seq<string>, amount: int)

  datatype SwapPayload = SwapPayload(hops: seq<string>, input: InputCoin, slippage: real, recipient: string)

  datatype Transaction =
    | CreatePoolTx(createPool: CreatePoolPayload)
    | AddLiquidityTx(addLiquidity: AddLiquidityPayload)
    | RemoveLiquidityTx(removeLiquidity: RemoveLiquidityPayload)
    | SwapTx(swap: SwapPayload)

  /** The SDK functions and ledger calls the service uses, each an
      uninterpreted function; `sender` is the wallet's address. */
  datatype Clients = Clients(
    sender: string,
    // isSortedSymbols over the normalised addresses
    isSortedSymbols: (string, string) -> bool,
    priceToSqrtPriceX64: (real, nat, nat) -> int,
    sqrtPriceX64ToTickIndex: int -> int,
    priceToTickIndex: (real, nat, nat) -> int,
    prevInitializableTickIndex: (int, nat) -> int,
    nextInitializableTickIndex: (int, nat) -> int,
    // estLiquidityAndcoinAmountFromOneAmounts(lower, upper, amount, isFixedA, roundUp, slippage, sqrtPrice)
    estLiquidity: (int, int, int, bool, bool, real, int) -> LiquidityEstimate,
    // adjustForCoinSlippage(coinA, coinB, percent): the slippage as `percent / 100`
    adjustForCoinSlippage: (int, int, int) -> (int, int),
    // getAmount: a decimal amount scaled by 10^decimals
    getAmount: (real, nat) -> int,
    tokenMetadata: string -> TokenMetadata,
    poolsByCoins: (string, string, real) -> seq<Pool>,
    getPool: string -> Pool,
    positionById: string -> Option<Position>,
    findRouters: (string, string, int) -> Option<Route>,
    // getCoins(owner, coinType, limit)
    getCoins: (string, string, nat) -> seq<Coin>,
    // signs with the wallet, executes, and returns the digest
    signAndExecute: (Transaction, string) -> string)

  // ---------------------------------------------------------------------------
  // Outcomes

  /** What an operation decides: report a failure, return nothing (`return;`),
      or submit a transaction and report the given success message. */
  datatype Decision<P> =
    | Reject(message: string)
    | Abandon
    | Submit(payload: P, successMessage: string)

  /** The `{ success, tx, message }` envelope every operation returns. */
  datatype Envelope = Envelope(success: bool, tx: string, message: string)

  /** Turns a decision into the operation's return value (`None` is
      `undefined`), submitting the payload, as the transaction `wrap` makes of
      it, through the wallet's signer when there is one. */
  function Respond<P>(c: Clients, d: Decision<P>, wrap: P -> Transaction): (r: Option<Envelope>)
    ensures r.None? <==> d.Abandon?
    ensures r.Some? ==> (r.value.success <==> d.Submit?)
    ensures r.Some? && !r.value.success ==> r.value.tx == "" && r.value.message == d.message
    ensures d.Submit? ==> r == Some(Envelope(true, c.signAndExecute(wrap(d.payload), c.sender), d.successMessage))
  {
    match d
    case Reject(message) => Some(Envelope(false, "", message))
    case Abandon => None
    case Submit(payload, successMessage) => Some(Envelope(true, c.signAndExecute(wrap(payload), c.sender), successMessage))
  }

  // ---------------------------------------------------------------------------
  // Fee tiers

  /** The fee tiers, as exact rates, with their tick spacings. */
  const FeeTiers: seq<(real, nat)> :=
    [(0.02, 220), (0.01, 200), (0.0025, 60), (0.001, 20), (0.0005, 10), (0.0001, 2)]

  /** getTickSpacing: the spacing of a supported fee tier, `None` (null) for
      any other rate. */
  function TickSpacing(feeRate: real): (spacing: Option<nat>)
    ensures spacing.Some? <==> exists i :: 0 <= i < |FeeTiers| && FeeTiers[i].0 == feeRate
    ensures forall i :: 0 <= i < |FeeTiers| && FeeTiers[i].0 == feeRate ==> spacing == Some(FeeTiers[i].1)
  {
    assert FeeTiers[0].0 == 0.02 && FeeTiers[1].0 == 0.01 && FeeTiers[2].0 == 0.0025;
    assert FeeTiers[3].0 == 0.001 && FeeTiers[4].0 == 0.0005 && FeeTiers[5].0 == 0.0001;
    if feeRate == 0.02 then Some(220)
    else if feeRate == 0.01 then Some(200)
    else if feeRate == 0.0025 then Some(60)
    else if feeRate == 0.001 then Some(20)
    else if feeRate == 0.0005 then Some(10)
    else if feeRate == 0.0001 then Some(2)
    else None
  }

  /** A higher fee tier has a wider tick spacing, so the spacing identifies the
      tier; no spacing is zero, which the `!tickSpacing` test would reject. */
  lemma TickSpacingStrictlyIncreasing(f: real, g: real)
    requires TickSpacing(f).Some? && TickSpacing(g).Some? && f < g
    ensures 0 < TickSpacing(f).value < TickSpacing(g).value
  {
  }

  // ---------------------------------------------------------------------------
  // Canonical ordering of a coin pair

  /** A price range for a coin pair, prices in units of B per unit of A. */
  datatype PriceRange = PriceRange(lower: real, upper: real)

  /** The same range seen from the other coin: bounds inverted and exchanged. */
  function Inverted(r: PriceRange): (inv: PriceRange)
    requires r.lower != 0.0 && r.upper != 0.0
    ensures inv.lower * r.upper == 1.0 && inv.upper * r.lower == 1.0
  {
    PriceRange(1.0 / r.upper, 1.0 / r.lower)
  }

  lemma InverseAntitone(x: real, y: real)
    requires 0.0 < x <= y
    ensures 0.0 < 1.0 / y <= 1.0 / x
  {
    var a, b := 1.0 / x, 1.0 / y;
    assert a * x == 1.0 && b * y == 1.0;
    assert a * x <= a * y;
    assert (a - b) * y >= 0.0;
  }

  /** Inverting keeps the prices positive, keeps `lower <= upper`, and keeps a
      price inside the range inside the inverted range. */
  lemma InvertedKeepsOrder(r: PriceRange, price: real)
    requires 0.0 < r.lower <= r.upper && price > 0.0
    ensures 0.0 < Inverted(r).lower <= Inverted(r).upper
    ensures r.lower <= price <= r.upper ==> Inverted(r).lower <= 1.0 / price <= Inverted(r).upper
  {
    InverseAntitone(r.lower, r.upper);
    if r.lower <= price <= r.upper {
      InverseAntitone(r.lower, price);
      InverseAntitone(price, r.upper);
    }
  }

  /** Inverting twice gives the range back. */
  lemma InvertedTwice(r: PriceRange)
    requires r.lower > 0.0 && r.upper > 0.0
    ensures Inverted(r).lower > 0.0 && Inverted(r).upper > 0.0
    ensures Inverted(Inverted(r)) == r
  {
  }

  /** The amounts sent with a fixed-side operation: the fixed side is the
      caller's amount, the other side the estimate's maximum. */
  function Amounts(isFixedCoinA: bool, amount: int, est: LiquidityEstimate): (ab: (int, int))
    ensures isFixedCoinA ==> ab.0 == amount && ab.1 == est.tokenMaxB
    ensures !isFixedCoinA ==> ab.0 == est.tokenMaxA && ab.1 == amount
  {
    if isFixedCoinA then (amount, est.tokenMaxB) else (est.tokenMaxA, amount)
  }

  // ---------------------------------------------------------------------------
  // createPool

  datatype CreatePoolParams = CreatePoolParams(
    coinTypeA: string, coinTypeB: string, feeRate: real,
    initialPrice: real, lowerPrice: real, upperPrice: real,
    isFixedCoinA: bool, amount: int, url: Option<string>)

  /** Whether the caller's pair is out of canonical order and gets exchanged. */
  predicate Reordered(c: Clients, coinTypeA: string, coinTypeB: string) {
    c.isSortedSymbols(coinTypeA, coinTypeB)
  }

  /** The pair in canonical order: the same two coins, exchanged exactly when
      the caller's order is not canonical. */
  function CanonicalPair(c: Clients, coinTypeA: string, coinTypeB: string): (pair: (string, string))
    ensures multiset{pair.0, pair.1} == multiset{coinTypeA, coinTypeB}
    ensures Reordered(c, coinTypeA, coinTypeB) ==> pair == (coinTypeB, coinTypeA)
    ensures !Reordered(c, coinTypeA, coinTypeB) ==> pair == (coinTypeA, coinTypeB)
  {
    if Reordered(c, coinTypeA, coinTypeB) then (coinTypeB, coinTypeA) else (coinTypeA, coinTypeB)
  }

  /** The steps of createPool, with the canonical side whose amount is fixed
      given as `fixCanonicalA`: refuse when exactly one pool exists for the
      pair and fee rate, reorder the pair (inverting the initial price),
      return nothing for an unsupported fee rate, and otherwise build a pool
      over the initializable ticks on either side of the initial price's tick.
      The caller's lower and upper prices take no part. */
  function BuildCreatePool(c: Clients, params: CreatePoolParams, fixCanonicalA: bool): (d: Decision<CreatePoolPayload>)
    requires params.initialPrice != 0.0
    ensures var pools := c.poolsByCoins(params.coinTypeA, params.coinTypeB, params.feeRate);
            && (d.Reject? <==> |pools| == 1)
            && (d.Reject? ==> d.message == "Pool: " + pools[0].poolAddress + " already exists")
            && (d.Abandon? <==> |pools| != 1 && TickSpacing(params.feeRate).None?)
    ensures d.Submit? ==>
              var p := d.payload;
              var reordered := Reordered(c, params.coinTypeA, params.coinTypeB);
              var est := c.estLiquidity(p.tickLower, p.tickUpper, params.amount, fixCanonicalA, true, 0.1, p.initializeSqrtPrice);
              && d.successMessage == "Create pool successful"
              && (p.coinTypeA, p.coinTypeB) == CanonicalPair(c, params.coinTypeA, params.coinTypeB)
              // the initial price, seen from the canonical coin A
              && p.initializeSqrtPrice == c.priceToSqrtPriceX64(
                   if reordered then 1.0 / params.initialPrice else params.initialPrice,
                   c.tokenMetadata(p.coinTypeA).decimals, c.tokenMetadata(p.coinTypeB).decimals)
              && p.metadataA == c.tokenMetadata(p.coinTypeA).id && p.metadataB == c.tokenMetadata(p.coinTypeB).id
              // the fee tier's spacing, and the range around the initial price's tick
              && Some(p.tickSpacing) == TickSpacing(params.feeRate)
              && p.tickLower == c.prevInitializableTickIndex(c.sqrtPriceX64ToTickIndex(p.initializeSqrtPrice), p.tickSpacing)
              && p.tickUpper == c.nextInitializableTickIndex(c.sqrtPriceX64ToTickIndex(p.initializeSqrtPrice), p.tickSpacing)
              // the caller's amount on the fixed side, unchanged, and the estimate's
              // maximum for the ticks and the initial price on the other
              && p.fixAmountA == fixCanonicalA
              && (p.amountA, p.amountB) == (if fixCanonicalA then (params.amount, est.tokenMaxB) else (est.tokenMaxA, params.amount))
              && p.uri == (if params.url.Some? then params.url.value else "")
              && p.slippage == 0.1
  {
    var pools := c.poolsByCoins(params.coinTypeA, params.coinTypeB, params.feeRate);
    if |pools| == 1 then Reject("Pool: " + pools[0].poolAddress + " already exists")
    else
      var (coinTypeA, coinTypeB) := CanonicalPair(c, params.coinTypeA, params.coinTypeB);
      var initialPrice := if Reordered(c, params.coinTypeA, params.coinTypeB) then 1.0 / params.initialPrice else params.initialPrice;
      var metaA, metaB := c.tokenMetadata(coinTypeA), c.tokenMetadata(coinTypeB);
      var initialSqrtPrice := c.priceToSqrtPriceX64(initialPrice, metaA.decimals, metaB.decimals);
      var currentTickIndex := c.sqrtPriceX64ToTickIndex(initialSqrtPrice);
      match TickSpacing(params.feeRate)
      case None => Abandon
      case Some(tickSpacing) =>
        var lowerTick := c.prevInitializableTickIndex(currentTickIndex, tickSpacing);
        var upperTick := c.nextInitializableTickIndex(currentTickIndex, tickSpacing);
        var estimate := c.estLiquidity(lowerTick, upperTick, params.amount, fixCanonicalA, true, 0.1, initialSqrtPrice);
        var (amountA, amountB) := Amounts(fixCanonicalA, params.amount, estimate);
        var uri := if params.url.Some? && params.url.value != "" then params.url.value else "";
        Submit(CreatePoolPayload(coinTypeA, coinTypeB, tickSpacing, initialSqrtPrice, uri,
                                 amountA, amountB, fixCanonicalA, lowerTick, upperTick,
                                 metaA.id, metaB.id, 0.1),
               "Create pool successful")
  }

  /** createPool as written: the caller's `isFixedCoinA` is passed on
      unchanged, even when the pair has been exchanged. */
  function CreatePool(c: Clients, params: CreatePoolParams): (d: Decision<CreatePoolPayload>)
    requires params.initialPrice != 0.0
    ensures d.Submit? ==> d.payload.fixAmountA == params.isFixedCoinA
    ensures d.Submit? ==> (if params.isFixedCoinA then d.payload.amountA else d.payload.amountB) == params.amount
  {
    BuildCreatePool(c, params, params.isFixedCoinA)
  }

  /** After an exchange, the amount the caller fixed for its coin A is sent as
      the amount of its coin B. */
  lemma CreatePoolFixesTheOtherCoin(c: Clients, params: CreatePoolParams)
    requires params.initialPrice != 0.0 && params.isFixedCoinA
    requires Reordered(c, params.coinTypeA, params.coinTypeB)
    requires |c.poolsByCoins(params.coinTypeA, params.coinTypeB, params.feeRate)| != 1
    requires TickSpacing(params.feeRate).Some?
    ensures var d := CreatePool(c, params);
            d.Submit? && d.payload.fixAmountA && d.payload.coinTypeA == params.coinTypeB
            && d.payload.amountA == params.amount
  {
  }

  /** createPool as intended: the fixed side follows the caller's coin through
      the exchange. */
  function CreatePoolIntended(c: Clients, params: CreatePoolParams): (d: Decision<CreatePoolPayload>)
    requires params.initialPrice != 0.0
    ensures d.Submit? ==>
              var fixedCoin := if d.payload.fixAmountA then d.payload.coinTypeA else d.payload.coinTypeB;
              var fixedAmount := if d.payload.fixAmountA then d.payload.amountA else d.payload.amountB;
              && fixedCoin == (if params.isFixedCoinA then params.coinTypeA else params.coinTypeB)
              && fixedAmount == params.amount
  {
    BuildCreatePool(c, params, params.isFixedCoinA != Reordered(c, params.coinTypeA, params.coinTypeB))
  }

  /** Canonical reordering: a request naming the pair in the other order, with
      the initial price inverted and the other coin fixed, builds the same pool. */
  lemma CreatePoolIntendedIgnoresPairOrder(c: Clients, params: CreatePoolParams)
    requires params.initialPrice != 0.0
    requires Reordered(c, params.coinTypeA, params.coinTypeB) && !Reordered(c, params.coinTypeB, params.coinTypeA)
    requires c.poolsByCoins(params.coinTypeA, params.coinTypeB, params.feeRate)
             == c.poolsByCoins(params.coinTypeB, params.coinTypeA, params.feeRate)
    ensures var flipped := params.(coinTypeA := params.coinTypeB, coinTypeB := params.coinTypeA,
                                   initialPrice := 1.0 / params.initialPrice,
                                   isFixedCoinA := !params.isFixedCoinA);
            flipped.initialPrice != 0.0 && CreatePoolIntended(c, flipped) == CreatePoolIntended(c, params)
  {
  }

  /** The code as written also builds the same pool when the pair is named in
      the other order with the initial price inverted, but with the same flag:
      the flag always names the canonical coin A. */
  lemma CreatePoolIgnoresPairOrder(c: Clients, params: CreatePoolParams)
    requires params.initialPrice != 0.0
    requires Reordered(c, params.coinTypeA, params.coinTypeB) && !Reordered(c, params.coinTypeB, params.coinTypeA)
    requires c.poolsByCoins(params.coinTypeA, params.coinTypeB, params.feeRate)
             == c.poolsByCoins(params.coinTypeB, params.coinTypeA, params.feeRate)
    ensures var flipped := params.(coinTypeA := params.coinTypeB, coinTypeB := params.coinTypeA,
                                   initialPrice := 1.0 / params.initialPrice);
            flipped.initialPrice != 0.0 && CreatePool(c, flipped) == CreatePool(c, params)
  {
  }

  // ---------------------------------------------------------------------------
  // openPositionWithLiquidity

  datatype OpenPositionParams = OpenPositionParams(
    coinTypeA: string, coinTypeB: string, feeRate: real,
    lowerPrice: real, upperPrice: real, isFixedCoinA: bool, amount: int,
    poolAddress: Option<string>, slippage: real)

  /** The pool an open-position request targets: the one at the given address,
      or the single pool the pair and fee rate find. */
  function TargetPool(c: Clients, params: OpenPositionParams): (pool: Option<Pool>)
    ensures params.poolAddress.Some? ==> pool == Some(c.getPool(params.poolAddress.value))
    ensures params.poolAddress.None? ==>
              var pools := c.poolsByCoins(params.coinTypeA, params.coinTypeB, params.feeRate);
              (pool.Some? <==> |pools| == 1) && (pool.Some? ==> pool.value == pools[0])
  {
    if params.poolAddress.None? then
      var pools := c.poolsByCoins(params.coinTypeA, params.coinTypeB, params.feeRate);
      if |pools| != 1 then None else Some(pools[0])
    else
      Some(c.getPool(params.poolAddress.value))
  }

  /** The caller's price range in canonical order: kept when the pair is
      already canonical, inverted when it is exchanged; an ordered positive
      range stays ordered and positive. */
  function CanonicalRange(c: Clients, params: OpenPositionParams): (range: PriceRange)
    requires params.lowerPrice != 0.0 && params.upperPrice != 0.0
    ensures !Reordered(c, params.coinTypeA, params.coinTypeB) ==> range == PriceRange(params.lowerPrice, params.upperPrice)
    ensures Reordered(c, params.coinTypeA, params.coinTypeB) ==>
              range.lower * params.upperPrice == 1.0 && range.upper * params.lowerPrice == 1.0
    ensures 0.0 < params.lowerPrice <= params.upperPrice ==> 0.0 < range.lower <= range.upper
  {
    var range := PriceRange(params.lowerPrice, params.upperPrice);
    if Reordered(c, params.coinTypeA, params.coinTypeB) then
      if 0.0 < params.lowerPrice <= params.upperPrice then
        InvertedKeepsOrder(range, params.lowerPrice);
        Inverted(range)
      else
        Inverted(range)
    else range
  }

  /** The steps of openPositionWithLiquidity, with the canonical side whose
      amount is fixed given as `fixCanonicalA`: find the pool, reorder the pair
      and the range, and add liquidity to a new position over the range's
      ticks widened to the pool's spacing, against the pool's live price. */
  function BuildOpenPosition(c: Clients, params: OpenPositionParams, fixCanonicalA: bool): (d: Decision<AddLiquidityPayload>)
    requires params.lowerPrice != 0.0 && params.upperPrice != 0.0
    ensures !d.Abandon?
    ensures d.Reject? <==> TargetPool(c, params).None?
    ensures d.Reject? ==> d.message == "Pool not found"
    ensures d.Submit? ==>
              var pool := TargetPool(c, params).value;
              var range := CanonicalRange(c, params);
              var p := d.payload;
              var decimalsA, decimalsB := c.tokenMetadata(p.coinTypeA).decimals, c.tokenMetadata(p.coinTypeB).decimals;
              var est := c.estLiquidity(p.tickLower, p.tickUpper, params.amount, fixCanonicalA, true, 0.1, pool.currentSqrtPrice);
              && d.successMessage == "Open position with liquidity successful"
              && (p.coinTypeA, p.coinTypeB) == CanonicalPair(c, params.coinTypeA, params.coinTypeB)
              // ticks from the canonical range, widened to the pool's spacing
              && p.tickLower == c.prevInitializableTickIndex(c.priceToTickIndex(range.lower, decimalsA, decimalsB), pool.tickSpacing)
              && p.tickUpper == c.nextInitializableTickIndex(c.priceToTickIndex(range.upper, decimalsA, decimalsB), pool.tickSpacing)
              // against the pool's live price
              && p.poolId == pool.poolAddress && p.curSqrtPrice == pool.currentSqrtPrice
              // the caller's amount on the fixed side, unchanged, and the estimate's
              // maximum for the ticks and the pool's price on the other
              && p.fixAmountA == fixCanonicalA
              && (p.amountA, p.amountB) == (if fixCanonicalA then (params.amount, est.tokenMaxB) else (est.tokenMaxA, params.amount))
              && p.slippage == params.slippage
              && p.isOpen && !p.collectFee && p.posId == ""
  {
    match TargetPool(c, params)
    case None => Reject("Pool not found")
    case Some(pool) =>
      var (coinTypeA, coinTypeB) := CanonicalPair(c, params.coinTypeA, params.coinTypeB);
      var range := CanonicalRange(c, params);
      var metaA, metaB := c.tokenMetadata(coinTypeA), c.tokenMetadata(coinTypeB);
      var lowerTickIndex := c.priceToTickIndex(range.lower, metaA.decimals, metaB.decimals);
      var upperTickIndex := c.priceToTickIndex(range.upper, metaA.decimals, metaB.decimals);
      var lowerTick := c.prevInitializableTickIndex(lowerTickIndex, pool.tickSpacing);
      var upperTick := c.nextInitializableTickIndex(upperTickIndex, pool.tickSpacing);
      var estimate := c.estLiquidity(lowerTick, upperTick, params.amount, fixCanonicalA, true, 0.1, pool.currentSqrtPrice);
      var (amountA, amountB) := Amounts(fixCanonicalA, params.amount, estimate);
      Submit(AddLiquidityPayload(coinTypeA, coinTypeB, amountA, amountB, fixCanonicalA,
                                 lowerTick, upperTick, params.slippage, pool.poolAddress, true,
                                 false, "", pool.currentSqrtPrice),
             "Open position with liquidity successful")
  }

  /** openPositionWithLiquidity as written: the caller's `isFixedCoinA` is
      passed on unchanged, even when the pair has been exchanged. */
  function OpenPositionWithLiquidity(c: Clients, params: OpenPositionParams): (d: Decision<AddLiquidityPayload>)
    requires params.lowerPrice != 0.0 && params.upperPrice != 0.0
    ensures d.Submit? ==> d.payload.fixAmountA == params.isFixedCoinA
    ensures d.Submit? ==> (if params.isFixedCoinA then d.payload.amountA else d.payload.amountB) == params.amount
  {
    BuildOpenPosition(c, params, params.isFixedCoinA)
  }

  /** After an exchange, the amount the caller fixed for its coin A is sent as
      the amount of its coin B. */
  lemma OpenPositionFixesTheOtherCoin(c: Clients, params: OpenPositionParams)
    requires params.lowerPrice != 0.0 && params.upperPrice != 0.0 && params.isFixedCoinA
    requires Reordered(c, params.coinTypeA, params.coinTypeB) && TargetPool(c, params).Some?
    ensures var d := OpenPositionWithLiquidity(c, params);
            d.Submit? && d.payload.fixAmountA && d.payload.coinTypeA == params.coinTypeB
            && d.payload.amountA == params.amount
  {
  }

  /** openPositionWithLiquidity as intended: the fixed side follows the
      caller's coin through the exchange. */
  function OpenPositionIntended(c: Clients, params: OpenPositionParams): (d: Decision<AddLiquidityPayload>)
    requires params.lowerPrice != 0.0 && params.upperPrice != 0.0
    ensures d.Submit? ==>
              var fixedCoin := if d.payload.fixAmountA then d.payload.coinTypeA else d.payload.coinTypeB;
              var fixedAmount := if d.payload.fixAmountA then d.payload.amountA else d.payload.amountB;
              && fixedCoin == (if params.isFixedCoinA then params.coinTypeA else params.coinTypeB)
              && fixedAmount == params.amount
  {
    BuildOpenPosition(c, params, params.isFixedCoinA != Reordered(c, params.coinTypeA, params.coinTypeB))
  }

  /** Canonical reordering: naming the pair in the other order, with the range
      inverted and the other coin fixed, opens the same position. */
  lemma OpenPositionIntendedIgnoresPairOrder(c: Clients, params: OpenPositionParams)
    requires params.lowerPrice > 0.0 && params.upperPrice > 0.0
    requires Reordered(c, params.coinTypeA, params.coinTypeB) && !Reordered(c, params.coinTypeB, params.coinTypeA)
    requires c.poolsByCoins(params.coinTypeA, params.coinTypeB, params.feeRate)
             == c.poolsByCoins(params.coinTypeB, params.coinTypeA, params.feeRate)
    ensures var flipped := params.(coinTypeA := params.coinTypeB, coinTypeB := params.coinTypeA,
                                   lowerPrice := 1.0 / params.upperPrice, upperPrice := 1.0 / params.lowerPrice,
                                   isFixedCoinA := !params.isFixedCoinA);
            flipped.lowerPrice != 0.0 && flipped.upperPrice != 0.0
            && OpenPositionIntended(c, flipped) == OpenPositionIntended(c, params)
  {
  }

  /** The code as written also opens the same position when the pair is named
      in the other order with the range inverted, but with the same flag. */
  lemma OpenPositionIgnoresPairOrder(c: Clients, params: OpenPositionParams)
    requires params.lowerPrice > 0.0 && params.upperPrice > 0.0
    requires Reordered(c, params.coinTypeA, params.coinTypeB) && !Reordered(c, params.coinTypeB, params.coinTypeA)
    requires c.poolsByCoins(params.coinTypeA, params.coinTypeB, params.feeRate)
             == c.poolsByCoins(params.coinTypeB, params.coinTypeA, params.feeRate)
    ensures var flipped := params.(coinTypeA := params.coinTypeB, coinTypeB := params.coinTypeA,
                                   lowerPrice := 1.0 / params.upperPrice, upperPrice := 1.0 / params.lowerPrice);
            flipped.lowerPrice != 0.0 && flipped.upperPrice != 0.0
            && OpenPositionWithLiquidity(c, flipped) == OpenPositionWithLiquidity(c, params)
  {
  }

  // ---------------------------------------------------------------------------
  // removePositionWithLiquidity

  /** `new BN(slippage * 100)`: the numerator of the slippage percentage. A
      BN built from a number keeps only its integer part, truncated toward zero. */
  function SlippagePercent(slippage: real): (n: int)
    ensures slippage >= 0.0 ==> n as real <= slippage * 100.0 < n as real + 1.0
    ensures slippage < 0.0 ==> n as real - 1.0 < slippage * 100.0 <= n as real
  {
    var x := slippage * 100.0;
    if x >= 0.0 then x.Floor else -((-x).Floor)
  }

  /** A slippage below one percent is passed to the adjustment as zero, and
      fractions of a percent are dropped. */
  lemma SubPercentSlippageIsDropped()
    ensures SlippagePercent(0.005) == 0 && SlippagePercent(0.0125) == 1 && SlippagePercent(0.5) == 50
  {
  }

  datatype RemovePositionParams = RemovePositionParams(
    positionId: string, amount: real, isFixedCoinA: bool, slippage: real)

  /** Removes liquidity from a position: the fixed side's amount, scaled by its
      token's decimals, decides how much; the minimum amounts received are the
      estimate less the slippage allowance, and fees are collected. */
  function RemovePositionWithLiquidity(c: Clients, params: RemovePositionParams): (d: Decision<RemoveLiquidityPayload>)
    ensures !d.Abandon?
    ensures d.Reject? <==> c.positionById(params.positionId).None?
    ensures d.Reject? ==> d.message == "Position not found"
    ensures d.Submit? ==>
              var position := c.positionById(params.positionId).value;
              var pool := c.getPool(position.pool);
              var fixedMeta := c.tokenMetadata(if params.isFixedCoinA then pool.coinTypeA else pool.coinTypeB);
              var fixedAmount := c.getAmount(params.amount, fixedMeta.decimals);
              var estimate := c.estLiquidity(position.tickLowerIndex, position.tickUpperIndex, fixedAmount,
                                             params.isFixedCoinA, false, params.slippage, pool.currentSqrtPrice);
              var p := d.payload;
              && d.successMessage == "Remove position with liquidity successful"
              // the pool's own coin order, not the caller's
              && p.coinTypeA == pool.coinTypeA && p.coinTypeB == pool.coinTypeB
              && p.poolId == pool.poolAddress && p.posId == position.posObjectId
              && p.deltaLiquidity == estimate.liquidityAmount
              // the minimums bound the fixed side's scaled amount and the estimate of the other
              && (p.minAmountA, p.minAmountB) == c.adjustForCoinSlippage(
                   if params.isFixedCoinA then fixedAmount else estimate.tokenMaxA,
                   if params.isFixedCoinA then estimate.tokenMaxB else fixedAmount,
                   SlippagePercent(params.slippage))
              && p.collectFee
  {
    match c.positionById(params.positionId)
    case None => Reject("Position not found")
    case Some(position) =>
      var pool := c.getPool(position.pool);
      var metaA, metaB := c.tokenMetadata(pool.coinTypeA), c.tokenMetadata(pool.coinTypeB);
      var fixedAmount := c.getAmount(params.amount, if params.isFixedCoinA then metaA.decimals else metaB.decimals);
      var estimate := c.estLiquidity(position.tickLowerIndex, position.tickUpperIndex, fixedAmount,
                                     params.isFixedCoinA, false, params.slippage, pool.currentSqrtPrice);
      var amounts := Amounts(params.isFixedCoinA, fixedAmount, estimate);
      var minimums := c.adjustForCoinSlippage(amounts.0, amounts.1, SlippagePercent(params.slippage));
      var payload := RemoveLiquidityPayload(pool.coinTypeA, pool.coinTypeB, estimate.liquidityAmount,
                                            minimums.0, minimums.1, pool.poolAddress, position.posObjectId, true);
      Submit(payload, "Remove position with liquidity successful")
  }

  /** A missing position is reported before any pool is read: the outcome does
      not depend on what the pool lookup would return. */
  lemma MissingPositionReadsNoPool(c: Clients, params: RemovePositionParams, getPool: string -> Pool)
    requires c.positionById(params.positionId).None?
    ensures RemovePositionWithLiquidity(c.(getPool := getPool), params) == RemovePositionWithLiquidity(c, params)
    ensures RemovePositionWithLiquidity(c, params) == Reject("Position not found")
  {
  }

  // ---------------------------------------------------------------------------
  // swapToken

  /** The ids of a list of coins, in order. */
  function CoinIds(coins: seq<Coin>): (ids: seq<string>)
    ensures |ids| == |coins|
  {
    seq(|coins|, i requires 0 <= i < |coins| => coins[i].coinObjectId)
  }

  /** The aggregator's route for a swap of `amount` of `fromToken` into `targetToken`. */
  function FoundRoute(c: Clients, fromToken: string, targetToken: string, amount: int): Option<Route> {
    c.findRouters(c.tokenMetadata(fromToken).tokenAddress, c.tokenMetadata(targetToken).tokenAddress, amount)
  }

  /** A route was found and its quoted output reaches the caller's minimum. */
  predicate RouteAcceptable(route: Option<Route>, minAmountOut: real) {
    route.Some? && !((route.value.amountOut as real) < minAmountOut)
  }

  /** The wallet's coins of the input token, as one `getCoins` page of 30. */
  function WalletCoins(c: Clients, fromToken: string): seq<Coin> {
    c.getCoins(c.sender, c.tokenMetadata(fromToken).tokenAddress, 30)
  }

  /** Swaps a fixed input amount along the aggregator's route. The route and
      its quoted output are checked before any coin is touched; the SUI input
      is split off the gas coin, any other input merges every coin of its type
      into the first and splits the amount off that. */
  method SwapToken(c: Clients, fromToken: string, amount: int, slippage: real,
                   targetToken: string, minAmountOut: real) returns (d: Decision<SwapPayload>)
    ensures !d.Abandon?
    ensures var route := FoundRoute(c, fromToken, targetToken, amount);
            && (route.None? ==> d == Reject("No router found"))
            && (route.Some? && !RouteAcceptable(route, minAmountOut) ==> d == Reject("Out amount is less than out_min_amount"))
    // passing the guards with a coin to spend always submits the swap
    ensures (&& RouteAcceptable(FoundRoute(c, fromToken, targetToken, amount), minAmountOut)
             && (Text.Upper(fromToken) == "SUI" || WalletCoins(c, fromToken) != []))
            ==> d.Submit?
    ensures d == Reject("No coins found") <==>
              && RouteAcceptable(FoundRoute(c, fromToken, targetToken, amount), minAmountOut)
              && Text.Upper(fromToken) != "SUI" && WalletCoins(c, fromToken) == []
    ensures d.Submit? ==>
              var s := d.payload;
              && RouteAcceptable(FoundRoute(c, fromToken, targetToken, amount), minAmountOut)
              && d.successMessage == "Swap successful"
              && s.hops == FoundRoute(c, fromToken, targetToken, amount).value.hops
              && s.slippage == slippage && s.recipient == c.sender
              && s.input.amount == amount
              && (s.input.SplitFromGas? <==> Text.Upper(fromToken) == "SUI")
              // every coin of the type takes part: the first receives the others
              && (s.input.MergeThenSplit? ==> [s.input.primary] + s.input.merged == CoinIds(WalletCoins(c, fromToken)))
  {
    var fromMeta, toMeta := c.tokenMetadata(fromToken), c.tokenMetadata(targetToken);
    var route := c.findRouters(fromMeta.tokenAddress, toMeta.tokenAddress, amount);
    if route.None? {
      return Reject("No router found");
    }
    if (route.value.amountOut as real) < minAmountOut {
      return Reject("Out amount is less than out_min_amount");
    }

    var input: InputCoin;
    if Text.Upper(fromToken) == "SUI" {
      input := SplitFromGas(amount);
    } else {
      var coins := c.getCoins(c.sender, fromMeta.tokenAddress, 30);
      if |coins| == 0 {
        return Reject("No coins found");
      }
      var mergeCoins: seq<string> := [];
      var i := 1;
      while i < |coins|
        invariant 1 <= i <= |coins|
        invariant mergeCoins == CoinIds(coins)[1..i]
      {
        mergeCoins := mergeCoins + [coins[i].coinObjectId];
        i := i + 1;
      }
      assert [coins[0].coinObjectId] + mergeCoins == CoinIds(coins);
      input := MergeThenSplit(coins[0].coinObjectId, mergeCoins, amount);
    }
    return Submit(SwapPayload(route.value.hops, input, slippage, c.sender), "Swap successful");
  }

  // ---------------------------------------------------------------------------
  // The service object

  /** The service's configuration, set by `Initialize`: the wallet's address,
      the node URL of its ledger client, the network, and the SDK clients. */
  class QueryService {
    var wallet: Option<string>
    var fullNodeUrl: Option<string>
    var network: Option<string>
    var clients: Option<Clients>

    constructor ()
      ensures wallet == None && fullNodeUrl == None && network == None && clients == None
    {
      wallet, fullNodeUrl, network, clients := None, None, None, None;
    }

    /** `initialize`: records the wallet, the node client and the network, and
        refuses any network but mainnet and testnet before building the SDK
        clients. */
    method Initialize(account: string, nodeUrl: string, networkSetting: string, sdk: Clients)
      returns (error: Option<string>)
      modifies this
      ensures wallet == Some(account) && fullNodeUrl == Some(nodeUrl) && network == Some(networkSetting)
      ensures error.None? <==> networkSetting == "mainnet" || networkSetting == "testnet"
      ensures error.Some? ==> error.value == "Cetus is not supported on " + networkSetting + " network"
                              && clients == old(clients)
      ensures error.None? ==> clients.Some? && clients.value == sdk.(sender := account)
      // after a successful start every transaction has an explorer link
      ensures error.None? ==> forall tx :: GetTransactionLink(tx).Some?
    {
      wallet := Some(account);
      fullNodeUrl := Some(nodeUrl);
      network := Some(networkSetting);
      if networkSetting != "mainnet" && networkSetting != "testnet" {
        return Some("Cetus is not supported on " + networkSetting + " network");
      }
      clients := Some(sdk.(sender := account));
      return None;
    }

    /** `getTransactionLink`: the explorer page of a transaction on the
        configured network; nothing for an unknown network. */
    function GetTransactionLink(tx: string): (link: Option<string>)
      reads this
      ensures link.Some? <==> network.Some? && network.value in {"mainnet", "testnet", "devnet", "localnet"}
      ensures link.Some? ==> exists prefix :: link.value == prefix + tx
      ensures network == Some("mainnet") ==> link == Some("https://suivision.xyz/txblock/" + tx)
      ensures network == Some("testnet") ==> link == Some("https://testnet.suivision.xyz/txblock/" + tx)
      ensures network == Some("devnet") ==> link == Some("https://devnet.suivision.xyz/txblock/" + tx)
      ensures network == Some("localnet") ==> link == Some("localhost : " + tx)
    {
      if network == Some("mainnet") then Some("https://suivision.xyz/txblock/" + tx)
      else if network == Some("testnet") then Some("https://testnet.suivision.xyz/txblock/" + tx)
      else if network == Some("devnet") then Some("https://devnet.suivision.xyz/txblock/" + tx)
      else if network == Some("localnet") then Some("localhost : " + tx)
      else None
    }

    /** Distinct digests get distinct links: the link identifies its transaction. */
    lemma {:induction false} LinksIdentifyTransactions(tx1: string, tx2: string)
      requires GetTransactionLink(tx1).Some? && tx1 != tx2
      ensures GetTransactionLink(tx1) != GetTransactionLink(tx2)
    {
      var prefix: string;
      if network == Some("mainnet") {
        prefix := "https://suivision.xyz/txblock/";
      } else if network == Some("testnet") {
        prefix := "https://testnet.suivision.xyz/txblock/";
      } else if network == Some("devnet") {
        prefix := "https://devnet.suivision.xyz/txblock/";
      } else {
        prefix := "localhost : ";
      }
      assert GetTransactionLink(tx1) == Some(prefix + tx1) && GetTransactionLink(tx2) == Some(prefix + tx2);
      assert (prefix + tx1)[|prefix|..] == tx1 && (prefix + tx2)[|prefix|..] == tx2;
    }
  }
}
