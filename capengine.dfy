/**
 * The allocation-cap engine of a deposit request: the USD value of the
 * requested amount, the global ceiling check against every chain's recorded
 * total, the per-chain "purchased so far" day buckets and the final cap.
 * BN values are unbounded integers; USD figures are scaled by 10^18 (wei).
 */
module CapEngine {
  import opened Wrappers
  import opened PhaseClock
  import opened Tokens

  /** 10^18, the scale of `toBaseUnit(x, 18)`. */
  const WEI: int := 1_000_000_000_000_000_000

  /**
   * The immutable configuration of the app: the per-address allocation table
   * (address -> day -> USD), the per-day public schedule, the chain ids of
   * `chainMap` in key order, and the two factors of the USD ceiling.
   */
  datatype Config = Config(
    allocation: map<string, map<int, int>>,
    publicPhase: map<int, int>,
    chainIds: seq<int>,
    participantTokens: int,
    muonPrice: int)

  /** One chain's `userInfo(address, 6)` record. */
  datatype UserInfo = UserInfo(totalBalance: int, userBalance: int, roundBalances: seq<int>)

  /** The USD ceiling `IDO_PARTICIPANT_TOKENS * MUON_PRICE`. */
  function UsdMaxCap(cfg: Config): int {
    cfg.participantTokens * cfg.muonPrice
  }

  function Pow10(n: nat): (r: int)
    ensures r >= 1
  {
    if n == 0 then 1 else 10 * Pow10(n - 1)
  }

  /** `BN.div`: the quotient rounded toward zero. */
  function TruncDiv(a: int, b: int): (q: int)
    requires b > 0
    ensures a >= 0 ==> 0 <= q && q * b <= a < q * b + b
    ensures a < 0 ==> q <= 0 && q * b - b < a <= q * b
  {
    if a >= 0 then DivBounds(a, b); a / b
    else DivBounds(-a, b); -((-a) / b)
  }

  /** Dafny's `/` on a non-negative dividend: the largest multiple of `b` not above `a`. */
  lemma DivBounds(a: int, b: int)
    requires a >= 0 && b > 0
    ensures 0 <= a / b && (a / b) * b <= a < (a / b) * b + b
  {
    var q, r := a / b, a % b;
    assert a == b * q + r && 0 <= r < b;
    assert q * b == b * q;
  }

  /** `amount * price*10^18 / 10^decimals`: the request's value in USD wei. */
  function UsdAmount(amount: int, token: TokenInfo): int {
    TruncDiv(amount * (token.price * WEI), Pow10(token.decimals))
  }

  /** For the two listed tokens (price 1 USD) the USD value is the amount rescaled from the token's decimals to 18. */
  lemma UsdAmountOfListedTokens(amount: int)
    ensures UsdAmount(amount, GetTokens()["ert"]) == amount
    ensures UsdAmount(amount, GetTokens()["ert_d6"]) == amount * 1_000_000_000_000
  {
    assert Pow10(6) == 1_000_000;
    assert Pow10(18) == WEI;
  }

  function SumInts(xs: seq<int>): int {
    if xs == [] then 0 else xs[0] + SumInts(xs[1..])
  }

  lemma {:induction false} SumAppend(xs: seq<int>, x: int)
    ensures SumInts(xs + [x]) == SumInts(xs) + x
  {
    if xs != [] {
      assert (xs + [x])[1..] == xs[1..] + [x];
      SumAppend(xs[1..], x);
    }
  }

  /** A sum does not decrease when every term does not decrease. */
  lemma {:induction false} SumMonotone(xs: seq<int>, ys: seq<int>)
    requires |xs| == |ys|
    requires forall i :: 0 <= i < |xs| ==> xs[i] <= ys[i]
    ensures SumInts(xs) <= SumInts(ys)
  {
    if xs != [] {
      SumMonotone(xs[1..], ys[1..]);
    }
  }

  /** Each chain's `_totalBalance`, in chain order. */
  function Totals(infos: seq<UserInfo>): seq<int> {
    seq(|infos|, i requires 0 <= i < |infos| => infos[i].totalBalance)
  }

  /**
   * The global check: the request is refused exactly when its USD value plus
   * every chain's recorded total is above the ceiling (strictly).
   */
  predicate CeilingExceeded(cfg: Config, usdAmount: int, infos: seq<UserInfo>) {
    usdAmount + SumInts(Totals(infos)) > UsdMaxCap(cfg) * WEI
  }

  /** `_roundBalances[k]`; an index the record lacks reads as undefined, which `bn` turns into 0. */
  function RoundAt(rounds: seq<int>, k: int): int {
    if 0 <= k < |rounds| then rounds[k] else 0
  }

  /**
   * What one chain's record says the address has purchased so far, by day;
   * `requesting` tells whether this is the chain the deposit is made on.
   */
  function Purchased(day: int, requesting: bool, u: UserInfo): int {
    var rb := u.roundBalances;
    if day < 4 then
      (if !requesting then u.userBalance else u.userBalance - RoundAt(rb, day - 1))
    else if day == 4 then
      (if !requesting then RoundAt(rb, day - 1) else 0)
    else if day == 5 then
      (if !requesting then RoundAt(rb, day - 2) + RoundAt(rb, day - 1)
       else RoundAt(rb, day - 2) + RoundAt(rb, day - 1) - RoundAt(rb, day - 1))
    else 0
  }

  /**
   * The requesting chain leaves out the current day's round: on days up to 5
   * it counts what the other chains count minus that round.
   */
  lemma RequestingChainSkipsCurrentRound(day: int, u: UserInfo)
    requires day <= 5
    ensures Purchased(day, true, u) == Purchased(day, false, u) - RoundAt(u.roundBalances, day - 1)
  {
  }

  /**
   * The buckets of the tiered days: other chains count every tiered round up
   * to today (rounds 4 .. day), the requesting chain those before today; after
   * day 5 nothing is counted.
   */
  lemma {:induction false} TieredBuckets(day: int, u: UserInfo)
    requires 4 <= day <= 5 && |u.roundBalances| >= 5
    ensures Purchased(day, false, u) == SumInts(u.roundBalances[3..day])
    ensures Purchased(day, true, u) == SumInts(u.roundBalances[3..day - 1])
  {
    var rb := u.roundBalances;
    assert rb[3..4] == [rb[3]];
    assert rb[3..4][1..] == [];
    if day == 5 {
      assert rb[3..5] == [rb[3], rb[4]];
      assert rb[3..5][1..] == [rb[4]];
      assert rb[3..5][1..][1..] == [];
      assert SumInts([rb[4]]) == rb[4];
      assert SumInts(rb[3..5]) == rb[3] + SumInts([rb[4]]);
    }
  }

  lemma NoBucketAfterDayFive(day: int, requesting: bool, u: UserInfo)
    requires day > 5
    ensures Purchased(day, requesting, u) == 0
  {
  }

  /** `allPurchase`: one bucket per configured chain, in `chainMap` order. */
  function PurchasedPerChain(chainIds: seq<int>, chainId: int, day: int, infos: seq<UserInfo>): seq<int>
    requires |infos| == |chainIds|
  {
    seq(|infos|, i requires 0 <= i < |infos| => Purchased(day, chainIds[i] == chainId, infos[i]))
  }

  /**
   * `allocationForAddress[day]` before PUBLIC_SALE, `PUBLIC_PHASE[day]` after;
   * None where the entry is undefined (its `toString()` throws).
   */
  function AllocationAmount(cfg: Config, allocationForAddress: Option<map<int, int>>, day: int, now: int): Option<int> {
    if now < PUBLIC_SALE then
      (if allocationForAddress.Some? && day in allocationForAddress.value then Some(allocationForAddress.value[day]) else None)
    else
      (if day in cfg.publicPhase then Some(cfg.publicPhase[day]) else None)
  }

  /**
   * The per-address table is read only on sale days up to 3 and the public
   * schedule only from day 4 on; before PUBLIC_TIME that is days 4 and 5.
   */
  lemma AllocationSourceByDay(cfg: Config, allocationForAddress: Option<map<int, int>>, now: int)
    ensures GetDay(now) <= 3 ==>
      AllocationAmount(cfg, allocationForAddress, GetDay(now), now) ==
        (if allocationForAddress.Some? && GetDay(now) in allocationForAddress.value
         then Some(allocationForAddress.value[GetDay(now)]) else None)
    ensures 4 <= GetDay(now) ==>
      AllocationAmount(cfg, allocationForAddress, GetDay(now), now) ==
        (if GetDay(now) in cfg.publicPhase then Some(cfg.publicPhase[GetDay(now)]) else None)
    ensures PUBLIC_SALE <= now < PUBLIC_TIME <==> 4 <= GetDay(now) <= 5
  {
    BeforePublicSaleIffEarlyDay(now);
    BeforePublicTimeIffDayAtMostFive(now);
  }

  /**
   * `finalMaxCap`: the whole ceiling from PUBLIC_TIME on; before it, the day's
   * allocation in wei minus everything purchased so far on every chain, not
   * clamped at zero. None when the allocation entry is undefined.
   */
  function FinalMaxCap(cfg: Config, allocationForAddress: Option<map<int, int>>, day: int, now: int,
                       chainId: int, infos: seq<UserInfo>): Option<int>
    requires |infos| == |cfg.chainIds|
  {
    if now >= PUBLIC_TIME then Some(UsdMaxCap(cfg) * WEI)
    else
      match AllocationAmount(cfg, allocationForAddress, day, now)
      case None => None
      case Some(a) => Some(a * WEI - SumInts(PurchasedPerChain(cfg.chainIds, chainId, day, infos)))
  }

  /** From PUBLIC_TIME on the cap is the whole ceiling, whatever any chain has recorded. */
  lemma PublicCapIgnoresBalances(cfg: Config, alloc: Option<map<int, int>>, day: int, now: int,
                                 chainId: int, infos1: seq<UserInfo>, infos2: seq<UserInfo>)
    requires |infos1| == |cfg.chainIds| && |infos2| == |cfg.chainIds|
    requires now >= PUBLIC_TIME
    ensures FinalMaxCap(cfg, alloc, day, now, chainId, infos1) == FinalMaxCap(cfg, alloc, day, now, chainId, infos2)
    ensures FinalMaxCap(cfg, alloc, day, now, chainId, infos1) == Some(UsdMaxCap(cfg) * WEI)
  {
  }

  /** Before PUBLIC_TIME the cap and the purchases so far add up to the day's allocation, exactly. */
  lemma CapPlusPurchasedIsAllocation(cfg: Config, alloc: Option<map<int, int>>, day: int, now: int,
                                     chainId: int, infos: seq<UserInfo>)
    requires |infos| == |cfg.chainIds|
    requires now < PUBLIC_TIME
    ensures FinalMaxCap(cfg, alloc, day, now, chainId, infos).Some?
        <==> AllocationAmount(cfg, alloc, day, now).Some?
    ensures FinalMaxCap(cfg, alloc, day, now, chainId, infos).Some? ==>
      FinalMaxCap(cfg, alloc, day, now, chainId, infos).value
        + SumInts(PurchasedPerChain(cfg.chainIds, chainId, day, infos))
        == AllocationAmount(cfg, alloc, day, now).value * WEI
  {
  }

  /** More purchased on every chain never leaves a larger cap. */
  lemma CapShrinksWithPurchases(cfg: Config, alloc: Option<map<int, int>>, day: int, now: int,
                                chainId: int, infos1: seq<UserInfo>, infos2: seq<UserInfo>)
    requires |infos1| == |cfg.chainIds| && |infos2| == |cfg.chainIds|
    requires forall i :: 0 <= i < |infos1| ==>
      Purchased(day, cfg.chainIds[i] == chainId, infos1[i]) <= Purchased(day, cfg.chainIds[i] == chainId, infos2[i])
    requires FinalMaxCap(cfg, alloc, day, now, chainId, infos1).Some?
    ensures FinalMaxCap(cfg, alloc, day, now, chainId, infos2).Some?
    ensures FinalMaxCap(cfg, alloc, day, now, chainId, infos2).value
         <= FinalMaxCap(cfg, alloc, day, now, chainId, infos1).value
  {
    SumMonotone(PurchasedPerChain(cfg.chainIds, chainId, day, infos1),
                PurchasedPerChain(cfg.chainIds, chainId, day, infos2));
  }

  /**
   * The cap is not clamped: before PUBLIC_TIME, an address whose purchases so
   * far exceed the day's allocation gets a negative cap.
   */
  lemma NegativeCapReturned(cfg: Config, alloc: Option<map<int, int>>, day: int, now: int,
                            chainId: int, infos: seq<UserInfo>, a: int)
    requires |infos| == |cfg.chainIds|
    requires now < PUBLIC_TIME
    requires AllocationAmount(cfg, alloc, day, now) == Some(a)
    requires SumInts(PurchasedPerChain(cfg.chainIds, chainId, day, infos)) > a * WEI
    ensures FinalMaxCap(cfg, alloc, day, now, chainId, infos).Some?
    ensures FinalMaxCap(cfg, alloc, day, now, chainId, infos).value < 0
  {
    CapPlusPurchasedIsAllocation(cfg, alloc, day, now, chainId, infos);
  }
}
