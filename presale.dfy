/**
 * The three request handlers of the presale app: `checkLock` (a read-only
 * status query), `onArrive` (the deposit-lock acquire) and `onRequest` (input
 * validation, signature check, global ceiling, final cap and lock
 * confirmation). The clock is the parameter `now` (milliseconds), the chain
 * reads are the given `userInfo` records, one per configured chain, and the
 * typed-data signature recovery is the given function `recover`.
 */
module Presale {
  import opened Wrappers
  import opened PhaseClock
  import opened Tokens
  import opened NodeMem
  import opened CapEngine

  /** The errors `onRequest` throws, one per message. */
  datatype Error =
    | InvalidToken         // 'Invalid token'
    | InvalidAmount        // 'Invalid deposit amount'
    | InvalidSender        // 'Invalid sender address'
    | InvalidSignature     // 'Invalid signature.'
    | InvalidChainId       // 'Invalid chainId'
    | ZeroAllocation       // 'Allocation is 0 for your address.'
    | NoActiveSale         // 'No Active Sale'
    | UnlistedToken        // 'Invalid token.'
    | TokenChainMismatch   // 'Token and chain is not matched.'
    | SignatureMismatch    // 'Request signature mismatch'
    | AmountNotValid       // 'Amount is not valid'
    | AmountNotNumeric     // `bn(amount)` of a string `parseInt` cannot read
    | AllocationUndefined  // the day's allocation entry is undefined, so its toString() throws
    | AtomicRunFailed      // 'Atomic run failed.'
    | UnknownMethod        // 'Unknown method ...'

  /**
   * The `amount` parameter as the handler sees it: absent or empty (falsy), a
   * decimal integer, or a non-empty string `parseInt` cannot read (NaN).
   */
  datatype Amount = Missing | Unparsable | Decimal(n: int)

  /**
   * The deposit parameters. A missing or empty string is ""; a missing
   * chain id, or one `parseInt` cannot read (NaN), is None.
   */
  datatype DepositParams = DepositParams(
    token: string, forAddress: string, amount: Amount, sign: string, chainId: Option<int>)

  datatype Request = Request(methodName: string, params: DepositParams, timestamp: int)

  /**
   * The result of a deposit request; `extraParameters` is
   * [finalMaxCap, chainId, tokenPrice, amount, request timestamp].
   */
  datatype DepositData = DepositData(token: string, forAddress: string, day: int, extraParameters: seq<int>)

  /** What validation hands on: the token record, the amount, the parsed chain, the allocation entry and the day. */
  datatype Admitted = Admitted(token: TokenInfo, amount: Amount, chainId: int, allocation: Option<map<int, int>>, day: int)

  const DEPOSIT: string := "deposit"

  /** `allocation[forAddress]`, looked up as written (no case normalisation). */
  function AllocationOf(cfg: Config, forAddress: string): Option<map<int, int>> {
    if forAddress in cfg.allocation then Some(cfg.allocation[forAddress]) else None
  }

  /** Every validation condition, in no particular order. */
  predicate Eligible(cfg: Config, p: DepositParams, now: int) {
    && p.token != ""
    && !p.amount.Missing? && p.amount != Decimal(0)
    && p.forAddress != ""
    && p.sign != ""
    && p.chainId.Some? && p.chainId.value != 0 && p.chainId.value in cfg.chainIds
    && (p.forAddress in cfg.allocation || now >= PUBLIC_SALE)
    && GetDay(now) >= 1
    && LookupToken(p.token).Some?
    && p.chainId.value in LookupToken(p.token).value.chains
  }

  /** Input validation of a deposit, in the order the handler checks. */
  function Validate(cfg: Config, p: DepositParams, now: int): (r: Result<Admitted, Error>)
    ensures r.Success? <==> Eligible(cfg, p, now)
    ensures r.Success? ==>
      r.value == Admitted(LookupToken(p.token).value, p.amount, p.chainId.value,
                          AllocationOf(cfg, p.forAddress), GetDay(now))
  {
    if p.token == "" then Failure(InvalidToken)
    else if p.amount.Missing? || p.amount == Decimal(0) then Failure(InvalidAmount)
    else if p.forAddress == "" then Failure(InvalidSender)
    else if p.sign == "" then Failure(InvalidSignature)
    else if p.chainId.None? || p.chainId.value == 0 || p.chainId.value !in cfg.chainIds then Failure(InvalidChainId)
    else
      var allocationForAddress := AllocationOf(cfg, p.forAddress);
      if allocationForAddress.None? && now < PUBLIC_SALE then Failure(ZeroAllocation)
      else
        var day := GetDay(now);
        if day <= 0 then Failure(NoActiveSale)
        else
          var token := LookupToken(p.token);
          if token.None? then Failure(UnlistedToken)
          else if p.chainId.value !in token.value.chains then Failure(TokenChainMismatch)
          else Success(Admitted(token.value, p.amount, p.chainId.value, allocationForAddress, day))
  }

  /** The validation checks as an ordered list of (passes, error to report). */
  function Checks(cfg: Config, p: DepositParams, now: int): seq<(bool, Error)> {
    [ (p.token != "", InvalidToken),
      (!p.amount.Missing? && p.amount != Decimal(0), InvalidAmount),
      (p.forAddress != "", InvalidSender),
      (p.sign != "", InvalidSignature),
      (p.chainId.Some? && p.chainId.value != 0 && p.chainId.value in cfg.chainIds, InvalidChainId),
      (p.forAddress in cfg.allocation || now >= PUBLIC_SALE, ZeroAllocation),
      (GetDay(now) >= 1, NoActiveSale),
      (LookupToken(p.token).Some?, UnlistedToken),
      (LookupToken(p.token).Some? && p.chainId.Some? && p.chainId.value in LookupToken(p.token).value.chains,
       TokenChainMismatch) ]
  }

  /** The error of the first check that fails, if any. */
  function FirstFailure(cs: seq<(bool, Error)>): Option<Error> {
    if cs == [] then None
    else if !cs[0].0 then Some(cs[0].1)
    else FirstFailure(cs[1..])
  }

  /** Validation reports exactly the first failing check of the ordered list. */
  lemma ValidationOrder(cfg: Config, p: DepositParams, now: int)
    ensures Validate(cfg, p, now).Failure? <==> FirstFailure(Checks(cfg, p, now)).Some?
    ensures Validate(cfg, p, now).Failure? ==> Validate(cfg, p, now).error == FirstFailure(Checks(cfg, p, now)).value
  {
    var cs := Checks(cfg, p, now);
    var k := 0;
    while k < |cs| && cs[k].0
      invariant 0 <= k <= |cs|
      invariant forall j :: 0 <= j < k ==> cs[j].0
      invariant FirstFailure(cs) == FirstFailure(cs[k..])
    {
      assert cs[k..][1..] == cs[k + 1..];
      k := k + 1;
    }
    if k == |cs| {
      assert cs[0].0 && cs[1].0 && cs[2].0 && cs[3].0 && cs[4].0 && cs[5].0 && cs[6].0 && cs[7].0 && cs[8].0;
    } else {
      assert FirstFailure(cs) == Some(cs[k].1);
      assert k > 0 ==> cs[0].0;
      assert k > 1 ==> cs[1].0;
      assert k > 2 ==> cs[2].0;
      assert k > 3 ==> cs[3].0;
      assert k > 4 ==> cs[4].0;
      assert k > 5 ==> cs[5].0;
      assert k > 6 ==> cs[6].0;
      assert k > 7 ==> cs[7].0;
    }
  }

  /** The deposit decision `onRequest` computes, given how many owners the confirmation read reports. */
  function DepositSpec(cfg: Config, req: Request, now: int, infos: seq<UserInfo>,
                       recover: (string, string) -> string, ownerCount: nat): Result<DepositData, Error>
    requires |infos| == |cfg.chainIds|
  {
    if req.methodName != DEPOSIT then Failure(UnknownMethod)
    else
      var p := req.params;
      match Validate(cfg, p, now)
      case Failure(e) => Failure(e)
      case Success(v) =>
        if ToLower(recover(p.forAddress, p.sign)) != ToLower(p.forAddress) then Failure(SignatureMismatch)
        else if !v.amount.Decimal? then Failure(AmountNotNumeric)
        else if CeilingExceeded(cfg, UsdAmount(v.amount.n, v.token), infos) then Failure(AmountNotValid)
        else
          match FinalMaxCap(cfg, v.allocation, v.day, now, v.chainId, infos)
          case None => Failure(AllocationUndefined)
          case Some(cap) =>
            if ownerCount != 1 then Failure(AtomicRunFailed)
            else Success(DepositData(v.token.address, p.forAddress, v.day,
                                     [cap, v.chainId, v.token.price * WEI, v.amount.n, req.timestamp]))
  }

  /** `onRequest`. */
  method OnRequest(cfg: Config, mem: NodeMemory, req: Request, now: int, infos: seq<UserInfo>,
                   recover: (string, string) -> string) returns (r: Result<DepositData, Error>)
    requires |infos| == |cfg.chainIds|
    ensures r == DepositSpec(cfg, req, now, infos, recover,
                             |LiveOwners(mem.Entries(req.params.forAddress), now)|)
  {
    if req.methodName != DEPOSIT {
      return Failure(UnknownMethod);
    }
    var p := req.params;
    var admitted := Validate(cfg, p, now);
    if admitted.Failure? {
      return Failure(admitted.error);
    }
    var v := admitted.value;
    var signer := recover(p.forAddress, p.sign);
    if ToLower(signer) != ToLower(p.forAddress) {
      return Failure(SignatureMismatch);
    }
    var tokenPrice := v.token.price * WEI;
    if !v.amount.Decimal? {
      return Failure(AmountNotNumeric);
    }
    var usdAmount := UsdAmount(v.amount.n, v.token);
    var usdMaxCap := UsdMaxCap(cfg);

    ghost var totals := Totals(infos);
    var sum := 0;
    for i := 0 to |cfg.chainIds|
      invariant sum == SumInts(totals[..i])
    {
      assert totals[..i + 1] == totals[..i] + [totals[i]];
      SumAppend(totals[..i], totals[i]);
      sum := sum + infos[i].totalBalance;
    }
    assert totals[..|cfg.chainIds|] == totals;
    if usdAmount + sum > usdMaxCap * WEI {
      return Failure(AmountNotValid);
    }

    var finalMaxCap;
    if now >= PUBLIC_TIME {
      finalMaxCap := usdMaxCap * WEI;
    } else {
      ghost var buckets := PurchasedPerChain(cfg.chainIds, v.chainId, v.day, infos);
      var purchased := 0;
      for i := 0 to |cfg.chainIds|
        invariant purchased == SumInts(buckets[..i])
      {
        assert buckets[..i + 1] == buckets[..i] + [buckets[i]];
        SumAppend(buckets[..i], buckets[i]);
        var amount := Purchased(v.day, cfg.chainIds[i] == v.chainId, infos[i]);
        purchased := purchased + amount;
      }
      assert buckets[..|cfg.chainIds|] == buckets;
      var allocation := AllocationAmount(cfg, v.allocation, v.day, now);
      if allocation.None? {
        return Failure(AllocationUndefined);
      }
      finalMaxCap := allocation.value * WEI - purchased;
    }

    var owners := mem.ReadDistinctOwners(p.forAddress, now);
    if |owners| != 1 {
      return Failure(AtomicRunFailed);
    }
    r := Success(DepositData(v.token.address, p.forAddress, v.day,
                             [finalMaxCap, v.chainId, tokenPrice, v.amount.n, req.timestamp]));
  }

  /** What `onArrive` does with a request: let it through, or throw because the address is locked. */
  datatype Arrival = Proceed | AlreadyLocked(lockTime: int, expireAt: int, day: int)

  /**
   * `onArrive`: for a deposit, refuses while a lock entry for the address is
   * visible and otherwise writes one with a 300 s lifetime; any other method
   * passes through without touching node memory.
   */
  method OnArrive(mem: NodeMemory, req: Request, now: int) returns (r: Arrival)
    modifies mem
    ensures req.methodName != DEPOSIT ==> r == Proceed && mem.locks == old(mem.locks)
    ensures req.methodName == DEPOSIT && old(FirstLive(mem.Entries(req.params.forAddress), now)).Some? ==>
      && r == AlreadyLocked(LOCK_TTL, old(FirstLive(mem.Entries(req.params.forAddress), now)).value.expireAt, GetDay(now))
      && mem.locks == old(mem.locks)
    ensures req.methodName == DEPOSIT && old(FirstLive(mem.Entries(req.params.forAddress), now)).None? ==>
      && r == Proceed
      && mem.locks == old(mem.locks)[req.params.forAddress :=
           old(mem.Entries(req.params.forAddress)) + [LockEntry(mem.self, now + LOCK_TTL * 1000)]]
  {
    if req.methodName != DEPOSIT {
      return Proceed;
    }
    var forAddress := req.params.forAddress;
    var lock := mem.Read(forAddress, now);
    if lock.Some? {
      return AlreadyLocked(LOCK_TTL, lock.value.expireAt, GetDay(now));
    }
    mem.Write(forAddress, LOCK_TTL, now);
    r := Proceed;
  }

  /**
   * The deposit lock on one node: when a deposit for an address takes the
   * lock at `t0`, a second deposit for it arriving before that entry expires
   * is refused, with the first entry's expiry in the reply.
   */
  method ArriveTwice(mem: NodeMemory, req: Request, t0: int, t1: int) returns (r1: Arrival, r2: Arrival)
    requires req.methodName == DEPOSIT && t0 <= t1 < t0 + LOCK_TTL * 1000
    modifies mem
    ensures r1 == Proceed <==> old(FirstLive(mem.Entries(req.params.forAddress), t0)).None?
    ensures r1 == Proceed ==> r2 == AlreadyLocked(LOCK_TTL, t0 + LOCK_TTL * 1000, GetDay(t1))
  {
    ghost var es := mem.Entries(req.params.forAddress);
    r1 := OnArrive(mem, req, t0);
    if r1 == Proceed {
      FirstLiveFinds(es, t0);
      OnlyFreshEntryVisible(es, LockEntry(mem.self, t0 + LOCK_TTL * 1000), t0, t1);
    }
    r2 := OnArrive(mem, req, t1);
  }

  /**
   * `onArrive`'s read and write are two separate awaits. Two deposits for one
   * address on one node that both read before either writes both pass, both
   * leave an entry owned by this node, and the distinct-owner read then
   * reports that single owner, so the confirmation in `onRequest` lets both through.
   */
  method ArriveInterleaved(mem: NodeMemory, req: Request, t0: int, t1: int) returns (r0: Arrival, r1: Arrival)
    requires req.methodName == DEPOSIT && t0 <= t1 < t0 + LOCK_TTL * 1000
    requires FirstLive(mem.Entries(req.params.forAddress), t0).None?
    modifies mem
    ensures r0 == Proceed && r1 == Proceed
    ensures mem.Entries(req.params.forAddress) == old(mem.Entries(req.params.forAddress))
      + [LockEntry(mem.self, t0 + LOCK_TTL * 1000), LockEntry(mem.self, t1 + LOCK_TTL * 1000)]
    ensures LiveOwners(mem.Entries(req.params.forAddress), t1) == {mem.self}
  {
    var addr := req.params.forAddress;
    ghost var es := mem.Entries(addr);
    FirstLiveFinds(es, t0);
    FirstLiveFinds(es, t1);
    // Both requests read before either writes.
    var lock0 := mem.Read(addr, t0);
    var lock1 := mem.Read(addr, t1);
    assert lock0.None? && lock1.None?;
    // Neither found a lock, so each writes its own entry and passes.
    mem.Write(addr, LOCK_TTL, t0);
    mem.Write(addr, LOCK_TTL, t1);
    r0, r1 := Proceed, Proceed;
    var e0, e1 := LockEntry(mem.self, t0 + LOCK_TTL * 1000), LockEntry(mem.self, t1 + LOCK_TTL * 1000);
    assert mem.Entries(addr) == es + [e0] + [e1];
    LiveOwnersAppend(es, e0, t1);
    LiveOwnersAppend(es + [e0], e1, t1);
    assert LiveOwners(es, t1) == {};
  }

  datatype LockType = AllocationLock | CoolDownLock

  /** The answer of `checkLock` (the constant START_TIME, PUBLIC_SALE and PUBLIC_TIME fields omitted). */
  datatype LockStatus =
    | Locked(lockType: LockType, lockTime: int, expireAt: int, day: int)
    | Unlocked(day: int)

  /**
   * `checkLock`: an address without allocation is locked until PUBLIC_SALE;
   * otherwise a visible lock entry locks it for the cool-down; otherwise it is
   * not locked. It only reads node memory (no modifies clause).
   */
  method CheckLock(cfg: Config, mem: NodeMemory, forAddress: string, now: int) returns (s: LockStatus)
    ensures s.day == GetDay(now)
    ensures forAddress !in cfg.allocation && now < PUBLIC_SALE ==>
      s == Locked(AllocationLock, PUBLIC_SALE, PUBLIC_SALE, GetDay(now))
    ensures !(forAddress !in cfg.allocation && now < PUBLIC_SALE) ==>
      s == (match FirstLive(mem.Entries(forAddress), now)
            case Some(e) => Locked(CoolDownLock, LOCK_TTL, e.expireAt, GetDay(now))
            case None => Unlocked(GetDay(now)))
  {
    var allocationForAddress := AllocationOf(cfg, forAddress);
    var currentTime := now;
    if allocationForAddress.None? && currentTime < PUBLIC_SALE {
      return Locked(AllocationLock, PUBLIC_SALE, PUBLIC_SALE, GetDay(currentTime));
    }
    var lock := mem.Read(forAddress, now);
    if lock.Some? {
      return Locked(CoolDownLock, LOCK_TTL, lock.value.expireAt, GetDay(currentTime));
    }
    s := Unlocked(GetDay(currentTime));
  }

  // ---------------------------------------------------------------------------
  // Properties of the deposit decision.

  /** A deposit is accepted exactly when every check on the way passes. */
  lemma DepositAcceptedIff(cfg: Config, req: Request, now: int, infos: seq<UserInfo>,
                           recover: (string, string) -> string, ownerCount: nat)
    requires |infos| == |cfg.chainIds|
    ensures DepositSpec(cfg, req, now, infos, recover, ownerCount).Success? <==>
      && req.methodName == DEPOSIT
      && Eligible(cfg, req.params, now)
      && req.params.amount.Decimal?
      && ToLower(recover(req.params.forAddress, req.params.sign)) == ToLower(req.params.forAddress)
      && !CeilingExceeded(cfg, UsdAmount(req.params.amount.n, LookupToken(req.params.token).value), infos)
      && (now >= PUBLIC_TIME || AllocationAmount(cfg, AllocationOf(cfg, req.params.forAddress), GetDay(now), now).Some?)
      && ownerCount == 1
  {
  }

  /**
   * An accepted deposit carries the token's address, the requester, the sale
   * day, and in `extraParameters` the cap, the chain, the token price in wei,
   * the amount and the request timestamp.
   */
  lemma AcceptedDepositFields(cfg: Config, req: Request, now: int, infos: seq<UserInfo>,
                              recover: (string, string) -> string, ownerCount: nat)
    requires |infos| == |cfg.chainIds|
    requires DepositSpec(cfg, req, now, infos, recover, ownerCount).Success?
    ensures var d := DepositSpec(cfg, req, now, infos, recover, ownerCount).value;
      var token := LookupToken(req.params.token).value;
      && d.token == token.address
      && d.forAddress == req.params.forAddress
      && d.day == GetDay(now) && d.day >= 1
      && |d.extraParameters| == 5
      && Some(d.extraParameters[0]) ==
           FinalMaxCap(cfg, AllocationOf(cfg, req.params.forAddress), GetDay(now), now, req.params.chainId.value, infos)
      && d.extraParameters[1] == req.params.chainId.value
      && d.extraParameters[1] in cfg.chainIds && d.extraParameters[1] in token.chains
      && d.extraParameters[2] == token.price * WEI
      && d.extraParameters[3] == req.params.amount.n && d.extraParameters[3] != 0
      && d.extraParameters[4] == req.timestamp
  {
  }

  /**
   * Once validation and the signature pass, "Amount is not valid" is reported
   * exactly when the request's USD value plus all chains' totals is above the ceiling.
   */
  lemma CeilingDecides(cfg: Config, req: Request, now: int, infos: seq<UserInfo>,
                       recover: (string, string) -> string, ownerCount: nat)
    requires |infos| == |cfg.chainIds|
    requires req.methodName == DEPOSIT && Eligible(cfg, req.params, now) && req.params.amount.Decimal?
    requires ToLower(recover(req.params.forAddress, req.params.sign)) == ToLower(req.params.forAddress)
    ensures DepositSpec(cfg, req, now, infos, recover, ownerCount) == Failure(AmountNotValid) <==>
      UsdAmount(req.params.amount.n, LookupToken(req.params.token).value) + SumInts(Totals(infos))
        > UsdMaxCap(cfg) * WEI
  {
  }

  /** The comparison is strict: a total exactly at the ceiling is not refused by it. */
  lemma CeilingBoundaryPasses(cfg: Config, usdAmount: int, infos: seq<UserInfo>)
    requires usdAmount + SumInts(Totals(infos)) == UsdMaxCap(cfg) * WEI
    ensures !CeilingExceeded(cfg, usdAmount, infos)
  {
  }

  /** In the public phase an accepted deposit's cap is the whole ceiling in wei. */
  lemma PublicPhaseCap(cfg: Config, req: Request, now: int, infos: seq<UserInfo>,
                       recover: (string, string) -> string, ownerCount: nat)
    requires |infos| == |cfg.chainIds|
    requires now >= PUBLIC_TIME
    requires DepositSpec(cfg, req, now, infos, recover, ownerCount).Success?
    ensures DepositSpec(cfg, req, now, infos, recover, ownerCount).value.extraParameters[0] == UsdMaxCap(cfg) * WEI
    ensures DepositSpec(cfg, req, now, infos, recover, ownerCount).value.day >= 6
  {
    BeforePublicTimeIffDayAtMostFive(now);
  }

  /**
   * Before the public phase an accepted deposit falls on days 1 to 5, and its
   * cap plus everything purchased so far on all chains is the day's allocation
   * in wei: from the address's own table on days 1 to 3, from the public
   * schedule on days 4 and 5.
   */
  lemma TieredPhaseCap(cfg: Config, req: Request, now: int, infos: seq<UserInfo>,
                       recover: (string, string) -> string, ownerCount: nat)
    requires |infos| == |cfg.chainIds|
    requires now < PUBLIC_TIME
    requires DepositSpec(cfg, req, now, infos, recover, ownerCount).Success?
    ensures var d := DepositSpec(cfg, req, now, infos, recover, ownerCount).value;
      && 1 <= d.day <= 5
      && d.extraParameters[0]
           + SumInts(PurchasedPerChain(cfg.chainIds, req.params.chainId.value, d.day, infos))
         == (if d.day <= 3 then cfg.allocation[req.params.forAddress][d.day] else cfg.publicPhase[d.day]) * WEI
  {
    BeforePublicTimeIffDayAtMostFive(now);
    BeforePublicSaleIffEarlyDay(now);
  }

  /** The cap does not depend on the amount requested: it is what may still be deposited, not what is left after this deposit. */
  lemma CapIgnoresRequestedAmount(cfg: Config, req: Request, amount2: int, now: int, infos: seq<UserInfo>,
                                  recover: (string, string) -> string, ownerCount: nat)
    requires |infos| == |cfg.chainIds|
    requires DepositSpec(cfg, req, now, infos, recover, ownerCount).Success?
    ensures var req2 := req.(params := req.params.(amount := Decimal(amount2)));
      DepositSpec(cfg, req2, now, infos, recover, ownerCount).Success? ==>
        DepositSpec(cfg, req2, now, infos, recover, ownerCount).value.extraParameters[0]
          == DepositSpec(cfg, req, now, infos, recover, ownerCount).value.extraParameters[0]
  {
  }

  /**
   * An address without allocation is refused with ZeroAllocation before
   * PUBLIC_SALE once the basic fields are present, whatever the token or the day.
   */
  lemma ZeroAllocationBeforePublicSale(cfg: Config, req: Request, now: int, infos: seq<UserInfo>,
                                       recover: (string, string) -> string, ownerCount: nat)
    requires |infos| == |cfg.chainIds|
    requires req.methodName == DEPOSIT
    requires var p := req.params;
      && p.token != "" && !p.amount.Missing? && p.amount != Decimal(0) && p.forAddress != "" && p.sign != ""
      && p.chainId.Some? && p.chainId.value != 0 && p.chainId.value in cfg.chainIds
    requires req.params.forAddress !in cfg.allocation && now < PUBLIC_SALE
    ensures DepositSpec(cfg, req, now, infos, recover, ownerCount) == Failure(ZeroAllocation)
  {
  }

  /** A request that passes everything else still fails unless the confirmation read reports exactly one owner. */
  lemma AtomicRunNeedsSoleOwner(cfg: Config, req: Request, now: int, infos: seq<UserInfo>,
                                recover: (string, string) -> string, ownerCount: nat)
    requires |infos| == |cfg.chainIds|
    requires DepositSpec(cfg, req, now, infos, recover, 1).Success?
    ensures DepositSpec(cfg, req, now, infos, recover, ownerCount).Success? <==> ownerCount == 1
    ensures ownerCount != 1 ==> DepositSpec(cfg, req, now, infos, recover, ownerCount) == Failure(AtomicRunFailed)
  {
  }

  /**
   * A non-empty amount `parseInt` cannot read is not refused as an invalid
   * amount: validation goes on to the later checks, and a request that passes
   * them and the signature stops at the conversion `bn(amount)`.
   */
  lemma UnparsableAmountPassesAmountCheck(cfg: Config, req: Request, now: int, infos: seq<UserInfo>,
                                          recover: (string, string) -> string, ownerCount: nat)
    requires |infos| == |cfg.chainIds|
    requires req.methodName == DEPOSIT && req.params.amount == Unparsable
    ensures DepositSpec(cfg, req, now, infos, recover, ownerCount) != Failure(InvalidAmount)
    ensures req.params.token != "" && req.params.forAddress == "" ==>
      DepositSpec(cfg, req, now, infos, recover, ownerCount) == Failure(InvalidSender)
    ensures (Eligible(cfg, req.params, now)
             && ToLower(recover(req.params.forAddress, req.params.sign)) == ToLower(req.params.forAddress)) ==>
      DepositSpec(cfg, req, now, infos, recover, ownerCount) == Failure(AmountNotNumeric)
  {
  }

  /** Any method other than deposit is refused by `onRequest`. */
  lemma OtherMethodsRefused(cfg: Config, req: Request, now: int, infos: seq<UserInfo>,
                            recover: (string, string) -> string, ownerCount: nat)
    requires |infos| == |cfg.chainIds|
    requires req.methodName != DEPOSIT
    ensures DepositSpec(cfg, req, now, infos, recover, ownerCount) == Failure(UnknownMethod)
  {
  }
}
