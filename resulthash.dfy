/**
 * `hashRequestResult`: the ordered, typed field list every node hashes to
 * obtain the digest it signs. The hash primitive (Solidity packed encoding
 * followed by keccak256) is the given function `hash` over that list.
 */
module ResultHash {
  import opened Wrappers
  import opened PhaseClock
  import opened Tokens
  import opened CapEngine
  import opened Presale

  datatype SolidityType = Uint8 | Uint32 | Uint256 | Address
  datatype FieldValue = Num(n: int) | Addr(a: string)
  datatype Field = Field(ty: SolidityType, value: FieldValue)

  /** The nine values a deposit digest binds, named by meaning. */
  datatype Attestation = Attestation(
    appId: int, token: string, day: int, amount: int, timestamp: int,
    forAddress: string, maxCap: int, chainId: int, tokenPrice: int)

  /** The hashed list: the nine values in their fixed order, each with its Solidity type. */
  function Pack(a: Attestation): (fs: seq<Field>)
    ensures |fs| == 9
    ensures fs[0].ty == Uint32 && fs[2].ty == Uint8
    ensures fs[1].ty == Address && fs[5].ty == Address
    ensures forall i :: i in {3, 4, 6, 7, 8} ==> fs[i].ty == Uint256
  {
    [ Field(Uint32, Num(a.appId)),
      Field(Address, Addr(a.token)),
      Field(Uint8, Num(a.day)),
      Field(Uint256, Num(a.amount)),
      Field(Uint256, Num(a.timestamp)),
      Field(Address, Addr(a.forAddress)),
      Field(Uint256, Num(a.maxCap)),
      Field(Uint256, Num(a.chainId)),
      Field(Uint256, Num(a.tokenPrice)) ]
  }

  /** Reads the nine values back from a list of the packed shape. */
  function Unpack(fs: seq<Field>): Option<Attestation> {
    if |fs| == 9
       && fs[0] == Field(Uint32, fs[0].value) && fs[0].value.Num?
       && fs[1] == Field(Address, fs[1].value) && fs[1].value.Addr?
       && fs[2] == Field(Uint8, fs[2].value) && fs[2].value.Num?
       && fs[3] == Field(Uint256, fs[3].value) && fs[3].value.Num?
       && fs[4] == Field(Uint256, fs[4].value) && fs[4].value.Num?
       && fs[5] == Field(Address, fs[5].value) && fs[5].value.Addr?
       && fs[6] == Field(Uint256, fs[6].value) && fs[6].value.Num?
       && fs[7] == Field(Uint256, fs[7].value) && fs[7].value.Num?
       && fs[8] == Field(Uint256, fs[8].value) && fs[8].value.Num?
    then Some(Attestation(fs[0].value.n, fs[1].value.a, fs[2].value.n, fs[3].value.n, fs[4].value.n,
                          fs[5].value.a, fs[6].value.n, fs[7].value.n, fs[8].value.n))
    else None
  }

  lemma UnpackPack(a: Attestation)
    ensures Unpack(Pack(a)) == Some(a)
  {
  }

  /** Distinct attestations pack to distinct lists: no field is dropped or shared. */
  lemma PackInjective(a: Attestation, b: Attestation)
    requires Pack(a) == Pack(b)
    ensures a == b
  {
    UnpackPack(a);
    UnpackPack(b);
  }

  /**
   * The values `hashRequestResult` takes: the app id, the result's token,
   * day and address, the request's timestamp, and from `extraParameters`
   * index 3 (amount), 0 (cap), 1 (chain) and 2 (price).
   */
  function Selected(appId: int, req: Request, d: DepositData): Attestation
    requires |d.extraParameters| >= 4
  {
    Attestation(appId, d.token, d.day, d.extraParameters[3], req.timestamp,
                d.forAddress, d.extraParameters[0], d.extraParameters[1], d.extraParameters[2])
  }

  /** `hashRequestResult`: the digest of a deposit result; null (None) for any other method. */
  function HashRequestResult<D>(hash: seq<Field> -> D, appId: int, req: Request, d: DepositData): (r: Option<D>)
    requires req.methodName == DEPOSIT ==> |d.extraParameters| >= 4
    ensures r.Some? <==> req.methodName == DEPOSIT
  {
    if req.methodName == DEPOSIT then Some(hash(Pack(Selected(appId, req, d)))) else None
  }

  ghost predicate Injective<D>(hash: seq<Field> -> D) {
    forall x, y :: hash(x) == hash(y) ==> x == y
  }

  /**
   * The digest of an accepted deposit is the hash of, in order: app id, token
   * address, day, amount, request timestamp, requester, cap, chain id and
   * token price in wei.
   */
  lemma HashOfAcceptedDeposit<D>(hash: seq<Field> -> D, appId: int, cfg: Config, req: Request, now: int,
                                 infos: seq<UserInfo>, recover: (string, string) -> string, ownerCount: nat)
    requires |infos| == |cfg.chainIds|
    requires DepositSpec(cfg, req, now, infos, recover, ownerCount).Success?
    ensures var d := DepositSpec(cfg, req, now, infos, recover, ownerCount).value;
      var p := req.params;
      var token := LookupToken(p.token).value;
      var cap := FinalMaxCap(cfg, AllocationOf(cfg, p.forAddress), GetDay(now), now, p.chainId.value, infos);
      && |d.extraParameters| >= 4
      && cap.Some?
      && HashRequestResult(hash, appId, req, d) ==
           Some(hash(Pack(Attestation(appId, token.address, GetDay(now), p.amount.n, req.timestamp,
                                      p.forAddress, cap.value, p.chainId.value, token.price * WEI))))
  {
    AcceptedDepositFields(cfg, req, now, infos, recover, ownerCount);
  }

  /**
   * With a collision-free hash, two deposit digests are equal only when all
   * nine hashed values are: changing any one of them changes the digest.
   */
  lemma DigestBindsAllFields<D>(hash: seq<Field> -> D, appId1: int, req1: Request, d1: DepositData,
                                appId2: int, req2: Request, d2: DepositData)
    requires Injective(hash)
    requires req1.methodName == DEPOSIT && req2.methodName == DEPOSIT
    requires |d1.extraParameters| >= 4 && |d2.extraParameters| >= 4
    requires HashRequestResult(hash, appId1, req1, d1) == HashRequestResult(hash, appId2, req2, d2)
    ensures Selected(appId1, req1, d1) == Selected(appId2, req2, d2)
  {
    PackInjective(Selected(appId1, req1, d1), Selected(appId2, req2, d2));
  }
}
