# MRC20 presale deposit validation, modelled in Dafny

This project models the deposit-validation core of the `mrc20_presale` oracle
app (`general/mrc20_presale.js`). Before an oracle node co-signs "this
address may deposit", the app does four things, and the model covers each:

- **Sale calendar** (`PhaseClock`). It derives the sale day from a millisecond
  timestamp. It also fixes the two phase boundaries: `PUBLIC_SALE` (3 days
  after the start) and `PUBLIC_TIME` (5 days after the start).
- **Allocation-cap engine** (`CapEngine`, `Presale.Validate`,
  `Presale.DepositSpec`, `Presale.OnRequest`).
  - It validates the deposit parameters in a fixed order.
  - It checks the signature through a given recovery function.
  - It refuses a request whose USD value plus every chain's recorded total is
    above the ceiling.
  - It computes `finalMaxCap`. From `PUBLIC_TIME` on this is the whole ceiling.
    Before that it is the day's allocation minus the per-chain
    "purchased so far" day buckets.
- **Per-address deposit lock** (`NodeMem.NodeMemory`, `Presale.OnArrive`,
  `Presale.CheckLock`, and the confirmation read at the end of
  `Presale.OnRequest`).
  - Node memory is a class: a map from an address to its lock entries. Each
    entry has an owner and an expiry instant.
  - `onArrive` takes the lock or refuses while a lock entry is visible.
  - `onRequest` confirms that exactly one owner holds the lock.
  - `checkLock` reports the lock status and never writes.
- **Result hashing** (`ResultHash`). This is the nine-field, typed list that
  every node hashes. The hash itself is a given function.

The wall clock (`getTimestamp`) is the parameter `now`. The chain reads are
the given sequence of `userInfo` records, one per configured chain. The
constants file is the immutable `Config` value. BN numbers are unbounded
integers, and BN division truncates toward zero (`TruncDiv`).

`onRequest` mixes pure code and loops, so it is modelled in two parts. The
loops that total the balances and the purchases become the method
`Presale.OnRequest`. Its postcondition ties the result to the function
`Presale.DepositSpec`, and the lemmas about that function state what the app
promises.

Some behaviours of the code differ from what a reader might expect, and the
model follows the code:

- With an allocation of 100 on day 2, no earlier purchases and a request
  worth 30, one might expect a cap of 70. The code returns 100 (in wei),
  because it subtracts only earlier purchases and never the requested amount
  (`Presale.CapIgnoresRequestedAmount`, general/mrc20_presale.js:273-283).
- A total exactly at the global ceiling is not refused: the code compares with
  a strict `>` (`Presale.CeilingBoundaryPasses`,
  general/mrc20_presale.js:220-225).
- Addresses are not normalised to one case before the table lookup: the code
  looks up `allocation[forAddress]` as given (general/mrc20_presale.js:157),
  and so does the model. The deposit lock is keyed by `forAddress` as given
  too (:115-119, :298-299), and so is `NodeMemory.locks`. Two spellings of
  one address that differ in letter case therefore take separate locks, while
  the signature check (:185) accepts either spelling.
- Days outside 1-5 do not all get an empty bucket. A day of 0 or less falls
  into the `day < 4` branch, and only days after 5 get 0
  (`CapEngine.NoBucketAfterDayFive`, general/mrc20_presale.js:238-264). Inside `onRequest` neither case can
  happen: days of 0 or less are refused earlier, and before `PUBLIC_TIME` the
  day is at most 5 (`Presale.TieredPhaseCap`).

## Model

| member | source | states |
|---|---|---|
| `PhaseClock.GetDay` | general/mrc20_presale.js:42-43 | the day `d` is the one whose 24-hour window `[(d-1)·DAY, d·DAY)` after `START_TIME*1000` holds the time, i.e. the floor of the quotient plus one |
| `PhaseClock.DayIsUnique` | general/mrc20_presale.js:42-43 | any integer whose window holds the time is the day |
| `PhaseClock.DayAtStart` | general/mrc20_presale.js:19-43 | the start instant is day 1, the instant before it day 0, `PUBLIC_SALE` day 4, `PUBLIC_TIME` day 6 |
| `PhaseClock.DayMonotone` | general/mrc20_presale.js:42-43 | a later time never has an earlier day |
| `PhaseClock.BeforePublicSaleIffEarlyDay` | general/mrc20_presale.js:19-43 | `t < PUBLIC_SALE` exactly when day(t) ≤ 3 |
| `PhaseClock.BeforePublicTimeIffDayAtMostFive` | general/mrc20_presale.js:19-43 | `t < PUBLIC_TIME` exactly when day(t) ≤ 5 |
| `Tokens.ToLower` | general/mrc20_presale.js:166 | lower-casing keeps the length and lower-cases each ASCII letter in place |
| `Tokens.LookupIgnoresCase` | general/mrc20_presale.js:165-169 | the registry is looked up by the lower-cased symbol, so two symbols that differ only in letter case find the same token (or both none) |
| `NodeMem.FirstLiveFinds` | general/mrc20_presale.js:117-121 | a plain read returns nothing exactly when no entry is visible, and what it returns is a visible entry of that address |
| `NodeMem.NodeMemory.Read` | general/mrc20_presale.js:117-120 | the read returns the first visible entry for the address (loop proved against `FirstLive`) |
| `NodeMem.NodeMemory.ReadDistinctOwners` | general/mrc20_presale.js:298-301 | the distinct-owner read returns each owner of a visible entry exactly once, so its length is the number of such owners |
| `NodeMem.DistinctCount` | general/mrc20_presale.js:298-302 | a list without repeats has as many distinct members as it is long |
| `NodeMem.NodeMemory.Write` | general/mrc20_presale.js:131 | a write appends one entry owned by this node, expiring `ttl` seconds after `now`, and changes no other address |
| `NodeMem.FreshEntrySeen` | general/mrc20_presale.js:117-131 | once a lock entry is written, every read before it expires finds an entry |
| `NodeMem.OnlyFreshEntryVisible` | general/mrc20_presale.js:117-131 | if no entry was visible when this node wrote its own, a plain read at any later instant before it expires returns exactly that entry, provided no other entry for the address is written in between |
| `NodeMem.SoleWriterConfirms` | general/mrc20_presale.js:298-302 | if no entry was visible when this node wrote its own, then until it expires the distinct-owner read reports exactly that node, provided no other entry for the address is written before the read |
| `NodeMem.RaceDetected` | general/mrc20_presale.js:298-302 | two visible entries from different owners make the distinct-owner read report at least two owners |
| `NodeMem.SameOwnerNotDetected` | general/mrc20_presale.js:298-302 | two visible entries from the same owner are reported as one owner |
| `CapEngine.TruncDiv` | general/mrc20_presale.js:191 | BN division: the quotient has the dividend's sign and is rounded toward zero (`|q·b| ≤ |a| < |q·b| + b`) |
| `CapEngine.UsdAmountOfListedTokens` | general/mrc20_presale.js:188-191 | for the two listed tokens (price 1) the USD value is the amount rescaled from 18 or 6 decimals to 18 |
| `CapEngine.SumAppend` | general/mrc20_presale.js:216-219 | folding one more chain's value into the sum adds exactly that value |
| `CapEngine.SumMonotone` | general/mrc20_presale.js:273-276 | a sum does not decrease when no term decreases |
| `CapEngine.RequestingChainSkipsCurrentRound` | general/mrc20_presale.js:238-265 | on every day up to 5 the requesting chain counts what the other chains count minus the current day's round balance |
| `CapEngine.TieredBuckets` | general/mrc20_presale.js:247-262 | on days 4 and 5 other chains count rounds 4 through today and the requesting chain counts rounds 4 through yesterday (day 5: only round 4) |
| `CapEngine.NoBucketAfterDayFive` | general/mrc20_presale.js:263-264 | after day 5 nothing is counted as purchased |
| `CapEngine.AllocationSourceByDay` | general/mrc20_presale.js:277-280 | on days up to 3 the allocation comes from the address's table, from day 4 on from `PUBLIC_PHASE`, and `[PUBLIC_SALE, PUBLIC_TIME)` is exactly days 4 and 5 |
| `CapEngine.PublicCapIgnoresBalances` | general/mrc20_presale.js:228-229 | from `PUBLIC_TIME` on the cap is the ceiling in wei, whatever any chain has recorded |
| `CapEngine.CapPlusPurchasedIsAllocation` | general/mrc20_presale.js:273-283 | before `PUBLIC_TIME` a cap exists exactly when the day's allocation is defined, and then cap plus all chains' purchases equals the allocation in wei (no clamping) |
| `CapEngine.CapShrinksWithPurchases` | general/mrc20_presale.js:273-283 | if every chain's bucket is no smaller, the cap is no larger |
| `CapEngine.NegativeCapReturned` | general/mrc20_presale.js:273-283 | for every configuration, day and set of chain records before `PUBLIC_TIME`: when the day's allocation is defined and the purchases on all chains exceed it in wei, the cap exists and is negative (not clamped to zero) |
| `Presale.Validate` | general/mrc20_presale.js:147-171 | validation succeeds exactly when every condition holds, and passes on the token record, amount, chain, allocation entry and day |
| `Presale.ValidationOrder` | general/mrc20_presale.js:150-171 | validation reports the first failure in this order: token, amount (missing, empty or read as 0), address, signature, chain id, no allocation before `PUBLIC_SALE`, day ≤ 0, unlisted token, chain not in the token's chains |
| `Presale.OnRequest` | general/mrc20_presale.js:139-308 | the handler's loops, sums and branches compute exactly `DepositSpec`, given the number of owners the confirmation read reports; the first loop is proved to fold every chain's `_totalBalance` in `chainMap` order and the second every chain's day bucket |
| `Presale.DepositAcceptedIff` | general/mrc20_presale.js:145-304 | a request is accepted exactly when it is a deposit, passes validation, has a decimal amount, is signed by its address (case-insensitive), stays under the ceiling, has a defined allocation (or it is past `PUBLIC_TIME`), and exactly one owner holds the lock |
| `Presale.AcceptedDepositFields` | general/mrc20_presale.js:286-297 | an accepted result carries the token address, the address, the day (≥ 1), and `extraParameters` = [cap, chain id, price·10^18, amount, request timestamp] |
| `Presale.CeilingDecides` | general/mrc20_presale.js:188-225 | after validation and the signature, "Amount is not valid" is reported exactly when USD amount + Σ `_totalBalance` > ceiling·10^18 |
| `Presale.CeilingBoundaryPasses` | general/mrc20_presale.js:220-225 | a total exactly at the ceiling is not refused |
| `Presale.PublicPhaseCap` | general/mrc20_presale.js:228-229 | in the public phase an accepted cap is the whole ceiling in wei, on day 6 or later |
| `Presale.TieredPhaseCap` | general/mrc20_presale.js:230-284 | before `PUBLIC_TIME` an accepted deposit is on days 1-5, and cap + Σ buckets = allocation in wei, from the address table on days 1-3 and from `PUBLIC_PHASE` on days 4-5 |
| `Presale.CapIgnoresRequestedAmount` | general/mrc20_presale.js:273-283 | two accepted requests that differ only in amount get the same cap |
| `Presale.ZeroAllocationBeforePublicSale` | general/mrc20_presale.js:157-161 | with the basic fields present, an address without allocation before `PUBLIC_SALE` is refused with ZeroAllocation, whatever the token or the day |
| `Presale.AtomicRunNeedsSoleOwner` | general/mrc20_presale.js:298-302 | a request that passes every other check is accepted exactly when the confirmation read reports one owner, and otherwise fails with "Atomic run failed." |
| `Presale.UnparsableAmountPassesAmountCheck` | general/mrc20_presale.js:150-191 | a non-empty amount `parseInt` cannot read is never refused as an invalid amount: with an empty address the error is "Invalid sender address", and a request that passes validation and the signature stops at `bn(amount)` |
| `Presale.OtherMethodsRefused` | general/mrc20_presale.js:306-307 | any method other than deposit is refused as unknown |
| `Presale.OnArrive` | general/mrc20_presale.js:104-137 | for a deposit: if a lock entry is visible, throws with lock time 300, that entry's expiry and the day, leaving memory unchanged; otherwise appends one entry for the address expiring 300 s later. Any other method touches nothing |
| `Presale.ArriveTwice` | general/mrc20_presale.js:104-131 | two deposits for one address on one node: the first passes exactly when no lock entry is visible, and if it passes, the second, handled after the first has written its entry and before that entry expires, is refused with lock time 300, the first entry's expiry and the day |
| `Presale.ArriveInterleaved` | general/mrc20_presale.js:104-131 | two deposits for one address on one node whose reads both come before either write: both pass, memory gains two entries owned by this node, and the distinct-owner read then reports that node alone, so the confirmation does not catch them |
| `Presale.CheckLock` | general/mrc20_presale.js:56-102 | no allocation before `PUBLIC_SALE` gives an ALLOCATION lock expiring at `PUBLIC_SALE`; otherwise a visible entry gives a COOL_DOWN lock of 300 s with that entry's expiry; otherwise unlocked; the day is always day(now), and memory is only read |
| `ResultHash.Pack` | general/mrc20_presale.js:318-328 | the hashed list has nine fields: uint32, address, uint8, five uint256 around one address, in that order |
| `ResultHash.UnpackPack` | general/mrc20_presale.js:318-328 | the nine values can be read back from the hashed list |
| `ResultHash.PackInjective` | general/mrc20_presale.js:318-328 | different nine-value tuples give different hashed lists |
| `ResultHash.HashRequestResult` | general/mrc20_presale.js:311-333 | a digest exists exactly for the deposit method (null otherwise) |
| `ResultHash.HashOfAcceptedDeposit` | general/mrc20_presale.js:286-328 | an accepted deposit's digest hashes, in order: app id, token address, day, amount, request timestamp, address, cap, chain id, token price in wei |
| `ResultHash.DigestBindsAllFields` | general/mrc20_presale.js:316-328 | with a collision-free hash, equal deposit digests mean all nine selected values are equal |

## Left out

- Signature recovery: `recoverTypedMessage` over the EIP-712 typed data (version v4) is the given function `recover(forAddress, sign)`. Only the case-insensitive comparison of its result is modelled. `recover` is total: a malformed signature, on which the library throws and the handler reports that exception rather than 'Request signature mismatch', is not modelled.
- Hashing primitive: `soliditySha3` (packed encoding plus keccak256) is the given function `hash` over the typed field list. Its own refusals are not modelled: a value wider than its type, or a negative `uint256` such as a negative cap, makes it throw.
- Chain reads: `ethCall` and the `Promise.all` fan-out are input. The model takes one `userInfo` record per configured chain. A failing read, which aborts the request, is not modelled.
- Floating point: the ceiling comparison converts both sums to JavaScript numbers with `fromWei`. The model compares exactly in wei, so rounding near the ceiling is not captured.
- Constants file: `allocation`, `PUBLIC_PHASE`, `chainMap`, `IDO_PARTICIPANT_TOKENS` and `MUON_PRICE` are fields of `Config` and hold integers. Fractional prices or allocations, which `toBaseUnit` would accept, are not modelled.
- Presale.AllocationOf: an address's table entry is either absent or a map of days, so a falsy entry such as `null` or `0` is not modelled. `checkLock` tests `!allocationForAddress` (general/mrc20_presale.js:63) but `onRequest` tests `=== undefined` (:160). Before `PUBLIC_SALE`, for such an entry `checkLock` reports an ALLOCATION lock, while `onRequest` passes :160 and throws at :279-282 when it reads the day's entry.
- Presale.AllocationOf: `allocation[forAddress]` is a property read on a parsed JSON object, so it also finds names inherited from `Object.prototype` (`constructor`, `toString`, `hasOwnProperty`, `__proto__`, ...). The model looks up only the table's own keys. Before `PUBLIC_SALE`, for `forAddress = "constructor"`, `checkLock` in the source goes on to the lock read (answering "Not locked." or COOL_DOWN) where the model's `CheckLock` answers an ALLOCATION lock. `onRequest` in the source passes the check at :160 and fails later (no active sale, signature mismatch, or an undefined day entry), where the model's `Validate` answers `ZeroAllocation`.
- `chainMap` values are assumed distinct. The source keys `totalBalance` and `allPurchase` by chain id, so a repeated id would keep only its last record. The model sums one entry per configured chain.
- Node memory: an entry is visible exactly while `now < expireAt`. A write sets `expireAt = now + 300·1000`, on the same millisecond clock as `now`; the store's own clock and units are not part of this model. Cross-node races appear only as several entries for one address.
- Presale.OnArrive: the model runs the read (general/mrc20_presale.js:117) and the write (:131) of one request with no other request in between. In the source they are two awaits, so two deposits for one address on one node can interleave. Both then pass, leave two self-owned entries, and are both confirmed by the distinct-owner read. `Presale.ArriveInterleaved` shows this interleaving step by step; other interleavings with `onRequest` are not modelled.
- NodeMem.NodeMemory.Read: the store's plain read returns some matching entry, and the model fixes it to the first visible one in write order. When several entries for an address are visible, which `expireAt` the `onArrive` and `checkLock` replies carry is therefore a modelling choice.
- Parameters: a missing, `null` or empty string parameter is the empty string, and a chain id `parseInt` cannot read is `None` (NaN is falsy, so it fails the chain-id check). The amount is `Missing`, `Unparsable` (NaN, which passes the amount check) or `Decimal(n)`; a string such as `"12abc"` that `parseInt` and `BN` read differently is not modelled.
- Presale.DepositSpec: what `bn(amount)` makes of a string `parseInt` cannot read depends on the BN library version (an assertion, or digits read with letter values), so the model stops such a request there with `AmountNotNumeric` instead of computing a value.
- `_roundBalances` indices the record lacks read as 0, as `new BN(undefined)` does.
- Lower-casing covers ASCII letters only. `toLowerCase` on other Unicode letters is not modelled.
- Messages and constant reply fields: error messages become `Presale.Error` values. The constant `PUBLIC_TIME`, `PUBLIC_SALE` and `START_TIME` fields of the `checkLock` reply are omitted.
- `APP_NAME`, `readOnlyMethods` and the module wiring belong to the host framework and are not modelled.
