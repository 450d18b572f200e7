# Pricing rules of the Neutroswap AMM subgraph, in Dafny

This project models the pricing core of the Neutroswap AMM subgraph's mappings:

- **EOS/USD oracle** (`getEosPriceInUSD`). It reads the USDT(EOS)/WEOS pool's `token0Price`. It falls back to the legacy USDT(Multichain)/WEOS pool's `token1Price`, and then to 0.
- **Whitelist scan** (`findEosPerToken`). It prices a token in EOS. WEOS is priced at exactly 1. For any other token the scan walks the four anchor tokens in order. It asks the factory for the pool with each anchor and keeps the pool whose `reserveEOS` is strictly greater than everything seen so far. The starting value is the 0.1 EOS floor.
- **Tracked volume and liquidity** (`getTrackedVolumeUSD`, `getTrackedLiquidityUSD`). These decide how much USD value counts, based on whitelist membership. Volume also has a denylist and a gate for thin pools: fewer than 5 liquidity providers and a $100 threshold.
- **Static token-definition table** (`TokenDefinition.getStaticDefinitions`) and its find-first lookup (`fromAddress`).

Modules:

- `Optional`: Option.
- `Schema`: Token, Pair, Bundle, Store and Factory.
- `Pricing`: constants, the four operations and the scan's characterisation.
- `PricingLemmas`: the properties.
- `TokenDefinitions`: the table and the lookup.

Every BigDecimal is modelled as an exact `real`, because the only division is by 2. Every BigInt is modelled as an `int`. Addresses are opaque, canonical strings.

Design notes:

- **Scan state and candidates.** The scan is a fold over the whitelist. `Step` keeps the source's two sequential tests. It is proved equal to `Advance`, which takes one `Candidate` (the pool's EOS reserve and the price it implies) only when that candidate is strictly more liquid.
- **Characterisation.** The result is characterised through `Selects`. It is the price of the earliest most liquid candidate above the floor, or 0 when no candidate is above the floor.
- **Reference definition for tracking.** `TrustedMeanUSD` is the mean USD value of the whitelisted legs. Tracked liquidity is twice this mean. Tracked volume equals the mean, except on denylisted or gated pools.
- **Neither-side pools.** A pool holding the target on neither side is skipped with no report (src/mappings/pricing.ts:59-68); `ForeignPoolIsSkipped` states this.
- **Loads.** `Best` is the same fold computed from the candidates alone, with no store read. The precondition `ScanLoadable` asks for exactly the loads the loop makes: entry `i` needs its counterpart token only when its reserve beats the best reserve of the entries before it.

## Model

| member | source | states |
|---|---|---|
| Pricing.GetEosPriceInUSD | src/mappings/pricing.ts:10-25 | a non-zero EOS price comes from one of the two designated pools |
| PricingLemmas.EosPriceFallback | src/mappings/pricing.ts:10-25 | primary pool's token0Price if present, else legacy pool's token1Price, else 0 |
| PricingLemmas.EosPriceReadsOnlyAnchorPools | src/mappings/pricing.ts:12-25 | two stores that agree on the two designated pools give the same price: no other pool is consulted |
| Pricing.Step | src/mappings/pricing.ts:56-69 | one loop iteration equals taking the pool's candidate (reserve, price read on the side opposite the target) only when its reserveEOS is strictly above the best so far; lastPairReserveEOS never decreases |
| Pricing.Scan | src/mappings/pricing.ts:52-70 | the loop ends where the store-free fold over the candidates ends, and lastPairReserveEOS never drops below the 0.1 floor |
| Pricing.BestNeverDecreases | src/mappings/pricing.ts:55-69 | the best reserve after a longer prefix of the whitelist is at least that after a shorter one |
| Pricing.AdvanceSelects | src/mappings/pricing.ts:59-68 | one more candidate, taken only when strictly more liquid, preserves "earliest most liquid above the floor, or the start state" |
| Pricing.BestSelectsEarliestMostLiquid | src/mappings/pricing.ts:52-71 | after the whole loop: no candidate exceeds the kept reserve; at the floor the price is 0; above it the kept pair is the earliest candidate with maximal reserve |
| Pricing.FindEosPerToken | src/mappings/pricing.ts:47-72 | WEOS gets 1; otherwise 0 when no whitelisted pool exceeds 0.1 EOS, else the price from the earliest most liquid whitelisted pool |
| Pricing.ScanLoop | src/mappings/pricing.ts:52-71 | the imperative loop computes the same price as the fold; its invariants keep lastPairReserveEOS >= 0.1 and never below any earlier value |
| Pricing.FindEosPerTokenLoop | src/mappings/pricing.ts:47-72 | the WEOS early return followed by the loop computes the same price as the functional model |
| PricingLemmas.LessLiquidPoolNeedsNoCounterpart | src/mappings/pricing.ts:58-66 | a store missing the counterpart token of a pool less liquid than an earlier one is still loadable, and the earlier pool prices the token |
| PricingLemmas.MostLiquidAnchorWins | src/mappings/pricing.ts:55-69 | the strictly most liquid candidate above the floor (earliest on ties) determines the price |
| PricingLemmas.EarliestMostLiquidIsUnique | src/mappings/pricing.ts:59-68 | the winning whitelist position is unique, so the result is deterministic |
| PricingLemmas.TieGoesToEarliest | src/mappings/pricing.ts:59-64 | of two equally liquid candidates the later one never wins |
| PricingLemmas.LessLiquidNeverWins | src/mappings/pricing.ts:59-64 | a candidate strictly less liquid than another never wins, whatever their order |
| PricingLemmas.UnanchoredTokenPricedAtZero | src/mappings/pricing.ts:52-71 | a token the factory pairs with no anchor is priced 0 |
| PricingLemmas.WeosPricedAtOneInEveryStore | src/mappings/pricing.ts:48-50 | WEOS is priced 1 whatever the store and factory hold |
| PricingLemmas.ForeignPoolIsSkipped | src/mappings/pricing.ts:57-69 | a pool with the target on neither side leaves the estimate unchanged |
| Pricing.TrackedVolumeUSD | src/mappings/pricing.ts:80-137 | 0 for any denylisted pool and whenever neither token is whitelisted |
| Pricing.TrackedLiquidityUSD | src/mappings/pricing.ts:145-172 | 0 when neither token is whitelisted; never negative for non-negative amounts and prices |
| PricingLemmas.LiquidityIsTwiceTrustedMean | src/mappings/pricing.ts:155-171 | tracked liquidity is twice the mean USD value of the whitelisted legs (sum of both, or double the one) |
| PricingLemmas.VolumeIsHalfLiquidityUnlessGated | src/mappings/pricing.ts:91-136 | volume is 0 if denylisted, 0 if a thin pool's reserves track under $100, otherwise exactly half the tracked liquidity of the amounts |
| PricingLemmas.WellProvidedPoolsSkipGate | src/mappings/pricing.ts:97-136 | pools with 5 or more providers skip the gate; volume is the mean of the whitelisted legs |
| PricingLemmas.ThinPoolGate | src/mappings/pricing.ts:96-115 | thin pools: both whitelisted need reserve0USD+reserve1USD >= 100, one whitelisted needs 2*reserveUSD >= 100; exactly 100 passes |
| PricingLemmas.TrackingIgnoresSideOrder | src/mappings/pricing.ts:117-171 | swapping token0 and token1 (and the reserves) changes neither tracked volume nor tracked liquidity |
| PricingLemmas.VolumeBoundedByLiquidity | src/mappings/pricing.ts:117-171 | with non-negative inputs, 0 <= tracked volume <= tracked liquidity |
| PricingLemmas.WorkedExamples | src/mappings/pricing.ts:97-162 | a thin two-anchor pool worth $99 tracks 0 and one worth $100 tracks the mean; 10 of an anchor at $2 gives $40 liquidity |
| TokenDefinitions.GetStaticDefinitions | src/mappings/tokenDefinition.ts:19-41 | the table has length 4, holes at slots 0 and 1, USDT (Multichain) at 2 and USDT (EOS) at 3 |
| TokenDefinitions.Search | src/mappings/tokenDefinition.ts:48-57 | Found only with a matching address, and the first such slot; NotFound exactly when every slot is a definition with another address; Hole at the first hole before any match |
| TokenDefinitions.SearchWithoutHoles | src/mappings/tokenDefinition.ts:49-57 | on a hole-free table the lookup finds a definition exactly when some entry has the address |
| TokenDefinitions.FromAddress | src/mappings/tokenDefinition.ts:44-58 | as written, every lookup reaches the hole in slot 0 before any definition |
| TokenDefinitions.FromAddressMissesListedToken | src/mappings/tokenDefinition.ts:20-52 | USDT (EOS) is in the written table, yet the written lookup does not find it while the intended one does |
| TokenDefinitions.GetStaticDefinitionsIntended | src/mappings/tokenDefinition.ts:20-38 | the intended table holds just the two definitions, in push order |
| TokenDefinitions.FromAddressIntended | src/mappings/tokenDefinition.ts:44-58 | 0xfa93…a40f yields USDT (MULTICHAIN)/DEPRECATED USDT/6, 0x33b5…2b8e yields USDT/USDT/6, any other address not found |
| TokenDefinitions.StaticDefinitionsHaveSixDecimals | src/mappings/tokenDefinition.ts:23-37 | every definition in either table has 6 decimals |

## Left out

- Store access (`Pair.load`, `Token.load`, `Bundle.load`): replaced by a `Store` snapshot and a `Bundle` value. A dereference without a null check becomes a precondition.
- The factory contract call `getPair`: modelled as an opaque function returning `Option`, where None stands for the zero address.
- Address conversions (`Address.fromString`, `toHexString`): addresses are already-canonical strings.
- BigDecimal precision: values are exact reals, and the only division is by 2.
- The `helpers` module is not part of this model. `UNTRACKED_PAIRS` is a set parameter; `ZERO_BD` and `ONE_BD` are the reals 0 and 1.
- Event handlers, entity persistence and the external job that refreshes `derivedEOS` and the bundle's `eosPrice`: this is orchestration and I/O.
- The relation between `token0Price`, `token1Price` and the reserves: these files never compute or assert it.

## Findings

| source | as written | input that shows it | evidently intended | confidence | as-written member | corrected member |
|---|---|---|---|---|---|---|
| src/mappings/tokenDefinition.ts:20 | `new Array<TokenDefinition>(2)` then two `push`es leave holes in slots 0 and 1; `fromAddress` reads slot 0 first and dereferences the hole | any address, e.g. 0x33b57dc70014fd7aa6e1ed3080eed2b619632b8e | a table of exactly the two definitions, so each address finds its definition and others are not found | medium, not executed (the hole read aborts in current AssemblyScript and throws in JavaScript) | TokenDefinitions.FromAddressMissesListedToken | TokenDefinitions.FromAddressIntended |
