/**
 * The entities of the subgraph schema that the pricing rules read.
 * Identifiers are canonical (lower-case hex) address strings; every
 * BigDecimal field is an exact `real` and every BigInt field an `int`.
 */
module Schema {

  import opened Optional

  /** A token record; `derivedEOS` is its price in EOS, refreshed elsewhere. */
  datatype Token = Token(id: string, derivedEOS: real)

  /** A pool between `token0` and `token1` with its reserves and spot prices. */
  datatype Pair = Pair(
    id: string,
    token0: string,
    token1: string,
    reserve0: real,
    reserve1: real,
    reserveEOS: real,
    token0Price: real,
    token1Price: real,
    liquidityProviderCount: int
  )

  /** The singleton bundle holding the EOS price in USD. */
  datatype Bundle = Bundle(eosPrice: real)

  /** A read-only snapshot of the entity store, keyed by id. */
  datatype Store = Store(pairs: map<string, Pair>, tokens: map<string, Token>)

  /**
   * The factory contract's `getPair(tokenA, tokenB)`; `None` stands for the
   * zero address the contract returns when no pool exists.
   */
  type Factory = (string, string) -> Option<string>

}
