/**
 * The static fallback table of token metadata and its find-first lookup.
 *
 * The table is built as `new Array<TokenDefinition>(2)` followed by two
 * pushes, so it has four slots of which the first two are holes. A slot is
 * an `Option`; reading the `address` of a hole cannot succeed, so the
 * lookup reports reaching a hole as its own outcome.
 */
module TokenDefinitions {

  import opened Optional

  datatype TokenDefinition = TokenDefinition(address: string, symbol: string, name: string, decimals: int)

  const UsdtMultichain: TokenDefinition :=
    TokenDefinition("0xfa9343c3897324496a05fc75abed6bac29f8a40f", "USDT (MULTICHAIN)", "DEPRECATED USDT", 6)

  const UsdtEos: TokenDefinition :=
    TokenDefinition("0x33b57dc70014fd7aa6e1ed3080eed2b619632b8e", "USDT", "USDT", 6)

  /** `new Array<T>(n)`: n slots, all holes. */
  function NewArray<T>(n: nat): seq<Option<T>>
  {
    seq(n, _ => None)
  }

  /** `push`: appends after the existing slots, holes included. */
  function Push<T>(a: seq<Option<T>>, x: T): seq<Option<T>>
  {
    a + [Some(x)]
  }

  /** The table as the source builds it: two holes, then the two definitions. */
  function GetStaticDefinitions(): (r: seq<Option<TokenDefinition>>)
    ensures |r| == 4
    ensures r[0] == None && r[1] == None
    ensures r[2] == Some(UsdtMultichain) && r[3] == Some(UsdtEos)
  {
    Push(Push(NewArray(2), UsdtMultichain), UsdtEos)
  }

  /** The table the construction evidently intends: the two definitions, no holes. */
  function GetStaticDefinitionsIntended(): (r: seq<Option<TokenDefinition>>)
    ensures |r| == 2
    ensures r[0] == Some(UsdtMultichain) && r[1] == Some(UsdtEos)
  {
    Push(Push(NewArray(0), UsdtMultichain), UsdtEos)
  }

  /** The outcome of a lookup: the first matching definition, none, or a hole hit at `index`. */
  datatype Lookup = Found(definition: TokenDefinition) | NotFound | Hole(index: nat)

  /** Slots `i` up to `k` are all real definitions whose address is not `address`. */
  ghost predicate Passes(table: seq<Option<TokenDefinition>>, address: string, i: nat, k: nat)
    requires i <= k <= |table|
  {
    forall j :: i <= j < k ==> table[j].Some? && table[j].value.address != address
  }

  /**
   * The lookup loop from slot `i`: the first slot that is a hole or whose
   * definition has `address` decides the outcome; running off the end is
   * `NotFound`.
   */
  function Search(table: seq<Option<TokenDefinition>>, address: string, i: nat): (r: Lookup)
    requires i <= |table|
    ensures r.Found? ==> r.definition.address == address
    ensures r.Found? ==> exists k :: i <= k < |table| && table[k] == Some(r.definition) && Passes(table, address, i, k)
    ensures r.NotFound? <==> Passes(table, address, i, |table|)
    ensures r.Hole? ==> i <= r.index < |table| && table[r.index] == None && Passes(table, address, i, r.index)
    decreases |table| - i
  {
    if i == |table| then NotFound
    else
      match table[i]
      case None => Hole(i)
      case Some(d) => if d.address == address then Found(d) else Search(table, address, i + 1)
  }

  /**
   * `fromAddress` as written: a search of the four-slot table from slot 0,
   * which stops at the hole in slot 0 whatever the address.
   */
  function FromAddress(address: string): (r: Lookup)
    ensures r == Hole(0)
  {
    Search(GetStaticDefinitions(), address, 0)
  }

  /** `fromAddress` over the intended table. */
  function FromAddressIntended(address: string): (r: Lookup)
    ensures address == UsdtMultichain.address ==> r == Found(UsdtMultichain)
    ensures address == UsdtEos.address ==> r == Found(UsdtEos)
    ensures address != UsdtMultichain.address && address != UsdtEos.address ==> r == NotFound
  {
    Search(GetStaticDefinitionsIntended(), address, 0)
  }

  /**
   * A listed address the written lookup misses: USDT (EOS) is in the table,
   * yet only the intended table yields its definition.
   */
  lemma FromAddressMissesListedToken()
    ensures Some(UsdtEos) in GetStaticDefinitions()
    ensures FromAddress(UsdtEos.address) != Found(UsdtEos)
    ensures FromAddressIntended(UsdtEos.address) == Found(UsdtEos)
  {
  }

  /** On a table without holes the search never hits one, and finds exactly the listed addresses. */
  lemma SearchWithoutHoles(table: seq<Option<TokenDefinition>>, address: string)
    requires forall j :: 0 <= j < |table| ==> table[j].Some?
    ensures !Search(table, address, 0).Hole?
    ensures Search(table, address, 0).Found? <==>
      exists j :: 0 <= j < |table| && table[j].value.address == address
  {
    var r := Search(table, address, 0);
    if !r.Found? {
      assert r.NotFound?;
      assert Passes(table, address, 0, |table|);
    }
  }

  /** Every definition in either table has 6 decimals. */
  lemma StaticDefinitionsHaveSixDecimals()
    ensures forall j :: 0 <= j < |GetStaticDefinitions()| && GetStaticDefinitions()[j].Some? ==>
      GetStaticDefinitions()[j].value.decimals == 6
    ensures forall j :: 0 <= j < |GetStaticDefinitionsIntended()| && GetStaticDefinitionsIntended()[j].Some? ==>
      GetStaticDefinitionsIntended()[j].value.decimals == 6
  {
  }

}
