/**
 * Query parameters of the account list endpoints: the `Display` words of the
 * `Tag`, `Sort` and `BlockType` enums, `TxListParams` with its default and its
 * conversion to a parameter map, and the token-transfer filter.
 */
module Params {
  import opened Wrappers
  import opened Decimal
  import opened HexFormat

  /** The block parameter of the balance endpoints; `Latest` is the default. */
  datatype Tag = Earliest | Pending | Latest

  const DefaultTag: Tag := Latest

  /** The list sorting preference. */
  datatype Sort = Asc | Desc

  /** The kind of block the mined-blocks endpoint lists; canonical blocks are the default. */
  datatype BlockType = CanonicalBlocks | Uncles

  const DefaultBlockType: BlockType := CanonicalBlocks

  /** The inverse of `TagDisplay`, defined here to pin each word exactly. */
  function ParseTag(s: string): Option<Tag> {
    if s == "earliest" then Some(Earliest)
    else if s == "pending" then Some(Pending)
    else if s == "latest" then Some(Latest)
    else None
  }

  /** `Display for Tag`: a word `ParseTag` reads back as the same tag. */
  function TagDisplay(t: Tag): (r: string)
    ensures ParseTag(r) == Some(t)
  {
    match t
    case Earliest => "earliest"
    case Pending => "pending"
    case Latest => "latest"
  }

  /** The inverse of `SortDisplay`, defined here to pin each word exactly. */
  function ParseSort(s: string): Option<Sort> {
    if s == "asc" then Some(Asc) else if s == "desc" then Some(Desc) else None
  }

  /** `Display for Sort`: a word `ParseSort` reads back as the same order. */
  function SortDisplay(s: Sort): (r: string)
    ensures ParseSort(r) == Some(s)
  {
    match s
    case Asc => "asc"
    case Desc => "desc"
  }

  /** The inverse of `BlockTypeDisplay`, defined here to pin each word exactly. */
  function ParseBlockType(s: string): Option<BlockType> {
    if s == "blocks" then Some(CanonicalBlocks) else if s == "uncles" then Some(Uncles) else None
  }

  /** `Display for BlockType`: a word `ParseBlockType` reads back as the same block type. */
  function BlockTypeDisplay(b: BlockType): (r: string)
    ensures ParseBlockType(r) == Some(b)
  {
    match b
    case CanonicalBlocks => "blocks"
    case Uncles => "uncles"
  }

  /** Common optional arguments of the transaction and event list endpoints. */
  datatype TxListParams = TxListParams(startBlock: u64, endBlock: u64, page: u64, offset: u64, sort: Sort)

  /** `Default for TxListParams`. */
  const DefaultTxListParams: TxListParams := TxListParams(0, 99999999, 0, 10000, Asc)

  /** The five keys every list query carries. */
  const ListKeys: set<string> := {"startBlock", "endBlock", "page", "offset", "sort"}

  /** `params` carries the five list entries of `p`, each in its wire form. */
  predicate HasListEntries(params: map<string, string>, p: TxListParams) {
    && "startBlock" in params && params["startBlock"] == NatToDecimal(p.startBlock)
    && "endBlock" in params && params["endBlock"] == NatToDecimal(p.endBlock)
    && "page" in params && params["page"] == NatToDecimal(p.page)
    && "offset" in params && params["offset"] == NatToDecimal(p.offset)
    && "sort" in params && params["sort"] == SortDisplay(p.sort)
  }

  /** The list entries determine the parameters they were made from. */
  lemma ListEntriesDetermineParams(params: map<string, string>, p: TxListParams, q: TxListParams)
    requires HasListEntries(params, p) && HasListEntries(params, q)
    ensures p == q
  {
    DecimalInjective(p.startBlock, q.startBlock);
    DecimalInjective(p.endBlock, q.endBlock);
    DecimalInjective(p.page, q.page);
    DecimalInjective(p.offset, q.offset);
    assert ParseSort(SortDisplay(p.sort)) == Some(q.sort);
  }

  /** The entries of the default parameters, as they go on the wire. */
  lemma DefaultListEntries(params: map<string, string>)
    requires HasListEntries(params, DefaultTxListParams)
    ensures params["startBlock"] == "0" && params["endBlock"] == "99999999"
    ensures params["page"] == "0" && params["offset"] == "10000" && params["sort"] == "asc"
  {
  }

  /**
   * `From<TxListParams> for HashMap`: exactly the five list keys, each holding
   * the decimal text of its field, and the sort word.
   */
  method ListParamsMap(p: TxListParams) returns (params: map<string, string>)
    ensures params.Keys == ListKeys
    ensures HasListEntries(params, p)
  {
    params := map[];
    params := params["startBlock" := NatToDecimal(p.startBlock)];
    params := params["endBlock" := NatToDecimal(p.endBlock)];
    params := params["page" := NatToDecimal(p.page)];
    params := params["offset" := NatToDecimal(p.offset)];
    params := params["sort" := SortDisplay(p.sort)];
  }

  /** The filter of the token-transfer endpoints. */
  datatype TokenQueryOption =
    | ByAddress(address: Address)
    | ByContract(contract: Address)
    | ByAddressAndContract(address: Address, contract: Address)

  /**
   * `TokenQueryOption::into_params`: the five list entries unchanged, plus
   * `address` unless the filter is by contract only, plus `contractaddress`
   * unless it is by address only, and no other key.
   */
  method IntoParams(option: TokenQueryOption, listParams: TxListParams) returns (params: map<string, string>)
    ensures HasListEntries(params, listParams)
    ensures ListKeys <= params.Keys <= ListKeys + {"address", "contractaddress"}
    ensures "address" in params <==> !option.ByContract?
    ensures "contractaddress" in params <==> !option.ByAddress?
    ensures "address" in params ==> params["address"] == DebugHex(option.address)
    ensures "contractaddress" in params ==> params["contractaddress"] == DebugHex(option.contract)
  {
    params := ListParamsMap(listParams);
    match option
    case ByAddress(address) =>
      params := params["address" := DebugHex(address)];
    case ByContract(contract) =>
      params := params["contractaddress" := DebugHex(contract)];
    case ByAddressAndContract(address, contract) =>
      params := params["address" := DebugHex(address)];
      params := params["contractaddress" := DebugHex(contract)];
  }
}
