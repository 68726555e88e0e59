/**
 * The pure parts of the account endpoints of the explorer client: the
 * request each endpoint builds (module, action and parameter map), and how
 * each endpoint reads the `{status, message, result}` envelope it gets back.
 * The transport between the two is not part of this model.
 */
module Client {
  import opened Wrappers
  import opened Decimal
  import opened HexFormat
  import opened Params

  /** The arguments a request is created from: API module, action and parameters. */
  datatype Query = Query(apiModule: string, action: string, params: map<string, string>)

  /** The decoded response envelope. */
  datatype Response<T> = Response(status: string, message: string, result: T)

  /** The failures the account endpoints report themselves. */
  datatype EtherscanError = BalanceFailed | BadStatusCode(status: string)

  /** One entry of a balance response. */
  datatype AccountBalance = AccountBalance(account: Address, balance: string)

  // ---------------------------------------------------------------- balance endpoints

  /**
   * The status match of the balance endpoints: `"1"` is success with the
   * result, `"0"` is `BalanceFailed`, any other status is reported back.
   */
  function BalanceStatus<T>(response: Response<T>): (r: Result<T, EtherscanError>)
    ensures r.Ok? <==> response.status == "1"
    ensures r.Ok? ==> r.value == response.result
    ensures r == Err(BalanceFailed) <==> response.status == "0"
    ensures r.Err? && r.error.BadStatusCode? <==> response.status != "0" && response.status != "1"
    ensures r.Err? && r.error.BadStatusCode? ==> r.error.status == response.status
  {
    match response.status
    case "0" => Err(BalanceFailed)
    case "1" => Ok(response.result)
    case other => Err(BadStatusCode(other))
  }

  /** `get_ether_balance_single`, after the response arrives: the balance of `address` on success. */
  function EtherBalanceSingle(address: Address, response: Response<string>): (r: Result<AccountBalance, EtherscanError>)
    ensures r.Ok? <==> response.status == "1"
    ensures r.Ok? ==> r.value == AccountBalance(address, response.result)
    ensures r.Err? ==> BalanceStatus(response) == Err(r.error)
  {
    match BalanceStatus(response)
    case Ok(balance) => Ok(AccountBalance(address, balance))
    case Err(e) => Err(e)
  }

  /** `get_ether_balance_multi`, after the response arrives. */
  function EtherBalanceMulti(response: Response<seq<AccountBalance>>): (r: Result<seq<AccountBalance>, EtherscanError>)
    ensures r == BalanceStatus(response)
  {
    match response.status
    case "0" => Err(BalanceFailed)
    case "1" => Ok(response.result)
    case other => Err(BadStatusCode(other))
  }

  /** The request of `get_ether_balance_single`: the address and the tag, `latest` when none is given. */
  method BalanceQuery(address: Address, tag: Option<Tag>) returns (q: Query)
    ensures q.apiModule == "account" && q.action == "balance"
    ensures q.params.Keys == {"address", "tag"}
    ensures q.params["address"] == DebugHex(address)
    ensures ParseTag(q.params["tag"]) == Some(tag.GetOr(DefaultTag))
    ensures tag.None? ==> q.params["tag"] == "latest"
  {
    var tagStr := TagDisplay(tag.GetOr(DefaultTag));
    var addrStr := DebugHex(address);
    q := Query("account", "balance", map["address" := addrStr, "tag" := tagStr]);
  }

  /** `join(",")` of a list of texts. */
  function Join(pieces: seq<string>): string {
    if |pieces| == 0 then ""
    else if |pieces| == 1 then pieces[0]
    else pieces[0] + "," + Join(pieces[1..])
  }

  /** The comma-separated pieces of a text (one piece when there is no comma). */
  function Split(s: string): (parts: seq<string>)
    ensures |parts| >= 1
    decreases |s|
  {
    if s == [] then [""]
    else
      var rest := Split(s[1..]);
      if s[0] == ',' then [""] + rest else [[s[0]] + rest[0]] + rest[1..]
  }

  predicate NoComma(s: string) {
    forall i :: 0 <= i < |s| ==> s[i] != ','
  }

  /** Splitting a comma-free text followed by `tail` splits only `tail`. */
  lemma {:induction false} SplitAfter(a: string, tail: string)
    requires NoComma(a)
    ensures Split(a + tail) == [a + Split(tail)[0]] + Split(tail)[1..]
    decreases |a|
  {
    if a != [] {
      assert (a + tail)[1..] == a[1..] + tail;
      SplitAfter(a[1..], tail);
      assert [a[0]] + (a[1..] + Split(tail)[0]) == a + Split(tail)[0];
    } else {
      var parts := Split(tail);
      assert a + tail == tail && a + parts[0] == parts[0];
      assert parts == [parts[0]] + parts[1..];
    }
  }

  /** Joining comma-free pieces with commas and splitting again gives the pieces back. */
  lemma {:induction false} SplitJoin(pieces: seq<string>)
    requires |pieces| >= 1
    requires forall i :: 0 <= i < |pieces| ==> NoComma(pieces[i])
    ensures Split(Join(pieces)) == pieces
    decreases |pieces|
  {
    if |pieces| == 1 {
      SplitAfter(pieces[0], "");
      assert pieces[0] + "" == pieces[0];
    } else {
      var tail := "," + Join(pieces[1..]);
      assert Join(pieces) == pieces[0] + tail;
      SplitAfter(pieces[0], tail);
      assert tail[1..] == Join(pieces[1..]);
      SplitJoin(pieces[1..]);
      assert Split(tail) == [""] + pieces[1..];
      assert Split(tail)[0] == "" && Split(tail)[1..] == pieces[1..];
      assert pieces[0] + "" == pieces[0];
      assert pieces == [pieces[0]] + pieces[1..];
    }
  }

  /** `format!("{x:?}")` of each address, in order. */
  function RenderAddresses(addresses: seq<Address>): (rendered: seq<string>)
    ensures |rendered| == |addresses|
    ensures forall i :: 0 <= i < |addresses| ==> rendered[i] == DebugHex(addresses[i])
  {
    seq(|addresses|, i requires 0 <= i < |addresses| => DebugHex(addresses[i]))
  }

  /** The `address` value of `get_ether_balance_multi`: the rendered addresses joined with commas. */
  function JoinAddresses(addresses: seq<Address>): string {
    Join(RenderAddresses(addresses))
  }

  /** The joined `address` value splits back into the rendered addresses, one per address. */
  lemma SplitJoinAddresses(addresses: seq<Address>)
    requires |addresses| >= 1
    ensures Split(JoinAddresses(addresses)) == RenderAddresses(addresses)
  {
    var rendered := RenderAddresses(addresses);
    forall i | 0 <= i < |rendered| ensures NoComma(rendered[i]) {
      var h := rendered[i];
      assert h[..2] == "0x";
      forall k | 0 <= k < |h| ensures h[k] != ',' {
        if k < 2 { assert h[k] == "0x"[k]; }
      }
    }
    SplitJoin(rendered);
  }

  /** The request of `get_ether_balance_multi`: the joined addresses and the tag, `latest` when none is given. */
  method BalanceMultiQuery(addresses: seq<Address>, tag: Option<Tag>) returns (q: Query)
    ensures q.apiModule == "account" && q.action == "balancemulti"
    ensures q.params.Keys == {"address", "tag"}
    ensures q.params["address"] == JoinAddresses(addresses)
    ensures |addresses| >= 1 ==> Split(q.params["address"]) == RenderAddresses(addresses)
    ensures addresses == [] ==> q.params["address"] == ""
    ensures ParseTag(q.params["tag"]) == Some(tag.GetOr(DefaultTag))
  {
    var tagStr := TagDisplay(tag.GetOr(DefaultTag));
    var addrs := JoinAddresses(addresses);
    if |addresses| >= 1 {
      SplitJoinAddresses(addresses);
    }
    q := Query("account", "balancemulti", map["address" := addrs, "tag" := tagStr]);
  }

  // ---------------------------------------------------------------- list endpoints

  /**
   * How every list endpoint reads its envelope: the result, whatever the
   * status says.
   */
  function ListResult<T>(response: Response<T>): (r: Result<T, EtherscanError>)
    ensures r.Ok? && r.value == response.result
  {
    Ok(response.result)
  }

  /**
   * The asymmetry between the two kinds of endpoint: a status-`"0"` envelope
   * is `BalanceFailed` on a balance endpoint but its result on a list endpoint.
   */
  lemma StatusAsymmetry<T>(response: Response<T>)
    requires response.status == "0"
    ensures BalanceStatus(response) == Err(BalanceFailed)
    ensures ListResult(response) == Ok(response.result)
  {
  }

  /** The request of `get_transactions`: the list entries (default ones when none are given) plus the address. */
  method TransactionsQuery(address: Address, params: Option<TxListParams>) returns (q: Query)
    ensures q.apiModule == "account" && q.action == "txlist"
    ensures q.params.Keys == ListKeys + {"address"}
    ensures HasListEntries(q.params, params.GetOr(DefaultTxListParams))
    ensures q.params["address"] == DebugHex(address)
  {
    var txParams := ListParamsMap(params.GetOr(DefaultTxListParams));
    txParams := txParams["address" := DebugHex(address)];
    q := Query("account", "txlist", txParams);
  }

  /** The filter of the internal-transaction endpoint. */
  datatype InternalTxQueryOption =
    | ByAddress(address: Address)
    | ByTransactionHash(txHash: H256)
    | ByBlockRange

  /**
   * The request of `get_internal_transactions`: the list entries plus
   * `address` for an address filter, `txhash` for a hash filter, and nothing
   * more for a block-range filter.
   */
  method InternalTransactionsQuery(option: InternalTxQueryOption, params: Option<TxListParams>) returns (q: Query)
    ensures q.apiModule == "account" && q.action == "txlistinternal"
    ensures HasListEntries(q.params, params.GetOr(DefaultTxListParams))
    ensures option.ByAddress? ==> q.params.Keys == ListKeys + {"address"} && q.params["address"] == DebugHex(option.address)
    ensures option.ByTransactionHash? ==> q.params.Keys == ListKeys + {"txhash"} && q.params["txhash"] == DebugHex(option.txHash)
    ensures option.ByBlockRange? ==> q.params.Keys == ListKeys
  {
    var txParams := ListParamsMap(params.GetOr(DefaultTxListParams));
    match option {
      case ByAddress(address) =>
        txParams := txParams["address" := DebugHex(address)];
      case ByTransactionHash(txHash) =>
        txParams := txParams["txhash" := DebugHex(txHash)];
      case ByBlockRange =>
    }
    q := Query("account", "txlistinternal", txParams);
  }

  /** The three token-transfer endpoints. */
  datatype TokenStandard = Erc20 | Erc721 | Erc1155

  /** The action of each token-transfer endpoint; each standard has its own. */
  function TokenAction(standard: TokenStandard): (action: string)
    ensures action == "tokentx" <==> standard == Erc20
    ensures action == "tokennfttx" <==> standard == Erc721
    ensures action == "token1155tx" <==> standard == Erc1155
  {
    match standard
    case Erc20 => "tokentx"
    case Erc721 => "tokennfttx"
    case Erc1155 => "token1155tx"
  }

  /**
   * The request of `get_erc20_token_transfer_events`, `get_erc721_…` and
   * `get_erc1155_…`: the filter's parameters over the list entries (default
   * ones when none are given), sent to the standard's own action.
   */
  method TokenTransfersQuery(standard: TokenStandard, option: TokenQueryOption, params: Option<TxListParams>)
    returns (q: Query)
    ensures q.apiModule == "account" && q.action == TokenAction(standard)
    ensures HasListEntries(q.params, params.GetOr(DefaultTxListParams))
    ensures ListKeys <= q.params.Keys <= ListKeys + {"address", "contractaddress"}
    ensures "address" in q.params <==> !option.ByContract?
    ensures "contractaddress" in q.params <==> !option.ByAddress?
    ensures "address" in q.params ==> q.params["address"] == DebugHex(option.address)
    ensures "contractaddress" in q.params ==> q.params["contractaddress"] == DebugHex(option.contract)
  {
    var tokenParams := IntoParams(option, params.GetOr(DefaultTxListParams));
    q := Query("account", TokenAction(standard), tokenParams);
  }

  /**
   * The request of `get_mined_blocks`: the address and the block type
   * (`blocks` when none is given), plus `page` and `offset` exactly when a
   * pair is given.
   */
  method MinedBlocksQuery(address: Address, blockType: Option<BlockType>, pageAndOffset: Option<(u64, u64)>)
    returns (q: Query)
    ensures q.apiModule == "account" && q.action == "getminedblocks"
    ensures "address" in q.params && q.params["address"] == DebugHex(address)
    ensures "blocktype" in q.params && ParseBlockType(q.params["blocktype"]) == Some(blockType.GetOr(DefaultBlockType))
    ensures blockType.None? ==> q.params["blocktype"] == "blocks"
    ensures pageAndOffset.None? ==> q.params.Keys == {"address", "blocktype"}
    ensures pageAndOffset.Some? ==> q.params.Keys == {"address", "blocktype", "page", "offset"}
    ensures pageAndOffset.Some? ==> q.params["page"] == NatToDecimal(pageAndOffset.value.0)
    ensures pageAndOffset.Some? ==> q.params["offset"] == NatToDecimal(pageAndOffset.value.1)
  {
    var params := map[];
    params := params["address" := DebugHex(address)];
    params := params["blocktype" := BlockTypeDisplay(blockType.GetOr(DefaultBlockType))];
    if pageAndOffset.Some? {
      var (page, offset) := pageAndOffset.value;
      params := params["page" := NatToDecimal(page)];
      params := params["offset" := NatToDecimal(offset)];
    }
    q := Query("account", "getminedblocks", params);
  }
}
