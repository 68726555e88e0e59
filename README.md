# Etherscan account module: codecs, query parameters and status handling

This project models the pure core of `ethers-etherscan/src/account.rs`, the
account part of a typed client for the Etherscan block-explorer API. It covers:

- the three per-field string codecs the record schemas use
  (`genesis_string`, `json_string`, `hex_string`), each a deserializer and a
  serializer, with the inner JSON library passed in as a function;
- the tri-state `GenesisOption<T>` (`None`, `Genesis`, `Some(v)`), its
  accessors `is_genesis` and `value`, and its conversion into `Option<T>`;
- the `Display` words of `Tag`, `Sort` and `BlockType`;
- `TxListParams`, its `Default`, and its conversion into a parameter map;
- `TokenQueryOption::into_params`;
- the parameter-building and status-matching steps of the `Client`
  endpoints, taken out of the async methods (balance, multi-balance,
  transactions, internal transactions, the three token-transfer lists and
  mined blocks).

Modules, one per concern:

| file | module | content |
|---|---|---|
| wrappers.dfy | `Wrappers` | `Option`, `Result` |
| decimal.dfy | `Decimal` | `u64`, `u64::to_string` as `NatToDecimal`, its inverse |
| hex_format.dfy | `HexFormat` | `Address`, `H256`, and their `{:?}` rendering |
| codecs.dfy | `Codecs` | `GenesisOption` and the three codecs, as written and corrected |
| json_strings.dfy | `JsonStrings` | a concrete inner JSON library for string values, used for the findings |
| params.dfy | `Params` | `Tag`, `Sort`, `BlockType`, `TxListParams`, `TokenQueryOption` |
| client.dfy | `Client` | the request each endpoint builds and how it reads the response |

Modelling choices:

- The map builders insert into a `HashMap` one key at a time. They are
  methods that build a local `map<string, string>` by successive updates.
  Their `ensures` give the exact key set and the value of every key.
- `serde_json::from_str` and `serde_json::to_string` are function-typed
  parameters `parse` and `render`. Every codec property holds for all of them.
  The deserializers wrap the field text in double quotes before parsing
  (account.rs:55, 95, 131). This is modelled as `parse(Quote(text))`.
- Once the field text is read, a deserializer error is the inner parser's
  error message, passed through unchanged (`D::Error::custom`). The only other
  errors this file raises itself are `BalanceFailed` and `BadStatusCode`.
- `u64::to_string` is `Decimal.NatToDecimal`: base ten, no leading zeros.
- `format!("{address:?}")` of an `Address` (H160) or `H256` is
  `HexFormat.DebugHex`: `0x` followed by two lower-case hex digits per byte.
  This is the `Debug` output of the fixed-hash crate, which is not part of
  this model.
- `GenesisOption::value` returns `Option<&T>`. The model returns `Option<T>`.
- Each `Display` word comes with an inverse defined here (`ParseTag`,
  `ParseSort`, `ParseBlockType`), which pins the word exactly. Each `Display`
  function is proved to produce a word that its inverse reads back as the same
  value.

## Model

| member | source | states |
|---|---|---|
| `Codecs.AccessorsAgree` | ethers-etherscan/src/account.rs:149-168 | `is_genesis` holds exactly for `Genesis`; `value()` equals the `Option` conversion; both give a value exactly for `Some(v)`, and it is `v`; `None` and `Genesis` both give no value |
| `Codecs.DecodeGenesisString` | ethers-etherscan/src/account.rs:46-63 | three-way classification: empty text gives `None` (and only it); text starting with `GENESIS` gives `Genesis` (and only it); any other text gives `Some(v)` exactly when the parser accepts the quoted text, with `v` the parser's value, and otherwise the parser's error |
| `Codecs.GenesisIgnoresParser` | ethers-etherscan/src/account.rs:53-62 | for empty text or text starting with `GENESIS` the result is the same for every parser: the parser is never consulted |
| `Codecs.EncodeGenesisString` | ethers-etherscan/src/account.rs:28-44 | `None` and `Genesis` are always written, as the empty text and as `GENESIS`; a value is written as the renderer's JSON text |
| `Codecs.GenesisSentinelsRoundTrip` | ethers-etherscan/src/account.rs:28-63 | for every parser and renderer, writing `None` or `Genesis` and reading the text back gives the same state |
| `Codecs.DecodeJsonString` | ethers-etherscan/src/account.rs:86-99 | empty text gives `None` (and only it); any other text gives `Some(v)` exactly when the parser accepts the quoted text, and otherwise the parser's error |
| `Codecs.EncodeJsonString` | ethers-etherscan/src/account.rs:74-84 | `None` is written as the empty text; a value as the renderer's JSON text |
| `Codecs.JsonNoneRoundTrip` | ethers-etherscan/src/account.rs:74-99 | `None` is written as text that reads back as `None`, for every parser and renderer |
| `Codecs.DecodeHexString` | ethers-etherscan/src/account.rs:122-135 | the empty text and exactly `0x` give `None`, never an error, and only they do; any other text gives `Some(v)` exactly when the parser accepts the quoted text, and otherwise the parser's error |
| `Codecs.EncodeHexString` | ethers-etherscan/src/account.rs:110-120 | `None` is written as `0x`; a value as the renderer's JSON text |
| `Codecs.HexNoneRoundTrip` | ethers-etherscan/src/account.rs:110-135 | `None` is written as `0x`, which reads back as `None`; the empty text also reads as `None` |
| `Codecs.EncodeGenesisStringFixed` | ethers-etherscan/src/account.rs:28-44 | corrected serializer: `None` and `Genesis` as before; a value is written as the text inside the renderer's JSON string literal (other rendered text unchanged), and fails exactly when the renderer fails |
| `Codecs.EncodeJsonStringFixed` | ethers-etherscan/src/account.rs:74-84 | corrected serializer for `json_string`, same correction |
| `Codecs.EncodeHexStringFixed` | ethers-etherscan/src/account.rs:110-120 | corrected serializer for `hex_string`, same correction |
| `JsonStrings.GenesisStringSomeFails` | ethers-etherscan/src/account.rs:36-62 | as written, for every escape-free string value `v`: `Some(v)` is written as `"v"` with its quotes, and reading that text back is an error |
| `JsonStrings.JsonStringSomeFails` | ethers-etherscan/src/account.rs:79-97 | the same failure for `json_string` |
| `JsonStrings.HexStringSomeFails` | ethers-etherscan/src/account.rs:115-133 | the same failure for `hex_string` |
| `JsonStrings.GenesisStringRoundTrip` | ethers-etherscan/src/account.rs:28-63 | with the corrected serializer every genesis-aware value is written without error and reads back as itself; a present value's text must be non-empty and not start with `GENESIS` |
| `JsonStrings.JsonStringRoundTrip` | ethers-etherscan/src/account.rs:74-99 | with the corrected serializer every `json_string` value round-trips; a present value's text must be non-empty |
| `JsonStrings.HexStringRoundTrip` | ethers-etherscan/src/account.rs:110-135 | with the corrected serializer every `hex_string` value round-trips; a present value's text must be neither empty nor `0x` |
| `Decimal.NatToDecimal` | ethers-etherscan/src/account.rs:417-420 | `to_string` of a block number, page or offset is non-empty, all digits, with no leading zero unless the number is zero |
| `Decimal.DecimalRoundTrip` | ethers-etherscan/src/account.rs:417-420 | reading the decimal text back gives the number |
| `Decimal.DecimalInjective` | ethers-etherscan/src/account.rs:417-420 | distinct numbers give distinct parameter values |
| `HexFormat.DebugHex` | ethers-etherscan/src/account.rs:447 | the rendered hash is `0x` followed by two lower-case hex digits per byte |
| `HexFormat.HexDigitsInjective` | ethers-etherscan/src/account.rs:447 | distinct byte strings give distinct hex digits |
| `HexFormat.DebugHexInjective` | ethers-etherscan/src/account.rs:447 | distinct addresses and hashes give distinct parameter values |
| `Params.TagDisplay` | ethers-etherscan/src/account.rs:366-374 | each tag is written as a word (`earliest`, `pending`, `latest`) that reads back as the same tag |
| `Params.SortDisplay` | ethers-etherscan/src/account.rs:383-390 | each order is written as `asc` or `desc`, which reads back as the same order |
| `Params.BlockTypeDisplay` | ethers-etherscan/src/account.rs:471-478 | each block type is written as `blocks` or `uncles`, which reads back as the same block type |
| `Params.ListParamsMap` | ethers-etherscan/src/account.rs:414-424 | the map has exactly the five keys `startBlock`, `endBlock`, `page`, `offset`, `sort`; the first four hold the decimal text of their fields, `sort` the order's word |
| `Params.ListEntriesDetermineParams` | ethers-etherscan/src/account.rs:414-424 | the five entries determine the `TxListParams` they came from |
| `Params.DefaultListEntries` | ethers-etherscan/src/account.rs:408-412 | the default parameters go on the wire as `0`, `99999999`, `0`, `10000`, `asc` |
| `Params.IntoParams` | ethers-etherscan/src/account.rs:442-460 | the five list entries are kept unchanged; `address` is added for `ByAddress` and `ByAddressAndContract`, `contractaddress` for `ByContract` and `ByAddressAndContract`, each holding the rendered address; no other key is added |
| `Client.BalanceStatus` | ethers-etherscan/src/account.rs:509-513 | status `1` is success with the result, and only it; status `0` is `BalanceFailed`, and only it; any other status `s` is `BadStatusCode(s)` |
| `Client.EtherBalanceSingle` | ethers-etherscan/src/account.rs:507-513 | success exactly for status `1`, giving the queried address with the result as its balance; otherwise the status error |
| `Client.EtherBalanceMulti` | ethers-etherscan/src/account.rs:542-548 | its own status match agrees with `BalanceStatus`: `1` gives the result list, `0` gives `BalanceFailed`, any other status `s` gives `BadStatusCode(s)` |
| `Client.BalanceQuery` | ethers-etherscan/src/account.rs:500-506 | the request is `account`/`balance` with exactly `address` (the rendered address) and `tag` (the given tag, `latest` by default) |
| `Client.SplitJoin` | ethers-etherscan/src/account.rs:536 | joining comma-free texts with commas and splitting again gives them back |
| `Client.SplitJoinAddresses` | ethers-etherscan/src/account.rs:536 | the joined `address` value of the multi-balance request splits back into the rendered addresses, in order |
| `Client.BalanceMultiQuery` | ethers-etherscan/src/account.rs:535-541 | the request is `account`/`balancemulti` with exactly `address` and `tag`; `address` is the comma join of the rendered addresses and splits back into the rendered addresses (empty for no address); `tag` defaults to `latest` |
| `Client.ListResult` | ethers-etherscan/src/account.rs:573-575 | a list endpoint returns the envelope's result, whatever the status |
| `Client.StatusAsymmetry` | ethers-etherscan/src/account.rs:509-575 | a status-`0` envelope is `BalanceFailed` on a balance endpoint, but its result on a list endpoint |
| `Client.TransactionsQuery` | ethers-etherscan/src/account.rs:570-572 | the request is `account`/`txlist` with the five list entries (default parameters when none are given) and `address`, nothing else |
| `Client.InternalTransactionsQuery` | ethers-etherscan/src/account.rs:599-609 | the request is `account`/`txlistinternal` with the five list entries; `ByAddress` adds only `address`, `ByTransactionHash` only `txhash`, `ByBlockRange` nothing |
| `Client.TokenAction` | ethers-etherscan/src/account.rs:631-701 | the ERC-20, ERC-721 and ERC-1155 endpoints use `tokentx`, `tokennfttx` and `token1155tx`, each action belonging to exactly one standard |
| `Client.TokenTransfersQuery` | ethers-etherscan/src/account.rs:636-637 | the request is `account` with the standard's own action (`tokentx`, `tokennfttx`, `token1155tx`, one per standard); its parameters are the `into_params` map over the given or default list parameters: the five list entries, `address` and/or `contractaddress` per filter variant holding the rendered addresses, and no other key |
| `Client.MinedBlocksQuery` | ethers-etherscan/src/account.rs:723-730 | the request is `account`/`getminedblocks`; it always has `address` and `blocktype` (`blocks` by default); it has `page` and `offset`, holding the pair's decimal texts, exactly when a pair is given, and no other key |

## Left out

- The record structs (account.rs:13-355 apart from `AccountBalance`): they are serde-derived field lists over `ethers_core` types (`U256`, `H256`, `Bytes`, `BlockNumber`) and helpers (`deserialize_stringified_*`). None of these is part of this model, so field-by-field record decoding is not modelled. Their codec fields use the three codecs modelled here.
- `serde_json::from_str` and `serde_json::to_string`: a foreign library, taken as parameters. The one concrete instance (`JsonStrings`) handles only string values without escapes. It is used for the findings and nothing else.
- The `Debug` format of `Address` and `H256` and the internals of `u64::to_string` come from other crates. They are modelled by `DebugHex` and `NatToDecimal` as described above.
- `Client::create_query` (which also adds the API key), `get_json`, the async HTTP transport and the errors they return: I/O. The model stops at the arguments passed to `create_query` (`Query`) and starts again at the decoded `Response`.
- `TxListParams::new` is the datatype's constructor; it has no behaviour of its own.
- DecodeGenesisString, DecodeJsonString, DecodeHexString: each starts from the field text. The first step of each deserializer (account.rs:53, 91, 127) reads the field as a string and fails on its own when the field is not a JSON string (`null`, a number); that error, raised by the outer deserializer, is not modelled.
- Serializer errors raised by the target `Serializer` itself, as opposed to the inner renderer, are not modelled.

## Findings

| source | as written | input that shows it | evidently intended | confidence | as-written member | corrected member |
|---|---|---|---|---|---|---|
| ethers-etherscan/src/account.rs:39-43 | `genesis_string::serialize` writes a value as `serde_json::to_string(value)`, a JSON literal with its quotes, while `deserialize` (line 55) adds quotes again before parsing | `Some(h)` for any hash `h`: it is written as `"0x…"` with its quotes; line 55 makes that `""0x…""`, which is not one JSON string, so reading it back fails | `Some(v)` reads back as `Some(v)`; a value is written as the text inside its literal | medium; not executed | `JsonStrings.GenesisStringSomeFails` | `JsonStrings.GenesisStringRoundTrip` |
| ethers-etherscan/src/account.rs:79-83 | `json_string::serialize` writes the quoted JSON literal; `deserialize` (line 95) quotes again | `Some(v)` for any string-valued `v` | `Some(v)` reads back as `Some(v)` | medium; not executed | `JsonStrings.JsonStringSomeFails` | `JsonStrings.JsonStringRoundTrip` |
| ethers-etherscan/src/account.rs:115-119 | `hex_string::serialize` writes the quoted JSON literal; `deserialize` (line 131) quotes again | `Some(b)` for any byte string `b` | `Some(b)` reads back as `Some(b)` | medium; not executed | `JsonStrings.HexStringSomeFails` | `JsonStrings.HexStringRoundTrip` |

The as-written serializers are `Codecs.EncodeGenesisString`, `Codecs.EncodeJsonString` and `Codecs.EncodeHexString`; the corrected ones are `Codecs.EncodeGenesisStringFixed`, `Codecs.EncodeJsonStringFixed` and `Codecs.EncodeHexStringFixed`. The code does not achieve a round-trip for present values, and the model follows the code.
