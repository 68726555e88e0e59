/**
 * The three per-field string codecs of the account module (`genesis_string`,
 * `json_string`, `hex_string`) and the tri-state `GenesisOption`.
 *
 * Each deserializer receives the raw text of a JSON string field. The inner
 * JSON library (`serde_json::from_str` / `serde_json::to_string`) is not part
 * of this model: it is passed in as a function, `parse` or `render`, and every
 * property below holds for every such function.
 */
module Codecs {
  import opened Wrappers

  /** The marker the explorer writes in fields of genesis-block records. */
  const GenesisMarker: string := "GENESIS"

  /** The `"0x"` the hex codec treats as absent. */
  const EmptyHex: string := "0x"

  /** `format!("\"{}\"", s)`: the field text wrapped in double quotes before it is parsed. */
  function Quote(s: string): (r: string)
    ensures |r| == |s| + 2 && r[0] == '"' && r[|r| - 1] == '"' && r[1..|r| - 1] == s
  {
    "\"" + s + "\""
  }

  /** A field that may be absent, may be the genesis marker, or may hold a value. */
  datatype GenesisOption<T> = None | Genesis | Some(value: T) {

    /** `is_genesis`. */
    predicate IsGenesis() {
      Genesis?
    }

    /** `value`: the held value, if there is one. */
    function Value(): Option<T> {
      match this
      case Some(v) => Option.Some(v)
      case _ => Option.None
    }
  }

  /** `From<GenesisOption<T>> for Option<T>`. */
  function IntoOption<T>(g: GenesisOption<T>): Option<T> {
    match g
    case Some(v) => Option.Some(v)
    case _ => Option.None
  }

  /** The accessors and the conversion agree: only `Some(v)` yields a value, and it is `v`. */
  lemma AccessorsAgree<T>(g: GenesisOption<T>)
    ensures g.IsGenesis() <==> g == GenesisOption.Genesis
    ensures g.Value() == IntoOption(g)
    ensures g.Value().Some? <==> g.Some?
    ensures g.Some? ==> g.Value() == Option.Some(g.value)
    ensures !g.Some? ==> g.Value() == Option.None
  {
  }

  // ---------------------------------------------------------------- genesis_string

  /**
   * `genesis_string::deserialize`: the empty text is absent, any text that
   * starts with the genesis marker is `Genesis` whatever follows it, and any
   * other text is parsed (after quoting), the parser's error passed through.
   */
  function DecodeGenesisString<T>(parse: string -> Result<T, string>, json: string)
    : (r: Result<GenesisOption<T>, string>)
    ensures r == Ok(GenesisOption.None) <==> json == []
    ensures r == Ok(GenesisOption.Genesis) <==> GenesisMarker <= json
    ensures (r.Ok? && r.value.Some?) <==> (json != [] && !(GenesisMarker <= json) && parse(Quote(json)).Ok?)
    ensures r.Ok? && r.value.Some? ==> parse(Quote(json)) == Ok(r.value.value)
    ensures r.Err? <==> (json != [] && !(GenesisMarker <= json) && parse(Quote(json)).Err?)
    ensures r.Err? ==> parse(Quote(json)) == Err(r.error)
  {
    if json != [] && !(GenesisMarker <= json) then
      match parse(Quote(json))
      case Ok(v) => Ok(GenesisOption.Some(v))
      case Err(e) => Err(e)
    else if GenesisMarker <= json then
      Ok(GenesisOption.Genesis)
    else
      Ok(GenesisOption.None)
  }

  /** The parser is never consulted for the empty text or for text that starts with the marker. */
  lemma GenesisIgnoresParser<T>(p: string -> Result<T, string>, q: string -> Result<T, string>, json: string)
    requires json == [] || GenesisMarker <= json
    ensures DecodeGenesisString(p, json) == DecodeGenesisString(q, json)
  {
  }

  /**
   * `genesis_string::serialize`: absent is written as the empty text, the
   * genesis state as the marker, a value as the renderer's JSON text.
   */
  function EncodeGenesisString<T>(render: T -> Result<string, string>, value: GenesisOption<T>)
    : (r: Result<string, string>)
    ensures !value.Some? ==> r.Ok?
    ensures value.Some? ==> r == render(value.value)
    ensures value.None? ==> r.value == []
    ensures value.Genesis? ==> r.value == GenesisMarker
  {
    match value
    case None => Ok("")
    case Genesis => Ok(GenesisMarker)
    case Some(v) => render(v)
  }

  /** The two states without a value survive a write and a read, whatever the inner parser and printer. */
  lemma GenesisSentinelsRoundTrip<T>(parse: string -> Result<T, string>, render: T -> Result<string, string>)
    ensures DecodeGenesisString(parse, EncodeGenesisString(render, GenesisOption.None).value) == Ok(GenesisOption.None)
    ensures DecodeGenesisString(parse, EncodeGenesisString(render, GenesisOption.Genesis).value) == Ok(GenesisOption.Genesis)
  {
  }

  // ---------------------------------------------------------------- json_string

  /** `json_string::deserialize`: the empty text is absent, anything else is parsed after quoting. */
  function DecodeJsonString<T>(parse: string -> Result<T, string>, json: string): (r: Result<Option<T>, string>)
    ensures r == Ok(Option.None) <==> json == []
    ensures (r.Ok? && r.value.Some?) <==> (json != [] && parse(Quote(json)).Ok?)
    ensures r.Ok? && r.value.Some? ==> parse(Quote(json)) == Ok(r.value.value)
    ensures r.Err? <==> (json != [] && parse(Quote(json)).Err?)
    ensures r.Err? ==> parse(Quote(json)) == Err(r.error)
  {
    if json == [] then
      Ok(Option.None)
    else
      match parse(Quote(json))
      case Ok(v) => Ok(Option.Some(v))
      case Err(e) => Err(e)
  }

  /** `json_string::serialize`: absent is the empty text, a value the renderer's JSON text. */
  function EncodeJsonString<T>(render: T -> Result<string, string>, value: Option<T>): (r: Result<string, string>)
    ensures value.None? ==> r == Ok([])
    ensures value.Some? ==> r == render(value.value)
  {
    match value
    case None => Ok("")
    case Some(v) => render(v)
  }

  /** An absent field is written as text that reads back as absent. */
  lemma JsonNoneRoundTrip<T>(parse: string -> Result<T, string>, render: T -> Result<string, string>)
    ensures DecodeJsonString(parse, EncodeJsonString(render, Option.None).value) == Ok(Option.None)
  {
  }

  // ---------------------------------------------------------------- hex_string

  /** `hex_string::deserialize`: the empty text and exactly `"0x"` are absent, anything else is parsed after quoting. */
  function DecodeHexString<T>(parse: string -> Result<T, string>, json: string): (r: Result<Option<T>, string>)
    ensures r == Ok(Option.None) <==> (json == [] || json == EmptyHex)
    ensures (r.Ok? && r.value.Some?) <==> (json != [] && json != EmptyHex && parse(Quote(json)).Ok?)
    ensures r.Ok? && r.value.Some? ==> parse(Quote(json)) == Ok(r.value.value)
    ensures r.Err? <==> (json != [] && json != EmptyHex && parse(Quote(json)).Err?)
    ensures r.Err? ==> parse(Quote(json)) == Err(r.error)
  {
    if json == [] || json == EmptyHex then
      Ok(Option.None)
    else
      match parse(Quote(json))
      case Ok(v) => Ok(Option.Some(v))
      case Err(e) => Err(e)
  }

  /** `hex_string::serialize`: absent is `"0x"`, a value the renderer's JSON text. */
  function EncodeHexString<T>(render: T -> Result<string, string>, value: Option<T>): (r: Result<string, string>)
    ensures value.None? ==> r == Ok(EmptyHex)
    ensures value.Some? ==> r == render(value.value)
  {
    match value
    case None => Ok(EmptyHex)
    case Some(v) => render(v)
  }

  /** An absent hex field is written as `"0x"`, which reads back as absent and never as an error. */
  lemma HexNoneRoundTrip<T>(parse: string -> Result<T, string>, render: T -> Result<string, string>)
    ensures DecodeHexString(parse, EncodeHexString(render, Option.None).value) == Ok(Option.None)
    ensures DecodeHexString(parse, []) == Ok(Option.None)
  {
  }

  // ---------------------------------------------------------------- corrected serializers

  /** Text that opens and closes with a double quote, as a JSON string literal does. */
  predicate Quoted(t: string) {
    |t| >= 2 && t[0] == '"' && t[|t| - 1] == '"'
  }

  /** The text between the quotes of a JSON string literal; any other text unchanged. */
  function Unquote(t: string): (r: string)
    ensures Quoted(t) ==> Quote(r) == t
    ensures !Quoted(t) ==> r == t
  {
    if Quoted(t) then
      var r := t[1..|t| - 1];
      assert Quote(r) == t;
      r
    else
      t
  }

  /**
   * `genesis_string::serialize` as its deserializer expects it: a value is
   * written as the text inside its JSON string literal, the quotes that the
   * deserializer adds back being left off.
   */
  function EncodeGenesisStringFixed<T>(render: T -> Result<string, string>, value: GenesisOption<T>)
    : (r: Result<string, string>)
    ensures !value.Some? ==> r == EncodeGenesisString(render, value)
    ensures value.Some? ==> r.Ok? == render(value.value).Ok?
    ensures value.Some? && r.Ok? && Quoted(render(value.value).value) ==> Quote(r.value) == render(value.value).value
    ensures value.Some? && r.Ok? && !Quoted(render(value.value).value) ==> r.value == render(value.value).value
  {
    match value
    case Some(v) =>
      (match render(v)
       case Ok(t) => Ok(Unquote(t))
       case Err(e) => Err(e))
    case _ => EncodeGenesisString(render, value)
  }

  /** `json_string::serialize` with the same correction. */
  function EncodeJsonStringFixed<T>(render: T -> Result<string, string>, value: Option<T>): (r: Result<string, string>)
    ensures value.None? ==> r == EncodeJsonString(render, value)
    ensures value.Some? ==> r.Ok? == render(value.value).Ok?
    ensures value.Some? && r.Ok? && Quoted(render(value.value).value) ==> Quote(r.value) == render(value.value).value
    ensures value.Some? && r.Ok? && !Quoted(render(value.value).value) ==> r.value == render(value.value).value
  {
    match value
    case Some(v) =>
      (match render(v)
       case Ok(t) => Ok(Unquote(t))
       case Err(e) => Err(e))
    case None => EncodeJsonString(render, value)
  }

  /** `hex_string::serialize` with the same correction. */
  function EncodeHexStringFixed<T>(render: T -> Result<string, string>, value: Option<T>): (r: Result<string, string>)
    ensures value.None? ==> r == EncodeHexString(render, value)
    ensures value.Some? ==> r.Ok? == render(value.value).Ok?
    ensures value.Some? && r.Ok? && Quoted(render(value.value).value) ==> Quote(r.value) == render(value.value).value
    ensures value.Some? && r.Ok? && !Quoted(render(value.value).value) ==> r.value == render(value.value).value
  {
    match value
    case Some(v) =>
      (match render(v)
       case Ok(t) => Ok(Unquote(t))
       case Err(e) => Err(e))
    case None => EncodeHexString(render, value)
  }
}
