/**
 * A concrete inner JSON library for string-valued fields (the way a hash or
 * an address is serialized: as a JSON string). It is used to show, for this
 * one instance, that the serializers of the account module write text their
 * own deserializers reject, and that the corrected serializers round-trip.
 */
module JsonStrings {
  import opened Wrappers
  import opened Codecs

  /** Text a JSON string literal holds without escapes: no quote, no backslash, no control character. */
  predicate PlainText(s: string) {
    forall i :: 0 <= i < |s| ==> s[i] != '"' && s[i] != '\\' && s[i] >= ' '
  }

  /**
   * `serde_json::to_string` of a string value: the text in double quotes.
   * Escaping is not part of this model; text that would need it is refused.
   */
  function RenderJsonString(v: string): (r: Result<string, string>)
    ensures r.Ok? <==> PlainText(v)
    ensures r.Ok? ==> r.value == Quote(v)
  {
    if PlainText(v) then Ok(Quote(v)) else Err("escaped text")
  }

  /** `serde_json::from_str` into a string: one JSON string literal and nothing after it. */
  function ParseJsonString(t: string): (r: Result<string, string>)
    ensures r.Ok? ==> t == Quote(r.value) && PlainText(r.value)
  {
    if |t| >= 2 && t[0] == '"' && t[|t| - 1] == '"' && PlainText(t[1..|t| - 1]) then
      var body := t[1..|t| - 1];
      assert Quote(body) == t;
      Ok(body)
    else
      Err("expected one JSON string")
  }

  /** The parser reads back what the renderer writes. */
  lemma ParseRender(v: string)
    requires PlainText(v)
    ensures ParseJsonString(Quote(v)) == Ok(v)
  {
  }

  /** A quoted text is never parsed again: the quotes inside it end the literal too soon. */
  lemma ParseRejectsQuoted(v: string)
    ensures ParseJsonString(Quote(Quote(v))).Err?
  {
  }

  /** As written: a present genesis-aware value, once serialized, fails to deserialize. */
  lemma GenesisStringSomeFails(v: string)
    requires PlainText(v)
    ensures EncodeGenesisString(RenderJsonString, GenesisOption.Some(v)) == Ok(Quote(v))
    ensures DecodeGenesisString(ParseJsonString, Quote(v)).Err?
  {
    ParseRejectsQuoted(v);
  }

  /** As written: a present `json_string` value, once serialized, fails to deserialize. */
  lemma JsonStringSomeFails(v: string)
    requires PlainText(v)
    ensures EncodeJsonString(RenderJsonString, Option.Some(v)) == Ok(Quote(v))
    ensures DecodeJsonString(ParseJsonString, Quote(v)).Err?
  {
    ParseRejectsQuoted(v);
  }

  /** As written: a present `hex_string` value, once serialized, fails to deserialize. */
  lemma HexStringSomeFails(v: string)
    requires PlainText(v)
    ensures EncodeHexString(RenderJsonString, Option.Some(v)) == Ok(Quote(v))
    ensures DecodeHexString(ParseJsonString, Quote(v)).Err?
  {
    ParseRejectsQuoted(v);
  }

  /**
   * Corrected: every genesis-aware value round-trips, a present one as long as
   * its text is not empty and does not itself start with the genesis marker.
   */
  lemma GenesisStringRoundTrip(g: GenesisOption<string>)
    requires g.Some? ==> PlainText(g.value) && g.value != [] && !(GenesisMarker <= g.value)
    ensures EncodeGenesisStringFixed(RenderJsonString, g).Ok?
    ensures DecodeGenesisString(ParseJsonString, EncodeGenesisStringFixed(RenderJsonString, g).value) == Ok(g)
  {
    if g.Some? {
      ParseRender(g.value);
    }
  }

  /** Corrected: every `json_string` value round-trips, a present one as long as its text is not empty. */
  lemma JsonStringRoundTrip(o: Option<string>)
    requires o.Some? ==> PlainText(o.value) && o.value != []
    ensures EncodeJsonStringFixed(RenderJsonString, o).Ok?
    ensures DecodeJsonString(ParseJsonString, EncodeJsonStringFixed(RenderJsonString, o).value) == Ok(o)
  {
    if o.Some? {
      ParseRender(o.value);
    }
  }

  /** Corrected: every `hex_string` value round-trips, a present one as long as its text is neither empty nor `"0x"`. */
  lemma HexStringRoundTrip(o: Option<string>)
    requires o.Some? ==> PlainText(o.value) && o.value != [] && o.value != EmptyHex
    ensures EncodeHexStringFixed(RenderJsonString, o).Ok?
    ensures DecodeHexString(ParseJsonString, EncodeHexStringFixed(RenderJsonString, o).value) == Ok(o)
  {
    if o.Some? {
      ParseRender(o.value);
    }
  }
}
