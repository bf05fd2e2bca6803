/**
 * The secret decoder `parseSecretJSON`: a secret string that unmarshals as a JSON
 * object of strings becomes that object, anything else becomes the single pair
 * `"secret" -> raw string`.
 *
 * The JSON library is not re-implemented: `json.Unmarshal` into a
 * `map[string]string` is the parameter `unmarshal`, and `UnmarshalLaws` states
 * the one fact about that library which the properties below rely on.
 */
module SecretDecoding {
  import opened Basics

  /** `json.Unmarshal(text, &map[string]string{})`: the decoded object, or None on error. */
  type Unmarshaler = string -> Option<map<string, string>>

  /** The key under which a secret that is not a JSON object is passed on. */
  const FallbackKey: string := "secret"

  /** The four whitespace characters of the JSON grammar (RFC 8259, section 2). */
  predicate IsJsonSpace(c: char) {
    c == ' ' || c == '\t' || c == '\n' || c == '\r'
  }

  /** `s` without its leading JSON whitespace. */
  function TrimLeadingSpace(s: string): (t: string)
    ensures |t| <= |s| && t == s[|s| - |t|..]
    ensures forall i :: 0 <= i < |s| - |t| ==> IsJsonSpace(s[i])
    ensures t == [] || !IsJsonSpace(t[0])
  {
    if s != [] && IsJsonSpace(s[0]) then TrimLeadingSpace(s[1..]) else s
  }

  /**
   * Only a JSON object or the literal `null` can be unmarshalled into a Go map;
   * any other value is a type error and any other text a syntax error. So a text
   * that may succeed starts, after whitespace, with '{' or with `null`.
   */
  predicate MayHoldObject(s: string) {
    var t := TrimLeadingSpace(s);
    t != [] && (t[0] == '{' || (|t| >= 4 && t[..4] == "null"))
  }

  /** What the model assumes of `json.Unmarshal`: it fails on every text that cannot hold an object. */
  ghost predicate UnmarshalLaws(unmarshal: Unmarshaler) {
    forall s :: unmarshal(s).Some? ==> MayHoldObject(s)
  }

  /** `parseSecretJSON`: never fails; falls back to `{"secret": raw}` when the text is not an object of strings. */
  function ParseSecretJson(unmarshal: Unmarshaler, secretString: string): (r: map<string, string>)
    ensures unmarshal(secretString).Some? ==> r == unmarshal(secretString).value
    ensures unmarshal(secretString).None? ==> r.Keys == {FallbackKey} && r[FallbackKey] == secretString
  {
    match unmarshal(secretString)
    case Some(secretMap) => secretMap
    case None => map[FallbackKey := secretString]
  }

  /** Every text that does not start like an object or `null` decodes to `{"secret": raw}`. */
  lemma FallbackOnNonObject(unmarshal: Unmarshaler, s: string)
    requires UnmarshalLaws(unmarshal)
    requires !MayHoldObject(s)
    ensures ParseSecretJson(unmarshal, s) == map[FallbackKey := s]
  {
  }

  /** The empty secret decodes to `{"secret": ""}`. */
  lemma EmptySecretFallsBack(unmarshal: Unmarshaler)
    requires UnmarshalLaws(unmarshal)
    ensures ParseSecretJson(unmarshal, "") == map[FallbackKey := ""]
  {
    FallbackOnNonObject(unmarshal, "");
  }

  /** Plain text such as `just a string` decodes to `{"secret": "just a string"}`. */
  lemma PlainTextFallsBack(unmarshal: Unmarshaler)
    requires UnmarshalLaws(unmarshal)
    ensures ParseSecretJson(unmarshal, "just a string") == map[FallbackKey := "just a string"]
  {
    assert TrimLeadingSpace("just a string") == "just a string";
    FallbackOnNonObject(unmarshal, "just a string");
  }

  /** A text that starts like `null` without being it, such as `nope`, still falls back. */
  lemma NearNullFallsBack(unmarshal: Unmarshaler)
    requires UnmarshalLaws(unmarshal)
    ensures ParseSecretJson(unmarshal, "nope") == map[FallbackKey := "nope"]
  {
    assert TrimLeadingSpace("nope") == "nope";
    assert "nope"[..4] != "null" by { assert "nope"[2] != "null"[2]; }
    FallbackOnNonObject(unmarshal, "nope");
  }

  /**
   * A text that unmarshals to an object of strings decodes to exactly that object:
   * the first postcondition of `ParseSecretJson`, restated as the "valid JSON" case
   * of the decoder's test table.
   */
  lemma ObjectDecodesToItself(unmarshal: Unmarshaler, s: string, decoded: map<string, string>)
    requires unmarshal(s) == Some(decoded)
    ensures ParseSecretJson(unmarshal, s) == decoded
  {
  }
}
