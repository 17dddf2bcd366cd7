/** `parseResponse` (main.go:62-101): picks the JSON schema by source tag and renames
    that provider's fields into the canonical `Address`. Turning the body's text into
    values is left to a `Decoder`, the model of `json.Unmarshal`. */
module Normalizer {
  import opened Wrappers
  import opened Providers

  /** `Address` (main.go:20-25). */
  datatype Address = Address(street: string, city: string, state: string, zipCode: string)

  /** The zero `Address{}` every failure returns. */
  const EMPTY_ADDRESS := Address("", "", "", "")

  /** What `json.Unmarshal` makes of a body for a struct of string fields: a decode
      error, or the string found under each key the payload carries. A key absent
      from `values` leaves its field at Go's zero value "". */
  datatype Decoded = Malformed(cause: string) | Fields(values: map<string, string>)

  /** Decodes a body for a struct whose fields carry the given JSON keys. */
  type Decoder = (string, set<string>) -> Decoded

  /** The JSON keys of one provider's response struct, by the `Address` field each
      one fills. */
  datatype Schema = Schema(street: string, city: string, state: string, zipCode: string)

  /** `viaResp` (main.go:66-71) and `brResp` (main.go:82-87). */
  function SchemaOf(p: Provider): (s: Schema) {
    match p
    case ViaCep => Schema("logradouro", "localidade", "uf", "cep")
    case BrasilApi => Schema("street", "city", "state", "cep")
  }

  function Keys(s: Schema): (keys: set<string>) {
    {s.street, s.city, s.state, s.zipCode}
  }

  /** The value a decoded struct field ends with: the string found, or "". */
  function FieldOr(values: map<string, string>, key: string): (field: string) {
    if key in values then values[key] else ""
  }

  datatype ParseError = DecodeFailed(cause: string) | UnknownApi(source: string)

  /** Go's `(Address, error)` pair; `err == None` is a nil error. */
  datatype Parsed = Parsed(addr: Address, err: Option<ParseError>)

  function ParseResponse(body: string, source: string, decode: Decoder): (r: Parsed)
    // every failure comes with the zero Address
    ensures r.err.Some? ==> r.addr == EMPTY_ADDRESS
    // an unknown tag is an error naming it, and only an unknown tag is
    ensures r.err == Some(UnknownApi(source)) <==> source != "VIACEP" && source != "BrasilAPI"
    // ViaCEP: logradouro, localidade, uf, cep
    ensures source == "VIACEP" ==>
      match decode(body, {"logradouro", "localidade", "uf", "cep"})
      case Malformed(cause) => r.err == Some(DecodeFailed(cause))
      case Fields(v) =>
        r == Parsed(Address(FieldOr(v, "logradouro"), FieldOr(v, "localidade"), FieldOr(v, "uf"), FieldOr(v, "cep")), None)
    // BrasilAPI: street, city, state, cep
    ensures source == "BrasilAPI" ==>
      match decode(body, {"street", "city", "state", "cep"})
      case Malformed(cause) => r.err == Some(DecodeFailed(cause))
      case Fields(v) =>
        r == Parsed(Address(FieldOr(v, "street"), FieldOr(v, "city"), FieldOr(v, "state"), FieldOr(v, "cep")), None)
  {
    match ProviderOf(source)
    case None => Parsed(EMPTY_ADDRESS, Some(UnknownApi(source)))
    case Some(p) =>
      var schema := SchemaOf(p);
      match decode(body, Keys(schema))
      case Malformed(cause) => Parsed(EMPTY_ADDRESS, Some(DecodeFailed(cause)))
      case Fields(v) =>
        Parsed(Address(FieldOr(v, schema.street), FieldOr(v, schema.city),
                       FieldOr(v, schema.state), FieldOr(v, schema.zipCode)), None)
  }

  /** The payload a provider would send for an address, keyed by its schema. */
  function PayloadFor(p: Provider, a: Address): (payload: map<string, string>) {
    var s := SchemaOf(p);
    map[s.street := a.street, s.city := a.city, s.state := a.state, s.zipCode := a.zipCode]
  }

  /** Normalising inverts the provider's schema: a payload that carries an address
      under the provider's own keys parses back to exactly that address. */
  lemma ParseRoundTrip(p: Provider, a: Address, body: string, decode: Decoder)
    requires decode(body, Keys(SchemaOf(p))) == Fields(PayloadFor(p, a))
    ensures ParseResponse(body, Tag(p), decode) == Parsed(a, None)
  {
  }

  /** Missing fields are not an error: for any payload that decodes, the fields
      whose keys it carries are copied, every field whose key it lacks is "", and
      the error is nil. */
  lemma MissingFieldsAreEmpty(p: Provider, body: string, decode: Decoder, v: map<string, string>)
    requires decode(body, Keys(SchemaOf(p))) == Fields(v)
    ensures ParseResponse(body, Tag(p), decode).err.None?
    ensures var a, s := ParseResponse(body, Tag(p), decode).addr, SchemaOf(p);
      && a.street == (if s.street in v then v[s.street] else "")
      && a.city == (if s.city in v then v[s.city] else "")
      && a.state == (if s.state in v then v[s.state] else "")
      && a.zipCode == (if s.zipCode in v then v[s.zipCode] else "")
    ensures v == map[] ==> ParseResponse(body, Tag(p), decode) == Parsed(EMPTY_ADDRESS, None)
  {
  }

  /** For a known provider the verdict is the decoder's: no error exactly when the
      body decodes for that provider's schema. */
  lemma KnownSourceFailsOnlyOnDecode(p: Provider, body: string, decode: Decoder)
    ensures ParseResponse(body, Tag(p), decode).err.None? <==> decode(body, Keys(SchemaOf(p))).Fields?
    ensures ParseResponse(body, Tag(p), decode).err.Some? ==>
      ParseResponse(body, Tag(p), decode).err.value.DecodeFailed?
  {
  }

  /** An unknown tag is rejected before anything is decoded: the result depends on
      neither the body nor the decoder. */
  lemma UnknownSourceIgnoresBody(source: string, b1: string, b2: string, d1: Decoder, d2: Decoder)
    requires ProviderOf(source).None?
    ensures ParseResponse(b1, source, d1) == ParseResponse(b2, source, d2)
  {
  }

  /** A BrasilAPI payload with street "Rua X", city "Curitiba", state "PR" and cep
      "89010904" normalises to that address. */
  lemma BrasilApiExample(body: string, decode: Decoder)
    requires decode(body, {"street", "city", "state", "cep"}) ==
      Fields(map["street" := "Rua X", "city" := "Curitiba", "state" := "PR", "cep" := "89010904"])
    ensures ParseResponse(body, "BrasilAPI", decode) ==
      Parsed(Address("Rua X", "Curitiba", "PR", "89010904"), None)
  {
  }
}
