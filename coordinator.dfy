/** The lookup `main` runs (main.go:103-133): validate the CEP, launch one fetcher
    per provider, and act on the FIRST event only, either one arrival on the shared
    channel or the deadline. Nothing is drained after that event: an arrival carrying
    an error, or one whose body does not parse, ends the lookup even if the other
    provider would have answered. The network and the scheduler are parameters. */
module Coordinator {
  import opened Wrappers
  import opened Text
  import opened Validator
  import opened Providers
  import opened Endpoints
  import opened Fetcher
  import opened Normalizer

  /** The CEP main.go looks up (main.go:104). */
  const DEFAULT_CEP := "89010-904"

  /** The one event the `select` observes (main.go:117-132). */
  datatype Event = Arrived(res: ApiResponse) | Deadline

  /** Which event the scheduler delivers first: one fetcher's response, or the
      one-second deadline of the context (main.go:110). */
  datatype Schedule = FirstArrival(from: Provider) | DeadlineFirst

  /** How a lookup ends; each alternative is one of main's exits. */
  datatype Outcome =
    | Rejected(invalid: ValidationError)                      // main.go:105-107
    | ApiFailed(source: string, failure: FetchError)          // main.go:119-121
    | ParseFailed(source: string, parseError: ParseError)     // main.go:124-126
    | Found(source: string, addr: Address)                    // main.go:128-129
    | TimedOut                                                // main.go:130-131

  /** The `select` body: one event, one outcome, no loop. */
  function Arbitrate(ev: Event, decode: Decoder): (o: Outcome)
    ensures ev.Deadline? <==> o.TimedOut?
    ensures ev.Arrived? && ev.res.err.Some? ==> o == ApiFailed(ev.res.source, ev.res.err.value)
    ensures ev.Arrived? && ev.res.err.None? ==>
      var parsed := ParseResponse(ev.res.body, ev.res.source, decode);
      o == if parsed.err.Some? then ParseFailed(ev.res.source, parsed.err.value)
           else Found(ev.res.source, parsed.addr)
    ensures !o.Rejected?
  {
    match ev
    case Deadline => TimedOut
    case Arrived(res) =>
      if res.err.Some? then ApiFailed(res.source, res.err.value)
      else
        var parsed := ParseResponse(res.body, res.source, decode);
        if parsed.err.Some? then ParseFailed(res.source, parsed.err.value)
        else Found(res.source, parsed.addr)
  }

  /** The event the scheduler delivers: the response of the fetcher that finished
      first, given what the network does with each URL. */
  function FirstEvent(cep: string, net: string -> Transport, first: Schedule): (ev: Event) {
    match first
    case DeadlineFirst => Deadline
    case FirstArrival(p) => Arrived(FetchApi(Tag(p), net(Url(p, cep))))
  }

  /** `main` for a given CEP: an invalid CEP stops before any fetcher is launched. */
  function Lookup(cep: string, net: string -> Transport, first: Schedule, decode: Decoder): (o: Outcome)
    ensures o.Rejected? <==> ValidateCep(cep).Some?
    ensures o.Rejected? ==> o.invalid == InvalidCep(cep)
    ensures ValidateCep(cep).None? ==> (o.TimedOut? <==> first.DeadlineFirst?)
  {
    match ValidateCep(cep)
    case Some(invalid) => Rejected(invalid)
    case None => Arbitrate(FirstEvent(cep, net, first), decode)
  }

  /** A successful lookup comes from the first provider to answer: its request went
      to that provider's URL for the CEP, returned 200 with a body, and the body
      normalised under that provider's schema to the address returned. */
  lemma FoundMeansFirstDelivered(cep: string, net: string -> Transport, first: Schedule, decode: Decoder)
    requires Lookup(cep, net, first, decode).Found?
    ensures ValidateCep(cep).None? && first.FirstArrival?
    ensures Lookup(cep, net, first, decode).source == Tag(first.from)
    ensures Delivered(net(Url(first.from, cep)))
    ensures ParseResponse(net(Url(first.from, cep)).body.bytes, Tag(first.from), decode)
            == Parsed(Lookup(cep, net, first, decode).addr, None)
  {
  }

  /** The converse: a valid CEP whose first arrival delivered a body that decodes
      under the provider's schema always ends in `Found` from that provider. */
  lemma DeliveredAndDecodedIsFound(cep: string, net: string -> Transport, p: Provider, decode: Decoder)
    requires ValidateCep(cep).None?
    requires Delivered(net(Url(p, cep)))
    requires decode(net(Url(p, cep)).body.bytes, Keys(SchemaOf(p))).Fields?
    ensures Lookup(cep, net, FirstArrival(p), decode).Found?
    ensures Lookup(cep, net, FirstArrival(p), decode).source == Tag(p)
  {
  }

  /** No draining: only the first provider's transport matters. Two networks that
      agree on the first provider's URL give the same outcome, whatever the other
      provider does. */
  lemma OnlyFirstArrivalMatters(cep: string, net1: string -> Transport, net2: string -> Transport,
      p: Provider, decode: Decoder)
    requires net1(Url(p, cep)) == net2(Url(p, cep))
    ensures Lookup(cep, net1, FirstArrival(p), decode) == Lookup(cep, net2, FirstArrival(p), decode)
  {
  }

  /** A first arrival carrying an error ends the lookup in `ApiFailed`, never `Found`,
      with exactly the fetcher's error; the error names no provider, since error
      responses carry an empty source. */
  lemma FirstErrorStops(cep: string, net: string -> Transport, p: Provider, decode: Decoder)
    requires ValidateCep(cep).None?
    requires !Delivered(net(Url(p, cep)))
    ensures Lookup(cep, net, FirstArrival(p), decode) == ApiFailed("", FetchApi(Tag(p), net(Url(p, cep))).err.value)
  {
  }

  /** A first arrival that delivered a body which does not decode ends the lookup in
      `ParseFailed` with the provider's tag and the decode error; the other provider
      is not consulted. */
  lemma DeliveredMalformedStops(cep: string, net: string -> Transport, p: Provider, decode: Decoder, cause: string)
    requires ValidateCep(cep).None?
    requires Delivered(net(Url(p, cep)))
    requires decode(net(Url(p, cep)).body.bytes, Keys(SchemaOf(p))) == Malformed(cause)
    ensures Lookup(cep, net, FirstArrival(p), decode) == ParseFailed(Tag(p), DecodeFailed(cause))
  {
  }

  /** An invalid CEP is rejected without any request: the outcome does not depend on
      the network, the scheduler or the decoder. */
  lemma InvalidCepNeverFetches(cep: string, net1: string -> Transport, net2: string -> Transport,
      s1: Schedule, s2: Schedule, d1: Decoder, d2: Decoder)
    requires ValidateCep(cep).Some?
    ensures Lookup(cep, net1, s1, d1) == Lookup(cep, net2, s2, d2) == Rejected(InvalidCep(cep))
  {
  }

  /** Every arrival carries one of the launch tags, so the "unknown API" branch of
      parseResponse is unreachable from main: a parse failure is always a decode
      failure. */
  lemma ParseFailureIsDecodeFailure(cep: string, net: string -> Transport, first: Schedule, decode: Decoder)
    requires Lookup(cep, net, first, decode).ParseFailed?
    ensures Lookup(cep, net, first, decode).parseError.DecodeFailed?
    ensures Lookup(cep, net, first, decode).source == Tag(first.from)
  {
  }

  /** main's own CEP passes validation, so main always reaches the `select`. */
  lemma DefaultCepIsValid()
    ensures ValidateCep(DEFAULT_CEP).None?
  {
    ValidateCepAcceptsConventional();
  }

  /** For "89010-904", BrasilAPI answers first with 200 and a body decoding to street
      "Rua X", city "Curitiba", state "PR" and cep "89010904"; the lookup finds that
      address. */
  lemma BrasilApiFirstExample(net: string -> Transport, body: string, decode: Decoder)
    requires net(Url(BrasilApi, DEFAULT_CEP)) == Responded(STATUS_OK, BodyOk(body))
    requires decode(body, {"street", "city", "state", "cep"}) ==
      Fields(map["street" := "Rua X", "city" := "Curitiba", "state" := "PR", "cep" := "89010904"])
    ensures Lookup(DEFAULT_CEP, net, FirstArrival(BrasilApi), decode) ==
      Found("BrasilAPI", Address("Rua X", "Curitiba", "PR", "89010904"))
  {
    DefaultCepIsValid();
  }

  /** "00000-000" is well formed; when the provider that answers first answers 404,
      main stops with that HTTP error instead of trying the other provider. */
  lemma NotFoundFirstExample(net: string -> Transport, p: Provider, decode: Decoder)
    requires net(Url(p, "00000-000")).Responded? && net(Url(p, "00000-000")).status == 404
    ensures Lookup("00000-000", net, FirstArrival(p), decode) == ApiFailed("", HttpStatus(404))
  {
    ValidateCepAcceptsZeros();
  }
}
