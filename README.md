# CEP lookup race — a Dafny model

This project models `main.go` of a small Go program that resolves a Brazilian
postal code (CEP) into an address. The program validates the CEP, starts one
fetcher goroutine per provider (BrasilAPI and ViaCEP), and waits in a `select`
for the first event: either one provider's response on a shared channel or a
one-second deadline. The first response is normalised into a canonical
`Address` with that provider's JSON field names.

Everything except the network, the goroutines and the JSON text decoder is
deterministic. The model states it as pure functions, following the source's
own form (the source has no loops and no mutable objects in this core):

| module | file | models |
|---|---|---|
| `Text` | text.dfy | `strings.ReplaceAll(s, "-", "")` |
| `Validator` | validator.dfy | `validateCEP` |
| `Providers` | providers.dfy | the two source tags `"BrasilAPI"` and `"VIACEP"` |
| `Endpoints` | endpoints.dfy | the two request URLs |
| `Fetcher` | fetcher.dfy | how `fetchAPI` classifies what a request ended in |
| `Normalizer` | normalizer.dfy | `parseResponse` |
| `Coordinator` | coordinator.dfy | `main`: validation, then the one-shot `select` |

Abstractions:

- The network is a parameter `net: string -> Transport` from URL to how the request
  ended: request construction failed, no response, or a status with a body read
  (successfully or not).
- The scheduler is a parameter `Schedule`: the first event is one named
  provider's response, or the deadline.
- `json.Unmarshal` is a parameter `Decoder`. It takes the body and the JSON keys of
  the target struct. It gives a decode error, or the string found under each key
  the payload carries.
- Go strings are byte strings; the model uses `seq<char>`. A `-` is a single
  ASCII byte that never occurs inside a multi-byte character. A text of eight
  characters that are all `0`-`9` is also eight bytes. So the validation
  verdict is the same either way.

Behaviour of the code that the model keeps as it is:

- The lookup reads exactly one event and stops. An arrival carrying an error, or
  one whose body does not parse, ends it. Nothing is drained and there is no
  aggregate failure (`Coordinator.OnlyFirstArrivalMatters`,
  `Coordinator.FirstErrorStops`, `Coordinator.DeliveredMalformedStops`).
- Every error response has an empty `source`, so main's error message names no
  API (`Fetcher.FetchApi`, `Coordinator.FirstErrorStops`).
- `validateCEP` returns only an error, not the cleaned digits, and ViaCEP is
  queried with the CEP exactly as given.

## Model

| member | source | states |
|---|---|---|
| `Text.StripHyphensCounts` | main.go:28 | removing hyphens leaves no `-`, keeps every other character with its multiplicity, and shortens the text by the number of hyphens |
| `Text.StripHyphensConcat` | main.go:28 | removing hyphens commutes with concatenation, so the kept characters stay in their original order |
| `Text.StripHyphensNoHyphen` | main.go:28 | a text without hyphens is left unchanged |
| `Text.StripHyphensKeeps` | main.go:28 | every non-hyphen character of the input survives in the result |
| `Text.StripHyphensIdempotent` | main.go:28 | removing hyphens twice is the same as removing them once |
| `Text.StripHyphensInsert` | main.go:28 | inserting a hyphen anywhere does not change the stripped text |
| `Validator.ValidateCep` | main.go:27-33 | no error iff the hyphen-stripped input is exactly 8 characters, all `0`-`9`; the error quotes the input unchanged |
| `Validator.ValidateCepCharacterised` | main.go:27-33 | the same verdict stated on the raw input: accepted iff it has exactly 8 non-hyphen characters and every one of them is a digit |
| `Validator.ValidateCepIgnoresHyphen` | main.go:28-29 | inserting or removing a `-` anywhere never changes the verdict |
| `Validator.ValidateCepDependsOnStripped` | main.go:28-29 | inputs equal after hyphen removal get the same verdict |
| `Validator.ValidatedCepIsStable` | main.go:28-29 | the stripped form of an accepted CEP is accepted too |
| `Validator.EightDigitsAccepted` | main.go:29 | any 8 ASCII digits without hyphens are accepted |
| `Validator.ValidateCepAcceptsConventional` | main.go:27-33 | `89010-904` is accepted |
| `Validator.ValidateCepAcceptsSpread` | main.go:28-29 | `8-9-0-1-0-9-0-4` is accepted |
| `Validator.ValidateCepAcceptsZeros` | main.go:27-33 | `00000-000` is accepted: the format is checked, not whether the code exists |
| `Validator.ValidateCepRejectsShort` | main.go:29-30 | seven digits are rejected, with an error quoting the input |
| `Validator.ValidateCepRejectsLetter` | main.go:29-30 | a letter among eight characters is rejected |
| `Providers.ProviderOfTag` | main.go:64-98 | the tags `BrasilAPI` and `VIACEP` and the two providers correspond one to one, in both directions |
| `Providers.UnknownTags` | main.go:97-98 | every tag other than exactly `VIACEP` and `BrasilAPI` names no provider, among them the empty tag and case variants such as `viacep` |
| `Endpoints.BrasilApiUrl` | main.go:114 | the BrasilAPI URL is the fixed base followed by the CEP with every hyphen removed |
| `Endpoints.ViaCepUrl` | main.go:115 | the ViaCEP URL is the fixed base, the CEP unchanged, then `/json/` |
| `Endpoints.BrasilApiUrlRoundTrip` | main.go:114 | reading the code back out of the BrasilAPI URL gives the hyphen-free CEP |
| `Endpoints.ViaCepUrlRoundTrip` | main.go:115 | reading the code back out of the ViaCEP URL gives the CEP as given |
| `Endpoints.UrlsAgreeOnCep` | main.go:114-115 | both URLs carry the same code once hyphens are removed; for a valid CEP the BrasilAPI path is 8 digits |
| `Fetcher.FetchApi` | main.go:35-60 | success iff status 200 and the body was read, and then the response carries that body and the tag; every error response has an empty body and an empty source; each failure stage gives its own error |
| `Fetcher.NonOkBodyNeverRead` | main.go:49-52 | a non-200 response is an error whatever its body, even a body that could not be read |
| `Fetcher.ErrorsCarryNoSource` | main.go:38-59 | responses from two differently tagged fetchers are equal iff the request failed |
| `Normalizer.ParseResponse` | main.go:62-101 | VIACEP maps logradouro, localidade, uf and cep, and BrasilAPI maps street, city, state and cep, onto Street, City, State and ZipCode; a decode failure or any other tag gives the zero Address with an error |
| `Normalizer.ParseRoundTrip` | main.go:65-96 | a payload carrying an address under the provider's own keys parses back to that address |
| `Normalizer.MissingFieldsAreEmpty` | main.go:66-96 | for any decodable payload, whichever schema keys are missing become empty strings in the Address, the present ones are copied, and the result is not an error |
| `Normalizer.KnownSourceFailsOnlyOnDecode` | main.go:72-74 | for a known tag, the result is an error iff the body does not decode, and then it is a decode error |
| `Normalizer.UnknownSourceIgnoresBody` | main.go:97-98 | an unknown tag is rejected whatever the body and the decoder |
| `Normalizer.BrasilApiExample` | main.go:81-96 | a BrasilAPI payload with street Rua X, city Curitiba, state PR and cep 89010904 becomes that Address |
| `Coordinator.Arbitrate` | main.go:117-132 | the deadline gives the timeout outcome; an arrival with an error gives that error; otherwise the result is `Found` if parsing succeeds and a parse error if it fails |
| `Coordinator.Lookup` | main.go:103-132 | rejected iff the CEP is invalid, with the error for that input; for a valid CEP it times out iff the deadline comes first |
| `Coordinator.FoundMeansFirstDelivered` | main.go:114-129 | a found address comes from the first provider to answer: that provider's URL gave 200 with a body, and the body parsed to the address |
| `Coordinator.DeliveredAndDecodedIsFound` | main.go:117-129 | conversely, a first arrival whose body decodes always ends in `Found` from that provider |
| `Coordinator.OnlyFirstArrivalMatters` | main.go:117-132 | nothing after the first arrival is consulted: networks that agree on the first provider's URL give the same outcome |
| `Coordinator.FirstErrorStops` | main.go:118-121 | an error as the first arrival ends the lookup in `ApiFailed` with an empty source and exactly the fetcher's error, whatever the other provider does |
| `Coordinator.DeliveredMalformedStops` | main.go:123-126 | a first arrival that delivered a body which does not decode ends the lookup in `ParseFailed` with that provider's tag and the decode error, whatever the other provider does |
| `Coordinator.InvalidCepNeverFetches` | main.go:104-108 | an invalid CEP is rejected whatever the network, the scheduler and the decoder do |
| `Coordinator.ParseFailureIsDecodeFailure` | main.go:114-126 | arrivals always carry a launch tag, so a parse failure seen by main is always a decode failure, never an unknown API |
| `Coordinator.DefaultCepIsValid` | main.go:104-108 | main's built-in CEP `89010-904` passes validation |
| `Coordinator.BrasilApiFirstExample` | main.go:104-129 | `89010-904` with BrasilAPI answering first gives Found("BrasilAPI", Rua X / Curitiba / PR / 89010904) |
| `Coordinator.NotFoundFirstExample` | main.go:49-51 | `00000-000` with a 404 first arrival ends in that HTTP error, without trying the other provider |

## Left out

- The HTTP client: building the request, sending it, and reading the body (main.go:36-54). These are foreign I/O; the model gets their result as a `Transport` value.
- Goroutines, the buffered channel, `context.WithTimeout` and `ctx.Done()` (main.go:110-116, 130). Which event comes first is the `Schedule` parameter. Cancelling the losing request is not modelled.
- The one-second timeout value: time is not modelled, only whether the deadline is the first event.
- JSON decoding (`encoding/json`). It is the `Decoder` parameter. This also leaves out encoding/json's case-insensitive key matching and its rules for `null` and non-string values. Each of these decides whether a key counts as present, and so belongs to the decoder.
- The compiled regular expression (main.go:29). It is modelled as a per-character digit test; the length check already rules out the empty string that `+` excludes.
- Console output and the Portuguese message texts (main.go:106, 120, 125, 128-131). Each exit is modelled as an `Outcome` alternative carrying the values printed.
- Error messages as text: `fmt.Errorf` and Go errors become datatype values carrying the same data (the input CEP, the status code, or the cause).
