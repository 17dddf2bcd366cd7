/** The request URLs main.go builds for the two providers (main.go:114-115):
    BrasilAPI takes the CEP without hyphens, ViaCEP takes it exactly as given. */
module Endpoints {
  import opened Wrappers
  import opened Text
  import opened Validator
  import opened Providers

  const BRASIL_API_BASE := "https://brasilapi.com.br/api/cep/v1/"
  const VIA_CEP_BASE := "http://viacep.com.br/ws/"
  const VIA_CEP_FORMAT := "/json/"

  function BrasilApiUrl(cep: string): (url: string)
    ensures BRASIL_API_BASE <= url
    ensures url[|BRASIL_API_BASE|..] == StripHyphens(cep)
  {
    BRASIL_API_BASE + StripHyphens(cep)
  }

  function ViaCepUrl(cep: string): (url: string)
    ensures VIA_CEP_BASE <= url
    ensures |url| == |VIA_CEP_BASE| + |cep| + |VIA_CEP_FORMAT|
    ensures url[|VIA_CEP_BASE|..|VIA_CEP_BASE| + |cep|] == cep
    ensures url[|VIA_CEP_BASE| + |cep|..] == VIA_CEP_FORMAT
  {
    VIA_CEP_BASE + cep + VIA_CEP_FORMAT
  }

  /** The URL the fetcher for `p` is launched with. */
  function Url(p: Provider, cep: string): (url: string) {
    match p
    case BrasilApi => BrasilApiUrl(cep)
    case ViaCep => ViaCepUrl(cep)
  }

  /** Reads the postal code back out of a BrasilAPI URL. */
  function BrasilApiCepOf(url: string): (cep: Option<string>) {
    if BRASIL_API_BASE <= url then Some(url[|BRASIL_API_BASE|..]) else None
  }

  /** Reads the postal code back out of a ViaCEP URL. */
  function ViaCepCepOf(url: string): (cep: Option<string>) {
    if |VIA_CEP_BASE| + |VIA_CEP_FORMAT| <= |url|
       && VIA_CEP_BASE <= url
       && url[|url| - |VIA_CEP_FORMAT|..] == VIA_CEP_FORMAT
    then Some(url[|VIA_CEP_BASE|..|url| - |VIA_CEP_FORMAT|])
    else None
  }

  /** The BrasilAPI URL carries the CEP with every hyphen removed, and nothing else. */
  lemma BrasilApiUrlRoundTrip(cep: string)
    ensures BrasilApiCepOf(BrasilApiUrl(cep)) == Some(StripHyphens(cep))
    ensures HYPHEN !in BrasilApiCepOf(BrasilApiUrl(cep)).value
  {
    StripHyphensCounts(cep);
  }

  /** The ViaCEP URL carries the CEP unchanged between its base and "/json/". */
  lemma ViaCepUrlRoundTrip(cep: string)
    ensures ViaCepCepOf(ViaCepUrl(cep)) == Some(cep)
  {
  }

  /** Both providers are asked about the same postal code: the two URLs carry codes
      that agree once hyphens are removed; for an accepted CEP that is its eight digits. */
  lemma UrlsAgreeOnCep(cep: string)
    ensures StripHyphens(ViaCepCepOf(ViaCepUrl(cep)).value) == BrasilApiCepOf(BrasilApiUrl(cep)).value
    ensures ValidateCep(cep).None? ==>
      var path := BrasilApiCepOf(BrasilApiUrl(cep)).value;
      |path| == CEP_LENGTH && AllDigits(path)
  {
    BrasilApiUrlRoundTrip(cep);
    ViaCepUrlRoundTrip(cep);
  }
}
