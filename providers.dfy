/** The two lookup providers main.go races, and the source tags that name them
    (main.go:114-115 launch with them, main.go:64-98 dispatch on them). */
module Providers {
  import opened Wrappers

  datatype Provider = BrasilApi | ViaCep

  const BRASIL_API_TAG := "BrasilAPI"
  const VIA_CEP_TAG := "VIACEP"

  /** The source tag a fetcher for `p` attaches to its successful responses. */
  function Tag(p: Provider): (tag: string) {
    match p
    case BrasilApi => BRASIL_API_TAG
    case ViaCep => VIA_CEP_TAG
  }

  /** The provider a source tag names, compared exactly as Go's `switch` on strings
      does (case-sensitive, no trimming); `None` for any other tag. */
  function ProviderOf(tag: string): (p: Option<Provider>) {
    if tag == VIA_CEP_TAG then Some(ViaCep)
    else if tag == BRASIL_API_TAG then Some(BrasilApi)
    else None
  }

  /** Tags and providers correspond one to one, in both directions. */
  lemma ProviderOfTag(p: Provider, tag: string)
    ensures ProviderOf(Tag(p)) == Some(p)
    ensures ProviderOf(tag) == Some(p) <==> tag == Tag(p)
  {
  }

  /** Every other tag names no provider: the empty tag an error response carries,
      and spellings that differ only in case, among them. */
  lemma UnknownTags(tag: string)
    ensures tag != VIA_CEP_TAG && tag != BRASIL_API_TAG ==> ProviderOf(tag).None?
    ensures ProviderOf("") == None
    ensures ProviderOf("viacep") == None
    ensures ProviderOf("BRASILAPI") == None
  {
  }
}
