/** `validateCEP` (main.go:27-33): a Brazilian postal code (CEP) is accepted when,
    once every hyphen is removed, it is exactly eight ASCII decimal digits. */
module Validator {
  import opened Wrappers
  import opened Text

  const CEP_LENGTH := 8

  /** The error `validateCEP` returns; it quotes the input as given, hyphens included. */
  datatype ValidationError = InvalidCep(cep: string)

  /** A character of the class `[0-9]`. */
  predicate IsDigit(c: char) {
    '0' <= c <= '9'
  }

  /** The text matches `^[0-9]+$` once it is known to be non-empty. */
  predicate AllDigits(s: string) {
    forall i | 0 <= i < |s| :: IsDigit(s[i])
  }

  /** `None` is Go's nil error. */
  function ValidateCep(cep: string): (err: Option<ValidationError>)
    ensures err.Some? ==> err.value == InvalidCep(cep)
    ensures err.None? ==> |StripHyphens(cep)| == CEP_LENGTH && AllDigits(StripHyphens(cep))
    ensures err.Some? ==> |StripHyphens(cep)| != CEP_LENGTH || !AllDigits(StripHyphens(cep))
  {
    var cleaned := StripHyphens(cep);
    if |cleaned| != CEP_LENGTH || !AllDigits(cleaned) then Some(InvalidCep(cep)) else None
  }

  /** The verdict stated on the raw input alone: accepted exactly when the input holds
      eight characters other than '-', and each of them is a digit. */
  lemma {:induction false} ValidateCepCharacterised(cep: string)
    ensures ValidateCep(cep).None? <==>
      && |cep| - multiset(cep)[HYPHEN] == CEP_LENGTH
      && forall i | 0 <= i < |cep| && cep[i] != HYPHEN :: IsDigit(cep[i])
  {
    var cleaned := StripHyphens(cep);
    StripHyphensCounts(cep);
    if AllDigits(cleaned) {
      forall i | 0 <= i < |cep| && cep[i] != HYPHEN ensures IsDigit(cep[i]) {
        StripHyphensKeeps(cep, i);
      }
    }
    if forall i | 0 <= i < |cep| && cep[i] != HYPHEN :: IsDigit(cep[i]) {
      forall j | 0 <= j < |cleaned| ensures IsDigit(cleaned[j]) {
        var c := cleaned[j];
        assert c in multiset(cleaned);
        assert c in cep && c != HYPHEN;
      }
    }
  }

  /** Where and how many hyphens appear never changes the verdict: inserting one
      hyphen anywhere keeps it (and so does removing one). */
  lemma ValidateCepIgnoresHyphen(a: string, b: string)
    ensures ValidateCep(a + [HYPHEN] + b).None? <==> ValidateCep(a + b).None?
  {
    StripHyphensInsert(a, b);
  }

  /** Two inputs that agree once hyphens are removed get the same verdict. */
  lemma ValidateCepDependsOnStripped(x: string, y: string)
    requires StripHyphens(x) == StripHyphens(y)
    ensures ValidateCep(x).None? <==> ValidateCep(y).None?
  {
  }

  /** The stripped form of an accepted CEP is itself accepted, and stripping it
      again changes nothing. */
  lemma ValidatedCepIsStable(cep: string)
    requires ValidateCep(cep).None?
    ensures ValidateCep(StripHyphens(cep)).None?
    ensures StripHyphens(StripHyphens(cep)) == StripHyphens(cep)
  {
    StripHyphensIdempotent(cep);
  }

  /** Eight digits without hyphens are accepted as they are. */
  lemma EightDigitsAccepted(s: string)
    requires |s| == CEP_LENGTH && AllDigits(s)
    ensures ValidateCep(s).None?
  {
    assert HYPHEN !in s by {
      forall i | 0 <= i < |s| ensures s[i] != HYPHEN {
        assert IsDigit(s[i]);
      }
    }
    StripHyphensNoHyphen(s);
  }

  /** The conventional hyphenated form is accepted like the bare digits. */
  lemma ValidateCepAcceptsConventional()
    ensures ValidateCep("89010-904").None?
  {
    assert StripHyphens("89010-904") == "89010904";
    EightDigitsAccepted("89010904");
  }

  /** A hyphen between every pair of digits, "8-9-0-1-0-9-0-4", is accepted too
      (the text is written as two halves, which keeps the verifier from unfolding
      the whole literal at once). */
  lemma ValidateCepAcceptsSpread()
    ensures ValidateCep("8-9-0-1-" + "0-9-0-4").None?
  {
    var front, back := "8-9-0-1-", "0-9-0-4";
    assert StripHyphens(front + back) == "89010904" by {
      assert StripHyphens(front) == "8901";
      assert StripHyphens(back) == "0904";
      StripHyphensConcat(front, back);
    }
    assert AllDigits("89010904");
  }

  /** The well-formed code the providers answer with 404 passes validation: the
      format is checked, not whether the code exists. */
  lemma ValidateCepAcceptsZeros()
    ensures ValidateCep("00000-000").None?
  {
    assert StripHyphens("00000-000") == "00000000";
    EightDigitsAccepted("00000000");
  }

  /** Seven digits are rejected, and the error quotes the input. */
  lemma ValidateCepRejectsShort()
    ensures ValidateCep("8901-090") == Some(InvalidCep("8901-090"))
  {
    assert StripHyphens("8901-090") == "8901090";
  }

  /** A letter among eight characters is rejected. */
  lemma ValidateCepRejectsLetter()
    ensures ValidateCep("89010-90a") == Some(InvalidCep("89010-90a"))
  {
    assert StripHyphens("89010-90a") == "8901090a";
    assert !IsDigit("8901090a"[7]);
  }
}
