/** The `Currency` value object: a currency code whose shape is fixed by a
    template literal type, read back through `code` and `toString`, and handed
    to the host's number formatter by `forAmount`. */
module Currency {
  import opened Wrappers
  import opened Intl

  /** The 26 members of the `UpperCaseLetter` union type. */
  predicate IsUpperCaseLetter(c: char) {
    'A' <= c <= 'Z'
  }

  /** One position of a template literal type whose placeholders are unions of
      one-character strings: either such a placeholder or a literal character. */
  datatype Slot = Letter | Literal(c: char)

  predicate SlotAccepts(slot: Slot, c: char) {
    match slot
    case Letter => IsUpperCaseLetter(c)
    case Literal(l) => c == l
  }

  /** `s` inhabits the template literal type `template`: each position of the
      template consumes exactly one character of `s`. */
  predicate Matches(template: seq<Slot>, s: string)
    ensures Matches(template, s) ==> |s| == |template|
    ensures Matches(template, s) ==>
      forall i :: 0 <= i < |s| ==> SlotAccepts(template[i], s[i])
  {
    if template == [] then s == []
    else s != [] && SlotAccepts(template[0], s[0]) && Matches(template[1..], s[1..])
  }

  /** The declared type `${UpperCaseLetter}-${UpperCaseLetter}${UpperCaseLetter}`. */
  const CodeTemplate: seq<Slot> := [Letter, Literal('-'), Letter, Letter]

  predicate IsCurrencyCode(s: string) {
    Matches(CodeTemplate, s)
  }

  /** The `CurrencyCode` type alias: the strings the type checker admits. */
  type CurrencyCode = s: string | IsCurrencyCode(s) witness "A-AA"

  /** What the doc comments promise instead: a three-letter code such as "USD". */
  predicate IsThreeLetterCode(s: string) {
    |s| == 3 && forall i :: 0 <= i < |s| ==> IsUpperCaseLetter(s[i])
  }

  /** Number of upper-case letters in `s`. */
  function UpperCaseCount(s: string): (n: nat)
    ensures n <= |s|
    ensures n == |s| <==> forall i :: 0 <= i < |s| ==> IsUpperCaseLetter(s[i])
  {
    if s == [] then 0
    else (if IsUpperCaseLetter(s[0]) then 1 else 0) + UpperCaseCount(s[1..])
  }

  /** Matching a template is the same as matching it position by position. */
  lemma {:induction false} MatchesPointwise(template: seq<Slot>, s: string)
    ensures Matches(template, s) <==>
      (|s| == |template| && forall i :: 0 <= i < |s| ==> SlotAccepts(template[i], s[i]))
    decreases template
  {
    if template != [] && |s| == |template|
       && forall i :: 0 <= i < |s| ==> SlotAccepts(template[i], s[i])
    {
      assert SlotAccepts(template[0], s[0]);
      forall i | 0 <= i < |s[1..]|
        ensures SlotAccepts(template[1..][i], s[1..][i])
      {
        assert SlotAccepts(template[i + 1], s[i + 1]);
      }
      MatchesPointwise(template[1..], s[1..]);
    }
  }

  /** Every `CurrencyCode` is four characters long, has '-' at index 1 and an
      upper-case letter at indices 0, 2 and 3, and every such string is one. */
  lemma CurrencyCodeShape(s: string)
    ensures IsCurrencyCode(s) <==>
      && |s| == 4
      && IsUpperCaseLetter(s[0])
      && s[1] == '-'
      && IsUpperCaseLetter(s[2])
      && IsUpperCaseLetter(s[3])
  {
    MatchesPointwise(CodeTemplate, s);
    if |s| == 4 && IsUpperCaseLetter(s[0]) && s[1] == '-'
       && IsUpperCaseLetter(s[2]) && IsUpperCaseLetter(s[3])
    {
      forall i | 0 <= i < |s|
        ensures SlotAccepts(CodeTemplate[i], s[i])
      {
      }
    }
  }

  /** Read as a letter count, the doc comment holds: every `CurrencyCode`
      contains exactly three upper-case letters (plus the hyphen). */
  lemma {:induction false} CurrencyCodeHasThreeLetters(s: string)
    requires IsCurrencyCode(s)
    ensures UpperCaseCount(s) == 3
  {
    CurrencyCodeShape(s);
    assert s[1..][1..][1..][1..] == [];
    assert UpperCaseCount(s[1..][1..][1..]) == 1;
    assert UpperCaseCount(s[1..][1..]) == 2;
    assert UpperCaseCount(s[1..]) == 2;
  }

  /** Read as a string shape, the doc comment does not hold: no three-letter
      code is a `CurrencyCode`, and no `CurrencyCode` is a three-letter code. */
  lemma ThreeLetterCodesAreNotCurrencyCodes(s: string)
    ensures IsThreeLetterCode(s) ==> !IsCurrencyCode(s)
    ensures IsCurrencyCode(s) ==> !IsThreeLetterCode(s)
  {
  }

  /** The documented example "USD" is rejected by the declared type, while the
      hyphenated "U-SD" is admitted. */
  lemma DocumentedExampleIsRejected()
    ensures IsThreeLetterCode("USD") && !IsCurrencyCode("USD")
    ensures IsCurrencyCode("U-SD")
  {
    ThreeLetterCodesAreNotCurrencyCodes("USD");
  }

  /** The value object; its `_code` field is readonly, so the wrapped code never changes. */
  datatype Currency = Currency(storedCode: CurrencyCode)

  /** The constructor: no runtime check, the argument is stored as given. */
  function NewCurrency(code: CurrencyCode): (c: Currency)
    ensures Code(c) == code
    ensures ToString(c) == code
  {
    Currency(code)
  }

  /** The `code` getter: the stored code as a plain string. */
  function Code(c: Currency): (s: string)
    ensures IsCurrencyCode(s)
    ensures Currency(s) == c
  {
    c.storedCode
  }

  /** `toString`: the same text as the `code` getter. */
  function ToString(c: Currency): (s: string)
    ensures s == Code(c)
  {
    c.storedCode
  }

  /** The options object `forAmount` passes to `Number.prototype.toLocaleString`,
      together with the amount and locale it passes alongside. The amount is a
      floating-point number the model does not interpret. */
  datatype AmountFormatRequest<Amount> = AmountFormatRequest(
    amount: Amount,
    locale: string,
    style: string,
    currency: string,
    minimumFractionDigits: nat,
    maximumFractionDigits: nat)

  /** `forAmount`: builds the request for the host formatter; the formatted
      text is produced by the host. */
  function ForAmount<Amount>(c: Currency, amount: Amount, locale: Option<string>): (r: AmountFormatRequest<Amount>)
    ensures r.amount == amount
    ensures r.currency == Code(c)
    ensures locale.None? ==> r.locale == DefaultLocale
    ensures locale.Some? ==> r.locale == locale.value
    ensures r.style == "currency"
    ensures r.minimumFractionDigits == 2 && r.maximumFractionDigits == 2
  {
    AmountFormatRequest(amount, ResolveLocale(locale), "currency", c.storedCode, 2, 2)
  }

  /** The formatter only ever receives a code of the declared shape, the one
      `toString` shows, and two fraction digits as both bounds. */
  lemma ForAmountUsesOwnCode<Amount>(code: CurrencyCode, amount: Amount, locale: Option<string>)
    ensures var r := ForAmount(NewCurrency(code), amount, locale);
      && r.currency == code
      && r.currency == ToString(NewCurrency(code))
      && |r.currency| == 4 && r.currency[1] == '-'
      && r.minimumFractionDigits == r.maximumFractionDigits
  {
    CurrencyCodeShape(code);
  }
}
