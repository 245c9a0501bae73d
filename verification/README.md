# Currency and DateTime value objects

A Dafny model of the two domain value objects of the repository:

- `Currency` (`src/shared/domain/model/currency.ts`) wraps a currency code whose
  shape is fixed by the template literal type `CurrencyCode`. It reads the code
  back through the `code` getter and `toString`. `forAmount` hands the code to
  the host's number formatter.
- `DateTime` (`src/shared/domain/model/date-time.ts`) wraps an instant. The
  constructor validates it against a single clock reading. A falsy argument
  stores "now". A supplied argument is rejected with an invalid-format error
  when it has no valid time value, and with a future-date error when it is
  strictly later than the clock reading. `value` reads the instant back and
  `format` hands it to the host's date formatter.

Both objects are immutable Dafny datatypes, so no operation can change a stored
code or instant after construction. Instants are `int` milliseconds since the
epoch. An invalid `Date` is `DateVal(None)`, standing for the time value `NaN`.
The clock reading `now` and the parser behind `new Date(string)` are
parameters of `DateTime.Create`. A thrown error is a `Failure` of `Result`.
The formatting operations are modelled as the request they send to the
formatter: locale, options and the value to format.

Files: `wrappers.dfy` (`Option`, `Result`), `intl.dfy` (the `'en-US'`
default locale), `currency.dfy`, `date_time.dfy`.

## Declared type versus documentation

The doc comments on `currency.ts` (lines 11-12, 18, 23 and 31) describe a
three-letter code such as `'USD'`. The type at line 20 is
`` `${UpperCaseLetter}-${UpperCaseLetter}${UpperCaseLetter}` ``. It admits
four-character strings with a hyphen at index 1, such as `'U-SD'`. The model
follows the declared type, because that is what the type checker enforces on
constructor callers. `Currency.DocumentedExampleIsRejected` and
`Currency.ThreeLetterCodesAreNotCurrencyCodes` make the mismatch explicit.
`Currency.CurrencyCodeHasThreeLetters` shows the one reading under which the
comment holds: every code contains exactly three letters.

The constructor itself does no runtime check of the code. The model has none
either. The type constraint becomes the Dafny subset type `CurrencyCode`.

A future-date rejection is sometimes read as permanent. In the code it depends
on the clock reading: `DateTime.FutureRejectionExpires` shows that the same
argument is accepted once the clock reaches its instant.

`format` asks for a `'numeric'` year and `'2-digit'` month, day, hour, minute and
second (`date-time.ts:41-46`). It does not ask for a two-digit year. The model
follows the code.

## Model

| member | source | states |
|---|---|---|
| Currency.Matches | src/shared/domain/model/currency.ts:20 | a string inhabiting a template literal type of one-character slots has the template's length and fits every slot |
| Currency.MatchesPointwise | src/shared/domain/model/currency.ts:20 | matching a template is equivalent, both ways, to equal length plus a fit at every position |
| Currency.CurrencyCodeShape | src/shared/domain/model/currency.ts:14-20 | a string is a `CurrencyCode` iff it has length 4, `'-'` at index 1 and A–Z at indices 0, 2 and 3 |
| Currency.CurrencyCodeHasThreeLetters | src/shared/domain/model/currency.ts:10-20 | every valid `CurrencyCode` contains exactly three upper-case letters |
| Currency.ThreeLetterCodesAreNotCurrencyCodes | src/shared/domain/model/currency.ts:17-20 | no three-letter upper-case code is a `CurrencyCode`, and no `CurrencyCode` is one |
| Currency.DocumentedExampleIsRejected | src/shared/domain/model/currency.ts:20-31 | the documented example `"USD"` is a three-letter code but not a `CurrencyCode`, while `"U-SD"` is one |
| Currency.NewCurrency | src/shared/domain/model/currency.ts:27-35 | the constructor stores its argument unchanged: `code` and `toString` both return exactly what was passed |
| Currency.Code | src/shared/domain/model/currency.ts:41-43 | the `code` getter returns a string of the declared shape that determines the object |
| Currency.ToString | src/shared/domain/model/currency.ts:64 | `toString()` returns the same value as `code` |
| Currency.ForAmount | src/shared/domain/model/currency.ts:55-61 | the formatting request carries the amount unchanged, this currency's code, style `'currency'`, locale `'en-US'` when none is given and the given one otherwise, and 2 as both minimum and maximum fraction digits |
| Currency.ForAmountUsesOwnCode | src/shared/domain/model/currency.ts:33-61 | a currency built from a code asks the formatter for that very code, the one `toString` shows, which is well shaped, with equal fraction-digit bounds |
| DateTime.Create | src/shared/domain/model/date-time.ts:21-29 | construction succeeds iff the argument is falsy or has a valid time value not after `now`; a stored instant is never after `now`; every error names the argument; a future-date error implies a valid time value after `now`; a format error implies no valid time value |
| DateTime.Value | src/shared/domain/model/date-time.ts:31-33 | the `value` getter returns the stored instant, which determines the object |
| DateTime.FalsyInputIsNow | src/shared/domain/model/date-time.ts:22-28 | with no argument or a falsy one, construction succeeds and stores exactly the clock reading |
| DateTime.EmptyTextIsNow | src/shared/domain/model/date-time.ts:23-28 | `''` behaves as no argument and stores now, whatever the parser makes of it |
| DateTime.InvalidTimeIsFormatError | src/shared/domain/model/date-time.ts:24-25 | a supplied argument without a valid time value fails with the invalid-format error and never with the future error |
| DateTime.InvalidDateObjectIsFormatError | src/shared/domain/model/date-time.ts:21-25 | an invalid `Date` object is truthy and fails with the invalid-format error |
| DateTime.FutureBoundary | src/shared/domain/model/date-time.ts:26 | an instant strictly after now fails with the future error; an instant equal to now is stored |
| DateTime.ParsedInstantIsStored | src/shared/domain/model/date-time.ts:24-27 | a valid, non-future argument is stored as its own time value, which `value` returns |
| DateTime.DateRoundTrip | src/shared/domain/model/date-time.ts:24-33 | every instant not after now survives construction from a `Date` and the `value` getter unchanged |
| DateTime.RewrapIsIdentity | src/shared/domain/model/date-time.ts:21-33 | constructing again from the `value` of a constructed object, at any later clock reading, gives an equal object |
| DateTime.AcceptanceIsMonotone | src/shared/domain/model/date-time.ts:22-27 | a supplied argument accepted at one clock reading is accepted with the same instant at every later reading |
| DateTime.FutureRejectionExpires | src/shared/domain/model/date-time.ts:22-27 | an argument rejected as future is accepted, storing its instant, once the clock reading reaches that instant |
| DateTime.FormatRejectionIsPermanent | src/shared/domain/model/date-time.ts:24-25 | an invalid-format rejection holds at every clock reading |
| DateTime.Format | src/shared/domain/model/date-time.ts:39-47 | the formatting request carries the stored instant, locale `'en-US'` when none is given and the given one otherwise, a numeric year and two-digit month, day, hour, minute and second |
| DateTime.FormatNeverShowsFuture | src/shared/domain/model/date-time.ts:22-47 | the formatter is only asked to render an instant no later than the clock reading taken at construction |

## Left out

- The formatted text of `forAmount` and `format`: `toLocaleString` and `toLocaleDateString` are host `Intl` calls. Only the request is modelled.
- The errors for unsupported locales or currency codes: the host formatter raises them.
- `DateTime.toString` (`date-time.ts:35-37`): `toISOString` rendering belongs to the host, so neither the text nor its parse-back round trip is modelled.
- The grammar of `new Date(string)`: the parser is a parameter returning `None` for `NaN`. It also covers the host's limit of ±8.64e15 ms on time values.
- The wall clock `new Date()`: replaced by the `now` parameter, read once per construction.
- The `amount` of `forAmount`: it is a floating-point number passed through to the formatter, so the model carries it as an uninterpreted type parameter.
- The mutability of the `Date` returned by `value`: that is aliasing of a host object. The model returns the instant as a value.
- The text of the thrown messages (`Invalid date format: …`, `Date cannot be in the future: …`): each error carries the offending argument instead, because rendering a `Date` into the message is a host conversion.
