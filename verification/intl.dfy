/** The part of the host's locale-formatting capability that the value objects
    decide for themselves: which locale a formatting request carries. */
module Intl {
  import opened Wrappers

  /** The default locale of both `Currency.forAmount` and `DateTime.format`. */
  const DefaultLocale: string := "en-US"

  /** A JavaScript default parameter: it replaces only a missing (`undefined`)
      argument; any supplied string, the empty one included, is kept. */
  function ResolveLocale(locale: Option<string>): string
  {
    match locale
    case None => DefaultLocale
    case Some(given) => given
  }
}
