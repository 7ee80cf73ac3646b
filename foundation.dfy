/** The Foundation conversions the transformer relies on, left abstract:
    `URL(string:)`, the short-style `DateFormatter` and the ISO 8601 formatter
    (with internet date-time and fractional seconds) are each a function from
    a string to an optional value. URLs and dates are opaque values. */
module Foundation {
  import opened Wrappers

  type Url(==, !new)

  type Date(==, !new)

  /** `String.toURL`, `String.toDate(with: Formatter.short)` and `String.toIso8601Date`. */
  datatype Formatters = Formatters(
    toURL: string -> Option<Url>,
    shortDate: string -> Option<Date>,
    iso8601: string -> Option<Date>)
}
