/** The optional value used for nullable columns and omitted parameters. */
module Common {
  datatype Option<+T> = None | Some(value: T)

  function OrElse<T>(o: Option<T>, default: T): T { if o.Some? then o.value else default }

  /** a ?? b */
  function Coalesce<T>(a: Option<T>, b: Option<T>): Option<T> { if a.Some? then a else b }

  function Max(a: int, b: int): int { if a >= b then a else b }

  function Min(a: int, b: int): int { if a <= b then a else b }

  /** No more than the first thousand characters of an error are stored. */
  function Shortened(error: string): string { if |error| <= 1000 then error else error[..1000] }
}
