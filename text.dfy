/** Pieces of the text the report shows.

    The application renders numbers with Python format specifications; the
    model keeps each number as a value tagged with the format it is shown in,
    and keeps literal text as it is. */
module Text {

  datatype Option<T> = None | Some(value: T)

  /** How a number is turned into text. */
  datatype NumFormat =
    | Repr       // str() of the value, as in an f-string without a specification
    | Grouped2   // `:,.2f`: thousands separators, two decimals
    | Fixed2     // `.2f`: two decimals, no separators

  datatype Piece =
    | Lit(s: string)                   // literal text, copied verbatim
    | Num(x: real, format: NumFormat)  // a number, shown in the given format
    | Count(n: nat)                    // an integer count, shown in decimal

  type Text = seq<Piece>

  /** The number a cell shows first, if it starts with one. */
  function LeadingNumber(t: Text): (r: Option<real>)
    ensures r.Some? <==> |t| > 0 && t[0].Num?
  {
    if |t| > 0 && t[0].Num? then Some(t[0].x) else None
  }
}
