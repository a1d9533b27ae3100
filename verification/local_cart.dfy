/** The local cart store of src/context/cart-context.tsx: one key of the browser's local
    storage holding a JSON snapshot of the lines. The JSON text is not modelled; what the
    key holds is one of the four shapes `loadLocalCart` tells apart. */
module LocalCart {
  import opened CartLines

  /** What reading the key and parsing it can give. */
  datatype LocalStore =
    | Missing                      // no entry, or an empty string
    | Unparsable                   // `JSON.parse` throws
    | NotAnArray                   // parses, but `Array.isArray` says no
    | Stored(lines: seq<Line>)     // a parsed array of lines

  /** `loadLocalCart`: every read or parse failure degrades to the empty cart. */
  function LoadLocalCart(s: LocalStore): (r: seq<Line>)
    ensures s.Stored? ==> r == s.lines
    ensures !s.Stored? ==> r == []
  {
    match s
    case Stored(lines) => lines
    case _ => []
  }

  /** `saveLocalCart`: a full-snapshot overwrite, never an incremental update. */
  function SaveLocalCart(items: seq<Line>): (s: LocalStore)
    ensures s.Stored?
  {
    Stored(items)
  }

  /** Saving and then loading gives back exactly the lines that were saved. */
  lemma SaveThenLoad(items: seq<Line>)
    ensures LoadLocalCart(SaveLocalCart(items)) == items
  {
  }
}
