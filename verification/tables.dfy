/**
 Reference bond-length tables keyed by the two element symbols of a bond,
 and the margins added to them. The numeric contents of the tables are not
 part of this model: every operation takes them as parameters.
 */
module Tables {
  import opened Wrappers

  /** A nested table: first symbol, then second symbol, to a length in pm. */
  type Table = map<string, map<string, real>>

  /** The margin vector; the classifier reads the entries at 1 and 2. */
  type Margins = m: seq<real> | |m| >= 3 witness [0.0, 0.0, 0.0]

  /** The double-bond table, the triple-bond table and the margins together. */
  datatype BondLengths = BondLengths(bonds2: Table, bonds3: Table, margins: Margins)

  /** The entry for the ordered pair (first, second), if the table has one. */
  function Lookup(table: Table, first: string, second: string): (r: Option<real>)
    ensures r.Some? <==> first in table && second in table[first]
    ensures r.Some? ==> r.value == table[first][second]
  {
    if first in table && second in table[first] then Some(table[first][second]) else None
  }

  /**
   True when the table has an entry for (first, second) and `distance` lies
   strictly below that entry plus `margin`.
   */
  predicate Below(table: Table, first: string, second: string, margin: real, distance: real)
  {
    match Lookup(table, first, second)
    case Some(length) => distance < length + margin
    case None => false
  }

  /** Every ordered pair has the same entry, or the same absence, as its reverse. */
  ghost predicate Symmetric(table: Table)
  {
    forall a, b :: Lookup(table, a, b) == Lookup(table, b, a)
  }
}
