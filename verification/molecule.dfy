/**
 The per-bond loop: every bond of an already-connected molecule gets the type
 the classifier assigns from its own endpoint symbols and length, and nothing
 else about any bond changes.
 */
module Molecule {
  import opened Tables
  import opened Classifier

  /**
   A bond between the atoms at indices `begin` and `end`, with their element
   symbols, the distance between them in angstrom and the bond type.
   */
  datatype Bond = Bond(begin: nat, end: nat, beginSymbol: string, endSymbol: string, distance: real, order: BondType)

  /** Angstrom to picometre, the unit of the reference tables. */
  function ToPicometres(angstrom: real): real
  {
    angstrom * 100.0
  }

  /** True when two bonds agree in everything except their type. */
  predicate SameGeometry(a: Bond, b: Bond)
  {
    a.begin == b.begin && a.end == b.end && a.beginSymbol == b.beginSymbol
    && a.endSymbol == b.endSymbol && a.distance == b.distance
  }

  /** One iteration of the loop: the bond re-typed from its own symbols and length. */
  function Reassign(b: Bond, t: BondLengths): (r: Bond)
    ensures SameGeometry(r, b)
    ensures r.order == ClassifyBond(b.beginSymbol, b.endSymbol, ToPicometres(b.distance), t)
  {
    b.(order := ClassifyBond(b.beginSymbol, b.endSymbol, ToPicometres(b.distance), t))
  }

  /** The whole loop as a map over the bond sequence. */
  function ReassignAll(bonds: seq<Bond>, t: BondLengths): (r: seq<Bond>)
    ensures |r| == |bonds|
    ensures forall i :: 0 <= i < |bonds| ==> SameGeometry(r[i], bonds[i])
    ensures forall i :: 0 <= i < |bonds| ==>
      r[i].order == ClassifyBond(bonds[i].beginSymbol, bonds[i].endSymbol, ToPicometres(bonds[i].distance), t)
  {
    if bonds == [] then [] else [Reassign(bonds[0], t)] + ReassignAll(bonds[1..], t)
  }

  /** The loop as written: one pass over the bonds, setting each bond's type in turn. */
  method AssignBondOrders(bonds: seq<Bond>, t: BondLengths) returns (r: seq<Bond>)
    ensures r == ReassignAll(bonds, t)
  {
    r := [];
    var i := 0;
    while i < |bonds|
      invariant 0 <= i <= |bonds|
      invariant |r| == i
      invariant forall k :: 0 <= k < i ==> r[k] == Reassign(bonds[k], t)
    {
      r := r + [Reassign(bonds[i], t)];
      i := i + 1;
    }
  }

  /** A bond's new type depends only on that bond: other bonds, and its old type, play no part. */
  lemma TypeIsLocal(bonds: seq<Bond>, others: seq<Bond>, i: nat, j: nat, t: BondLengths)
    requires i < |bonds| && j < |others|
    requires bonds[i].beginSymbol == others[j].beginSymbol && bonds[i].endSymbol == others[j].endSymbol
    requires bonds[i].distance == others[j].distance
    ensures ReassignAll(bonds, t)[i].order == ReassignAll(others, t)[j].order
  {
  }

  /** Re-typing a concatenation re-types each part separately. */
  lemma ReassignAllAppend(front: seq<Bond>, back: seq<Bond>, t: BondLengths)
    ensures ReassignAll(front + back, t) == ReassignAll(front, t) + ReassignAll(back, t)
  {
  }

  /** Running the loop a second time changes nothing. */
  lemma ReassignAllIdempotent(bonds: seq<Bond>, t: BondLengths)
    ensures ReassignAll(ReassignAll(bonds, t), t) == ReassignAll(bonds, t)
  {
  }

  /** The incoming bond types are overwritten: molecules with the same geometry end up identical. */
  lemma ReassignAllIgnoresOldTypes(bonds: seq<Bond>, others: seq<Bond>, t: BondLengths)
    requires |bonds| == |others|
    requires forall i :: 0 <= i < |bonds| ==> SameGeometry(bonds[i], others[i])
    ensures ReassignAll(bonds, t) == ReassignAll(others, t)
  {
  }
}
