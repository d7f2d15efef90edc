/**
 The distance-based bond-order classifier applied to each bond after
 connectivity has been determined: a bond is single unless its length falls
 under the margin-adjusted double-bond threshold, and among those it is triple
 when its length also falls under the margin-adjusted triple-bond threshold.
 */
module Classifier {
  import opened Wrappers
  import opened Tables

  datatype BondType = Single | Double | Triple

  /** The multiplicity of a bond type: 1, 2 or 3. */
  function Multiplicity(t: BondType): (n: nat)
    ensures 1 <= n <= 3
  {
    match t
    case Single => 1
    case Double => 2
    case Triple => 3
  }

  /** The double-bond test: an entry in BONDS_2 and a length under it plus margins[1]. */
  predicate DoubleCandidate(first: string, second: string, distance: real, t: BondLengths)
  {
    Below(t.bonds2, first, second, t.margins[1], distance)
  }

  /** The triple-bond test: an entry in BONDS_3 and a length under it plus margins[2]. */
  predicate TripleCandidate(first: string, second: string, distance: real, t: BondLengths)
  {
    Below(t.bonds3, first, second, t.margins[2], distance)
  }

  /**
   Classifies a bond from its begin-atom symbol, end-atom symbol and length in
   pm. The triple test is only reached once the double test has passed.
   */
  function ClassifyBond(first: string, second: string, distance: real, t: BondLengths): (r: BondType)
    ensures r == Triple <==> DoubleCandidate(first, second, distance, t) && TripleCandidate(first, second, distance, t)
    ensures r == Double <==> DoubleCandidate(first, second, distance, t) && !TripleCandidate(first, second, distance, t)
    ensures r == Single <==> !DoubleCandidate(first, second, distance, t)
  {
    if first in t.bonds2 && second in t.bonds2[first] then
      var threshold2 := t.bonds2[first][second] + t.margins[1];
      if distance < threshold2 then
        if first in t.bonds3 && second in t.bonds3[first] then
          var threshold3 := t.bonds3[first][second] + t.margins[2];
          if distance < threshold3 then Triple else Double
        else
          Double
      else
        Single
    else
      Single
  }

  /** Without a BONDS_2 entry for the ordered pair the bond stays single, whatever BONDS_3 holds. */
  lemma NoDoubleEntryIsSingle(first: string, second: string, distance: real, t: BondLengths)
    requires Lookup(t.bonds2, first, second).None?
    ensures ClassifyBond(first, second, distance, t) == Single
    ensures forall bonds3: Table :: ClassifyBond(first, second, distance, t.(bonds3 := bonds3)) == Single
  {
  }

  /** A length at or above the margin-adjusted double threshold gives a single bond. */
  lemma AtOrAboveDoubleThresholdIsSingle(first: string, second: string, distance: real, t: BondLengths)
    requires Lookup(t.bonds2, first, second).Some?
    requires distance >= Lookup(t.bonds2, first, second).value + t.margins[1]
    ensures ClassifyBond(first, second, distance, t) == Single
  {
  }

  /** A missing BONDS_3 entry caps the order at double: under the double threshold the bond is double. */
  lemma NoTripleEntryCapsAtDouble(first: string, second: string, distance: real, t: BondLengths)
    requires Lookup(t.bonds3, first, second).None?
    ensures ClassifyBond(first, second, distance, t) != Triple
    ensures ClassifyBond(first, second, distance, t) == Double <==> DoubleCandidate(first, second, distance, t)
  {
  }

  /** Shortening a bond never lowers its order. */
  lemma ShorterIsNotLowerOrder(first: string, second: string, shorter: real, longer: real, t: BondLengths)
    requires shorter <= longer
    ensures Multiplicity(ClassifyBond(first, second, longer, t)) <= Multiplicity(ClassifyBond(first, second, shorter, t))
  {
  }

  /** Only margins[1] and margins[2] take part: any change to the others leaves the result unchanged. */
  lemma OnlyMarginsOneAndTwoMatter(first: string, second: string, distance: real, t: BondLengths, margins: Margins)
    requires margins[1] == t.margins[1] && margins[2] == t.margins[2]
    ensures ClassifyBond(first, second, distance, t.(margins := margins)) == ClassifyBond(first, second, distance, t)
  {
  }

  /** With symmetric tables, swapping the endpoints of a bond does not change its order. */
  lemma SymmetricTablesIgnoreDirection(first: string, second: string, distance: real, t: BondLengths)
    requires Symmetric(t.bonds2) && Symmetric(t.bonds3)
    ensures ClassifyBond(second, first, distance, t) == ClassifyBond(first, second, distance, t)
  {
  }

  /**
   The look-up is not symmetrised: with a BONDS_2 entry for (C, N) but none
   for (N, C), the same 120 pm bond is double one way round and single the other.
   */
  lemma DirectionCanMatter()
    ensures var t := BondLengths(map["C" := map["N" := 125.0]], map[], [0.0, 0.0, 0.0]);
            ClassifyBond("C", "N", 120.0, t) == Double && ClassifyBond("N", "C", 120.0, t) == Single
  {
  }

  /**
   The flat reading of the procedure: triple if under the triple threshold,
   otherwise double if under the double threshold, otherwise single.
   */
  function CascadeClassify(first: string, second: string, distance: real, t: BondLengths): BondType
  {
    if TripleCandidate(first, second, distance, t) then Triple
    else if DoubleCandidate(first, second, distance, t) then Double
    else Single
  }

  /**
   Tables are nested when every BONDS_3 entry has a BONDS_2 entry for the same
   pair whose margin-adjusted threshold is at least as large.
   */
  ghost predicate Nested(t: BondLengths)
  {
    forall a, b :: Lookup(t.bonds3, a, b).Some? ==>
      && Lookup(t.bonds2, a, b).Some?
      && Lookup(t.bonds3, a, b).value + t.margins[2] <= Lookup(t.bonds2, a, b).value + t.margins[1]
  }

  /** For nested tables the nested tests of the code and the flat cascade agree. */
  lemma AgreesWithCascadeWhenNested(first: string, second: string, distance: real, t: BondLengths)
    requires Nested(t)
    ensures ClassifyBond(first, second, distance, t) == CascadeClassify(first, second, distance, t)
  {
  }

  /**
   A BONDS_3 entry for (C, C) with no BONDS_2 entry leaves a 115 pm bond
   single in the code, where the flat cascade calls it triple.
   */
  lemma DivergesWithoutDoubleEntry()
    ensures var t := BondLengths(map[], map["C" := map["C" := 120.0]], [0.0, 0.0, 0.0]);
            ClassifyBond("C", "C", 115.0, t) == Single && CascadeClassify("C", "C", 115.0, t) == Triple
  {
  }

  /**
   A triple threshold (130 pm) above the double threshold (120 pm) leaves a
   125 pm bond single in the code, where the flat cascade calls it triple.
   */
  lemma DivergesWhenTripleThresholdIsLonger()
    ensures var t := BondLengths(map["C" := map["C" := 120.0]], map["C" := map["C" := 130.0]], [0.0, 0.0, 0.0]);
            ClassifyBond("C", "C", 125.0, t) == Single && CascadeClassify("C", "C", 125.0, t) == Triple
  {
  }

  /** Conversely, tables on which the code and the flat cascade always agree are nested. */
  lemma NestedWhenAgreesWithCascade(t: BondLengths)
    requires forall a, b, d :: ClassifyBond(a, b, d, t) == CascadeClassify(a, b, d, t)
    ensures Nested(t)
  {
    forall a, b | Lookup(t.bonds3, a, b).Some?
      ensures Lookup(t.bonds2, a, b).Some?
      ensures Lookup(t.bonds3, a, b).value + t.margins[2] <= Lookup(t.bonds2, a, b).value + t.margins[1]
    {
      var threshold3 := Lookup(t.bonds3, a, b).value + t.margins[2];
      // Just under the triple threshold the cascade says triple, so the double test must pass there.
      assert ClassifyBond(a, b, threshold3 - 1.0, t) == CascadeClassify(a, b, threshold3 - 1.0, t);
      var threshold2 := Lookup(t.bonds2, a, b).value + t.margins[1];
      // At the double threshold the code says single, so the cascade must not reach triple there.
      assert ClassifyBond(a, b, threshold2, t) == CascadeClassify(a, b, threshold2, t);
    }
  }
}
