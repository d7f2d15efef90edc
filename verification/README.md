# Distance-based bond-order classification

This project models the one piece of original logic in `mofa/utils/xyz.py`
(MOF generation at scale): the bond-order correction inside
`unsaturated_xyz_to_mol`. After connectivity has been determined from 3D
coordinates, every bond is re-typed from its length. The length (in pm) is
compared with reference bond lengths from two nested tables, `BONDS_2` and
`BONDS_3`, keyed by the begin-atom symbol and then the end-atom symbol, each
widened by a margin from `MARGINS_EDM`. The bond becomes `DOUBLE` when it is
shorter than the double threshold, `TRIPLE` when it is also shorter than the
triple threshold, and stays `SINGLE` otherwise or when the table has no entry.

Files:

- `wrappers.dfy` — `Option`.
- `tables.dfy` — the nested table type, the margin vector (at least three
  entries), the ordered-pair look-up and the "below threshold" test.
- `classifier.dfy` — `BondType`, `ClassifyBond` and its properties, and the
  flat-cascade reading it is compared with.
- `molecule.dfy` — bonds as immutable records and the per-bond loop, as a
  sequence map (`ReassignAll`) and as the loop itself (`AssignBondOrders`).

The tables and margins are parameters (`BondLengths`): their numeric contents
live in a constants module that is not part of this model. Distances are
Dafny `real`s, so threshold comparisons are exact.

`CascadeClassify` is a natural flat reading of the procedure: triple if below
the triple threshold, else double if below the double threshold, else single.
The code does not follow it, because it reaches the triple test only after the
double test has passed. So a `BONDS_3` entry with no `BONDS_2` entry, or a
triple threshold above the double threshold, gives a lower order than the flat
reading. `AgreesWithCascadeWhenNested` and `NestedWhenAgreesWithCascade`
prove the two agree on all inputs exactly when the tables are nested.
`DivergesWithoutDoubleEntry` and `DivergesWhenTripleThresholdIsLonger` give
concrete tables for each way they differ.

## Model

| member | source | states |
|---|---|---|
| Tables.Lookup | mofa/utils/xyz.py:91 | an entry is found exactly when the first symbol is a key of the outer table and the second a key of its inner table, and then it is that entry |
| Classifier.ClassifyBond | mofa/utils/xyz.py:87-99 | TRIPLE iff the BONDS_2 test (entry present, length below entry + margins[1]) and the BONDS_3 test (entry present, length below entry + margins[2]) both pass; DOUBLE iff the BONDS_2 test passes and the BONDS_3 test fails; SINGLE iff the BONDS_2 test fails |
| Classifier.NoDoubleEntryIsSingle | mofa/utils/xyz.py:89-91 | with no BONDS_2 entry for (begin symbol, end symbol) the bond is SINGLE for every distance and every BONDS_3 table |
| Classifier.AtOrAboveDoubleThresholdIsSingle | mofa/utils/xyz.py:92-93 | a length at or above BONDS_2 entry + margins[1] gives SINGLE |
| Classifier.NoTripleEntryCapsAtDouble | mofa/utils/xyz.py:94-96 | with no BONDS_3 entry the bond is never TRIPLE, and is DOUBLE exactly when the BONDS_2 test passes |
| Classifier.ShorterIsNotLowerOrder | mofa/utils/xyz.py:91-98 | for fixed symbols, tables and margins, a shorter bond never gets a lower multiplicity (SINGLE < DOUBLE < TRIPLE) |
| Classifier.OnlyMarginsOneAndTwoMatter | mofa/utils/xyz.py:88-96 | replacing the margin vector by any other with the same entries at 1 and 2 leaves the classification unchanged, so margins[0] plays no part |
| Classifier.SymmetricTablesIgnoreDirection | mofa/utils/xyz.py:87-95 | when both tables give each ordered pair the same entry as its reverse, swapping begin and end atoms leaves the bond type unchanged |
| Classifier.DirectionCanMatter | mofa/utils/xyz.py:79-95 | the look-up is keyed by (begin, end) with no symmetrisation: a table with only a (C, N) entry makes one 120 pm bond DOUBLE as C-N and SINGLE as N-C |
| Classifier.AgreesWithCascadeWhenNested | mofa/utils/xyz.py:91-98 | when every BONDS_3 entry has a BONDS_2 entry whose adjusted threshold is at least as large, the nested tests equal the flat triple-then-double-then-single cascade |
| Classifier.NestedWhenAgreesWithCascade | mofa/utils/xyz.py:91-98 | conversely, tables on which the nested tests equal the flat cascade for every pair and distance are nested |
| Classifier.DivergesWithoutDoubleEntry | mofa/utils/xyz.py:91-98 | a BONDS_3 entry without a BONDS_2 entry leaves a bond SINGLE that the flat cascade would call TRIPLE |
| Classifier.DivergesWhenTripleThresholdIsLonger | mofa/utils/xyz.py:91-98 | with a triple threshold (130 pm) above the double threshold (120 pm), a 125 pm bond is SINGLE in the code and TRIPLE in the flat cascade |
| Molecule.Reassign | mofa/utils/xyz.py:79-99 | one loop iteration keeps the bond's endpoints, symbols and length and sets its type to the classification of its own symbols and its length converted from angstrom to pm by `ToPicometres` (times 100, line 83) |
| Molecule.ReassignAll | mofa/utils/xyz.py:75-99 | the loop keeps the bond count and order, keeps every bond's endpoints, symbols and length, and sets bond i's type from bond i's own symbols and length |
| Molecule.AssignBondOrders | mofa/utils/xyz.py:75-99 | the single pass over the bonds, setting each type in turn, produces exactly the sequence map `ReassignAll` |
| Molecule.TypeIsLocal | mofa/utils/xyz.py:75-99 | a bond's new type depends only on its own symbols and length: bonds with equal symbols and length get equal types whatever the other bonds are |
| Molecule.ReassignAllAppend | mofa/utils/xyz.py:75 | re-typing a concatenation of bond lists equals re-typing each list and concatenating |
| Molecule.ReassignAllIdempotent | mofa/utils/xyz.py:75-99 | re-typing an already re-typed bond list changes nothing |
| Molecule.ReassignAllIgnoresOldTypes | mofa/utils/xyz.py:89-99 | the incoming bond types are overwritten: two bond lists that differ only in their types give the same result |

## Left out

- RDKit calls (`MolFromXYZBlock`, `DetermineConnectivity`, `DetermineBondOrders`, `MolToSmiles`, `MolFromSmiles`, `AddHs`, `EmbedMolecule`, `MMFFOptimizeMolecule`, `MolToXYZBlock`, `UpdatePropertyCache`): foreign library code whose behaviour is not visible; the model starts from an already-connected bond list.
- `xyz_to_mol`, `xyz_to_smiles`, `smiles_to_xyz`: pure delegation to RDKit with no logic of their own.
- The `_generate_lock` guard: concurrency plumbing around RDKit's embedding.
- The numpy Euclidean norm: each bond carries its length in angstrom as a given `real`; only the conversion to pm (times 100) is modelled. Floating-point rounding and NaN lengths (which would fail every `<` test and stay SINGLE) are not modelled.
- The numeric contents of `BONDS_2`, `BONDS_3` and `MARGINS_EDM`: the constants module is not part of this model, so they are parameters. The margin vector is assumed to have at least three entries, as the code indexes entries 1 and 2.
- Hydrogen placement after the loop: unfinished in the source.
