/**
 The preflight is no stricter than it has to be: a zipped assignment leaves
 nothing out exactly when zipped vectors have equal lengths and the surplus of a
 longer list of parts holds no leaf, and where no part is hollow that is
 equality of shapes.
 */
module ProofCoverage {
  import opened ProofShape
  import opened ProofAssignment

  // ---------------------------------------------------------------------------
  // Counting
  // ---------------------------------------------------------------------------

  // What is paired is all there is, on both sides.
  predicate Full(pairs: nat, targets: nat, values: nat) {
    pairs == targets && pairs == values
  }

  predicate Within(pairs: nat, targets: nat, values: nat) {
    pairs <= targets && pairs <= values
  }

  lemma FullBoth(m: nat, a: nat, b: nat, m': nat, a': nat, b': nat)
    requires Within(m, a, b) && Within(m', a', b')
    ensures Within(m + m', a + a', b + b')
    ensures Full(m + m', a + a', b + b') <==> Full(m, a, b) && Full(m', a', b')
  {
  }

  function Least(a: nat, b: nat): nat {
    if a <= b then a else b
  }

  lemma ThreeFull(a: nat, b: nat, c: nat, d: nat, e: nat, f: nat)
    ensures
      var m := Least(a, d) + Least(b, e) + Least(c, f);
      && Within(m, a + b + c, d + e + f)
      && (Full(m, a + b + c, d + e + f) <==> a == d && b == e && c == f)
  {
  }

  // ---------------------------------------------------------------------------
  // Lists of parts
  // ---------------------------------------------------------------------------

  lemma {:induction false} FlatSplits<X, T>(xs: seq<X>, flat: X -> seq<T>, n: nat)
    requires n <= |xs|
    ensures FlatList(xs, flat) == FlatList(xs[..n], flat) + FlatList(xs[n..], flat)
  {
    if n == |xs| {
      assert xs[..n] == xs;
    } else {
      var k := |xs| - 1;
      FlatSplits(xs[..k], flat, n);
      assert xs[..k][..n] == xs[..n] && xs[..k][n..] == xs[n..][..k - n];
    }
  }

  lemma {:induction false} FirstFullIff<X, Y, T, P>(t: seq<X>, p: seq<Y>, flatT: X -> seq<T>, flatP: Y -> seq<P>,
                                                    assign: (X, Y) -> seq<(T, P)>, n: nat)
    requires n <= Shorter(t, p)
    requires forall i :: 0 <= i < n ==> Within(|assign(t[i], p[i])|, |flatT(t[i])|, |flatP(p[i])|)
    ensures
      var m, a, b := |AssignFirst(t, p, assign, n)|, |FlatList(t[..n], flatT)|, |FlatList(p[..n], flatP)|;
      && Within(m, a, b)
      && (Full(m, a, b) <==> forall i :: 0 <= i < n ==> Full(|assign(t[i], p[i])|, |flatT(t[i])|, |flatP(p[i])|))
  {
    if n > 0 {
      var k := n - 1;
      FirstFullIff(t, p, flatT, flatP, assign, k);
      assert t[..n][..k] == t[..k] && p[..n][..k] == p[..k];
      FullBoth(|AssignFirst(t, p, assign, k)|, |FlatList(t[..k], flatT)|, |FlatList(p[..k], flatP)|,
               |assign(t[k], p[k])|, |flatT(t[k])|, |flatP(p[k])|);
    }
  }

  // A zip of two lists of parts pairs everything exactly when it does so in
  // each two parts and what is left of the longer list holds no leaf.
  lemma ListFullIff<X, Y, T, P>(t: seq<X>, p: seq<Y>, flatT: X -> seq<T>, flatP: Y -> seq<P>,
                                assign: (X, Y) -> seq<(T, P)>)
    requires forall i :: 0 <= i < Shorter(t, p) ==> Within(|assign(t[i], p[i])|, |flatT(t[i])|, |flatP(p[i])|)
    ensures
      var m, a, b := |AssignList(t, p, assign)|, |FlatList(t, flatT)|, |FlatList(p, flatP)|;
      && Within(m, a, b)
      && (Full(m, a, b) <==>
            && (forall i :: 0 <= i < Shorter(t, p) ==> Full(|assign(t[i], p[i])|, |flatT(t[i])|, |flatP(p[i])|))
            && FlatList(t[Shorter(t, p)..], flatT) == [] && FlatList(p[Shorter(t, p)..], flatP) == [])
  {
    var n := Shorter(t, p);
    FirstFullIff(t, p, flatT, flatP, assign, n);
    FlatSplits(t, flatT, n);
    FlatSplits(p, flatP, n);
    FullBoth(|AssignFirst(t, p, assign, n)|, |FlatList(t[..n], flatT)|, |FlatList(p[..n], flatP)|,
             0, |FlatList(t[n..], flatT)|, |FlatList(p[n..], flatP)|);
  }

  // ---------------------------------------------------------------------------
  // When a zip leaves nothing out
  // ---------------------------------------------------------------------------

  // Neither list has leaves beyond the end of the other.
  predicate NoSurplus<X, Y, T, P>(t: seq<X>, p: seq<Y>, flatT: X -> seq<T>, flatP: Y -> seq<P>) {
    FlatList(t[Shorter(t, p)..], flatT) == [] && FlatList(p[Shorter(t, p)..], flatP) == []
  }

  predicate MeetCaps<T, P>(t: seq<Hashes<T>>, p: seq<Hashes<P>>) {
    (forall i :: 0 <= i < Shorter(t, p) ==> |t[i]| == |p[i]|) && NoSurplus(t, p, FlatCap, FlatCap)
  }

  predicate MeetOpened<T, P>(t: Opened<T>, p: Opened<P>) {
    |t.evals| == |p.evals| && |t.siblings| == |p.siblings|
  }

  predicate MeetOpenedList<T, P>(t: seq<Opened<T>>, p: seq<Opened<P>>) {
    (forall i :: 0 <= i < Shorter(t, p) ==> MeetOpened(t[i], p[i])) && NoSurplus(t, p, FlatOpened, FlatOpened)
  }

  predicate MeetRound<T, P>(t: QueryRound<T>, p: QueryRound<P>) {
    MeetOpenedList(t.evalsProofs, p.evalsProofs) && MeetOpenedList(t.steps, p.steps)
  }

  predicate MeetRounds<T, P>(t: seq<QueryRound<T>>, p: seq<QueryRound<P>>) {
    (forall i :: 0 <= i < Shorter(t, p) ==> MeetRound(t[i], p[i])) && NoSurplus(t, p, FlatRound, FlatRound)
  }

  predicate MeetFri<T, P>(t: FriProof<T>, p: FriProof<P>) {
    && MeetCaps(t.commitPhaseMerkleCaps, p.commitPhaseMerkleCaps)
    && MeetRounds(t.queryRoundProofs, p.queryRoundProofs) && |t.finalPoly| == |p.finalPoly|
  }

  predicate Meet<T, P>(t: Proof<T>, p: Proof<P>) {
    && |t.publicInputs| == |p.publicInputs| && |t.wiresCap| == |p.wiresCap|
    && |t.plonkZsPartialProductsCap| == |p.plonkZsPartialProductsCap|
    && |t.quotientPolysCap| == |p.quotientPolysCap|
    && Lengths(t.openings) == Lengths(p.openings) && MeetFri(t.openingProof, p.openingProof)
  }

  lemma CapsFullIff<T, P>(t: seq<Hashes<T>>, p: seq<Hashes<P>>)
    ensures
      var m, a, b := |AssignList(t, p, Zip)|, |FlatList(t, FlatCap)|, |FlatList(p, FlatCap)|;
      Within(m, a, b) && (Full(m, a, b) <==> MeetCaps(t, p))
  {
    ListFullIff(t, p, FlatCap, FlatCap, Zip);
  }

  lemma OpenedFullIff<T, P>(t: Opened<T>, p: Opened<P>)
    ensures Within(|AssignOpened(t, p)|, |FlatOpened(t)|, |FlatOpened(p)|)
    ensures Full(|AssignOpened(t, p)|, |FlatOpened(t)|, |FlatOpened(p)|) <==> MeetOpened(t, p)
  {
  }

  lemma OpenedListFullIff<T, P>(t: seq<Opened<T>>, p: seq<Opened<P>>)
    ensures
      var m, a, b := |AssignList(t, p, AssignOpened)|, |FlatList(t, FlatOpened)|, |FlatList(p, FlatOpened)|;
      Within(m, a, b) && (Full(m, a, b) <==> MeetOpenedList(t, p))
  {
    forall i | 0 <= i < Shorter(t, p)
      ensures Within(|AssignOpened(t[i], p[i])|, |FlatOpened(t[i])|, |FlatOpened(p[i])|)
      ensures Full(|AssignOpened(t[i], p[i])|, |FlatOpened(t[i])|, |FlatOpened(p[i])|) <==> MeetOpened(t[i], p[i])
    {
      OpenedFullIff(t[i], p[i]);
    }
    ListFullIff(t, p, FlatOpened, FlatOpened, AssignOpened);
  }

  lemma RoundFullIff<T, P>(t: QueryRound<T>, p: QueryRound<P>)
    ensures Within(|AssignRound(t, p)|, |FlatRound(t)|, |FlatRound(p)|)
    ensures Full(|AssignRound(t, p)|, |FlatRound(t)|, |FlatRound(p)|) <==> MeetRound(t, p)
  {
    OpenedListFullIff(t.evalsProofs, p.evalsProofs);
    OpenedListFullIff(t.steps, p.steps);
  }

  lemma RoundsFullIff<T, P>(t: seq<QueryRound<T>>, p: seq<QueryRound<P>>)
    ensures
      var m, a, b := |AssignList(t, p, AssignRound)|, |FlatList(t, FlatRound)|, |FlatList(p, FlatRound)|;
      Within(m, a, b) && (Full(m, a, b) <==> MeetRounds(t, p))
  {
    forall i | 0 <= i < Shorter(t, p)
      ensures Within(|AssignRound(t[i], p[i])|, |FlatRound(t[i])|, |FlatRound(p[i])|)
      ensures Full(|AssignRound(t[i], p[i])|, |FlatRound(t[i])|, |FlatRound(p[i])|) <==> MeetRound(t[i], p[i])
    {
      RoundFullIff(t[i], p[i]);
    }
    ListFullIff(t, p, FlatRound, FlatRound, AssignRound);
  }

  lemma FriFullIff<T, P>(t: FriProof<T>, p: FriProof<P>)
    ensures Within(|AssignFri(t, p)|, |FlatFri(t)|, |FlatFri(p)|)
    ensures Full(|AssignFri(t, p)|, |FlatFri(t)|, |FlatFri(p)|) <==> MeetFri(t, p)
  {
    CapsFullIff(t.commitPhaseMerkleCaps, p.commitPhaseMerkleCaps);
    RoundsFullIff(t.queryRoundProofs, p.queryRoundProofs);
  }

  lemma OpeningsCounted<T>(o: Openings<T>)
    ensures
      var n := Lengths(o);
      |FlatOpenings(o)| == (n[0] + n[1] + n[2]) + (n[3] + n[4] + n[5]) + (n[6] + n[7] + n[8])
  {
  }

  lemma OpeningsPaired<T, P>(t: Openings<T>, p: Openings<P>)
    ensures
      var a, b := Lengths(t), Lengths(p);
      |AssignOpenings(t, p)|
      == (Least(a[0], b[0]) + Least(a[1], b[1]) + Least(a[2], b[2]))
         + (Least(a[3], b[3]) + Least(a[4], b[4]) + Least(a[5], b[5]))
         + (Least(a[6], b[6]) + Least(a[7], b[7]) + Least(a[8], b[8]))
  {
    var x := Zip(t.constants, p.constants) + Zip(t.plonkSigmas, p.plonkSigmas) + Zip(t.wires, p.wires);
    var y := x + Zip(t.plonkZs, p.plonkZs) + Zip(t.plonkZsNext, p.plonkZsNext)
             + Zip(t.partialProducts, p.partialProducts);
    var z := y + Zip(t.quotientPolys, p.quotientPolys) + Zip(t.lookupZs, p.lookupZs)
             + Zip(t.lookupZsNext, p.lookupZsNext);
    var a, b := Lengths(t), Lengths(p);
    assert |x| == Least(a[0], b[0]) + Least(a[1], b[1]) + Least(a[2], b[2]);
    assert |y| == |x| + Least(a[3], b[3]) + Least(a[4], b[4]) + Least(a[5], b[5]);
    assert |z| == |y| + Least(a[6], b[6]) + Least(a[7], b[7]) + Least(a[8], b[8]);
    assert AssignOpenings(t, p) == z;
  }

  lemma OpeningsFullIff<T, P>(t: Openings<T>, p: Openings<P>)
    ensures Within(|AssignOpenings(t, p)|, |FlatOpenings(t)|, |FlatOpenings(p)|)
    ensures Full(|AssignOpenings(t, p)|, |FlatOpenings(t)|, |FlatOpenings(p)|) <==> Lengths(t) == Lengths(p)
  {
    OpeningsPaired(t, p);
    OpeningsCounted(t);
    OpeningsCounted(p);
    var a, b := Lengths(t), Lengths(p);
    ThreeFull(a[0], a[1], a[2], b[0], b[1], b[2]);
    ThreeFull(a[3], a[4], a[5], b[3], b[4], b[5]);
    ThreeFull(a[6], a[7], a[8], b[6], b[7], b[8]);
    assert a == b <==> forall i :: 0 <= i < 9 ==> a[i] == b[i];
  }

  // Every target is set and every value is used.
  predicate LeavesNothingOut<T, P>(t: Proof<T>, p: Proof<P>) {
    Full(|Assign(t, p)|, |Flat(t)|, |Flat(p)|)
  }

  lemma NothingLeftOutIff<T, P>(t: Proof<T>, p: Proof<P>)
    ensures LeavesNothingOut(t, p) <==> Meet(t, p)
  {
    OpeningsFullIff(t.openings, p.openings);
    FriFullIff(t.openingProof, p.openingProof);
    Counted(t);
    Counted(p);
    Paired(t, p);
    ThreeFull(|t.publicInputs|, |t.wiresCap|, |t.plonkZsPartialProductsCap|,
              |p.publicInputs|, |p.wiresCap|, |p.plonkZsPartialProductsCap|);
    FullBoth(|AssignOpenings(t.openings, p.openings)|, |FlatOpenings(t.openings)|, |FlatOpenings(p.openings)|,
             |AssignFri(t.openingProof, p.openingProof)|, |FlatFri(t.openingProof)|, |FlatFri(p.openingProof)|);
  }

  lemma Counted<T>(p: Proof<T>)
    ensures |Flat(p)| == (|p.publicInputs| + |p.wiresCap| + |p.plonkZsPartialProductsCap|) + |p.quotientPolysCap|
      + (|FlatOpenings(p.openings)| + |FlatFri(p.openingProof)|)
  {
  }

  lemma Paired<T, P>(t: Proof<T>, p: Proof<P>)
    ensures |Assign(t, p)|
      == (Least(|t.publicInputs|, |p.publicInputs|) + Least(|t.wiresCap|, |p.wiresCap|)
          + Least(|t.plonkZsPartialProductsCap|, |p.plonkZsPartialProductsCap|))
         + Least(|t.quotientPolysCap|, |p.quotientPolysCap|)
         + (|AssignOpenings(t.openings, p.openings)| + |AssignFri(t.openingProof, p.openingProof)|)
  {
  }

  // ---------------------------------------------------------------------------
  // Against the shapes
  // ---------------------------------------------------------------------------

  // Each part of the list holds a leaf.
  predicate Solid<X, T>(xs: seq<X>, flat: X -> seq<T>) {
    forall i :: 0 <= i < |xs| ==> flat(xs[i]) != []
  }

  // No part is hollow, as no cap, opening or round of a circuit is.
  predicate SolidProof<T>(p: Proof<T>) {
    var f := p.openingProof;
    && Solid(f.commitPhaseMerkleCaps, FlatCap) && Solid(f.queryRoundProofs, FlatRound)
    && (forall i :: 0 <= i < |f.queryRoundProofs| ==> SolidRound(f.queryRoundProofs[i]))
  }

  predicate SolidRound<T>(r: QueryRound<T>) {
    Solid(r.evalsProofs, FlatOpened) && Solid(r.steps, FlatOpened)
  }

  lemma SolidHasNoSurplus<X, Y, T, P>(t: seq<X>, p: seq<Y>, flatT: X -> seq<T>, flatP: Y -> seq<P>)
    requires Solid(t, flatT) && Solid(p, flatP)
    ensures NoSurplus(t, p, flatT, flatP) <==> |t| == |p|
  {
    var n := Shorter(t, p);
    if n < |t| {
      assert t[n..] != [] && t[n..][|t[n..]| - 1] == t[|t| - 1];
    }
    if n < |p| {
      assert p[n..] != [] && p[n..][|p[n..]| - 1] == p[|p| - 1];
    }
  }

  lemma OpenedMeetIff<T, P>(t: Opened<T>, p: Opened<P>)
    ensures MeetOpened(t, p) <==> ShapeOfOpened(p) == ShapeOfOpened(t)
  {
    if ShapeOfOpened(p) == ShapeOfOpened(t) {
      OpenedShape(p, t);
    }
  }

  lemma OpenedListMeetIff<T, P>(t: seq<Opened<T>>, p: seq<Opened<P>>)
    requires Solid(t, FlatOpened) && Solid(p, FlatOpened)
    ensures MeetOpenedList(t, p) <==>
      |t| == |p| && forall i :: 0 <= i < |t| ==> ShapeOfOpened(p[i]) == ShapeOfOpened(t[i])
  {
    SolidHasNoSurplus(t, p, FlatOpened, FlatOpened);
    forall i | 0 <= i < Shorter(t, p) ensures MeetOpened(t[i], p[i]) <==> ShapeOfOpened(p[i]) == ShapeOfOpened(t[i]) {
      OpenedMeetIff(t[i], p[i]);
    }
  }

  lemma RoundMeetIff<T, P>(t: QueryRound<T>, p: QueryRound<P>)
    requires SolidRound(t) && SolidRound(p)
    ensures MeetRound(t, p) <==> ShapeOfRound(p) == ShapeOfRound(t)
  {
    OpenedListMeetIff(t.evalsProofs, p.evalsProofs);
    OpenedListMeetIff(t.steps, p.steps);
    RoundShape(p, t);
  }

  lemma FriMeetIff<T, P>(t: Proof<T>, p: Proof<P>)
    requires SolidProof(t) && SolidProof(p)
    ensures MeetFri(t.openingProof, p.openingProof) <==> ShapeOfFri(p.openingProof) == ShapeOfFri(t.openingProof)
  {
    var a, b := t.openingProof.queryRoundProofs, p.openingProof.queryRoundProofs;
    SolidHasNoSurplus(t.openingProof.commitPhaseMerkleCaps, p.openingProof.commitPhaseMerkleCaps, FlatCap, FlatCap);
    SolidHasNoSurplus(a, b, FlatRound, FlatRound);
    forall i | 0 <= i < Shorter(a, b) ensures MeetRound(a[i], b[i]) <==> ShapeOfRound(b[i]) == ShapeOfRound(a[i]) {
      RoundMeetIff(a[i], b[i]);
    }
    FriShape(p.openingProof, t.openingProof);
  }

  // Where no part is hollow, a shape mismatch leaves out some target or some
  // value, so the preflight refuses nothing that could have been assigned.
  lemma PreflightIsExact<T, P>(t: Proof<T>, p: Proof<P>)
    requires SolidProof(t) && SolidProof(p)
    ensures LeavesNothingOut(t, p) <==> ShapeOf(p) == ShapeOf(t)
    ensures Covers(Assign(t, p), Flat(t), Flat(p)) <==> ShapeOf(p) == ShapeOf(t)
  {
    NothingLeftOutIff(t, p);
    FriMeetIff(t, p);
    OpeningsShape(p.openings, t.openings);
    ProofShapeIff(p, t);
    if ShapeOf(p) == ShapeOf(t) {
      EqualShapesAreCovered(t, p);
    }
  }

  // A hollow part shows why that is needed: one empty cap too many is a
  // different shape and leaves nothing out.
  lemma HollowPartSlips<T, P>(t: Proof<T>, p: Proof<P>)
    requires ShapeOf(p) == ShapeOf(t)
    ensures
      var f := p.openingProof;
      var more := p.(openingProof := f.(commitPhaseMerkleCaps := f.commitPhaseMerkleCaps + [[]]));
      ShapeOf(more) != ShapeOf(t) && LeavesNothingOut(t, more)
  {
    var f := p.openingProof;
    var g := f.(commitPhaseMerkleCaps := f.commitPhaseMerkleCaps + [[]]);
    var more := p.(openingProof := g);
    FriShape(f, t.openingProof);
    FriShape(g, t.openingProof);
    ProofShapeIff(p, t);
    ProofShapeIff(more, t);
    EqualShapesAreCovered(t, p);
    NothingLeftOutIff(t, p);
    NothingLeftOutIff(t, more);
    HollowCap(t.openingProof.commitPhaseMerkleCaps, f.commitPhaseMerkleCaps);
  }

  lemma HollowCap<T, P>(t: seq<Hashes<T>>, p: seq<Hashes<P>>)
    requires |t| == |p| && MeetCaps(t, p)
    ensures MeetCaps(t, p + [[]])
  {
    assert forall i :: 0 <= i < |p| ==> (p + [[]])[i] == p[i];
    var surplus: seq<Hashes<P>> := [[]];
    assert (p + [[]])[|t|..] == surplus;
    assert surplus[..0] == [] && FlatList(surplus, FlatCap) == [];
  }
}
