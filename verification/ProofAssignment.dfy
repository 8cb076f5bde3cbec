/**
 What the preflight is for: an assignment that zips the proof with its targets
 vector by vector, and so stops at the shorter of each two, sets every target
 to the value in its place once the shapes are equal.
 */
module ProofAssignment {
  import opened ProofShape

  // ---------------------------------------------------------------------------
  // All leaves, in order
  // ---------------------------------------------------------------------------

  // A list of parts, each flattened.
  function FlatList<X, T>(xs: seq<X>, flat: X -> seq<T>): seq<T> {
    if xs == [] then [] else FlatList(xs[..|xs| - 1], flat) + flat(xs[|xs| - 1])
  }

  function FlatCap<T>(cap: Hashes<T>): seq<T> {
    cap
  }

  function FlatOpened<T>(o: Opened<T>): seq<T> {
    o.evals + o.siblings
  }

  function FlatRound<T>(r: QueryRound<T>): seq<T> {
    FlatList(r.evalsProofs, FlatOpened) + FlatList(r.steps, FlatOpened)
  }

  function FlatOpenings<T>(o: Openings<T>): seq<T> {
    o.constants + o.plonkSigmas + o.wires + o.plonkZs + o.plonkZsNext + o.partialProducts
    + o.quotientPolys + o.lookupZs + o.lookupZsNext
  }

  function FlatFri<T>(f: FriProof<T>): seq<T> {
    FlatList(f.commitPhaseMerkleCaps, FlatCap) + FlatList(f.queryRoundProofs, FlatRound) + f.finalPoly
  }

  function Flat<T>(p: Proof<T>): seq<T> {
    p.publicInputs + p.wiresCap + p.plonkZsPartialProductsCap + p.quotientPolysCap
    + FlatOpenings(p.openings) + FlatFri(p.openingProof)
  }

  // ---------------------------------------------------------------------------
  // The zipped assignment
  // ---------------------------------------------------------------------------

  function Shorter<A, B>(a: seq<A>, b: seq<B>): nat {
    if |a| <= |b| then |a| else |b|
  }

  // The pairs a zip visits.
  function Zip<A, B>(a: seq<A>, b: seq<B>): seq<(A, B)> {
    seq(Shorter(a, b), i requires 0 <= i < Shorter(a, b) => (a[i], b[i]))
  }

  // The first n turns of a loop over two zipped lists of parts.
  function AssignFirst<X, Y, T, P>(t: seq<X>, p: seq<Y>, assign: (X, Y) -> seq<(T, P)>, n: nat): seq<(T, P)>
    requires n <= Shorter(t, p)
  {
    if n == 0 then [] else AssignFirst(t, p, assign, n - 1) + assign(t[n - 1], p[n - 1])
  }

  function AssignList<X, Y, T, P>(t: seq<X>, p: seq<Y>, assign: (X, Y) -> seq<(T, P)>): seq<(T, P)> {
    AssignFirst(t, p, assign, Shorter(t, p))
  }

  function AssignOpened<T, P>(t: Opened<T>, p: Opened<P>): seq<(T, P)> {
    Zip(t.evals, p.evals) + Zip(t.siblings, p.siblings)
  }

  function AssignRound<T, P>(t: QueryRound<T>, p: QueryRound<P>): seq<(T, P)> {
    AssignList(t.evalsProofs, p.evalsProofs, AssignOpened) + AssignList(t.steps, p.steps, AssignOpened)
  }

  function AssignOpenings<T, P>(t: Openings<T>, p: Openings<P>): seq<(T, P)> {
    Zip(t.constants, p.constants) + Zip(t.plonkSigmas, p.plonkSigmas) + Zip(t.wires, p.wires)
    + Zip(t.plonkZs, p.plonkZs) + Zip(t.plonkZsNext, p.plonkZsNext)
    + Zip(t.partialProducts, p.partialProducts) + Zip(t.quotientPolys, p.quotientPolys)
    + Zip(t.lookupZs, p.lookupZs) + Zip(t.lookupZsNext, p.lookupZsNext)
  }

  function AssignFri<T, P>(t: FriProof<T>, p: FriProof<P>): seq<(T, P)> {
    AssignList(t.commitPhaseMerkleCaps, p.commitPhaseMerkleCaps, Zip)
    + AssignList(t.queryRoundProofs, p.queryRoundProofs, AssignRound)
    + Zip(t.finalPoly, p.finalPoly)
  }

  function Assign<T, P>(t: Proof<T>, p: Proof<P>): seq<(T, P)> {
    Zip(t.publicInputs, p.publicInputs) + Zip(t.wiresCap, p.wiresCap)
    + Zip(t.plonkZsPartialProductsCap, p.plonkZsPartialProductsCap)
    + Zip(t.quotientPolysCap, p.quotientPolysCap)
    + AssignOpenings(t.openings, p.openings) + AssignFri(t.openingProof, p.openingProof)
  }

  // ---------------------------------------------------------------------------
  // Equal shapes leave nothing out
  // ---------------------------------------------------------------------------

  // The pairs are all of t with all of p, each in its place.
  ghost predicate Covers<T, P>(pairs: seq<(T, P)>, t: seq<T>, p: seq<P>) {
    |t| == |p| && pairs == Zip(t, p)
  }

  lemma CoversBoth<T, P>(x: seq<(T, P)>, t: seq<T>, p: seq<P>, y: seq<(T, P)>, u: seq<T>, q: seq<P>)
    requires Covers(x, t, p) && Covers(y, u, q)
    ensures Covers(x + y, t + u, p + q)
  {
  }

  // Parts that are covered two by two are covered as lists.
  lemma {:induction false} FirstCovered<X, Y, T, P>(t: seq<X>, p: seq<Y>, flatT: X -> seq<T>, flatP: Y -> seq<P>,
                                                    assign: (X, Y) -> seq<(T, P)>, n: nat)
    requires n <= Shorter(t, p)
    requires forall i :: 0 <= i < n ==> Covers(assign(t[i], p[i]), flatT(t[i]), flatP(p[i]))
    ensures Covers(AssignFirst(t, p, assign, n), FlatList(t[..n], flatT), FlatList(p[..n], flatP))
  {
    if n > 0 {
      FirstCovered(t, p, flatT, flatP, assign, n - 1);
      assert t[..n][..n - 1] == t[..n - 1] && p[..n][..n - 1] == p[..n - 1];
      CoversBoth(AssignFirst(t, p, assign, n - 1), FlatList(t[..n - 1], flatT), FlatList(p[..n - 1], flatP),
                 assign(t[n - 1], p[n - 1]), flatT(t[n - 1]), flatP(p[n - 1]));
    }
  }

  lemma ListCovered<X, Y, T, P>(t: seq<X>, p: seq<Y>, flatT: X -> seq<T>, flatP: Y -> seq<P>,
                                assign: (X, Y) -> seq<(T, P)>)
    requires |t| == |p|
    requires forall i :: 0 <= i < |t| ==> Covers(assign(t[i], p[i]), flatT(t[i]), flatP(p[i]))
    ensures Covers(AssignList(t, p, assign), FlatList(t, flatT), FlatList(p, flatP))
  {
    FirstCovered(t, p, flatT, flatP, assign, |t|);
    assert t[..|t|] == t && p[..|p|] == p;
  }

  lemma OpenedShape<P, T>(p: Opened<P>, t: Opened<T>)
    requires ShapeOfOpened(p) == ShapeOfOpened(t)
    ensures |p.evals| == |t.evals| && |p.siblings| == |t.siblings|
  {
    assert ShapeOfOpened(p).children[0] == ShapeOfOpened(t).children[0];
    assert ShapeOfOpened(p).children[1] == ShapeOfOpened(t).children[1];
  }

  lemma OpenedCovered<T, P>(t: Opened<T>, p: Opened<P>)
    requires ShapeOfOpened(p) == ShapeOfOpened(t)
    ensures Covers(AssignOpened(t, p), FlatOpened(t), FlatOpened(p))
  {
    OpenedShape(p, t);
    CoversBoth(Zip(t.evals, p.evals), t.evals, p.evals, Zip(t.siblings, p.siblings), t.siblings, p.siblings);
  }

  lemma OpenedListCovered<T, P>(t: seq<Opened<T>>, p: seq<Opened<P>>)
    requires |t| == |p| && forall i :: 0 <= i < |t| ==> ShapeOfOpened(p[i]) == ShapeOfOpened(t[i])
    ensures Covers(AssignList(t, p, AssignOpened), FlatList(t, FlatOpened), FlatList(p, FlatOpened))
  {
    forall i | 0 <= i < |t| ensures Covers(AssignOpened(t[i], p[i]), FlatOpened(t[i]), FlatOpened(p[i])) {
      OpenedCovered(t[i], p[i]);
    }
    ListCovered(t, p, FlatOpened, FlatOpened, AssignOpened);
  }

  lemma RoundCovered<T, P>(t: QueryRound<T>, p: QueryRound<P>)
    requires ShapeOfRound(p) == ShapeOfRound(t)
    ensures Covers(AssignRound(t, p), FlatRound(t), FlatRound(p))
  {
    RoundShape(p, t);
    OpenedListCovered(t.evalsProofs, p.evalsProofs);
    OpenedListCovered(t.steps, p.steps);
    CoversBoth(AssignList(t.evalsProofs, p.evalsProofs, AssignOpened),
               FlatList(t.evalsProofs, FlatOpened), FlatList(p.evalsProofs, FlatOpened),
               AssignList(t.steps, p.steps, AssignOpened),
               FlatList(t.steps, FlatOpened), FlatList(p.steps, FlatOpened));
  }

  lemma FriCovered<T, P>(t: FriProof<T>, p: FriProof<P>)
    requires ShapeOfFri(p) == ShapeOfFri(t)
    ensures Covers(AssignFri(t, p), FlatFri(t), FlatFri(p))
  {
    FriShape(p, t);
    var c, d := t.commitPhaseMerkleCaps, p.commitPhaseMerkleCaps;
    var r, s := t.queryRoundProofs, p.queryRoundProofs;
    ListCovered(c, d, FlatCap, FlatCap, Zip);
    forall i | 0 <= i < |r| ensures Covers(AssignRound(r[i], s[i]), FlatRound(r[i]), FlatRound(s[i])) {
      RoundCovered(r[i], s[i]);
    }
    ListCovered(r, s, FlatRound, FlatRound, AssignRound);
    var x, a, b := AssignList(c, d, Zip), FlatList(c, FlatCap), FlatList(d, FlatCap);
    CoversBoth(x, a, b, AssignList(r, s, AssignRound), FlatList(r, FlatRound), FlatList(s, FlatRound));
    x, a, b := x + AssignList(r, s, AssignRound), a + FlatList(r, FlatRound), b + FlatList(s, FlatRound);
    CoversBoth(x, a, b, Zip(t.finalPoly, p.finalPoly), t.finalPoly, p.finalPoly);
  }

  lemma OpeningsCovered<T, P>(t: Openings<T>, p: Openings<P>)
    requires ShapeOfOpenings(p) == ShapeOfOpenings(t)
    ensures Covers(AssignOpenings(t, p), FlatOpenings(t), FlatOpenings(p))
  {
    OpeningsShape(p, t);
    assert forall i :: 0 <= i < 9 ==> Lengths(p)[i] == Lengths(t)[i];
    var x, a, b := Zip(t.constants, p.constants), t.constants, p.constants;
    CoversBoth(x, a, b, Zip(t.plonkSigmas, p.plonkSigmas), t.plonkSigmas, p.plonkSigmas);
    x, a, b := x + Zip(t.plonkSigmas, p.plonkSigmas), a + t.plonkSigmas, b + p.plonkSigmas;
    CoversBoth(x, a, b, Zip(t.wires, p.wires), t.wires, p.wires);
    x, a, b := x + Zip(t.wires, p.wires), a + t.wires, b + p.wires;
    CoversBoth(x, a, b, Zip(t.plonkZs, p.plonkZs), t.plonkZs, p.plonkZs);
    x, a, b := x + Zip(t.plonkZs, p.plonkZs), a + t.plonkZs, b + p.plonkZs;
    CoversBoth(x, a, b, Zip(t.plonkZsNext, p.plonkZsNext), t.plonkZsNext, p.plonkZsNext);
    x, a, b := x + Zip(t.plonkZsNext, p.plonkZsNext), a + t.plonkZsNext, b + p.plonkZsNext;
    CoversBoth(x, a, b, Zip(t.partialProducts, p.partialProducts), t.partialProducts, p.partialProducts);
    x, a, b := x + Zip(t.partialProducts, p.partialProducts), a + t.partialProducts, b + p.partialProducts;
    CoversBoth(x, a, b, Zip(t.quotientPolys, p.quotientPolys), t.quotientPolys, p.quotientPolys);
    x, a, b := x + Zip(t.quotientPolys, p.quotientPolys), a + t.quotientPolys, b + p.quotientPolys;
    CoversBoth(x, a, b, Zip(t.lookupZs, p.lookupZs), t.lookupZs, p.lookupZs);
    x, a, b := x + Zip(t.lookupZs, p.lookupZs), a + t.lookupZs, b + p.lookupZs;
    CoversBoth(x, a, b, Zip(t.lookupZsNext, p.lookupZsNext), t.lookupZsNext, p.lookupZsNext);
  }

  // Every target is set, once, to the proof's value in the same place.
  lemma EqualShapesAreCovered<T, P>(t: Proof<T>, p: Proof<P>)
    requires ShapeOf(p) == ShapeOf(t)
    ensures Covers(Assign(t, p), Flat(t), Flat(p))
  {
    ProofShapeIff(p, t);
    OpeningsCovered(t.openings, p.openings);
    FriCovered(t.openingProof, p.openingProof);
    var x, a, b := Zip(t.publicInputs, p.publicInputs), t.publicInputs, p.publicInputs;
    CoversBoth(x, a, b, Zip(t.wiresCap, p.wiresCap), t.wiresCap, p.wiresCap);
    x, a, b := x + Zip(t.wiresCap, p.wiresCap), a + t.wiresCap, b + p.wiresCap;
    var zs, zsP := t.plonkZsPartialProductsCap, p.plonkZsPartialProductsCap;
    CoversBoth(x, a, b, Zip(zs, zsP), zs, zsP);
    x, a, b := x + Zip(zs, zsP), a + zs, b + zsP;
    CoversBoth(x, a, b, Zip(t.quotientPolysCap, p.quotientPolysCap), t.quotientPolysCap, p.quotientPolysCap);
    x, a, b := x + Zip(t.quotientPolysCap, p.quotientPolysCap), a + t.quotientPolysCap, b + p.quotientPolysCap;
    CoversBoth(x, a, b, AssignOpenings(t.openings, p.openings), FlatOpenings(t.openings), FlatOpenings(p.openings));
    x, a, b := x + AssignOpenings(t.openings, p.openings), a + FlatOpenings(t.openings), b + FlatOpenings(p.openings);
    CoversBoth(x, a, b, AssignFri(t.openingProof, p.openingProof), FlatFri(t.openingProof), FlatFri(p.openingProof));
  }
}
