/**
 The proof-shape preflight: nested loops over zipped vectors that must decide
 whether a proof and the targets it is about to be written into have the same
 length at every vector, however deep. The two sides differ only in what a leaf
 is, so both are the same structure over a leaf type.
 */
module ProofShape {
  import opened Prelude

  // A Merkle cap, and the siblings of a Merkle path.
  type Hashes<T> = seq<T>

  datatype Openings<T> = Openings(
    constants: seq<T>,
    plonkSigmas: seq<T>,
    wires: seq<T>,
    plonkZs: seq<T>,
    plonkZsNext: seq<T>,
    partialProducts: seq<T>,
    quotientPolys: seq<T>,
    lookupZs: seq<T>,
    lookupZsNext: seq<T>)

  // Evaluations and the Merkle path that opens them: one initial tree, or one
  // reduction step.
  datatype Opened<T> = Opened(evals: seq<T>, siblings: Hashes<T>)

  datatype QueryRound<T> = QueryRound(evalsProofs: seq<Opened<T>>, steps: seq<Opened<T>>)

  datatype FriProof<T> = FriProof(
    commitPhaseMerkleCaps: seq<Hashes<T>>,
    queryRoundProofs: seq<QueryRound<T>>,
    finalPoly: seq<T>)

  datatype Proof<T> = Proof(
    publicInputs: seq<T>,
    wiresCap: Hashes<T>,
    plonkZsPartialProductsCap: Hashes<T>,
    quotientPolysCap: Hashes<T>,
    openings: Openings<T>,
    openingProof: FriProof<T>)

  // ---------------------------------------------------------------------------
  // What shape is
  // ---------------------------------------------------------------------------

  /** The structure with the leaves forgotten: how many children, and theirs. */
  datatype Shape = Leaves(count: nat) | Node(children: seq<Shape>)

  function ShapeOfOpened<T>(o: Opened<T>): Shape {
    Node([Leaves(|o.evals|), Leaves(|o.siblings|)])
  }

  function ShapesOfOpened<T>(os: seq<Opened<T>>): (shapes: seq<Shape>)
    ensures |shapes| == |os| && forall i :: 0 <= i < |os| ==> shapes[i] == ShapeOfOpened(os[i])
  {
    seq(|os|, i requires 0 <= i < |os| => ShapeOfOpened(os[i]))
  }

  function ShapeOfRound<T>(r: QueryRound<T>): Shape {
    Node([Node(ShapesOfOpened(r.evalsProofs)), Node(ShapesOfOpened(r.steps))])
  }

  function ShapesOfRounds<T>(rs: seq<QueryRound<T>>): (shapes: seq<Shape>)
    ensures |shapes| == |rs| && forall i :: 0 <= i < |rs| ==> shapes[i] == ShapeOfRound(rs[i])
  {
    seq(|rs|, i requires 0 <= i < |rs| => ShapeOfRound(rs[i]))
  }

  function ShapesOfCaps<T>(caps: seq<Hashes<T>>): (shapes: seq<Shape>)
    ensures |shapes| == |caps| && forall i :: 0 <= i < |caps| ==> shapes[i] == Leaves(|caps[i]|)
  {
    seq(|caps|, i requires 0 <= i < |caps| => Leaves(|caps[i]|))
  }

  function ShapeOfFri<T>(f: FriProof<T>): Shape {
    Node([Node(ShapesOfCaps(f.commitPhaseMerkleCaps)), Node(ShapesOfRounds(f.queryRoundProofs)),
          Leaves(|f.finalPoly|)])
  }

  function ShapeOfOpenings<T>(o: Openings<T>): Shape {
    Node([Leaves(|o.constants|), Leaves(|o.plonkSigmas|), Leaves(|o.wires|), Leaves(|o.plonkZs|),
          Leaves(|o.plonkZsNext|), Leaves(|o.partialProducts|), Leaves(|o.quotientPolys|),
          Leaves(|o.lookupZs|), Leaves(|o.lookupZsNext|)])
  }

  function ShapeOf<T>(p: Proof<T>): Shape {
    Node([Leaves(|p.publicInputs|), Leaves(|p.wiresCap|), Leaves(|p.plonkZsPartialProductsCap|),
          Leaves(|p.quotientPolysCap|), ShapeOfOpenings(p.openings), ShapeOfFri(p.openingProof)])
  }

  // ---------------------------------------------------------------------------
  // The check
  // ---------------------------------------------------------------------------

  // Which vector an error is about.
  datatype What =
    | PublicInputs | WiresCap | PlonkZsPartialProductsCap | QuotientPolysCap
    | OpeningsOf(index: nat)
    | MerkleCaps | MerkleCap(i: nat)
    | QueryRounds | EvalsProofs(i: nat) | Evals(i: nat, j: nat) | Siblings(i: nat, j: nat)
    | Steps(i: nat) | StepEvals(i: nat, j: nat) | StepSiblings(i: nat, j: nat)
    | FinalPoly

  datatype Malformed = Malformed(what: What, actual: nat, expected: nat)

  type Verdict = Result<(), Malformed>

  function EnsureLenMatches(actual: nat, expected: nat, what: What): Verdict {
    if actual != expected then Err(Malformed(what, actual, expected)) else Ok(())
  }

  // The length of the vector an error names, where there is one.
  function LenOfOpened<T>(os: seq<Opened<T>>, j: nat, siblings: bool): Option<nat> {
    if j >= |os| then None else if siblings then Some(|os[j].siblings|) else Some(|os[j].evals|)
  }

  function LenOfOpening<T>(o: Openings<T>, index: nat): Option<nat> {
    if index == 0 then Some(|o.constants|)
    else if index == 1 then Some(|o.plonkSigmas|)
    else if index == 2 then Some(|o.wires|)
    else if index == 3 then Some(|o.plonkZs|)
    else if index == 4 then Some(|o.plonkZsNext|)
    else if index == 5 then Some(|o.partialProducts|)
    else if index == 6 then Some(|o.quotientPolys|)
    else if index == 7 then Some(|o.lookupZs|)
    else if index == 8 then Some(|o.lookupZsNext|)
    else None
  }

  function LenInRound<T>(r: QueryRound<T>, what: What): Option<nat> {
    match what
    case EvalsProofs(_) => Some(|r.evalsProofs|)
    case Evals(_, j) => LenOfOpened(r.evalsProofs, j, false)
    case Siblings(_, j) => LenOfOpened(r.evalsProofs, j, true)
    case Steps(_) => Some(|r.steps|)
    case StepEvals(_, j) => LenOfOpened(r.steps, j, false)
    case StepSiblings(_, j) => LenOfOpened(r.steps, j, true)
    case _ => None
  }

  function LenAt<T>(p: Proof<T>, what: What): Option<nat> {
    var f := p.openingProof;
    match what
    case PublicInputs => Some(|p.publicInputs|)
    case WiresCap => Some(|p.wiresCap|)
    case PlonkZsPartialProductsCap => Some(|p.plonkZsPartialProductsCap|)
    case QuotientPolysCap => Some(|p.quotientPolysCap|)
    case OpeningsOf(index) => LenOfOpening(p.openings, index)
    case MerkleCaps => Some(|f.commitPhaseMerkleCaps|)
    case MerkleCap(i) => if i < |f.commitPhaseMerkleCaps| then Some(|f.commitPhaseMerkleCaps[i]|) else None
    case QueryRounds => Some(|f.queryRoundProofs|)
    case FinalPoly => Some(|f.finalPoly|)
    case EvalsProofs(i) => if i < |f.queryRoundProofs| then LenInRound(f.queryRoundProofs[i], what) else None
    case Evals(i, _) => if i < |f.queryRoundProofs| then LenInRound(f.queryRoundProofs[i], what) else None
    case Siblings(i, _) => if i < |f.queryRoundProofs| then LenInRound(f.queryRoundProofs[i], what) else None
    case Steps(i) => if i < |f.queryRoundProofs| then LenInRound(f.queryRoundProofs[i], what) else None
    case StepEvals(i, _) => if i < |f.queryRoundProofs| then LenInRound(f.queryRoundProofs[i], what) else None
    case StepSiblings(i, _) => if i < |f.queryRoundProofs| then LenInRound(f.queryRoundProofs[i], what) else None
  }

  // An error names a vector whose two lengths it reports, and they differ.
  predicate Truthful(actual: Option<nat>, expected: Option<nat>, error: Malformed) {
    actual == Some(error.actual) && expected == Some(error.expected) && error.actual != error.expected
  }

  method EnsureOpened<P, T>(proof: seq<Opened<P>>, target: seq<Opened<T>>, i: nat, step: bool)
    returns (v: Verdict)
    requires |proof| == |target|
    ensures v.Ok? <==> forall j :: 0 <= j < |proof| ==> ShapeOfOpened(proof[j]) == ShapeOfOpened(target[j])
    ensures v.Err? ==> exists j: nat, siblings: bool ::
      && v.error.what == (if step then if siblings then StepSiblings(i, j) else StepEvals(i, j)
                          else if siblings then Siblings(i, j) else Evals(i, j))
      && Truthful(LenOfOpened(proof, j, siblings), LenOfOpened(target, j, siblings), v.error)
  {
    for j := 0 to |proof|
      invariant forall k :: 0 <= k < j ==> ShapeOfOpened(proof[k]) == ShapeOfOpened(target[k])
    {
      v := EnsureLenMatches(|proof[j].evals|, |target[j].evals|, if step then StepEvals(i, j) else Evals(i, j));
      if v.Err? {
        assert ShapeOfOpened(proof[j]).children[0] != ShapeOfOpened(target[j]).children[0];
        assert Truthful(LenOfOpened(proof, j, false), LenOfOpened(target, j, false), v.error);
        return;
      }
      v := EnsureLenMatches(|proof[j].siblings|, |target[j].siblings|,
                            if step then StepSiblings(i, j) else Siblings(i, j));
      if v.Err? {
        assert ShapeOfOpened(proof[j]).children[1] != ShapeOfOpened(target[j]).children[1];
        assert Truthful(LenOfOpened(proof, j, true), LenOfOpened(target, j, true), v.error);
        return;
      }
    }
    v := Ok(());
  }

  // Two nodes are equal when their children are, one by one.
  lemma SameNode(a: seq<Shape>, b: seq<Shape>)
    ensures Node(a) == Node(b) <==> |a| == |b| && forall i :: 0 <= i < |a| ==> a[i] == b[i]
  {
    if |a| == |b| && forall i :: 0 <= i < |a| ==> a[i] == b[i] {
      assert a == b;
    }
  }

  lemma RoundShape<P, T>(p: QueryRound<P>, t: QueryRound<T>)
    ensures ShapeOfRound(p) == ShapeOfRound(t) <==>
      && |p.evalsProofs| == |t.evalsProofs| && |p.steps| == |t.steps|
      && (forall j :: 0 <= j < |p.evalsProofs| ==>
            ShapeOfOpened(p.evalsProofs[j]) == ShapeOfOpened(t.evalsProofs[j]))
      && (forall j :: 0 <= j < |p.steps| ==> ShapeOfOpened(p.steps[j]) == ShapeOfOpened(t.steps[j]))
  {
    SameNode(ShapeOfRound(p).children, ShapeOfRound(t).children);
    SameNode(ShapesOfOpened(p.evalsProofs), ShapesOfOpened(t.evalsProofs));
    SameNode(ShapesOfOpened(p.steps), ShapesOfOpened(t.steps));
    if ShapeOfRound(p) == ShapeOfRound(t) {
      assert ShapeOfRound(p).children[0] == ShapeOfRound(t).children[0];
      assert ShapeOfRound(p).children[1] == ShapeOfRound(t).children[1];
      forall j | 0 <= j < |p.evalsProofs|
        ensures ShapeOfOpened(p.evalsProofs[j]) == ShapeOfOpened(t.evalsProofs[j])
      {
        assert ShapesOfOpened(p.evalsProofs)[j] == ShapesOfOpened(t.evalsProofs)[j];
      }
      forall j | 0 <= j < |p.steps| ensures ShapeOfOpened(p.steps[j]) == ShapeOfOpened(t.steps[j]) {
        assert ShapesOfOpened(p.steps)[j] == ShapesOfOpened(t.steps)[j];
      }
    }
  }

  method EnsureRound<P, T>(proof: QueryRound<P>, target: QueryRound<T>, i: nat) returns (v: Verdict)
    ensures v.Ok? <==> ShapeOfRound(proof) == ShapeOfRound(target)
    ensures v.Err? ==> InRound(v.error.what, i)
    ensures v.Err? ==> Truthful(LenInRound(proof, v.error.what), LenInRound(target, v.error.what), v.error)
  {
    RoundShape(proof, target);
    v := EnsureLenMatches(|proof.evalsProofs|, |target.evalsProofs|, EvalsProofs(i));
    if v.Err? { return; }
    v := EnsureOpened(proof.evalsProofs, target.evalsProofs, i, false);
    if v.Err? { return; }
    v := EnsureLenMatches(|proof.steps|, |target.steps|, Steps(i));
    if v.Err? { return; }
    v := EnsureOpened(proof.steps, target.steps, i, true);
  }

  predicate InRound(what: What, i: nat) {
    (what.EvalsProofs? || what.Evals? || what.Siblings? || what.Steps? || what.StepEvals? || what.StepSiblings?)
    && what.i == i
  }

  lemma FriShape<P, T>(p: FriProof<P>, t: FriProof<T>)
    ensures ShapeOfFri(p) == ShapeOfFri(t) <==>
      && |p.commitPhaseMerkleCaps| == |t.commitPhaseMerkleCaps|
      && |p.queryRoundProofs| == |t.queryRoundProofs| && |p.finalPoly| == |t.finalPoly|
      && (forall i :: 0 <= i < |p.commitPhaseMerkleCaps| ==>
            |p.commitPhaseMerkleCaps[i]| == |t.commitPhaseMerkleCaps[i]|)
      && (forall i :: 0 <= i < |p.queryRoundProofs| ==>
            ShapeOfRound(p.queryRoundProofs[i]) == ShapeOfRound(t.queryRoundProofs[i]))
  {
    SameNode(ShapeOfFri(p).children, ShapeOfFri(t).children);
    SameNode(ShapesOfCaps(p.commitPhaseMerkleCaps), ShapesOfCaps(t.commitPhaseMerkleCaps));
    SameNode(ShapesOfRounds(p.queryRoundProofs), ShapesOfRounds(t.queryRoundProofs));
    if ShapeOfFri(p) == ShapeOfFri(t) {
      assert ShapeOfFri(p).children[0] == ShapeOfFri(t).children[0];
      assert ShapeOfFri(p).children[1] == ShapeOfFri(t).children[1];
      assert ShapeOfFri(p).children[2] == ShapeOfFri(t).children[2];
      forall i | 0 <= i < |p.commitPhaseMerkleCaps|
        ensures |p.commitPhaseMerkleCaps[i]| == |t.commitPhaseMerkleCaps[i]|
      {
        assert ShapesOfCaps(p.commitPhaseMerkleCaps)[i] == ShapesOfCaps(t.commitPhaseMerkleCaps)[i];
      }
      forall i | 0 <= i < |p.queryRoundProofs|
        ensures ShapeOfRound(p.queryRoundProofs[i]) == ShapeOfRound(t.queryRoundProofs[i])
      {
        assert ShapesOfRounds(p.queryRoundProofs)[i] == ShapesOfRounds(t.queryRoundProofs)[i];
      }
    }
  }

  method EnsureFri<P, T>(proof: Proof<P>, target: Proof<T>) returns (v: Verdict)
    ensures v.Ok? <==> ShapeOfFri(proof.openingProof) == ShapeOfFri(target.openingProof)
    ensures v.Err? ==> Truthful(LenAt(proof, v.error.what), LenAt(target, v.error.what), v.error)
  {
    var f, ft := proof.openingProof, target.openingProof;
    FriShape(f, ft);
    v := EnsureLenMatches(|f.commitPhaseMerkleCaps|, |ft.commitPhaseMerkleCaps|, MerkleCaps);
    if v.Err? { return; }
    for i := 0 to |f.commitPhaseMerkleCaps|
      invariant forall k :: 0 <= k < i ==> |f.commitPhaseMerkleCaps[k]| == |ft.commitPhaseMerkleCaps[k]|
    {
      v := EnsureLenMatches(|f.commitPhaseMerkleCaps[i]|, |ft.commitPhaseMerkleCaps[i]|, MerkleCap(i));
      if v.Err? { return; }
    }
    v := EnsureLenMatches(|f.queryRoundProofs|, |ft.queryRoundProofs|, QueryRounds);
    if v.Err? { return; }
    for i := 0 to |f.queryRoundProofs|
      invariant forall k :: 0 <= k < i ==>
        ShapeOfRound(f.queryRoundProofs[k]) == ShapeOfRound(ft.queryRoundProofs[k])
    {
      v := EnsureRound(f.queryRoundProofs[i], ft.queryRoundProofs[i], i);
      if v.Err? { return; }
    }
    v := EnsureLenMatches(|f.finalPoly|, |ft.finalPoly|, FinalPoly);
  }

  function Lengths<T>(o: Openings<T>): seq<nat> {
    [|o.constants|, |o.plonkSigmas|, |o.wires|, |o.plonkZs|, |o.plonkZsNext|, |o.partialProducts|,
     |o.quotientPolys|, |o.lookupZs|, |o.lookupZsNext|]
  }

  lemma OpeningsShape<P, T>(p: Openings<P>, t: Openings<T>)
    ensures ShapeOfOpenings(p) == ShapeOfOpenings(t) <==> Lengths(p) == Lengths(t)
  {
    var a, b := ShapeOfOpenings(p).children, ShapeOfOpenings(t).children;
    SameNode(a, b);
    assert forall i :: 0 <= i < 9 ==> a[i] == Leaves(Lengths(p)[i]) && b[i] == Leaves(Lengths(t)[i]);
    if a == b {
      assert forall i :: 0 <= i < 9 ==> Lengths(p)[i] == Lengths(t)[i] by {
        forall i | 0 <= i < 9 ensures Lengths(p)[i] == Lengths(t)[i] {
          assert a[i] == b[i];
        }
      }
    }
  }

  method EnsureOpenings<P, T>(proof: Openings<P>, target: Openings<T>) returns (v: Verdict)
    ensures v.Ok? <==> ShapeOfOpenings(proof) == ShapeOfOpenings(target)
    ensures v.Err? ==>
      && v.error.what.OpeningsOf?
      && Truthful(LenOfOpening(proof, v.error.what.index), LenOfOpening(target, v.error.what.index), v.error)
  {
    var actual, expected := Lengths(proof), Lengths(target);
    OpeningsShape(proof, target);
    for i := 0 to 9
      invariant forall k :: 0 <= k < i ==> actual[k] == expected[k]
    {
      v := EnsureLenMatches(actual[i], expected[i], OpeningsOf(i));
      if v.Err? {
        return;
      }
    }
    v := Ok(());
  }

  lemma ProofShapeIff<P, T>(p: Proof<P>, t: Proof<T>)
    ensures ShapeOf(p) == ShapeOf(t) <==>
      && |p.publicInputs| == |t.publicInputs| && |p.wiresCap| == |t.wiresCap|
      && |p.plonkZsPartialProductsCap| == |t.plonkZsPartialProductsCap|
      && |p.quotientPolysCap| == |t.quotientPolysCap|
      && ShapeOfOpenings(p.openings) == ShapeOfOpenings(t.openings)
      && ShapeOfFri(p.openingProof) == ShapeOfFri(t.openingProof)
  {
    var a, b := ShapeOf(p).children, ShapeOf(t).children;
    SameNode(a, b);
    assert a[0] == Leaves(|p.publicInputs|) && b[0] == Leaves(|t.publicInputs|);
    assert a[1] == Leaves(|p.wiresCap|) && b[1] == Leaves(|t.wiresCap|);
    assert a[2] == Leaves(|p.plonkZsPartialProductsCap|) && b[2] == Leaves(|t.plonkZsPartialProductsCap|);
    assert a[3] == Leaves(|p.quotientPolysCap|) && b[3] == Leaves(|t.quotientPolysCap|);
    assert a[4] == ShapeOfOpenings(p.openings) && b[4] == ShapeOfOpenings(t.openings);
    assert a[5] == ShapeOfFri(p.openingProof) && b[5] == ShapeOfFri(t.openingProof);
  }

  // The preflight answers Ok exactly when the two shapes are equal, and an
  // error otherwise that is true of the two sides.
  method EnsureProofShapeMatchesTargets<P, T>(target: Proof<T>, proof: Proof<P>) returns (v: Verdict)
    ensures v.Ok? <==> ShapeOf(proof) == ShapeOf(target)
    ensures v.Err? ==> Truthful(LenAt(proof, v.error.what), LenAt(target, v.error.what), v.error)
  {
    ghost var a, b := ShapeOf(proof).children, ShapeOf(target).children;
    SameNode(a, b);
    assert a[0] == Leaves(|proof.publicInputs|) && b[0] == Leaves(|target.publicInputs|);
    assert a[1] == Leaves(|proof.wiresCap|) && b[1] == Leaves(|target.wiresCap|);
    v := EnsureLenMatches(|proof.publicInputs|, |target.publicInputs|, PublicInputs);
    if v.Err? { return; }
    v := EnsureLenMatches(|proof.wiresCap|, |target.wiresCap|, WiresCap);
    if v.Err? { return; }
    v := EnsureLenMatches(|proof.plonkZsPartialProductsCap|, |target.plonkZsPartialProductsCap|,
                          PlonkZsPartialProductsCap);
    if v.Err? { assert a[2] != b[2]; return; }
    v := EnsureLenMatches(|proof.quotientPolysCap|, |target.quotientPolysCap|, QuotientPolysCap);
    if v.Err? { assert a[3] != b[3]; return; }
    v := EnsureOpenings(proof.openings, target.openings);
    if v.Err? { assert a[4] != b[4]; return; }
    v := EnsureFri(proof, target);
    if v.Err? { assert a[5] != b[5]; return; }
  }
}
