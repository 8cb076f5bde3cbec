/**
 The comparison gadgets: methods that append gates to a circuit under
 construction. What a gadget means is a statement about every assignment of the
 wires that satisfies the gates: sound if the gates force the output, complete
 if every assignment of the wires that were there extends to the new ones.
 */
module Gadgets {
  import opened Goldilocks

  type Wire = nat

  // What a gate computes from earlier wires, in the field.
  datatype Op =
    | Constant(value: Felt)
    | Add(a: Wire, b: Wire)
    | Sub(a: Wire, b: Wire)
    | Mul(a: Wire, b: Wire)
    | Not(a: Wire)
    | Or(a: Wire, b: Wire)
    | IsEqual(a: Wire, b: Wire)

  // A computed wire; a decomposition into advice wires, each a bit; an equality.
  datatype Gate =
    | Assign(out: Wire, op: Op)
    | Split(target: Wire, bits: seq<Wire>)
    | Connect(a: Wire, b: Wire)

  type Witness = seq<Felt>

  predicate Reads(op: Op, wires: nat) {
    match op
    case Constant(_) => true
    case Not(a) => a < wires
    case Add(a, b) => a < wires && b < wires
    case Sub(a, b) => a < wires && b < wires
    case Mul(a, b) => a < wires && b < wires
    case Or(a, b) => a < wires && b < wires
    case IsEqual(a, b) => a < wires && b < wires
  }

  predicate Uses(gate: Gate, wires: nat) {
    match gate
    case Assign(out, op) => out < wires && Reads(op, wires)
    case Split(target, bits) => target < wires && forall i :: 0 <= i < |bits| ==> bits[i] < wires
    case Connect(a, b) => a < wires && b < wires
  }

  function Eval(op: Op, w: Witness): Felt
    requires Reads(op, |w|)
  {
    match op
    case Constant(value) => value
    case Add(a, b) => (w[a] + w[b]) % P
    case Sub(a, b) => (w[a] - w[b]) % P
    case Mul(a, b) => (w[a] * w[b]) % P
    case Not(a) => (1 - w[a]) % P
    case Or(a, b) => (w[a] + w[b] - w[a] * w[b]) % P
    case IsEqual(a, b) => Flag(w[a] == w[b])
  }

  // The values on some wires.
  function On(w: Witness, wires: seq<Wire>): (values: seq<int>)
    requires forall i :: 0 <= i < |wires| ==> wires[i] < |w|
    ensures |values| == |wires| && forall i :: 0 <= i < |wires| ==> values[i] == w[wires[i]]
  {
    seq(|wires|, i requires 0 <= i < |wires| => w[wires[i]])
  }

  predicate Holds(gate: Gate, w: Witness) {
    && Uses(gate, |w|)
    && match gate
       case Assign(out, op) => w[out] == Eval(op, w)
       case Split(target, bits) => AreBits(On(w, bits)) && Weigh(On(w, bits)) % P == w[target]
       case Connect(a, b) => w[a] == w[b]
  }

  ghost predicate Satisfies(w: Witness, gates: seq<Gate>) {
    forall i :: 0 <= i < |gates| ==> Holds(gates[i], w)
  }

  ghost predicate Extends(w: Witness, w': Witness) {
    |w| <= |w'| && w'[..|w|] == w
  }

  // ---------------------------------------------------------------------------
  // Straight lines: gates that each compute the next wire
  // ---------------------------------------------------------------------------

  ghost predicate Straight(gates: seq<Gate>, from: nat) {
    forall i :: 0 <= i < |gates| ==>
      gates[i].Assign? && gates[i].out == from + i && Reads(gates[i].op, from + i)
  }

  lemma HoldsFurther(gate: Gate, w: Witness, w': Witness)
    requires Extends(w, w') && Uses(gate, |w|)
    ensures Holds(gate, w) <==> Holds(gate, w')
  {
    assert forall i :: 0 <= i < |w| ==> w'[i] == w'[..|w|][i];
    if gate.Split? {
      assert On(w, gate.bits) == On(w', gate.bits);
    }
  }

  lemma SatisfiesFurther(gates: seq<Gate>, w: Witness, w': Witness)
    requires Extends(w, w') && Satisfies(w, gates)
    ensures Satisfies(w', gates)
  {
    forall i | 0 <= i < |gates| ensures Holds(gates[i], w') {
      HoldsFurther(gates[i], w, w');
    }
  }

  // Every assignment runs through a straight line.
  lemma {:induction false} StraightRuns(gates: seq<Gate>, w: Witness) returns (w': Witness)
    requires Straight(gates, |w|)
    ensures Extends(w, w') && |w'| == |w| + |gates| && Satisfies(w', gates)
  {
    if gates == [] {
      w' := w;
    } else {
      var n := |gates| - 1;
      var u := StraightRuns(gates[..n], w);
      w' := u + [Eval(gates[n].op, u)];
      assert Extends(u, w');
      SatisfiesFurther(gates[..n], u, w');
      assert Holds(gates[n], w');
    }
  }

  // ---------------------------------------------------------------------------
  // The builder
  // ---------------------------------------------------------------------------

  class Builder {
    var gates: seq<Gate>
    var wires: nat

    constructor (inputs: nat)
      ensures gates == [] && wires == inputs
    {
      gates := [];
      wires := inputs;
    }

    ghost predicate Valid()
      reads this
    {
      forall i :: 0 <= i < |gates| ==> Uses(gates[i], wires)
    }

    method Emit(op: Op) returns (out: Wire)
      requires Valid() && Reads(op, wires)
      modifies this
      ensures Valid()
      ensures out == old(wires) && wires == old(wires) + 1
      ensures gates == old(gates) + [Assign(out, op)]
    {
      out := wires;
      gates := gates + [Assign(out, op)];
      wires := wires + 1;
    }

    // Fresh advice wires, constrained to be the bits of `target`.
    method SplitLe(target: Wire, n: nat) returns (bits: seq<Wire>)
      requires Valid() && target < wires
      modifies this
      ensures Valid()
      ensures |bits| == n && forall i :: 0 <= i < n ==> bits[i] == old(wires) + i
      ensures wires == old(wires) + n && gates == old(gates) + [Split(target, bits)]
    {
      var first := wires;
      bits := seq(n, i requires 0 <= i < n => first + i);
      gates := gates + [Split(target, bits)];
      wires := wires + n;
    }

    method ConnectTo(a: Wire, b: Wire)
      requires Valid() && a < wires && b < wires
      modifies this
      ensures Valid() && wires == old(wires) && gates == old(gates) + [Connect(a, b)]
    {
      gates := gates + [Connect(a, b)];
    }
  }

  // Only a straight line of gates was added.
  ghost predicate Grown(gates: seq<Gate>, wires: nat, gates': seq<Gate>, wires': nat) {
    && |gates| <= |gates'| && gates'[..|gates|] == gates
    && Straight(gates'[|gates|..], wires) && wires' == wires + |gates'| - |gates|
  }

  lemma GrownBy(gates: seq<Gate>, wires: nat, gates': seq<Gate>, wires': nat, op: Op)
    requires Grown(gates, wires, gates', wires') && Reads(op, wires')
    ensures Grown(gates, wires, gates' + [Assign(wires', op)], wires' + 1)
  {
    assert (gates' + [Assign(wires', op)])[|gates|..] == gates'[|gates|..] + [Assign(wires', op)];
  }

  lemma GrownFurther(gates: seq<Gate>, wires: nat, gates': seq<Gate>, wires': nat, gates'': seq<Gate>, wires'': nat)
    requires Grown(gates, wires, gates', wires') && Grown(gates', wires', gates'', wires'')
    ensures Grown(gates, wires, gates'', wires'')
  {
    assert gates''[|gates|..] == gates'[|gates|..] + gates''[|gates'|..];
    assert gates''[..|gates|] == gates''[..|gates'|][..|gates|];
  }

  // An assignment of all the wires that satisfies all the gates.
  ghost predicate Fits(w: Witness, gates: seq<Gate>, wires: nat) {
    |w| >= wires && Satisfies(w, gates)
  }

  // a XOR b, for bits a and b.
  ghost predicate ForcesXor(gates: seq<Gate>, wires: nat, a: Wire, b: Wire, out: Wire)
    requires a < wires && b < wires && out < wires
  {
    forall w: Witness :: Fits(w, gates, wires) && IsBit(w[a]) && IsBit(w[b]) ==> w[out] == Flag(w[a] != w[b])
  }

  lemma XorGates(g: seq<Gate>, n: nat, a: Wire, b: Wire)
    requires a < n && b < n
    ensures ForcesXor(g + [Assign(n, Add(a, b)), Assign(n + 1, Mul(a, b)), Assign(n + 2, Add(n + 1, n + 1)),
                           Assign(n + 3, Sub(n, n + 2))], n + 4, a, b, n + 3)
  {
    var gates := g + [Assign(n, Add(a, b)), Assign(n + 1, Mul(a, b)), Assign(n + 2, Add(n + 1, n + 1)),
                      Assign(n + 3, Sub(n, n + 2))];
    forall w: Witness | Fits(w, gates, n + 4) && IsBit(w[a]) && IsBit(w[b])
      ensures w[n + 3] == Flag(w[a] != w[b])
    {
      assert Holds(gates[|g|], w) && Holds(gates[|g| + 1], w);
      assert Holds(gates[|g| + 2], w) && Holds(gates[|g| + 3], w);
    }
  }

  // a XOR b = a + b - 2ab
  method Xor(builder: Builder, a: Wire, b: Wire) returns (out: Wire)
    requires builder.Valid() && a < builder.wires && b < builder.wires
    modifies builder
    ensures builder.Valid() && out < builder.wires
    ensures Grown(old(builder.gates), old(builder.wires), builder.gates, builder.wires)
    ensures ForcesXor(builder.gates, builder.wires, a, b, out)
  {
    ghost var g, n := builder.gates, builder.wires;
    var sum := builder.Emit(Add(a, b));
    var ab := builder.Emit(Mul(a, b));
    var twice := builder.Emit(Add(ab, ab));
    out := builder.Emit(Sub(sum, twice));
    XorGates(g, n, a, b);
    assert builder.gates == g + [Assign(n, Add(a, b)), Assign(n + 1, Mul(a, b)), Assign(n + 2, Add(n + 1, n + 1)),
                                 Assign(n + 3, Sub(n, n + 2))];
  }

  // ---------------------------------------------------------------------------
  // One bit of the comparison
  // ---------------------------------------------------------------------------

  lemma FitsEarlier(w: Witness, gates: seq<Gate>, wires: nat, gates': seq<Gate>, wires': nat)
    requires Grown(gates, wires, gates', wires') && Fits(w, gates', wires')
    ensures Fits(w, gates, wires)
  {
    forall i | 0 <= i < |gates| ensures Holds(gates[i], w) {
      assert gates[i] == gates'[..|gates|][i] == gates'[i];
    }
  }

  // `lt` and `eq` extended by one bit: a of the constant, b of the target.
  ghost predicate ForcesBit(gates: seq<Gate>, wires: nat, a: int, b: Wire, lt: Wire, eq: Wire, lt': Wire, eq': Wire)
    requires b < wires && lt < wires && eq < wires && lt' < wires && eq' < wires
  {
    forall w: Witness :: Fits(w, gates, wires) && IsBit(w[b]) && IsBit(w[lt]) && IsBit(w[eq]) ==>
      && w[lt'] == Flag(w[lt] == 1 || (a == 0 && w[b] == 1 && w[eq] == 1))
      && w[eq'] == Flag(w[eq] == 1 && a == w[b])
  }

  ghost predicate ForcesLess(gates: seq<Gate>, wires: nat, a: int, aWire: Wire, b: Wire, lt: Wire, eq: Wire, lt': Wire)
    requires b < wires && lt < wires && eq < wires && lt' < wires && aWire < wires
  {
    forall w: Witness :: Fits(w, gates, wires) && IsBit(w[b]) && IsBit(w[lt]) && IsBit(w[eq]) ==>
      && w[aWire] == a
      && w[lt'] == Flag(w[lt] == 1 || (a == 0 && w[b] == 1 && w[eq] == 1))
  }

  lemma LessGates(g: seq<Gate>, n: nat, a: Felt, b: Wire, lt: Wire, eq: Wire)
    requires IsBit(a) && b < n && lt < n && eq < n
    ensures ForcesLess(
      g + [Assign(n, Constant(a)), Assign(n + 1, Not(n)), Assign(n + 2, Mul(n + 1, b)),
           Assign(n + 3, Mul(n + 2, eq)), Assign(n + 4, Or(lt, n + 3))], n + 5, a, n, b, lt, eq, n + 4)
  {
    var gates := g + [Assign(n, Constant(a)), Assign(n + 1, Not(n)), Assign(n + 2, Mul(n + 1, b)),
                      Assign(n + 3, Mul(n + 2, eq)), Assign(n + 4, Or(lt, n + 3))];
    forall w: Witness | Fits(w, gates, n + 5) && IsBit(w[b]) && IsBit(w[lt]) && IsBit(w[eq])
      ensures w[n] == a && w[n + 4] == Flag(w[lt] == 1 || (a == 0 && w[b] == 1 && w[eq] == 1))
    {
      assert Holds(gates[|g|], w) && Holds(gates[|g| + 1], w) && Holds(gates[|g| + 2], w);
      assert Holds(gates[|g| + 3], w) && Holds(gates[|g| + 4], w);
    }
  }

  method Less(builder: Builder, a: Felt, b: Wire, lt: Wire, eq: Wire) returns (aWire: Wire, lt': Wire)
    requires builder.Valid() && IsBit(a) && b < builder.wires && lt < builder.wires && eq < builder.wires
    modifies builder
    ensures builder.Valid() && lt' < builder.wires && aWire < builder.wires
    ensures Grown(old(builder.gates), old(builder.wires), builder.gates, builder.wires)
    ensures ForcesLess(builder.gates, builder.wires, a, aWire, b, lt, eq, lt')
  {
    ghost var g, n := builder.gates, builder.wires;
    aWire := builder.Emit(Constant(a));
    var notA := builder.Emit(Not(aWire));
    var notAAndB := builder.Emit(Mul(notA, b));
    var thisLt := builder.Emit(Mul(notAAndB, eq));
    lt' := builder.Emit(Or(lt, thisLt));
    LessGates(g, n, a, b, lt, eq);
    assert builder.gates ==
      g + [Assign(n, Constant(a)), Assign(n + 1, Not(n)), Assign(n + 2, Mul(n + 1, b)),
           Assign(n + 3, Mul(n + 2, eq)), Assign(n + 4, Or(lt, n + 3))];
  }

  ghost predicate ForcesAgree(gates: seq<Gate>, wires: nat, x: Wire, eq: Wire, eq': Wire)
    requires x < wires && eq < wires && eq' < wires
  {
    forall w: Witness :: Fits(w, gates, wires) && IsBit(w[x]) && IsBit(w[eq])
      ==> w[eq'] == Flag(w[eq] == 1 && w[x] == 0)
  }

  method Agree(builder: Builder, x: Wire, eq: Wire) returns (eq': Wire)
    requires builder.Valid() && x < builder.wires && eq < builder.wires
    modifies builder
    ensures builder.Valid() && eq' < builder.wires
    ensures Grown(old(builder.gates), old(builder.wires), builder.gates, builder.wires)
    ensures ForcesAgree(builder.gates, builder.wires, x, eq, eq')
  {
    ghost var g, n := builder.gates, builder.wires;
    var notX := builder.Emit(Not(x));
    eq' := builder.Emit(Mul(eq, notX));
    forall w: Witness | Fits(w, builder.gates, builder.wires) && IsBit(w[x]) && IsBit(w[eq])
      ensures w[eq'] == Flag(w[eq] == 1 && w[x] == 0)
    {
      assert Holds(builder.gates[|g|], w) && Holds(builder.gates[|g| + 1], w);
    }
  }

  lemma BitForced(g1: seq<Gate>, n1: nat, g2: seq<Gate>, n2: nat, g3: seq<Gate>, n3: nat,
                  a: Felt, aWire: Wire, b: Wire, lt: Wire, eq: Wire, lt': Wire, x: Wire, eq': Wire)
    requires IsBit(a) && b < n1 && lt < n1 && eq < n1 && lt' < n1 && aWire < n1 && x < n2 && eq' < n3
    requires Grown(g1, n1, g2, n2) && Grown(g2, n2, g3, n3)
    requires ForcesLess(g1, n1, a, aWire, b, lt, eq, lt')
    requires ForcesXor(g2, n2, aWire, b, x)
    requires ForcesAgree(g3, n3, x, eq, eq')
    ensures ForcesBit(g3, n3, a, b, lt, eq, lt', eq')
  {
    forall w: Witness | Fits(w, g3, n3) && IsBit(w[b]) && IsBit(w[lt]) && IsBit(w[eq])
      ensures w[lt'] == Flag(w[lt] == 1 || (a == 0 && w[b] == 1 && w[eq] == 1))
      ensures w[eq'] == Flag(w[eq] == 1 && a == w[b])
    {
      FitsEarlier(w, g2, n2, g3, n3);
      FitsEarlier(w, g1, n1, g2, n2);
    }
  }

  // The body of the comparison loop.
  method CompareBit(builder: Builder, a: Felt, b: Wire, lt: Wire, eq: Wire) returns (lt': Wire, eq': Wire)
    requires builder.Valid() && IsBit(a) && b < builder.wires && lt < builder.wires && eq < builder.wires
    modifies builder
    ensures builder.Valid() && lt' < builder.wires && eq' < builder.wires
    ensures Grown(old(builder.gates), old(builder.wires), builder.gates, builder.wires)
    ensures ForcesBit(builder.gates, builder.wires, a, b, lt, eq, lt', eq')
  {
    ghost var g, n := builder.gates, builder.wires;
    var aWire;
    aWire, lt' := Less(builder, a, b, lt, eq);
    ghost var g1, n1 := builder.gates, builder.wires;
    var aXorB := Xor(builder, aWire, b);
    ghost var g2, n2 := builder.gates, builder.wires;
    eq' := Agree(builder, aXorB, eq);
    GrownFurther(g, n, g1, n1, g2, n2);
    GrownFurther(g, n, g2, n2, builder.gates, builder.wires);
    BitForced(g1, n1, g2, n2, builder.gates, builder.wires, a, aWire, b, lt, eq, lt', aXorB, eq');
  }

  // ---------------------------------------------------------------------------
  // The comparison
  // ---------------------------------------------------------------------------

  predicate AllBelow(wires: seq<Wire>, bound: nat) {
    forall i :: 0 <= i < |wires| ==> wires[i] < bound
  }

  // What the asserts of the source admit.
  predicate ComparisonWidth(left: nat, n: nat) {
    0 < n <= 63 && left < Pow2(n)
  }

  // From bit i up, `lt` and `eq` compare the constant with the bits.
  ghost predicate Tracks(gates: seq<Gate>, wires: nat, left: nat, bits: seq<Wire>, i: nat, lt: Wire, eq: Wire)
    requires AllBelow(bits, wires) && i <= |bits| && lt < wires && eq < wires
  {
    forall w: Witness :: Fits(w, gates, wires) && AreBits(On(w, bits)) ==>
      && w[lt] == Flag(Shift(left, i) < Weigh(On(w, bits)[i..]))
      && w[eq] == Flag(Shift(left, i) == Weigh(On(w, bits)[i..]))
  }

  ghost predicate ForcesLt(gates: seq<Gate>, wires: nat, left: nat, bits: seq<Wire>, lt: Wire)
    requires AllBelow(bits, wires) && lt < wires
  {
    forall w: Witness :: Fits(w, gates, wires) && AreBits(On(w, bits)) ==> w[lt] == Flag(left < Weigh(On(w, bits)))
  }

  lemma TracksDown(g: seq<Gate>, n: nat, g': seq<Gate>, n': nat, left: nat, bits: seq<Wire>, i: nat,
                   lt: Wire, eq: Wire, lt': Wire, eq': Wire)
    requires AllBelow(bits, n) && i < |bits| && lt < n && eq < n && lt' < n' && eq' < n'
    requires Grown(g, n, g', n') && Tracks(g, n, left, bits, i + 1, lt, eq)
    requires ForcesBit(g', n', Shift(left, i) % 2, bits[i], lt, eq, lt', eq')
    ensures Tracks(g', n', left, bits, i, lt', eq')
  {
    forall w: Witness | Fits(w, g', n') && AreBits(On(w, bits))
      ensures w[lt'] == Flag(Shift(left, i) < Weigh(On(w, bits)[i..]))
      ensures w[eq'] == Flag(Shift(left, i) == Weigh(On(w, bits)[i..]))
    {
      FitsEarlier(w, g, n, g', n');
      var values := On(w, bits);
      assert values[i..][1..] == values[i + 1..] && values[i..][0] == w[bits[i]];
      WeighBound(values[i + 1..]);
      OneMoreBit(Shift(left, i), Weigh(values[i + 1..]), w[bits[i]]);
    }
  }

  method ConstLessThanBits(builder: Builder, left: nat, bits: seq<Wire>) returns (lt: Wire)
    requires builder.Valid() && AllBelow(bits, builder.wires) && ComparisonWidth(left, |bits|)
    modifies builder
    ensures builder.Valid() && lt < builder.wires
    ensures Grown(old(builder.gates), old(builder.wires), builder.gates, builder.wires)
    ensures ForcesLt(builder.gates, builder.wires, left, bits, lt)
  {
    ghost var g, n := builder.gates, builder.wires;
    lt := builder.Emit(Constant(0));
    var eq: Wire := builder.Emit(Constant(1));
    var i := |bits|;
    Started(g, n, builder.gates, left, bits);
    while i > 0
      invariant 0 <= i <= |bits| && builder.Valid()
      invariant Grown(g, n, builder.gates, builder.wires)
      invariant lt < builder.wires && eq < builder.wires
      invariant Tracks(builder.gates, builder.wires, left, bits, i, lt, eq)
    {
      i := i - 1;
      ghost var g1, n1, lt1, eq1 := builder.gates, builder.wires, lt, eq;
      lt, eq := CompareBit(builder, Shift(left, i) % 2, bits[i], lt, eq);
      GrownFurther(g, n, g1, n1, builder.gates, builder.wires);
      TracksDown(g1, n1, builder.gates, builder.wires, left, bits, i, lt1, eq1, lt, eq);
    }
    forall w: Witness | Fits(w, builder.gates, builder.wires) && AreBits(On(w, bits))
      ensures w[lt] == Flag(left < Weigh(On(w, bits)))
    {
      assert On(w, bits)[0..] == On(w, bits);
    }
  }

  lemma Started(g: seq<Gate>, n: nat, gates: seq<Gate>, left: nat, bits: seq<Wire>)
    requires AllBelow(bits, n) && left < Pow2(|bits|)
    requires gates == g + [Assign(n, Constant(0))] + [Assign(n + 1, Constant(1))]
    ensures Grown(g, n, gates, n + 2) && Tracks(gates, n + 2, left, bits, |bits|, n, n + 1)
  {
    ShiftBound(left, |bits|, |bits|);
    assert gates[|g|..] == [Assign(n, Constant(0)), Assign(n + 1, Constant(1))];
    forall w: Witness | Fits(w, gates, n + 2) && AreBits(On(w, bits))
      ensures w[n] == Flag(Shift(left, |bits|) < Weigh(On(w, bits)[|bits|..]))
      ensures w[n + 1] == Flag(Shift(left, |bits|) == Weigh(On(w, bits)[|bits|..]))
    {
      assert Holds(gates[|g|], w) && Holds(gates[|g| + 1], w);
      assert On(w, bits)[|bits|..] == [];
    }
  }

  // ---------------------------------------------------------------------------
  // Splitting, comparing and enforcing
  // ---------------------------------------------------------------------------

  // An assignment of the wires that were there extends to one of all of them.
  ghost predicate Extendable(w: Witness, gates: seq<Gate>, wires: nat) {
    exists w': Witness :: Extends(w, w') && |w'| == wires && Satisfies(w', gates)
  }

  // The target has n bits, and `lt` says whether the constant is below it.
  ghost predicate ForcesComparison(gates: seq<Gate>, wires: nat, left: nat, right: Wire, n: nat, lt: Wire)
    requires right < wires && lt < wires
  {
    forall w: Witness :: Fits(w, gates, wires) ==> w[right] < Pow2(n) && w[lt] == Flag(left < w[right])
  }

  // Any target that has n bits can be compared.
  ghost predicate AdmitsComparison(g: seq<Gate>, n0: nat, gates: seq<Gate>, wires: nat, right: Wire, n: nat)
    requires right < n0
  {
    forall w: Witness :: |w| == n0 && Satisfies(w, g) && w[right] < Pow2(n) ==> Extendable(w, gates, wires)
  }

  lemma SplitForces(g: seq<Gate>, right: Wire, bits: seq<Wire>, w: Witness)
    requires |bits| <= 63 && Satisfies(w, g + [Split(right, bits)])
    ensures right < |w| && AllBelow(bits, |w|) && AreBits(On(w, bits))
    ensures Weigh(On(w, bits)) == w[right] < Pow2(|bits|)
  {
    assert Holds((g + [Split(right, bits)])[|g|], w);
    ShortIsCanonical(On(w, bits));
    WeighBound(On(w, bits));
  }

  // The digits of the target are a satisfying choice of the advice wires.
  lemma SplitAdmits(g: seq<Gate>, right: Wire, bits: seq<Wire>, w: Witness) returns (w': Witness)
    requires right < |w| && Satisfies(w, g) && |bits| <= 63 && w[right] < Pow2(|bits|)
    requires forall i :: 0 <= i < |bits| ==> bits[i] == |w| + i
    ensures Extends(w, w') && |w'| == |w| + |bits| && Satisfies(w', g + [Split(right, bits)])
  {
    var digits := Digits(w[right], |bits|);
    DigitsWeigh(w[right], |bits|);
    var advice: Witness := seq(|bits|, i requires 0 <= i < |bits| => Flag(digits[i] == 1));
    w' := w + advice;
    SatisfiesFurther(g, w, w');
    assert On(w', bits) == digits by {
      assert forall i :: 0 <= i < |bits| ==> w'[bits[i]] == advice[i] == digits[i];
    }
    assert Holds(Split(right, bits), w');
  }

  method IsConstLessThan(builder: Builder, left: nat, right: Wire, n: nat) returns (lt: Wire)
    requires builder.Valid() && right < builder.wires && ComparisonWidth(left, n)
    modifies builder
    ensures builder.Valid() && lt < builder.wires && old(builder.wires) <= builder.wires
    ensures ForcesComparison(builder.gates, builder.wires, left, right, n, lt)
    ensures AdmitsComparison(old(builder.gates), old(builder.wires), builder.gates, builder.wires, right, n)
  {
    ghost var g, n0 := builder.gates, builder.wires;
    var bits := builder.SplitLe(right, n);
    ghost var g1, n1 := builder.gates, builder.wires;
    lt := ConstLessThanBits(builder, left, bits);
    ComparisonForced(g, g1, n1, builder.gates, builder.wires, left, right, bits, lt);
    forall w: Witness | |w| == n0 && Satisfies(w, g) && w[right] < Pow2(n)
      ensures Extendable(w, builder.gates, builder.wires)
    {
      ComparisonAdmitted(g, g1, n1, builder.gates, builder.wires, right, bits, w);
    }
  }

  lemma ComparisonForced(g: seq<Gate>, g1: seq<Gate>, n1: nat, g2: seq<Gate>, n2: nat,
                         left: nat, right: Wire, bits: seq<Wire>, lt: Wire)
    requires |bits| <= 63 && right < n1 && AllBelow(bits, n1) && lt < n2
    requires g1 == g + [Split(right, bits)] && Grown(g1, n1, g2, n2)
    requires ForcesLt(g2, n2, left, bits, lt)
    ensures ForcesComparison(g2, n2, left, right, |bits|, lt)
  {
    forall w: Witness | Fits(w, g2, n2) ensures w[right] < Pow2(|bits|) && w[lt] == Flag(left < w[right]) {
      FitsEarlier(w, g1, n1, g2, n2);
      SplitForces(g, right, bits, w);
    }
  }

  lemma ComparisonAdmitted(g: seq<Gate>, g1: seq<Gate>, n1: nat, g2: seq<Gate>, n2: nat,
                           right: Wire, bits: seq<Wire>, w: Witness)
    requires right < |w| && n1 == |w| + |bits| && |bits| <= 63 && w[right] < Pow2(|bits|)
    requires forall i :: 0 <= i < |bits| ==> bits[i] == |w| + i
    requires g1 == g + [Split(right, bits)] && Grown(g1, n1, g2, n2) && Satisfies(w, g)
    ensures Extendable(w, g2, n2)
  {
    var w1 := SplitAdmits(g, right, bits, w);
    var w2 := StraightRuns(g2[|g1|..], w1);
    SatisfiesFurther(g1, w1, w2);
    assert g2 == g1 + g2[|g1|..];
    assert w2[..|w|] == w2[..|w1|][..|w|];
  }

  // ---------------------------------------------------------------------------

  // A satisfying assignment of the new wires exists exactly when the target,
  // as a number below the field's order, is below the bound.
  ghost predicate EnforcesBelow(g: seq<Gate>, n0: nat, gates: seq<Gate>, wires: nat, target: Wire, bound: nat)
    requires target < n0
  {
    forall w: Witness :: |w| == n0 && Satisfies(w, g) ==> (Extendable(w, gates, wires) <==> w[target] < bound)
  }

  lemma Enforced(g: seq<Gate>, n0: nat, g1: seq<Gate>, n1: nat, target: Wire, bound: nat, n: nat, lt: Wire,
                 w: Witness)
    requires target < n0 <= n1 && lt < n1 && 0 < bound <= Pow2(n) && |w| == n0 && Satisfies(w, g)
    requires ForcesComparison(g1, n1, bound - 1, target, n, lt) && AdmitsComparison(g, n0, g1, n1, target, n)
    ensures Extendable(w, g1 + [Assign(n1, Constant(0))] + [Connect(lt, n1)], n1 + 1) <==> w[target] < bound
  {
    var gates := g1 + [Assign(n1, Constant(0))] + [Connect(lt, n1)];
    if Extendable(w, gates, n1 + 1) {
      var w' :| Extends(w, w') && |w'| == n1 + 1 && Satisfies(w', gates);
      EnforcedSound(g1, n1, lt, w');
      assert w[target] == w'[..|w|][target] == w'[target];
    }
    if w[target] < bound {
      var w1 :| Extends(w, w1) && |w1| == n1 && Satisfies(w1, g1);
      assert w[target] == w1[..|w|][target] == w1[target];
      EnforcedComplete(g1, n1, lt, w1);
      assert (w1 + [0])[..|w|] == w1[..|w|];
    }
  }

  lemma EnforcedSound(g1: seq<Gate>, n1: nat, lt: Wire, w: Witness)
    requires |w| == n1 + 1 && Satisfies(w, g1 + [Assign(n1, Constant(0))] + [Connect(lt, n1)])
    ensures lt < |w| && w[lt] == 0 && Fits(w, g1, n1)
  {
    var gates := g1 + [Assign(n1, Constant(0))] + [Connect(lt, n1)];
    assert Holds(gates[|g1|], w) && Holds(gates[|g1| + 1], w);
    forall i | 0 <= i < |g1| ensures Holds(g1[i], w) {
      assert gates[i] == g1[i];
    }
  }

  lemma EnforcedComplete(g1: seq<Gate>, n1: nat, lt: Wire, w: Witness)
    requires |w| == n1 && lt < n1 && Satisfies(w, g1) && w[lt] == 0
    ensures Satisfies(w + [0], g1 + [Assign(n1, Constant(0))] + [Connect(lt, n1)])
  {
    SatisfiesFurther(g1, w, w + [0]);
  }

  method EnforceTargetLessThanConst(builder: Builder, target: Wire, bound: nat, n: nat)
    requires builder.Valid() && target < builder.wires && bound > 0 && ComparisonWidth(bound - 1, n)
    modifies builder
    ensures builder.Valid()
    ensures EnforcesBelow(old(builder.gates), old(builder.wires), builder.gates, builder.wires, target, bound)
  {
    ghost var g, n0 := builder.gates, builder.wires;
    var overflow := IsConstLessThan(builder, bound - 1, target, n);
    ghost var g1, n1 := builder.gates, builder.wires;
    var zero := builder.Emit(Constant(0));
    builder.ConnectTo(overflow, zero);
    forall w: Witness | |w| == n0 && Satisfies(w, g)
      ensures Extendable(w, builder.gates, builder.wires) <==> w[target] < bound
    {
      Enforced(g, n0, g1, n1, target, bound, n, overflow, w);
    }
  }

  // ---------------------------------------------------------------------------

  ghost predicate ForcesDigestsEqual(gates: seq<Gate>, wires: nat, a: seq<Wire>, b: seq<Wire>, n: nat, out: Wire)
    requires AllBelow(a, wires) && AllBelow(b, wires) && |a| == |b| && n <= |a| && out < wires
  {
    forall w: Witness :: Fits(w, gates, wires) ==> w[out] == Flag(On(w, a)[..n] == On(w, b)[..n])
  }

  lemma OneMoreLimb(g: seq<Gate>, n: nat, a: seq<Wire>, b: seq<Wire>, i: nat, all: Wire)
    requires AllBelow(a, n) && AllBelow(b, n) && |a| == |b| && i < |a| && all < n
    requires ForcesDigestsEqual(g, n, a, b, i, all)
    ensures ForcesDigestsEqual(g + [Assign(n, IsEqual(a[i], b[i]))] + [Assign(n + 1, Mul(all, n))], n + 2,
                               a, b, i + 1, n + 1)
  {
    var gates := g + [Assign(n, IsEqual(a[i], b[i]))] + [Assign(n + 1, Mul(all, n))];
    forall w: Witness | Fits(w, gates, n + 2)
      ensures w[n + 1] == Flag(On(w, a)[..i + 1] == On(w, b)[..i + 1])
    {
      assert Holds(gates[|g|], w) && Holds(gates[|g| + 1], w);
      assert Satisfies(w, g) by {
        assert forall k :: 0 <= k < |g| ==> g[k] == gates[k];
      }
      assert On(w, a)[..i + 1] == On(w, a)[..i] + [w[a[i]]];
      assert On(w, b)[..i + 1] == On(w, b)[..i] + [w[b[i]]];
      assert On(w, a)[..i + 1] == On(w, b)[..i + 1] ==> On(w, a)[..i + 1][..i] == On(w, b)[..i + 1][..i];
    }
  }

  method DigestsAreEqual(builder: Builder, a: seq<Wire>, b: seq<Wire>) returns (all: Wire)
    requires builder.Valid() && |a| == |b| == 4 && AllBelow(a, builder.wires) && AllBelow(b, builder.wires)
    modifies builder
    ensures builder.Valid() && all < builder.wires
    ensures Grown(old(builder.gates), old(builder.wires), builder.gates, builder.wires)
    ensures ForcesDigestsEqual(builder.gates, builder.wires, a, b, 4, all)
  {
    ghost var g, n := builder.gates, builder.wires;
    all := builder.Emit(Constant(1));
    forall w: Witness | Fits(w, builder.gates, builder.wires)
      ensures w[all] == Flag(On(w, a)[..0] == On(w, b)[..0])
    {
      assert Holds(builder.gates[|g|], w);
    }
    for i := 0 to 4
      invariant builder.Valid() && all < builder.wires
      invariant Grown(g, n, builder.gates, builder.wires)
      invariant ForcesDigestsEqual(builder.gates, builder.wires, a, b, i, all)
    {
      OneMoreLimb(builder.gates, builder.wires, a, b, i, all);
      GrownBy(g, n, builder.gates, builder.wires, IsEqual(a[i], b[i]));
      var limb := builder.Emit(IsEqual(a[i], b[i]));
      GrownBy(g, n, builder.gates, builder.wires, Mul(all, limb));
      all := builder.Emit(Mul(all, limb));
    }
  }
}
