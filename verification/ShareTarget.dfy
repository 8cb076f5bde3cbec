/**
 The two difficulty rules: the block rule over the whole 256-bit hash and the
 share rule over its top 64 bits.
 */
module ShareTarget {
  import opened Prelude

  type Hash = h: seq<Byte> | |h| == 32 witness seq(32, _ => 0)

  const U64: nat := 0x1_0000_0000_0000_0000
  const LOW: nat := U64 * U64 * U64
  const U256: nat := U64 * LOW
  const U512: nat := U256 * U256

  // ---------------------------------------------------------------------------
  // Numbers and bytes
  // ---------------------------------------------------------------------------

  function FromLe(bytes: seq<Byte>): nat {
    if bytes == [] then 0 else bytes[0] as nat + 256 * FromLe(bytes[1..])
  }

  function FromBe(bytes: seq<Byte>): nat {
    if bytes == [] then 0 else 256 * FromBe(bytes[..|bytes| - 1]) + bytes[|bytes| - 1] as nat
  }

  function ToLe(n: nat, length: nat): (bytes: seq<Byte>)
    ensures |bytes| == length
  {
    if length == 0 then [] else [(n % 256) as Byte] + ToLe(n / 256, length - 1)
  }

  function Pow256(n: nat): nat {
    if n == 0 then 1 else 256 * Pow256(n - 1)
  }

  lemma {:induction false} LeSplits(a: seq<Byte>, b: seq<Byte>)
    ensures FromLe(a + b) == FromLe(a) + Pow256(|a|) * FromLe(b)
  {
    if a == [] {
      assert a + b == b;
    } else {
      assert (a + b)[1..] == a[1..] + b;
      LeSplits(a[1..], b);
      Scale(a[0] as nat, FromLe(a[1..]), Pow256(|a| - 1), FromLe(b));
    }
  }

  lemma Scale(first: nat, others: nat, p: nat, n: nat)
    ensures first + 256 * (others + p * n) == first + 256 * others + 256 * p * n
  {
  }

  lemma {:induction false} LeIsBelow(bytes: seq<Byte>)
    ensures FromLe(bytes) < Pow256(|bytes|)
  {
    if bytes != [] {
      LeIsBelow(bytes[1..]);
    }
  }

  lemma {:induction false} LeReads(n: nat, length: nat)
    requires n < Pow256(length)
    ensures FromLe(ToLe(n, length)) == n
  {
    if length > 0 {
      LeReads(n / 256, length - 1);
      assert ToLe(n, length)[1..] == ToLe(n / 256, length - 1);
    }
  }

  lemma Widths()
    ensures Pow256(8) == U64 && Pow256(24) == LOW && Pow256(32) == U256
  {
    assert Pow256(8) == U64;
    assert Pow256(16) == U64 * U64;
    assert Pow256(24) == LOW;
  }

  // The hash read through a reversed copy, as the node reads it.
  method HashAsLe(hash: Hash) returns (n: nat)
    ensures n == FromLe(hash) < U256
  {
    var be := new Byte[32](_ => 0);
    for index := 0 to 32
      invariant forall k :: 0 <= k < index ==> be[31 - k] == hash[k]
    {
      be[31 - index] := hash[index];
    }
    n := FromBe(be[..]);
    Reversed(hash, be[..]);
    LeIsBelow(hash);
    Widths();
  }

  lemma {:induction false} Reversed(le: seq<Byte>, be: seq<Byte>)
    requires |le| == |be| && forall k :: 0 <= k < |le| ==> be[|le| - 1 - k] == le[k]
    ensures FromBe(be) == FromLe(le)
  {
    if le != [] {
      var n := |le| - 1;
      assert forall k :: 0 <= k < n ==> be[..n][n - 1 - k] == be[|le| - 1 - (k + 1)] == le[1..][k];
      Reversed(le[1..], be[..n]);
    }
  }

  // ---------------------------------------------------------------------------
  // The rules
  // ---------------------------------------------------------------------------

  // The block rule, with the 512-bit product that may overflow.
  predicate MeetsDifficulty(hash: Hash, difficulty: nat) {
    var product := FromLe(hash) * difficulty;
    difficulty != 0 && product < U512 && product % U512 <= U256 - 1
  }

  function Target(shareDifficulty: nat): nat {
    (U64 - 1) / (if shareDifficulty > 1 then shareDifficulty else 1)
  }

  function Top(hash: Hash): nat {
    FromLe(hash[24..])
  }

  function Bottom(hash: Hash): nat {
    FromLe(hash[..24])
  }

  predicate MeetsTarget(hash: Hash, target: nat) {
    Top(hash) < target
  }

  function AsU64(difficulty: nat): nat {
    if difficulty > U64 - 1 then U64 - 1 else difficulty
  }

  function JobShareDifficulty(configured: nat, difficulty: nat): nat {
    var clamped := if configured < AsU64(difficulty) then configured else AsU64(difficulty);
    if clamped > 1 then clamped else 1
  }

  // ---------------------------------------------------------------------------
  // How the rules compare
  // ---------------------------------------------------------------------------

  lemma Parts(hash: Hash)
    ensures FromLe(hash) == Top(hash) * LOW + Bottom(hash)
    ensures Bottom(hash) < LOW && Top(hash) < U64
  {
    assert hash == hash[..24] + hash[24..];
    LeSplits(hash[..24], hash[24..]);
    LeIsBelow(hash[..24]);
    LeIsBelow(hash[24..]);
    Widths();
  }

  lemma BlockRule(hash: Hash, difficulty: nat)
    ensures MeetsDifficulty(hash, difficulty) <==> difficulty != 0 && FromLe(hash) * difficulty < U256
  {
    if FromLe(hash) * difficulty < U512 {
      Small(FromLe(hash) * difficulty, U512);
    }
  }

  lemma Small(n: nat, m: nat)
    requires n < m
    ensures n % m == n
  {
  }

  lemma Grows(a: nat, b: nat, c: nat)
    requires a <= b
    ensures a * c <= b * c
  {
  }

  lemma Reorder(a: nat, b: nat, c: nat)
    ensures (a * b) * c == (a * c) * b
  {
  }

  // Below the target by a whole unit of the top word, with any bottom.
  lemma Under(top: nat, bottom: nat, low: nat, word: nat, d: nat, target: nat)
    requires top < target && bottom < low && target * d < word
    ensures (top * low + bottom) * d < word * low
  {
    Grows(top + 1, target, low);
    Grows(top * low + bottom, target * low, d);
    Reorder(target, low, d);
    Grows(target * d + 1, word, low);
  }

  lemma Over(top: nat, bottom: nat, low: nat, word: nat, d: nat, target: nat)
    requires top > target && (target + 1) * d >= word
    ensures (top * low + bottom) * d >= word * low
  {
    Grows(target + 1, top, low);
    Grows((target + 1) * low, top * low + bottom, d);
    Reorder(target + 1, low, d);
    Grows(word, (target + 1) * d, low);
  }

  lemma TargetIs(d: nat)
    requires d >= 1
    ensures Target(d) * d < U64 <= (Target(d) + 1) * d
  {
    Quotient(U64 - 1, d);
  }

  lemma Quotient(n: nat, d: nat)
    requires d >= 1
    ensures (n / d) * d <= n < (n / d + 1) * d
  {
  }

  lemma ShareIsABlock(hash: Hash, difficulty: nat)
    requires difficulty >= 1 && MeetsTarget(hash, Target(difficulty))
    ensures MeetsDifficulty(hash, difficulty)
  {
    Parts(hash);
    TargetIs(difficulty);
    Under(Top(hash), Bottom(hash), LOW, U64, difficulty, Target(difficulty));
    BlockRule(hash, difficulty);
  }

  // At one difficulty the two rules part exactly where the top word is the
  // target and the rest is small enough, and then it is a block that fails as
  // a share.
  lemma RulesDisagreeIff(hash: Hash, difficulty: nat)
    requires difficulty >= 1
    ensures (MeetsDifficulty(hash, difficulty) != MeetsTarget(hash, Target(difficulty))) <==>
      Top(hash) == Target(difficulty)
      && Bottom(hash) * difficulty < U256 - Target(difficulty) * difficulty * LOW
  {
    var target := Target(difficulty);
    Parts(hash);
    TargetIs(difficulty);
    BlockRule(hash, difficulty);
    if Top(hash) < target {
      ShareIsABlock(hash, difficulty);
    } else if Top(hash) > target {
      Over(Top(hash), Bottom(hash), LOW, U64, difficulty, target);
    } else {
      Spread(target, Bottom(hash), LOW, difficulty);
    }
  }

  lemma Spread(top: nat, bottom: nat, low: nat, d: nat)
    ensures (top * low + bottom) * d == top * d * low + bottom * d
  {
  }

  // Every difficulty has such a block, so the node must try the block rule
  // first.
  lemma BlockThatIsNoShare(difficulty: nat) returns (hash: Hash)
    requires difficulty >= 1
    ensures MeetsDifficulty(hash, difficulty) && !MeetsTarget(hash, Target(difficulty))
  {
    var target := Target(difficulty);
    TargetIs(difficulty);
    Grows(1, difficulty, target);
    hash := Spelled(target, 0);
    RulesDisagreeIff(hash, difficulty);
    Grows(target * difficulty + 1, U64, LOW);
  }

  lemma Spelled(top: nat, bottom: nat) returns (hash: Hash)
    requires top < U64 && bottom < LOW
    ensures Top(hash) == top && Bottom(hash) == bottom
  {
    Widths();
    hash := ToLe(bottom, 24) + ToLe(top, 8);
    LeReads(bottom, 24);
    LeReads(top, 8);
    assert hash[..24] == ToLe(bottom, 24) && hash[24..] == ToLe(top, 8);
  }

  // The share difficulty of a job is the largest that is neither above the
  // configured one nor above the block's, fits in 64 bits and is at least one.
  lemma ShareDifficultyIs(configured: nat, difficulty: nat, other: nat)
    ensures
      var share := JobShareDifficulty(configured, difficulty);
      && 1 <= share < U64
      && (configured >= 1 ==> share <= configured) && (difficulty >= 1 ==> share <= difficulty)
      && (other <= configured && other <= difficulty && other < U64 ==> other <= share)
  {
  }

  // So it is the configured one wherever the block difficulty allows it.
  lemma ConfiguredWhereAllowed(configured: nat, difficulty: nat)
    requires 1 <= configured < U64
    ensures JobShareDifficulty(configured, difficulty) == configured <==> configured <= difficulty || configured == 1
  {
  }

  // ---------------------------------------------------------------------------
  // The verdict on a share
  // ---------------------------------------------------------------------------

  datatype Verdict = TooWeak | GoodShare | GoodBlock

  function Judge(hash: Hash, configured: nat, difficulty: nat): Verdict {
    if MeetsDifficulty(hash, difficulty) then GoodBlock
    else if MeetsTarget(hash, Target(JobShareDifficulty(configured, difficulty))) then GoodShare
    else TooWeak
  }

  function Worth(v: Verdict): nat {
    match v
    case TooWeak => 0
    case GoodShare => 1
    case GoodBlock => 2
  }

  // A hash that is no larger is judged no worse.
  lemma SmallerIsNoWorse(hash: Hash, other: Hash, configured: nat, difficulty: nat)
    requires FromLe(hash) <= FromLe(other)
    ensures Worth(Judge(hash, configured, difficulty)) >= Worth(Judge(other, configured, difficulty))
  {
    BlockRule(hash, difficulty);
    BlockRule(other, difficulty);
    Grows(FromLe(hash), FromLe(other), difficulty);
    Parts(hash);
    Parts(other);
    TopIsNoLarger(Top(hash), Bottom(hash), Top(other), Bottom(other), LOW);
  }

  lemma TopIsNoLarger(top: nat, bottom: nat, top': nat, bottom': nat, low: nat)
    requires top * low + bottom <= top' * low + bottom' && bottom' < low
    ensures top <= top'
  {
    if top > top' {
      Grows(top' + 1, top, low);
    }
  }

  lemma BlockIsNeverRefused(hash: Hash, configured: nat, difficulty: nat)
    ensures FromLe(hash) * difficulty < U256 && difficulty > 0 <==> Judge(hash, configured, difficulty) == GoodBlock
  {
    BlockRule(hash, difficulty);
  }

  // The fast refill is for jobs whose every share is a block. Where the node
  // applies it that holds for exactly the difficulties from one to 2^64.
  lemma FastRefillIff(configured: nat, difficulty: nat)
    requires JobShareDifficulty(configured, difficulty) >= AsU64(difficulty)
    ensures (forall hash: Hash :: MeetsTarget(hash, Target(JobShareDifficulty(configured, difficulty)))
              ==> MeetsDifficulty(hash, difficulty))
        <==> 1 <= difficulty <= U64
  {
    var share := JobShareDifficulty(configured, difficulty);
    if difficulty == 0 {
      var hash := Spelled(0, 0);
      assert MeetsTarget(hash, Target(share)) && !MeetsDifficulty(hash, difficulty);
    } else if difficulty <= U64 {
      forall hash: Hash | MeetsTarget(hash, Target(share))
        ensures MeetsDifficulty(hash, difficulty)
      {
        SharesAreBlocks(hash, share, difficulty);
      }
    } else {
      var hash := Spelled(0, LOW - 1);
      Parts(hash);
      BlockRule(hash, difficulty);
      assert (LOW - 1) * difficulty >= (LOW - 1) * (U64 + 1);
      assert MeetsTarget(hash, Target(share)) && !MeetsDifficulty(hash, difficulty);
    }
  }

  lemma SharesAreBlocks(hash: Hash, share: nat, difficulty: nat)
    requires 1 <= difficulty <= U64 && share == AsU64(difficulty) && MeetsTarget(hash, Target(share))
    ensures MeetsDifficulty(hash, difficulty)
  {
    if difficulty < U64 {
      ShareIsABlock(hash, difficulty);
    } else {
      Parts(hash);
      BlockRule(hash, difficulty);
      assert FromLe(hash) <= LOW - 1;
      assert FromLe(hash) * U64 <= (LOW - 1) * U64;
    }
  }
}
