/**
 In-process mining: rounds of sixteen nonces a thread, on 32-bit arithmetic
 that wraps.
 */
module MiningRounds {
  import opened Prelude

  const WORD: nat := 0x1_0000_0000
  const BATCH: nat := 16

  type U32 = n: nat | n < WORD

  function Wrap(n: nat): U32 {
    n % WORD
  }

  // The nonce a thread tries at a step, and the cursor after a round, with
  // every operation wrapping on its own.
  function Nonce(start: U32, threads: nat, step: nat, thread: nat): U32 {
    Wrap(Wrap(start + Wrap(step * Wrap(threads))) + Wrap(thread))
  }

  function Moved(cursor: U32, threads: nat): U32 {
    Wrap(cursor + Wrap(BATCH * Wrap(threads)))
  }

  function Cursor(start: U32, threads: nat, round: nat): U32 {
    if round == 0 then start else Moved(Cursor(start, threads, round - 1), threads)
  }

  // ---------------------------------------------------------------------------
  // Where the nonces fall
  // ---------------------------------------------------------------------------

  lemma WrapAdds(a: nat, b: nat)
    ensures Wrap(Wrap(a) + b) == Wrap(a + b) == Wrap(b + Wrap(a))
  {
  }

  // `p` and `q` are a product before and after its own wrapping.
  lemma WrapAddsTwice(start: nat, p: nat, q: nat, thread: nat)
    requires Wrap(p) == Wrap(q)
    ensures Wrap(Wrap(start + Wrap(p)) + Wrap(thread)) == Wrap(start + (q + thread))
  {
    WrapAdds(q, start);
    WrapAdds(start + q, Wrap(thread));
    WrapAdds(thread, start + q);
  }

  lemma WrapMultiplies(a: nat, b: nat)
    ensures Wrap(a * Wrap(b)) == Wrap(a * b)
  {
    var q, r := b / WORD, Wrap(b);
    Distributes(a, q, r, b);
    WrapSkips(a * q, a * r);
  }

  lemma Distributes(a: nat, q: nat, r: nat, b: nat)
    requires b == WORD * q + r
    ensures a * b == WORD * (a * q) + a * r
  {
  }

  lemma WrapSkips(q: nat, n: nat)
    ensures Wrap(WORD * q + n) == Wrap(n)
  {
  }

  // The position of a try among all the tries of all the rounds.
  function Index(threads: nat, round: nat, step: nat, thread: nat): nat {
    round * (BATCH * threads) + (step * threads + thread)
  }

  lemma NonceIs(start: U32, threads: nat, step: nat, thread: nat)
    ensures Nonce(start, threads, step, thread) == Wrap(start + (step * threads + thread))
  {
    WrapMultiplies(step, threads);
    WrapAddsTwice(start, step * Wrap(threads), step * threads, thread);
  }

  lemma {:induction false} CursorIs(start: U32, threads: nat, round: nat)
    ensures Cursor(start, threads, round) == Wrap(start + round * (BATCH * threads))
  {
    if round > 0 {
      CursorIs(start, threads, round - 1);
      WrapMultiplies(BATCH, threads);
      OneMore(round, BATCH * threads);
      WrapTwo(start, (round - 1) * (BATCH * threads), BATCH * Wrap(threads), BATCH * threads,
              round * (BATCH * threads));
    }
  }

  lemma WrapTwo(start: nat, before: nat, p: nat, q: nat, after: nat)
    requires Wrap(p) == Wrap(q) && after == before + q
    ensures Wrap(Wrap(start + before) + Wrap(p)) == Wrap(start + after)
  {
    WrapAdds(start + before, Wrap(q));
    WrapAdds(q, start + before);
  }

  lemma OneMore(n: nat, x: nat)
    requires n > 0
    ensures (n - 1) * x + x == n * x
  {
  }

  // Across rounds the tries walk the nonce space one by one.
  lemma TriesWalk(start: U32, threads: nat, round: nat, step: nat, thread: nat)
    ensures Nonce(Cursor(start, threads, round), threads, step, thread)
         == Wrap(start + Index(threads, round, step, thread))
  {
    CursorIs(start, threads, round);
    NonceFrom(Cursor(start, threads, round), start, round * (BATCH * threads), threads, step, thread);
  }

  lemma NonceFrom(cursor: U32, start: U32, behind: nat, threads: nat, step: nat, thread: nat)
    requires cursor == Wrap(start + behind)
    ensures Nonce(cursor, threads, step, thread) == Wrap(start + (behind + (step * threads + thread)))
  {
    NonceIs(cursor, threads, step, thread);
    WrapFrom(start, behind, step * threads + thread);
  }

  lemma WrapFrom(start: nat, behind: nat, ahead: nat)
    ensures Wrap(Wrap(start + behind) + ahead) == Wrap(start + (behind + ahead))
  {
    WrapAdds(start + behind, ahead);
  }

  // The same position as a place in a table with a column for each thread.
  lemma IndexIs(threads: nat, round: nat, step: nat, thread: nat)
    ensures Index(threads, round, step, thread) == (round * BATCH + step) * threads + thread
  {
  }

  // ---------------------------------------------------------------------------
  // When no nonce is tried twice
  // ---------------------------------------------------------------------------

  datatype Try = Try(round: nat, step: nat, thread: nat)

  predicate Made(a: Try, threads: nat, rounds: nat) {
    a.round < rounds && a.step < BATCH && a.thread < threads
  }

  function Tried(start: U32, threads: nat, a: Try): U32 {
    Nonce(Cursor(start, threads, a.round), threads, a.step, a.thread)
  }

  function At(threads: nat, n: nat): Try
    requires threads > 0
  {
    Try(n / threads / BATCH, n / threads % BATCH, n % threads)
  }

  lemma Mixed(q: nat, r: nat, d: nat)
    requires r < d
    ensures (q * d + r) / d == q && (q * d + r) % d == r
  {
    Row(q, q + 1, r, d);
    var n := q * d + r;
    assert n == (n / d) * d + n % d;
    Row(n / d, q, n % d, d);
    Row(n / d, q + 1, n % d, d);
  }

  // A place in a table of d columns is above row m exactly when its row is.
  lemma Row(q: nat, m: nat, r: nat, d: nat)
    requires r < d
    ensures q * d + r < m * d <==> q < m
  {
    if q < m {
      assert (q + 1) * d <= m * d;
    } else {
      assert m * d <= q * d;
    }
  }

  lemma AtIndex(threads: nat, a: Try)
    requires a.step < BATCH && a.thread < threads
    ensures At(threads, Index(threads, a.round, a.step, a.thread)) == a
  {
    IndexIs(threads, a.round, a.step, a.thread);
    Mixed(a.round * BATCH + a.step, a.thread, threads);
  }

  lemma IndexAt(threads: nat, n: nat)
    requires threads > 0
    ensures var a := At(threads, n);
      Index(threads, a.round, a.step, a.thread) == n && a.step < BATCH && a.thread < threads
  {
    var a := At(threads, n);
    IndexIs(threads, a.round, a.step, a.thread);
    assert n == (n / threads) * threads + n % threads;
  }

  lemma MadeIff(threads: nat, rounds: nat, a: Try)
    requires a.step < BATCH && a.thread < threads
    ensures a.round < rounds <==> Index(threads, a.round, a.step, a.thread) < rounds * BATCH * threads
  {
    IndexIs(threads, a.round, a.step, a.thread);
    Row(a.round * BATCH + a.step, rounds * BATCH, a.thread, threads);
  }

  ghost predicate NoneTwice(start: U32, threads: nat, rounds: nat) {
    forall a, b :: Made(a, threads, rounds) && Made(b, threads, rounds) && a != b ==>
      Tried(start, threads, a) != Tried(start, threads, b)
  }

  // The tries of some rounds are all different exactly when they fit in the
  // nonce space.
  lemma DistinctIff(start: U32, threads: nat, rounds: nat)
    requires threads > 0
    ensures NoneTwice(start, threads, rounds) <==> rounds * BATCH * threads <= WORD
  {
    if rounds * BATCH * threads <= WORD {
      forall a, b | Made(a, threads, rounds) && Made(b, threads, rounds) && a != b
        ensures Tried(start, threads, a) != Tried(start, threads, b)
      {
        Apart(start, threads, rounds, a, b);
      }
    } else {
      var a, b := At(threads, 0), At(threads, WORD);
      Meet(start, threads, a, b);
      IndexAt(threads, 0);
      IndexAt(threads, WORD);
      MadeIff(threads, rounds, a);
      MadeIff(threads, rounds, b);
    }
  }

  lemma Apart(start: U32, threads: nat, rounds: nat, a: Try, b: Try)
    requires rounds * BATCH * threads <= WORD
    requires Made(a, threads, rounds) && Made(b, threads, rounds) && a != b
    ensures Tried(start, threads, a) != Tried(start, threads, b)
  {
    TriesWalk(start, threads, a.round, a.step, a.thread);
    TriesWalk(start, threads, b.round, b.step, b.thread);
    MadeIff(threads, rounds, a);
    MadeIff(threads, rounds, b);
    AtIndex(threads, a);
    AtIndex(threads, b);
    WrapIsInjective(start, Index(threads, a.round, a.step, a.thread), Index(threads, b.round, b.step, b.thread));
  }

  lemma WrapIsInjective(start: U32, i: nat, j: nat)
    requires i < WORD && j < WORD && i != j
    ensures Wrap(start + i) != Wrap(start + j)
  {
  }

  lemma Meet(start: U32, threads: nat, a: Try, b: Try)
    requires threads > 0 && a == At(threads, 0) && b == At(threads, WORD)
    ensures Tried(start, threads, a) == Tried(start, threads, b) && a != b
  {
    IndexAt(threads, 0);
    IndexAt(threads, WORD);
    TriesWalk(start, threads, a.round, a.step, a.thread);
    TriesWalk(start, threads, b.round, b.step, b.thread);
    WrapSkips(1, start);
  }

  // ---------------------------------------------------------------------------
  // A round
  // ---------------------------------------------------------------------------

  // What a thread tries when nothing stops it.
  function Walk(start: U32, threads: nat, thread: nat): seq<U32> {
    seq(BATCH, (step: nat) => Nonce(start, threads, step, thread))
  }

  // What a round meets on the way: the threads whose machine starts, the steps
  // that come late enough to see the stop flag if it is up, and what hashing a
  // nonce says, if it succeeds.
  datatype Weather = Weather(starts: nat -> bool, sees: (nat, nat) -> bool, meets: U32 -> Option<bool>)

  // The thread's machine starts and hashes each of its nonces.
  ghost predicate Able(w: Weather, start: U32, threads: nat, thread: nat) {
    w.starts(thread) && forall n :: n in Walk(start, threads, thread) ==> w.meets(n).Some?
  }

  // `raised` says whether the stop flag goes up while this worker runs.
  method Worker(w: Weather, raised: bool, start: U32, threads: nat, thread: nat)
    returns (seal: Option<U32>, tried: seq<U32>)
    ensures tried <= Walk(start, threads, thread)
    ensures !w.starts(thread) ==> tried == []
    ensures forall k :: 0 <= k < |tried| - 1 ==> w.meets(tried[k]) == Some(false)
    ensures raised ==> forall k :: 0 <= k < |tried| ==> !w.sees(thread, k)
    ensures seal == if tried != [] && w.meets(tried[|tried| - 1]) == Some(true) then Some(tried[|tried| - 1]) else None
    ensures w.starts(thread) && |tried| < BATCH ==>
      || (tried != [] && w.meets(tried[|tried| - 1]) != Some(false))
      || (raised && w.sees(thread, |tried|))
    ensures seal.Some? ==> seal.value in tried && w.meets(seal.value) == Some(true)
    ensures seal.None? ==> forall n :: n in tried ==> w.meets(n) != Some(true)
    ensures seal.None? && !raised && Able(w, start, threads, thread) ==> tried == Walk(start, threads, thread)
  {
    seal, tried := None, [];
    if !w.starts(thread) {
      return;
    }
    ghost var walk := Walk(start, threads, thread);
    for step := 0 to BATCH
      invariant tried == walk[..step]
      invariant forall k :: 0 <= k < step ==> w.meets(tried[k]) == Some(false)
      invariant raised ==> forall k :: 0 <= k < step ==> !w.sees(thread, k)
    {
      if raised && w.sees(thread, step) {
        return;
      }
      var nonce := Nonce(start, threads, step, thread);
      assert nonce == walk[step] && walk[step] in walk;
      tried := tried + [nonce];
      assert tried == walk[..step + 1];
      match w.meets(nonce) {
        case None => return;
        case Some(true) => return Some(nonce), tried;
        case Some(false) =>
      }
    }
  }

  // Each thread has tried a beginning of its walk.
  ghost predicate OnTheWalk(tried: seq<seq<U32>>, start: U32, threads: nat) {
    |tried| <= threads && forall i :: 0 <= i < |tried| ==> tried[i] <= Walk(start, threads, i)
  }

  // No thread that was able has left out a nonce, and none it tried was good.
  ghost predicate Fruitless(w: Weather, tried: seq<seq<U32>>, start: U32, threads: nat) {
    && (forall i, n :: 0 <= i < |tried| && n in tried[i] ==> w.meets(n) != Some(true))
    && (forall i :: 0 <= i < |tried| && Able(w, start, threads, i) ==> tried[i] == Walk(start, threads, i))
  }

  // Every offset of the block is tried, by the thread and at the step it
  // belongs to.
  ghost predicate CoversBlock(tried: seq<seq<U32>>, start: U32, threads: nat) {
    && |tried| == threads
    && (forall i :: 0 <= i < threads ==> |tried[i]| == BATCH)
    && (forall n: nat :: n < BATCH * threads ==>
          var a := At(threads, n); a.step < BATCH && a.thread < threads && tried[a.thread][a.step] == Wrap(start + n))
  }

  // The last thing thread i tried, which is good, where no thread before it met
  // a good one.
  ghost predicate IsFirst(w: Weather, tried: seq<seq<U32>>, i: nat, nonce: U32) {
    && i < |tried| && tried[i] != [] && nonce == tried[i][|tried[i]| - 1] && w.meets(nonce) == Some(true)
    && forall j, n :: 0 <= j < i && n in tried[j] ==> w.meets(n) != Some(true)
  }

  // No nonce is tried at two places.
  ghost predicate TriedOnce(tried: seq<seq<U32>>) {
    forall i, j, s, t ::
      0 <= i < |tried| && 0 <= j < |tried| && 0 <= s < |tried[i]| && 0 <= t < |tried[j]| && tried[i][s] == tried[j][t]
      ==> i == j && s == t
  }

  // A completed round. Workers are awaited in order and the stop flag goes up
  // when one of them came back with a seal, so it can stop only later ones. The
  // seal of a round is good. A round without one has tried every nonce of its
  // block, unless a machine failed, and no round tries a nonce twice while its
  // block fits in the nonce space.
  method LocalRound(w: Weather, start: U32, threads: nat) returns (found: Option<U32>, tried: seq<seq<U32>>)
    ensures |tried| == threads && OnTheWalk(tried, start, threads)
    ensures found.Some? ==> exists i: nat :: IsFirst(w, tried, i, found.value)
    ensures found.None? ==> Fruitless(w, tried, start, threads)
    ensures found.None? && (forall i :: 0 <= i < threads ==> Able(w, start, threads, i)) ==>
      CoversBlock(tried, start, threads)
    ensures BATCH * threads <= WORD ==> TriedOnce(tried)
  {
    found, tried := None, [];
    for thread := 0 to threads
      invariant |tried| == thread && OnTheWalk(tried, start, threads)
      invariant found.Some? ==> exists i: nat :: IsFirst(w, tried, i, found.value)
      invariant found.None? ==> Fruitless(w, tried, start, threads)
    {
      var seal, nonces := Worker(w, found.Some?, start, threads, thread);
      if found.Some? {
        StillFirst(w, tried, nonces, found.value);
      } else {
        OneMoreThread(w, tried, nonces, seal, start, threads);
      }
      tried := tried + [nonces];
      found := if found.Some? then found else seal;
    }
    if found.None? && forall i :: 0 <= i < threads ==> Able(w, start, threads, i) {
      WalksCoverBlock(tried, start, threads);
    }
    if BATCH * threads <= WORD {
      WalksTryOnce(tried, start, threads);
    }
  }

  lemma OneMoreThread(w: Weather, tried: seq<seq<U32>>, nonces: seq<U32>, seal: Option<U32>, start: U32, threads: nat)
    requires Fruitless(w, tried, start, threads)
    requires seal.None? ==> forall n :: n in nonces ==> w.meets(n) != Some(true)
    requires seal.None? && Able(w, start, threads, |tried|) ==> nonces == Walk(start, threads, |tried|)
    requires seal.Some? ==> nonces != [] && seal.value == nonces[|nonces| - 1] && w.meets(seal.value) == Some(true)
    ensures seal.None? ==> Fruitless(w, tried + [nonces], start, threads)
    ensures seal.Some? ==> IsFirst(w, tried + [nonces], |tried|, seal.value)
  {
  }

  lemma StillFirst(w: Weather, tried: seq<seq<U32>>, nonces: seq<U32>, nonce: U32)
    requires exists i: nat :: IsFirst(w, tried, i, nonce)
    ensures exists i: nat :: IsFirst(w, tried + [nonces], i, nonce)
  {
    var i: nat :| IsFirst(w, tried, i, nonce);
    assert IsFirst(w, tried + [nonces], i, nonce);
  }

  lemma WalksCoverBlock(tried: seq<seq<U32>>, start: U32, threads: nat)
    requires |tried| == threads && forall i :: 0 <= i < threads ==> tried[i] == Walk(start, threads, i)
    ensures CoversBlock(tried, start, threads)
  {
    forall n: nat | n < BATCH * threads
      ensures var a := At(threads, n);
        a.step < BATCH && a.thread < threads && tried[a.thread][a.step] == Wrap(start + n)
    {
      AtInBlock(threads, n);
      NonceIs(start, threads, At(threads, n).step, At(threads, n).thread);
    }
  }

  // An offset of the first block is at its own step and thread.
  lemma AtInBlock(threads: nat, n: nat)
    requires n < BATCH * threads
    ensures var a := At(threads, n);
      a.round == 0 && a.step < BATCH && a.thread < threads && a.step * threads + a.thread == n
  {
    IndexAt(threads, n);
    MadeIff(threads, 1, At(threads, n));
  }

  lemma WalksTryOnce(tried: seq<seq<U32>>, start: U32, threads: nat)
    requires OnTheWalk(tried, start, threads) && BATCH * threads <= WORD
    ensures TriedOnce(tried)
  {
    forall i, j, s, t | 0 <= i < |tried| && 0 <= j < |tried| && 0 <= s < |tried[i]| && 0 <= t < |tried[j]|
        && tried[i][s] == tried[j][t]
      ensures i == j && s == t
    {
      DistinctIff(start, threads, 1);
      var a, b := Try(0, s, i), Try(0, t, j);
      assert tried[i][s] == Walk(start, threads, i)[s] && tried[j][t] == Walk(start, threads, j)[t];
      assert Tried(start, threads, a) == Tried(start, threads, b);
      assert Made(a, threads, 1) && Made(b, threads, 1);
    }
  }

  // ---------------------------------------------------------------------------
  // A template
  // ---------------------------------------------------------------------------

  // A round, and whether a rig won the template while it ran.
  datatype Round = Round(weather: Weather, dropped: bool)

  // A dropped round: its result goes nowhere, and the flag goes up under
  // workers that may be anywhere in their walk.
  method DroppedRound(w: Weather, start: U32, threads: nat) returns (tried: seq<seq<U32>>)
    ensures |tried| == threads && OnTheWalk(tried, start, threads)
  {
    tried := [];
    for thread := 0 to threads
      invariant |tried| == thread && OnTheWalk(tried, start, threads)
    {
      var _, nonces := Worker(w, true, start, threads, thread);
      tried := tried + [nonces];
    }
  }

  // The try a place in the rounds' tries stands for.
  ghost predicate Shows(trials: seq<seq<seq<U32>>>, a: Try, nonce: U32) {
    && a.round < |trials| && a.thread < |trials[a.round]| && a.step < |trials[a.round][a.thread]|
    && trials[a.round][a.thread][a.step] == nonce
  }

  ghost predicate RoundsOnTheWalk(trials: seq<seq<seq<U32>>>, start: U32, threads: nat) {
    forall k :: 0 <= k < |trials| ==>
      |trials[k]| == threads && OnTheWalk(trials[k], Cursor(start, threads, k), threads)
  }

  // The rounds of one template, from any start. A nonce is never tried at two
  // places while the tries fit in the nonce space, dropped rounds included, and
  // rounds that all came back without a seal have tried every nonce on the way.
  method MineTemplate(rounds: seq<Round>, start: U32, threads: nat)
    returns (found: Option<U32>, trials: seq<seq<seq<U32>>>)
    ensures |trials| <= |rounds| && RoundsOnTheWalk(trials, start, threads)
    ensures |trials| * BATCH * threads <= WORD ==>
      forall a, b, nonce :: Shows(trials, a, nonce) && Shows(trials, b, nonce) ==> a == b
    ensures found.None? ==> |trials| == |rounds|
    ensures found.Some? ==> exists a :: Shows(trials, a, found.value) && IsGood(rounds, a.round, found.value)
    ensures found.None? && threads > 0 ==> forall n: nat ::
      n < |rounds| * BATCH * threads && Finished(rounds, start, threads, At(threads, n).round) ==>
        Shows(trials, At(threads, n), Wrap(start + n))
  {
    found, trials := None, [];
    var cursor := start;
    var k := 0;
    while k < |rounds| && found.None?
      invariant 0 <= k <= |rounds| && |trials| == k && cursor == Cursor(start, threads, k)
      invariant RoundsOnTheWalk(trials, start, threads)
      invariant found.Some? ==> exists a :: Shows(trials, a, found.value) && IsGood(rounds, a.round, found.value)
      invariant found.None? ==> forall j :: 0 <= j < k && Finished(rounds, start, threads, j) ==>
        CoversBlock(trials[j], Cursor(start, threads, j), threads)
    {
      var tried;
      if rounds[k].dropped {
        tried := DroppedRound(rounds[k].weather, cursor, threads);
      } else {
        found, tried := LocalRound(rounds[k].weather, cursor, threads);
      }
      ghost var before := trials;
      trials := trials + [tried];
      OneMoreRound(before, tried, start, threads);
      if found.Some? {
        SealIsShown(rounds[k].weather, before, tried, found.value);
      }
      cursor := Moved(cursor, threads);
      k := k + 1;
    }
    if |trials| * BATCH * threads <= WORD {
      RoundsTryOnce(trials, start, threads);
    }
    if found.None? && threads > 0 {
      RoundsCover(rounds, trials, start, threads);
    }
  }

  lemma OneMoreRound(trials: seq<seq<seq<U32>>>, tried: seq<seq<U32>>, start: U32, threads: nat)
    requires RoundsOnTheWalk(trials, start, threads)
    requires |tried| == threads && OnTheWalk(tried, Cursor(start, threads, |trials|), threads)
    ensures RoundsOnTheWalk(trials + [tried], start, threads)
  {
  }

  lemma SealIsShown(w: Weather, trials: seq<seq<seq<U32>>>, tried: seq<seq<U32>>, nonce: U32)
    requires exists i: nat :: IsFirst(w, tried, i, nonce)
    ensures exists a: Try :: a.round == |trials| && Shows(trials + [tried], a, nonce)
  {
    var i: nat :| IsFirst(w, tried, i, nonce);
    assert Shows(trials + [tried], Try(|trials|, |tried[i]| - 1, i), nonce);
  }

  predicate IsGood(rounds: seq<Round>, k: nat, nonce: U32) {
    k < |rounds| && rounds[k].weather.meets(nonce) == Some(true)
  }

  // A round that came back, and whose machines all worked.
  ghost predicate Finished(rounds: seq<Round>, start: U32, threads: nat, k: nat) {
    && k < |rounds| && !rounds[k].dropped
    && forall i :: 0 <= i < threads ==> Able(rounds[k].weather, Cursor(start, threads, k), threads, i)
  }

  lemma RoundsTryOnce(trials: seq<seq<seq<U32>>>, start: U32, threads: nat)
    requires RoundsOnTheWalk(trials, start, threads) && |trials| * BATCH * threads <= WORD
    ensures forall a, b, nonce :: Shows(trials, a, nonce) && Shows(trials, b, nonce) ==> a == b
  {
    forall a, b, nonce | Shows(trials, a, nonce) && Shows(trials, b, nonce) ensures a == b {
      DistinctIff(start, threads, |trials|);
      ShownIsTried(trials, start, threads, a, nonce);
      ShownIsTried(trials, start, threads, b, nonce);
    }
  }

  lemma ShownIsTried(trials: seq<seq<seq<U32>>>, start: U32, threads: nat, a: Try, nonce: U32)
    requires RoundsOnTheWalk(trials, start, threads) && Shows(trials, a, nonce)
    ensures Made(a, threads, |trials|) && Tried(start, threads, a) == nonce
  {
    var walk := Walk(Cursor(start, threads, a.round), threads, a.thread);
    assert trials[a.round][a.thread] <= walk;
    assert trials[a.round][a.thread][a.step] == walk[a.step];
  }

  lemma RoundsCover(rounds: seq<Round>, trials: seq<seq<seq<U32>>>, start: U32, threads: nat)
    requires threads > 0 && |trials| == |rounds|
    requires forall j :: 0 <= j < |rounds| && Finished(rounds, start, threads, j) ==>
      CoversBlock(trials[j], Cursor(start, threads, j), threads)
    ensures forall n: nat ::
      n < |rounds| * BATCH * threads && Finished(rounds, start, threads, At(threads, n).round) ==>
        Shows(trials, At(threads, n), Wrap(start + n))
  {
    forall n: nat | n < |rounds| * BATCH * threads && Finished(rounds, start, threads, At(threads, n).round)
      ensures Shows(trials, At(threads, n), Wrap(start + n))
    {
      IndexAt(threads, n);
      CoveredIsShown(trials, start, threads, At(threads, n));
    }
  }

  lemma CoveredIsShown(trials: seq<seq<seq<U32>>>, start: U32, threads: nat, a: Try)
    requires a.step < BATCH && a.thread < threads && a.round < |trials|
    requires CoversBlock(trials[a.round], Cursor(start, threads, a.round), threads)
    ensures Shows(trials, a, Wrap(start + Index(threads, a.round, a.step, a.thread)))
  {
    TriedInBlock(trials[a.round], Cursor(start, threads, a.round), threads, a);
    CursorIs(start, threads, a.round);
    WrapFrom(start, a.round * (BATCH * threads), a.step * threads + a.thread);
  }

  lemma TriedInBlock(tried: seq<seq<U32>>, start: U32, threads: nat, a: Try)
    requires a.step < BATCH && a.thread < threads && CoversBlock(tried, start, threads)
    ensures a.thread < |tried| && a.step < |tried[a.thread]|
    ensures tried[a.thread][a.step] == Wrap(start + (a.step * threads + a.thread))
  {
    InBlock(threads, a);
  }

  // Within its block a try is at the place its offset there says.
  lemma InBlock(threads: nat, a: Try)
    requires a.step < BATCH && a.thread < threads
    ensures
      var m := a.step * threads + a.thread;
      m < BATCH * threads && At(threads, m).step == a.step && At(threads, m).thread == a.thread
  {
    Mixed(a.step, a.thread, threads);
    Row(a.step, BATCH, a.thread, threads);
  }
}
