/**
 The seal channel between the connections and the mining loop: first in, first
 out, and everything in it was earned by a credited share.
 */
module StratumChannel {
  import opened Prelude
  import opened StratumModel

  // ---------------------------------------------------------------------------
  // What was sent and taken, by the schedule
  // ---------------------------------------------------------------------------

  // A block for the template that was current at its lookup, while there is room.
  function SentBy(s: State, a: Action): seq<Seal> {
    if a.OfConn? && a.conn.SubmitHand? && a.c in s.conns && s.conns[a.c].pc.Handing?
       && s.conns[a.c].pc.isCurrent && |s.channel| < SEAL_CHANNEL_DEPTH
    then [Seal(s.conns[a.c].pc.job, s.conns[a.c].pc.nonce)] else []
  }

  predicate Takes(s: State, a: Action) {
    a == OfMiner(Receive) && s.miner.Mining? && s.channel != []
  }

  function Sent(schedule: seq<Action>): seq<Seal> {
    if schedule == [] then []
    else
      var before := schedule[..|schedule| - 1];
      Sent(before) + SentBy(Run(before), schedule[|schedule| - 1])
  }

  function Taken(schedule: seq<Action>): nat {
    if schedule == [] then 0
    else
      var before := schedule[..|schedule| - 1];
      Taken(before) + One(Takes(Run(before), schedule[|schedule| - 1]))
  }

  predicate HasSeal(miner: MinerPc) {
    miner.InHand? || miner.Checked? || miner.Submitting?
  }

  ghost predicate ChannelOk(s: State, sent: seq<Seal>, taken: nat) {
    && taken <= |sent| && s.channel == sent[taken..]
    && (HasSeal(s.miner) ==> taken > 0 && s.miner.seal == sent[taken - 1])
  }

  // ---------------------------------------------------------------------------
  // Each action keeps it
  // ---------------------------------------------------------------------------

  lemma ConnKeepsMiner(s: State, c: ConnId, a: ConnAction)
    ensures ConnStep(s, c, a).miner == s.miner
    ensures !a.SubmitHand? ==> ConnStep(s, c, a).channel == s.channel
  {
    match a {
      case Open | ReadLogin | LoginAcquire | LoginList | LoginReply(_) | ReadSubmit(_, _) | Disconnect =>
      case SubmitLookup | SubmitSession | SubmitRefuse | SubmitInsert =>
      case SubmitHash(_) | SubmitCount | SubmitHand =>
    }
  }

  lemma HandSends(s: State, c: ConnId)
    ensures SubmitHandBy(s, c).channel == s.channel + SentBy(s, OfConn(c, SubmitHand))
  {
  }

  lemma ConnKeepsChannel(s: State, c: ConnId, a: ConnAction, sent: seq<Seal>, taken: nat)
    requires ChannelOk(s, sent, taken)
    ensures ChannelOk(ConnStep(s, c, a), sent + SentBy(s, OfConn(c, a)), taken)
  {
    ConnKeepsMiner(s, c, a);
    var more := SentBy(s, OfConn(c, a));
    if a.SubmitHand? {
      HandSends(s, c);
    }
    assert (sent + more)[taken..] == sent[taken..] + more;
    assert HasSeal(s.miner) ==> (sent + more)[taken - 1] == sent[taken - 1];
  }

  // The loop keeps a seal until it is done with it, and takes the first.
  ghost predicate SameSeal(s: State, t: State) {
    t.channel == s.channel && (HasSeal(t.miner) ==> HasSeal(s.miner) && t.miner.seal == s.miner.seal)
  }

  lemma TableStepTakesNone(s: State, a: MinerAction)
    requires !a.Receive? && !a.Compare? && !a.Leave? && !a.GiveUp? && !a.Submit? && !a.Submitted?
    ensures SameSeal(s, MinerStep(s, a))
  {
    match a {
      case Pause | PauseAcquire | PauseRoll | PauseEvict | PauseDrain | PauseRelease | Enable | NoTemplate =>
      case Template | PushAcquire | PushRoll | PushEvict | PushStart | PushOne(_, _) | PushRelease =>
    }
  }

  lemma SealStepTakesNone(s: State, a: MinerAction)
    requires a.Compare? || a.Leave? || a.GiveUp? || a.Submit? || a.Submitted?
    ensures SameSeal(s, MinerStep(s, a))
  {
    match a {
      case Compare | Leave | GiveUp | Submit | Submitted(_) =>
    }
  }

  lemma MinerTakes(s: State, a: MinerAction)
    ensures
      var t := MinerStep(s, a);
      if Takes(s, OfMiner(a)) then
        s.channel != [] && t.channel == s.channel[1..] && HasSeal(t.miner) && t.miner.seal == s.channel[0]
      else SameSeal(s, t)
  {
    match a {
      case Receive =>
      case Compare | Leave | GiveUp | Submit | Submitted(_) => SealStepTakesNone(s, a);
      case _ => TableStepTakesNone(s, a);
    }
  }

  lemma MinerKeepsChannel(s: State, a: MinerAction, sent: seq<Seal>, taken: nat)
    requires ChannelOk(s, sent, taken)
    ensures ChannelOk(MinerStep(s, a), sent, taken + One(Takes(s, OfMiner(a))))
  {
    MinerTakes(s, a);
    if Takes(s, OfMiner(a)) {
      assert s.channel[0] == sent[taken] && s.channel[1..] == sent[taken + 1..];
    }
  }

  // The mining loop gets the seals in the order they were sent, each once, and
  // none that was not sent.
  lemma {:induction false} FirstInFirstOut(schedule: seq<Action>)
    ensures ChannelOk(Run(schedule), Sent(schedule), Taken(schedule))
  {
    if schedule != [] {
      var before, a := schedule[..|schedule| - 1], schedule[|schedule| - 1];
      FirstInFirstOut(before);
      match a {
        case OfConn(c, conn) => ConnKeepsChannel(Run(before), c, conn, Sent(before), Taken(before));
        case OfMiner(miner) =>
          MinerKeepsChannel(Run(before), miner, Sent(before), Taken(before));
          assert Sent(before) + [] == Sent(before);
      }
    }
  }

  // ---------------------------------------------------------------------------
  // Earned
  // ---------------------------------------------------------------------------

  // A share of some session with this job and nonce was credited.
  ghost predicate Earned(credited: multiset<Share>, job: JobId, nonce: nat) {
    exists session :: Share(job, session, nonce) in credited
  }

  predicate Won(pc: ConnPc) {
    pc.Winning? || pc.Handing?
  }

  ghost predicate WinnersOk(s: State) {
    forall c :: c in s.conns && Won(s.conns[c].pc) ==>
      Earned(s.history.credited, s.conns[c].pc.job, s.conns[c].pc.nonce)
  }

  ghost predicate SentOk(s: State, sent: seq<Seal>) {
    forall i :: 0 <= i < |sent| ==> Earned(s.history.credited, sent[i].job, sent[i].nonce)
  }

  // Only a credit makes a winner, and a winner goes on with its own job and nonce.
  ghost predicate Wins(s: State, t: State) {
    && s.history.credited <= t.history.credited
    && (forall c :: c in t.conns && Won(t.conns[c].pc) ==>
          || (&& c in s.conns && Won(s.conns[c].pc)
              && t.conns[c].pc.job == s.conns[c].pc.job && t.conns[c].pc.nonce == s.conns[c].pc.nonce)
          || Earned(t.history.credited, t.conns[c].pc.job, t.conns[c].pc.nonce))
  }

  lemma HashWins(s: State, c: ConnId, verdict: Verdict)
    ensures Wins(s, SubmitHashBy(s, c, verdict))
  {
    var t := SubmitHashBy(s, c, verdict);
    if c in s.conns && s.conns[c].pc.Hashing? && s.conns[c].session.Some? && !verdict.TooWeak? {
      var pc := s.conns[c].pc;
      assert Share(pc.job, s.conns[c].session.value, pc.nonce) in t.history.credited;
    }
  }

  lemma CountWins(s: State, c: ConnId)
    ensures Wins(s, SubmitCountBy(s, c))
  {
  }

  lemma HandWins(s: State, c: ConnId)
    ensures Wins(s, SubmitHandBy(s, c))
  {
    HandIsOnlySubmit(s, c);
    var t := SubmitHandBy(s, c);
    if c in s.conns && s.conns[c].pc.Handing? {
      assert t.conns[c].pc.Reading? && t.history.credited == s.history.credited;
    }
  }

  lemma ConnKeepsCredited(s: State, c: ConnId, a: ConnAction)
    requires !a.SubmitHash?
    ensures ConnStep(s, c, a).history.credited == s.history.credited
  {
    match a {
      case Open | ReadLogin | LoginAcquire | LoginList | LoginReply(_) | ReadSubmit(_, _) | Disconnect =>
      case SubmitLookup | SubmitSession | SubmitRefuse | SubmitInsert =>
      case SubmitCount | SubmitHand =>
    }
  }

  // Any other action of a connection leaves no new winner.
  lemma OtherWins(s: State, c: ConnId, a: ConnAction)
    requires !a.SubmitHash? && !a.SubmitCount? && !a.SubmitHand?
    ensures Wins(s, ConnStep(s, c, a))
  {
    ConnKeepsCredited(s, c, a);
    NoNewWinner(s, c, a);
  }

  ghost predicate SameWinners(s: State, t: State) {
    forall d :: d in t.conns && Won(t.conns[d].pc) ==> d in s.conns && t.conns[d].pc == s.conns[d].pc
  }

  lemma LineIsNoWin(s: State, c: ConnId, a: ConnAction)
    requires || a.Open? || a.ReadLogin? || a.ReadSubmit? || a.LoginAcquire? || a.LoginList? || a.LoginReply?
             || a.Disconnect?
    ensures SameWinners(s, ConnStep(s, c, a))
  {
    match a {
      case Open | ReadLogin | ReadSubmit(_, _) =>
      case LoginAcquire | LoginList | LoginReply(_) | Disconnect =>
    }
  }

  lemma CheckIsNoWin(s: State, c: ConnId, a: ConnAction)
    requires a.SubmitLookup? || a.SubmitSession? || a.SubmitRefuse? || a.SubmitInsert?
    ensures SameWinners(s, ConnStep(s, c, a))
  {
    QuietIsOnlySubmit(s, c, a);
    var t := ConnStep(s, c, a);
    if !Same(t.conns, s.conns) {
      CheckLeavesNoWin(s, c, a);
    }
  }

  lemma CheckLeavesNoWin(s: State, c: ConnId, a: ConnAction)
    requires a.SubmitLookup? || a.SubmitSession? || a.SubmitRefuse? || a.SubmitInsert?
    requires c in s.conns && !Same(ConnStep(s, c, a).conns, s.conns)
    ensures c in ConnStep(s, c, a).conns && !Won(ConnStep(s, c, a).conns[c].pc)
  {
    match a {
      case SubmitLookup =>
      case SubmitSession =>
      case SubmitRefuse =>
      case SubmitInsert =>
    }
  }

  lemma NoNewWinner(s: State, c: ConnId, a: ConnAction)
    requires !a.SubmitHash? && !a.SubmitCount? && !a.SubmitHand?
    ensures SameWinners(s, ConnStep(s, c, a))
  {
    match a {
      case SubmitLookup | SubmitSession | SubmitRefuse | SubmitInsert => CheckIsNoWin(s, c, a);
      case _ => LineIsNoWin(s, c, a);
    }
  }

  lemma ConnWins(s: State, c: ConnId, a: ConnAction)
    ensures Wins(s, ConnStep(s, c, a))
  {
    match a {
      case SubmitHash(verdict) => HashWins(s, c, verdict);
      case SubmitCount => CountWins(s, c);
      case SubmitHand => HandWins(s, c);
      case _ => OtherWins(s, c, a);
    }
  }

  lemma MinerWins(s: State, a: MinerAction)
    ensures Wins(s, MinerStep(s, a))
  {
    MinerKeepsCredited(s, a);
    match a {
      case PauseDrain =>
      case PushOne(_, _) =>
      case _ => MinerKeepsTable(s, a);
    }
  }

  lemma MinerKeepsCredited(s: State, a: MinerAction)
    ensures MinerStep(s, a).history.credited == s.history.credited
  {
    match a {
      case Pause | PauseAcquire | PauseRoll | PauseEvict | PauseDrain | PauseRelease | Enable | NoTemplate =>
      case Template | PushAcquire | PushRoll | PushEvict | PushStart | PushOne(_, _) | PushRelease =>
      case Receive | Compare | Leave | GiveUp | Submit | Submitted(_) =>
    }
  }

  lemma WinsKeeps(s: State, t: State, sent: seq<Seal>, a: Action)
    requires WinnersOk(s) && SentOk(s, sent) && Wins(s, t)
    ensures WinnersOk(t) && SentOk(t, sent + SentBy(s, a))
  {
    forall job, nonce | Earned(s.history.credited, job, nonce) ensures Earned(t.history.credited, job, nonce) {
      var session :| Share(job, session, nonce) in s.history.credited;
      assert Share(job, session, nonce) in t.history.credited;
    }
  }

  lemma {:induction false} EarnedInvariant(schedule: seq<Action>)
    ensures WinnersOk(Run(schedule)) && SentOk(Run(schedule), Sent(schedule))
  {
    if schedule != [] {
      var before, a := schedule[..|schedule| - 1], schedule[|schedule| - 1];
      EarnedInvariant(before);
      match a {
        case OfConn(c, conn) => ConnWins(Run(before), c, conn);
        case OfMiner(miner) => MinerWins(Run(before), miner);
      }
      WinsKeeps(Run(before), Run(schedule), Sent(before), a);
    }
  }

  // Every seal in the channel or in the loop's hand carries the job and the
  // nonce of a share that was credited.
  lemma {:induction false} SealsAreEarned(schedule: seq<Action>)
    ensures
      var s := Run(schedule);
      && (forall i :: 0 <= i < |s.channel| ==> Earned(s.history.credited, s.channel[i].job, s.channel[i].nonce))
      && (HasSeal(s.miner) ==> Earned(s.history.credited, s.miner.seal.job, s.miner.seal.nonce))
  {
    FirstInFirstOut(schedule);
    EarnedInvariant(schedule);
    SentIsEarned(Run(schedule), Sent(schedule), Taken(schedule));
  }

  lemma SentIsEarned(s: State, sent: seq<Seal>, taken: nat)
    requires ChannelOk(s, sent, taken) && SentOk(s, sent)
    ensures forall i :: 0 <= i < |s.channel| ==> Earned(s.history.credited, s.channel[i].job, s.channel[i].nonce)
    ensures HasSeal(s.miner) ==> Earned(s.history.credited, s.miner.seal.job, s.miner.seal.nonce)
  {
    forall i | 0 <= i < |s.channel| ensures Earned(s.history.credited, s.channel[i].job, s.channel[i].nonce) {
      assert s.channel[i] == sent[taken + i];
    }
  }
}
