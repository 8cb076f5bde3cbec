/**
 What a submit is told about its job, and what becomes of a block: whether a
 job is current is what it was when the submit looked it up, whichever rolls and
 pauses come after, and a block is handed on exactly when it was.
 */
module StratumVerdicts {
  import opened Prelude
  import opened StratumModel

  // ---------------------------------------------------------------------------
  // What was current, by the schedule
  // ---------------------------------------------------------------------------

  // The current job after each roll, nothing before the first.
  function Published(schedule: seq<Action>): seq<Option<JobId>> {
    if schedule == [] then [None]
    else
      var before := schedule[..|schedule| - 1];
      Published(before) + RolledTo(Run(before), schedule[|schedule| - 1])
  }

  function RolledTo(s: State, a: Action): seq<Option<JobId>> {
    match a
    case OfMiner(PauseRoll) => if s.miner.PauseLocked? then [None] else []
    case OfMiner(PushRoll) => if s.miner.PushLocked? then [Some(s.miner.job)] else []
    case _ => []
  }

  // A submit past its lookup.
  predicate InSubmit(pc: ConnPc) {
    pc.Looked? || pc.Known? || pc.Hashing? || pc.Winning? || pc.Handing?
  }

  // The submit found its job current, or the one before, when there had been
  // `pc.roll` rolls.
  predicate Found(published: seq<Option<JobId>>, pc: ConnPc)
    requires InSubmit(pc)
  {
    && pc.roll < |published|
    && (pc.isCurrent <==> published[pc.roll] == Some(pc.job))
    && (pc.isCurrent || (pc.roll > 0 && published[pc.roll - 1] == Some(pc.job)))
  }

  predicate WasCurrent(published: seq<Option<JobId>>, pc: ConnPc)
    requires InSubmit(pc)
  {
    pc.roll < |published| && published[pc.roll] == Some(pc.job)
  }

  ghost predicate JobsOk(s: State, published: seq<Option<JobId>>) {
    && |published| == s.history.rolls + 1
    && s.jobs.current == published[s.history.rolls]
    && s.jobs.previous == if s.history.rolls == 0 then None else published[s.history.rolls - 1]
  }

  ghost predicate FoundOk(s: State, published: seq<Option<JobId>>) {
    forall c :: c in s.conns && InSubmit(s.conns[c].pc) ==> Found(published, s.conns[c].pc)
  }

  // ---------------------------------------------------------------------------
  // Each action keeps it
  // ---------------------------------------------------------------------------

  // A submit that has just looked up, and one that goes on with what it found.
  predicate FoundNow(s: State, pc: ConnPc) {
    && pc.Looked? && pc.roll == s.history.rolls
    && (pc.isCurrent <==> s.jobs.current == Some(pc.job))
    && (pc.isCurrent || s.jobs.previous == Some(pc.job))
  }

  predicate GoesOn(pc: ConnPc, pc': ConnPc) {
    && InSubmit(pc) && InSubmit(pc')
    && pc'.job == pc.job && pc'.isCurrent == pc.isCurrent && pc'.nonce == pc.nonce && pc'.roll == pc.roll
  }

  ghost predicate Finds(s: State, t: State) {
    forall d :: d in t.conns && InSubmit(t.conns[d].pc) ==>
      (d in s.conns && GoesOn(s.conns[d].pc, t.conns[d].pc)) || FoundNow(s, t.conns[d].pc)
  }

  // A step of one connection.
  lemma OneFinds(s: State, t: State, c: ConnId)
    requires c in t.conns && Same(t.conns, s.conns[c := t.conns[c]])
    requires InSubmit(t.conns[c].pc) ==>
      (c in s.conns && GoesOn(s.conns[c].pc, t.conns[c].pc)) || FoundNow(s, t.conns[c].pc)
    ensures Finds(s, t)
  {
  }

  lemma LookupFinds(s: State, c: ConnId)
    ensures Finds(s, SubmitLookupBy(s, c))
  {
    if c in s.conns && s.conns[c].pc.SubmitWaiting? && !s.lock.writer {
      OneFinds(s, SubmitLookupBy(s, c), c);
    }
  }

  lemma InsertFinds(s: State, c: ConnId)
    ensures Finds(s, SubmitInsertBy(s, c))
  {
    if c in s.conns && s.conns[c].pc.Known? && s.conns[c].session.Some? {
      OneFinds(s, SubmitInsertBy(s, c), c);
    }
  }

  lemma HashFinds(s: State, c: ConnId, verdict: Verdict)
    ensures Finds(s, SubmitHashBy(s, c, verdict))
  {
    if c in s.conns && s.conns[c].pc.Hashing? && s.conns[c].session.Some? {
      OneFinds(s, SubmitHashBy(s, c, verdict), c);
    }
  }

  lemma SessionFinds(s: State, c: ConnId)
    ensures Finds(s, SubmitSessionBy(s, c))
  {
    if c in s.conns && s.conns[c].pc.Looked? && s.conns[c].session.Some? {
      OneFinds(s, SubmitSessionBy(s, c), c);
    }
  }

  lemma CountFinds(s: State, c: ConnId)
    ensures Finds(s, SubmitCountBy(s, c)) && Finds(s, SubmitRefuseBy(s, c))
  {
    if c in s.conns && s.conns[c].pc.Winning? {
      OneFinds(s, SubmitCountBy(s, c), c);
    }
    if c in s.conns && s.conns[c].pc.Known? {
      OneFinds(s, SubmitRefuseBy(s, c), c);
    }
  }

  lemma HandFinds(s: State, c: ConnId)
    ensures Finds(s, SubmitHandBy(s, c))
  {
    if c in s.conns && s.conns[c].pc.Handing? {
      OneFinds(s, SubmitHandBy(s, c), c);
    }
  }

  lemma ReadFinds(s: State, c: ConnId, a: ConnAction)
    requires a.ReadLogin? || a.ReadSubmit? || a.Open?
    ensures Finds(s, ConnStep(s, c, a))
  {
    var t := ConnStep(s, c, a);
    if !Same(t.conns, s.conns) {
      OneFinds(s, t, c);
    }
  }

  lemma LoginFinds(s: State, c: ConnId, a: ConnAction)
    requires a.LoginAcquire? || a.LoginList? || a.LoginReply? || a.Disconnect?
    ensures Finds(s, ConnStep(s, c, a))
  {
    var t := ConnStep(s, c, a);
    if !Same(t.conns, s.conns) {
      OneFinds(s, t, c);
    }
  }

  lemma ConnFinds(s: State, c: ConnId, a: ConnAction)
    ensures Finds(s, ConnStep(s, c, a))
  {
    match a {
      case SubmitLookup => LookupFinds(s, c);
      case SubmitSession => SessionFinds(s, c);
      case SubmitInsert => InsertFinds(s, c);
      case SubmitHash(verdict) => HashFinds(s, c, verdict);
      case SubmitCount | SubmitRefuse => CountFinds(s, c);
      case SubmitHand => HandFinds(s, c);
      case Open | ReadLogin | ReadSubmit(_, _) => ReadFinds(s, c, a);
      case LoginAcquire | LoginList | LoginReply(_) | Disconnect => LoginFinds(s, c, a);
    }
  }

  lemma MinerFinds(s: State, a: MinerAction)
    ensures Finds(s, MinerStep(s, a))
  {
    match a {
      case PauseDrain => SamePcs(s, Drain(s).(miner := MinerStep(s, a).miner));
      case PushOne(session, ok) => SamePcs(s, PushTo(s, session, ok));
      case _ =>
        MinerKeepsTable(s, a);
        SamePcs(s, MinerStep(s, a));
    }
  }

  lemma SamePcs(s: State, t: State)
    requires t.conns.Keys == s.conns.Keys && forall c :: c in s.conns ==> t.conns[c].pc == s.conns[c].pc
    ensures Finds(s, t)
  {
  }

  // A roll moves the current job into the grace slot and nothing else touches
  // either.
  lemma MinerKeepsPublished(s: State, a: MinerAction, published: seq<Option<JobId>>)
    requires JobsOk(s, published)
    ensures JobsOk(MinerStep(s, a), published + RolledTo(s, OfMiner(a)))
  {
    match a {
      case PauseRoll | PushRoll =>
      case _ =>
        MinerKeepsJobsField(s, a);
        assert published + [] == published;
    }
  }

  lemma MinerKeepsJobsField(s: State, a: MinerAction)
    requires !a.PauseRoll? && !a.PushRoll?
    ensures MinerStep(s, a).jobs == s.jobs && MinerStep(s, a).history.rolls == s.history.rolls
  {
    match a {
      case Pause | PauseAcquire | PauseEvict | PauseDrain | PauseRelease | Enable | NoTemplate | Template =>
      case PushAcquire | PushEvict | PushStart | PushOne(_, _) | PushRelease =>
      case Receive | Compare | Leave | GiveUp | Submit | Submitted(_) =>
    }
  }

  lemma ConnKeepsJobsField(s: State, c: ConnId, a: ConnAction)
    ensures ConnStep(s, c, a).jobs == s.jobs && ConnStep(s, c, a).history.rolls == s.history.rolls
  {
    if IsQuiet(a) {
      QuietIsOnlySubmit(s, c, a);
    }
  }

  lemma StillFound(s: State, t: State, published: seq<Option<JobId>>, more: seq<Option<JobId>>)
    requires JobsOk(s, published) && FoundOk(s, published) && Finds(s, t)
    ensures FoundOk(t, published + more)
  {
    forall c | c in t.conns && InSubmit(t.conns[c].pc) ensures Found(published + more, t.conns[c].pc) {
      if c in s.conns && GoesOn(s.conns[c].pc, t.conns[c].pc) {
        assert Found(published, s.conns[c].pc);
      }
    }
  }

  lemma {:induction false} Invariant(schedule: seq<Action>)
    ensures JobsOk(Run(schedule), Published(schedule)) && FoundOk(Run(schedule), Published(schedule))
  {
    if schedule != [] {
      var before, a := schedule[..|schedule| - 1], schedule[|schedule| - 1];
      Invariant(before);
      StepKeeps(Run(before), a, Published(before));
    }
  }

  lemma StepFinds(s: State, a: Action)
    ensures Finds(s, Step(s, a))
  {
    match a {
      case OfConn(c, conn) => ConnFinds(s, c, conn);
      case OfMiner(miner) => MinerFinds(s, miner);
    }
  }

  lemma StepKeepsPublished(s: State, a: Action, published: seq<Option<JobId>>)
    requires JobsOk(s, published)
    ensures JobsOk(Step(s, a), published + RolledTo(s, a))
  {
    match a {
      case OfConn(c, conn) =>
        ConnKeepsJobsField(s, c, conn);
        assert published + [] == published;
      case OfMiner(miner) => MinerKeepsPublished(s, miner, published);
    }
  }

  lemma StepKeeps(s: State, a: Action, published: seq<Option<JobId>>)
    requires JobsOk(s, published) && FoundOk(s, published)
    ensures JobsOk(Step(s, a), published + RolledTo(s, a)) && FoundOk(Step(s, a), published + RolledTo(s, a))
  {
    StepKeepsPublished(s, a, published);
    StepFinds(s, a);
    StillFound(s, Step(s, a), published, RolledTo(s, a));
  }

  // ---------------------------------------------------------------------------
  // For every schedule
  // ---------------------------------------------------------------------------

  // The two live jobs are the last two the schedule published.
  lemma {:induction false} LiveJobsAreThePublished(schedule: seq<Action>)
    ensures
      var s, published := Run(schedule), Published(schedule);
      && |published| == s.history.rolls + 1 && s.jobs.current == published[|published| - 1]
      && s.jobs.previous == if |published| == 1 then None else published[|published| - 2]
  {
    Invariant(schedule);
  }

  // Whether a submit counts as one for the current template is what the
  // template was when it looked its job up, and is true of no other job.
  lemma {:induction false} IsCurrentMeansCurrent(schedule: seq<Action>, c: ConnId)
    ensures
      var s, published := Run(schedule), Published(schedule);
      c in s.conns && InSubmit(s.conns[c].pc) ==>
        var pc := s.conns[c].pc;
        && Found(published, pc)
        && (pc.roll == s.history.rolls ==> (pc.isCurrent <==> s.jobs.current == Some(pc.job)))
  {
    Invariant(schedule);
  }

  // A block that is passed on goes to the mining loop, last in the channel and
  // under its own job and nonce, exactly when its job was current at the lookup;
  // otherwise it is booked as superseded and the channel is as it was.
  lemma {:induction false} BlockIsHandedOn(schedule: seq<Action>, c: ConnId)
    ensures
      var s := Run(schedule);
      c in s.conns && s.conns[c].pc.Handing? ==>
        var pc, t := s.conns[c].pc, Step(s, OfConn(c, SubmitHand));
        if !WasCurrent(Published(schedule), pc) then
          && t.channel == s.channel && t.history.dropped == s.history.dropped
          && t.counters == s.counters.(superseded := s.counters.superseded + 1)
        else if |s.channel| < SEAL_CHANNEL_DEPTH then
          t.channel == s.channel + [Seal(pc.job, pc.nonce)] && t.counters == s.counters
          && t.history.dropped == s.history.dropped
        else
          t.channel == s.channel && t.counters == s.counters && t.history.dropped == s.history.dropped + 1
  {
    Invariant(schedule);
  }
}
