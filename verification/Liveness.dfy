/**
 How long a stratum connection may stay open: one deadline, counted from the
 opening, then from the first login, then from the last accepted share.
 */
module Liveness {
  import opened Prelude

  datatype Limits = Limits(login: nat, firstShare: nat, share: nat)

  // One line, once it is read. `Over` is everything that ends a connection by
  // itself: the peer closing, a line that is too long, a read error, the node
  // asking for the close.
  datatype Request =
    | Blank
    | Unparsed
    | Keepalive
    | Unknown
    | Login(job: bool, queued: bool)
    | Submit(good: bool)
    | Over

  // One pass of the loop: when the next line would come, if it comes, how long
  // the pass takes beyond the wait, and whether the answer fits in the queue.
  datatype Turn = Turn(arrival: Option<nat>, request: Request, fits: bool, lag: nat)

  datatype Reason = NoLogin | NoShare | Other

  // Instants count from the opening. `shares` counts the accepted shares.
  datatype State = State(
    now: nat,
    session: bool,
    loggedInAt: Option<nat>,
    lastAccepted: Option<nat>,
    shares: nat,
    ended: Option<Reason>)

  const OPENED := State(0, false, None, None, 0, None)

  function Deadline(limits: Limits, s: State): nat {
    match (s.loggedInAt, s.lastAccepted)
    case (None, _) => limits.login
    case (Some(at), None) => at + limits.firstShare
    case (Some(_), Some(at)) => at + limits.share
  }

  // The first login that gets a job.
  predicate LogsIn(s: State, r: Request) {
    r.Login? && r.job && s.loggedInAt.None?
  }

  predicate Credits(s: State, r: Request) {
    r == Submit(true) && s.session
  }

  // Whether answering a request ends the connection.
  predicate Closes(r: Request, fits: bool) {
    match r
    case Blank => false
    case Login(job, queued) => !job || !queued
    case Over => true
    case _ => !fits
  }

  function Answered(s: State, r: Request, fits: bool): State {
    State(
      s.now,
      s.session || (r.Login? && r.job),
      if LogsIn(s, r) then Some(s.now) else s.loggedInAt,
      if Credits(s, r) then Some(s.now) else s.lastAccepted,
      if Credits(s, r) then s.shares + 1 else s.shares,
      if Closes(r, fits) then Some(Other) else None)
  }

  function Step(limits: Limits, s: State, turn: Turn): State {
    if s.ended.Some? then s
    else if s.now > Deadline(limits, s) then
      s.(ended := Some(if s.loggedInAt.None? then NoLogin else NoShare))
    else
      var remaining := Deadline(limits, s) - s.now;
      if turn.arrival.Some? && turn.arrival.value <= remaining then
        Answered(s.(now := s.now + turn.arrival.value + turn.lag), turn.request, turn.fits)
      else
        s.(now := s.now + remaining + turn.lag)
  }

  function Run(limits: Limits, s: State, turns: seq<Turn>): State {
    if turns == [] then s
    else Step(limits, Run(limits, s, turns[..|turns| - 1]), turns[|turns| - 1])
  }

  // The connection's loop.
  method Serve(limits: Limits, turns: seq<Turn>)
    returns (now: nat, loggedInAt: Option<nat>, lastAccepted: Option<nat>, ended: Option<Reason>)
    ensures var s := Run(limits, OPENED, turns);
      s.now == now && s.loggedInAt == loggedInAt && s.lastAccepted == lastAccepted && s.ended == ended
  {
    now, loggedInAt, lastAccepted, ended := 0, None, None, None;
    var session := false;
    ghost var shares: nat := 0;
    ghost var s := OPENED;
    var i := 0;
    while i < |turns| && ended.None?
      invariant 0 <= i <= |turns|
      invariant session <==> loggedInAt.Some?
      invariant s == Run(limits, OPENED, turns[..i]) == State(now, session, loggedInAt, lastAccepted, shares, ended)
    {
      var turn := turns[i];
      assert turns[..i + 1][..i] == turns[..i];
      i := i + 1;
      s := Step(limits, s, turn);
      var clock, window := 0, limits.login;
      match loggedInAt {
        case None =>
        case Some(login) =>
          match lastAccepted {
            case Some(accepted) => clock, window := accepted, limits.share;
            case None => clock, window := login, limits.firstShare;
          }
      }
      if now > clock + window {
        ended := Some(if loggedInAt.None? then NoLogin else NoShare);
        break;
      }
      var remaining := clock + window - now;
      if turn.arrival.None? || turn.arrival.value > remaining {
        now := now + remaining + turn.lag;
        continue;
      }
      now := now + turn.arrival.value + turn.lag;
      var accepted, close := false, false;
      match turn.request {
        case Blank =>
        case Over => close := true;
        case Unparsed | Keepalive | Unknown => close := !turn.fits;
        case Login(job, queued) =>
          session := session || job;
          close := !job || !queued;
        case Submit(good) =>
          accepted := session && good;
          close := !turn.fits;
      }
      if loggedInAt.None? && session {
        loggedInAt := Some(now);
      }
      if accepted {
        lastAccepted := Some(now);
        shares := shares + 1;
      }
      if close {
        ended := Some(Other);
      }
    }
    EndedStays(limits, OPENED, turns, i);
  }

  lemma {:induction false} EndedStays(limits: Limits, s: State, turns: seq<Turn>, i: nat)
    requires i <= |turns|
    requires i == |turns| || Run(limits, s, turns[..i]).ended.Some?
    ensures Run(limits, s, turns) == Run(limits, s, turns[..i])
    decreases |turns|
  {
    if i == |turns| {
      assert turns[..i] == turns;
    } else {
      var before := turns[..|turns| - 1];
      assert before[..i] == turns[..i];
      EndedStays(limits, s, before, i);
    }
  }

  // ---------------------------------------------------------------------------
  // What the deadline promises
  // ---------------------------------------------------------------------------

  // The latest a connection with this many accepted shares can still be open,
  // when no pass takes more than `lag` beyond its wait.
  function Longest(limits: Limits, shares: nat, lag: nat): nat {
    if shares == 0 then limits.login + limits.firstShare + 2 * lag
    else Longest(limits, shares - 1, lag) + limits.share + lag
  }

  lemma {:induction false} LongestIs(limits: Limits, shares: nat, lag: nat)
    ensures Longest(limits, shares, lag)
         == limits.login + limits.firstShare + shares * limits.share + (shares + 2) * lag
  {
    if shares > 0 {
      LongestIs(limits, shares - 1, lag);
    }
  }

  // The instants on record, and that the shares so far pay for the deadline.
  predicate ClockInv(limits: Limits, lag: nat, s: State) {
    && (s.session <==> s.loggedInAt.Some?)
    && (s.lastAccepted.Some? <==> s.shares > 0)
    && (s.shares > 0 ==> s.session)
    && (s.loggedInAt.Some? ==> s.loggedInAt.value <= s.now && s.loggedInAt.value <= limits.login + lag)
    && (s.lastAccepted.Some? ==> s.lastAccepted.value <= s.now)
    && Deadline(limits, s) + lag <= Longest(limits, s.shares, lag)
  }

  ghost predicate Inv(limits: Limits, lag: nat, s: State) {
    && ClockInv(limits, lag, s)
    && s.now <= Deadline(limits, s) + lag
    && (s.ended == Some(NoLogin) ==> s.loggedInAt.None? && s.now > Deadline(limits, s))
    && (s.ended == Some(NoShare) ==> s.loggedInAt.Some? && s.now > Deadline(limits, s))
  }

  // Whether the turn's line comes before the deadline.
  predicate InTime(limits: Limits, s: State, turn: Turn) {
    turn.arrival.Some? && s.now + turn.arrival.value <= Deadline(limits, s)
  }

  lemma LapsedHolds(limits: Limits, lag: nat, s: State, turn: Turn)
    requires Inv(limits, lag, s) && (s.ended.Some? || s.now > Deadline(limits, s))
    ensures Inv(limits, lag, Step(limits, s, turn))
  {
  }

  lemma SilenceHolds(limits: Limits, lag: nat, s: State, turn: Turn)
    requires Inv(limits, lag, s) && turn.lag <= lag
    requires s.ended.None? && s.now <= Deadline(limits, s) && !InTime(limits, s, turn)
    ensures Inv(limits, lag, Step(limits, s, turn))
  {
  }

  lemma CreditHolds(limits: Limits, lag: nat, s: State, turn: Turn)
    requires Inv(limits, lag, s) && turn.lag <= lag
    requires s.ended.None? && s.now <= Deadline(limits, s) && InTime(limits, s, turn) && Credits(s, turn.request)
    ensures Inv(limits, lag, Step(limits, s, turn))
  {
  }

  lemma LineHolds(limits: Limits, lag: nat, s: State, turn: Turn)
    requires Inv(limits, lag, s) && turn.lag <= lag
    requires s.ended.None? && s.now <= Deadline(limits, s) && InTime(limits, s, turn) && !Credits(s, turn.request)
    ensures Inv(limits, lag, Step(limits, s, turn))
  {
  }

  lemma StepHolds(limits: Limits, lag: nat, s: State, turn: Turn)
    requires Inv(limits, lag, s) && turn.lag <= lag
    ensures Inv(limits, lag, Step(limits, s, turn))
  {
    if s.ended.Some? || s.now > Deadline(limits, s) {
      LapsedHolds(limits, lag, s, turn);
    } else if !InTime(limits, s, turn) {
      SilenceHolds(limits, lag, s, turn);
    } else if Credits(s, turn.request) {
      CreditHolds(limits, lag, s, turn);
    } else {
      LineHolds(limits, lag, s, turn);
    }
  }

  lemma {:induction false} Invariant(limits: Limits, lag: nat, turns: seq<Turn>)
    requires forall i :: 0 <= i < |turns| ==> turns[i].lag <= lag
    ensures Inv(limits, lag, Run(limits, OPENED, turns))
  {
    if turns != [] {
      var n := |turns| - 1;
      Invariant(limits, lag, turns[..n]);
      StepHolds(limits, lag, Run(limits, OPENED, turns[..n]), turns[n]);
    }
  }

  // However many lines a peer sends, its connection is open no longer than its
  // accepted shares pay for, and before a login no longer than the login window.
  lemma {:induction false} LifetimeIsBounded(limits: Limits, lag: nat, turns: seq<Turn>)
    requires forall i :: 0 <= i < |turns| ==> turns[i].lag <= lag
    ensures var s := Run(limits, OPENED, turns);
      s.now <= limits.login + limits.firstShare + s.shares * limits.share + (s.shares + 2) * lag
    ensures var s := Run(limits, OPENED, turns); s.loggedInAt.None? ==> s.now <= limits.login + lag
  {
    Invariant(limits, lag, turns);
    LongestIs(limits, Run(limits, OPENED, turns).shares, lag);
  }

  // The rule closes nothing early, and names the window that ran out.
  lemma {:induction false} ClosedOnlyPastDeadline(limits: Limits, lag: nat, turns: seq<Turn>)
    requires forall i :: 0 <= i < |turns| ==> turns[i].lag <= lag
    ensures var s := Run(limits, OPENED, turns);
      s.ended == Some(NoLogin) ==> s.loggedInAt.None? && s.now > limits.login
    ensures var s := Run(limits, OPENED, turns);
      s.ended == Some(NoShare) ==> s.loggedInAt.Some? && s.now > Deadline(limits, s)
  {
    Invariant(limits, lag, turns);
  }

  // ---------------------------------------------------------------------------
  // What ends a connection
  // ---------------------------------------------------------------------------

  // A line that ends its connection: the peer's own end, a login there is no job
  // or no room in the queue for, and any other line but a blank one whose answer
  // does not fit.
  predicate Fatal(turn: Turn) {
    || turn.request == Over
    || (turn.request.Login? && !(turn.request.job && turn.request.queued))
    || (!turn.request.Blank? && !turn.request.Login? && !turn.fits)
  }

  // A step of an open connection ends it for a lapse exactly when its deadline
  // has passed, under the name of what is missing, and for a line exactly when
  // the line came in time and was fatal.
  lemma EndsIff(limits: Limits, s: State, turn: Turn)
    requires s.ended.None?
    ensures
      var t := Step(limits, s, turn);
      && (t.ended == Some(NoLogin) <==> s.now > Deadline(limits, s) && s.loggedInAt.None?)
      && (t.ended == Some(NoShare) <==> s.now > Deadline(limits, s) && s.loggedInAt.Some?)
      && (t.ended == Some(Other) <==> s.now <= Deadline(limits, s) && InTime(limits, s, turn) && Fatal(turn))
  {
  }

  // And how long the step takes and what it puts on record: the wait, which is
  // never past the deadline, and the lag; the first login that gets a job; and
  // each good submit of a peer that has logged in.
  lemma TurnTakes(limits: Limits, s: State, turn: Turn)
    requires s.ended.None? && s.now <= Deadline(limits, s)
    ensures
      var t, heard := Step(limits, s, turn), InTime(limits, s, turn);
      && t.now == (if heard then s.now + turn.arrival.value else Deadline(limits, s)) + turn.lag
      && t.loggedInAt == (if heard && turn.request.Login? && turn.request.job && s.loggedInAt.None? then Some(t.now)
                          else s.loggedInAt)
      && (if heard && turn.request == Submit(true) && s.session
          then t.lastAccepted == Some(t.now) && t.shares == s.shares + 1
          else t.lastAccepted == s.lastAccepted && t.shares == s.shares)
  {
  }

  // A peer whose lines are none of those, and whose answers fit, is never
  // dropped but for a lapse.
  lemma {:induction false} OnlyFatalLinesDrop(limits: Limits, s: State, turns: seq<Turn>)
    requires s.ended != Some(Other) && forall i :: 0 <= i < |turns| ==> !Fatal(turns[i])
    ensures Run(limits, s, turns).ended != Some(Other)
  {
    if turns != [] {
      var before := turns[..|turns| - 1];
      OnlyFatalLinesDrop(limits, s, before);
      if Run(limits, s, before).ended.None? {
        EndsIff(limits, Run(limits, s, before), turns[|turns| - 1]);
      }
    }
  }

  // Lines that neither log in for the first time nor earn a share: before a
  // login no submit does, however good.
  predicate Idle(s: State, r: Request) {
    match r
    case Login(_, _) => s.loggedInAt.Some?
    case Submit(good) => !good || (s.loggedInAt.None? && !s.session)
    case _ => true
  }

  // Such lines never move the deadline, however many there are: keepalives,
  // blank lines, refused shares, second logins and submits before the first
  // one buy no time at all.
  lemma {:induction false} IdleLinesBuyNothing(limits: Limits, lag: nat, s: State, turns: seq<Turn>)
    requires forall i :: 0 <= i < |turns| ==> turns[i].lag <= lag && Idle(s, turns[i].request)
    ensures var t := Run(limits, s, turns);
      && Deadline(limits, t) == Deadline(limits, s) && t.loggedInAt == s.loggedInAt && t.shares == s.shares
      && (s.loggedInAt.None? ==> t.session == s.session)
      && (t.now == s.now || t.now <= Deadline(limits, s) + lag)
  {
    if turns != [] {
      IdleLinesBuyNothing(limits, lag, s, turns[..|turns| - 1]);
    }
  }

  // The bound is reached: a peer that logs in and earns each share at the last
  // moment stays open exactly that long.
  lemma LongestIsReached(limits: Limits, lag: nat, shares: nat) returns (turns: seq<Turn>)
    ensures forall i :: 0 <= i < |turns| ==> turns[i].lag == lag
    ensures var s := Run(limits, OPENED, turns);
      s.ended.None? && s.shares == shares && s.now == Longest(limits, shares, lag)
  {
    var earned := JustInTime(limits, lag, shares);
    var silence := Turn(None, Blank, true, lag);
    turns := earned + [silence];
    assert turns[..|turns| - 1] == earned;
  }

  lemma {:induction false} JustInTime(limits: Limits, lag: nat, shares: nat) returns (turns: seq<Turn>)
    ensures forall i :: 0 <= i < |turns| ==> turns[i].lag == lag
    ensures var s := Run(limits, OPENED, turns);
      && s.ended.None? && s.session && s.shares == shares && s.loggedInAt.Some?
      && (if shares == 0 then s.loggedInAt == Some(s.now) && s.lastAccepted.None? else s.lastAccepted == Some(s.now))
      && Deadline(limits, s) + lag == Longest(limits, shares, lag)
  {
    if shares == 0 {
      turns := [Turn(Some(limits.login), Login(true, true), true, lag)];
      assert turns[..0] == [];
    } else {
      var before := JustInTime(limits, lag, shares - 1);
      var s := Run(limits, OPENED, before);
      turns := before + [Turn(Some(Deadline(limits, s) - s.now), Submit(true), true, lag)];
      assert turns[..|turns| - 1] == before;
    }
  }
}
