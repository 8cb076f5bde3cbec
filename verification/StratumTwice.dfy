/**
 The bound of two is reached: one share credited twice, in a run where the
 duplicate set is never cleared.
 */
module StratumTwice {
  import opened Prelude
  import opened StratumModel

  ghost predicate Reached(s: State) {
    exists schedule :: Run(schedule) == s
  }

  lemma Start()
    ensures Reached(Init)
  {
    assert Run([]) == Init;
  }

  lemma Then(s: State, a: Action)
    requires Reached(s)
    ensures Reached(Step(s, a))
  {
    var schedule :| Run(schedule) == s;
    assert (schedule + [a])[..|schedule + [a]| - 1] == schedule;
    assert Run(schedule + [a]) == Step(s, a);
  }

  // The loop goes from its head to mining the next job, with at most the one
  // session of connection 0 to push to.
  ghost predicate Published(s: State, t: State) {
    && t.miner == Mining(s.jobCounter + 1) && t.jobCounter == s.jobCounter + 1
    && t.jobs == s.jobs.Roll(Some(s.jobCounter + 1)) && LockFree(t)
    && t.sessions == s.sessions && t.nextSession == s.nextSession && t.seen == Evict(s.seen, t.jobs)
    && SameButQueue(s, t) && SameCredit(s, t)
  }

  // What neither a lock nor a place of the loop is.
  ghost predicate SameTables(s: State, t: State) {
    && Same(t.sessions, s.sessions) && t.nextSession == s.nextSession && SameCredit(s, t)
  }

  ghost predicate SameCredit(s: State, t: State) {
    && Same(t.history.admitted, s.history.admitted) && Same(t.history.credited, s.history.credited)
    && t.history.clears == s.history.clears
  }

  // But for what was queued to it, connection 0 is as it was.
  ghost predicate SameButQueue(s: State, t: State) {
    && t.conns.Keys == s.conns.Keys
    && (0 in s.conns ==> t.conns[0].(queued := [], missed := false) == s.conns[0].(queued := [], missed := false))
  }

  lemma PublishWanted(s: State) returns (t: State)
    requires Reached(s) && s.miner.Head?
    ensures Reached(t) && t.miner == PushWanted(t.jobCounter) && t.jobCounter == s.jobCounter + 1
    ensures t.lock == s.lock && t.jobs == s.jobs && Same(t.seen, s.seen) && Same(t.conns, s.conns) && SameTables(s, t)
  {
    Then(s, OfMiner(Enable));
    var enabled := MinerStep(s, Enable);
    Then(enabled, OfMiner(Template));
    t := MinerStep(enabled, Template);
  }

  lemma PublishLocked(s: State) returns (t: State)
    requires Reached(s) && s.miner.PushWanted? && LockFree(s)
    ensures Reached(t) && t.miner == PushLocked(s.miner.job) && t.jobCounter == s.jobCounter
    ensures t.lock == Lock({}, true)
    ensures t.jobs == s.jobs && Same(t.seen, s.seen) && Same(t.conns, s.conns) && SameTables(s, t)
  {
    Then(s, OfMiner(PushAcquire));
    t := MinerStep(s, PushAcquire);
  }

  lemma PublishEvicted(s: State) returns (t: State)
    requires Reached(s) && s.miner.PushLocked?
    ensures Reached(t) && t.miner == PushEvicted(s.miner.job) && t.lock == s.lock && t.jobCounter == s.jobCounter
    ensures t.jobs == s.jobs.Roll(Some(s.miner.job)) && t.seen == Evict(s.seen, t.jobs)
    ensures Same(t.conns, s.conns) && SameTables(s, t)
  {
    Then(s, OfMiner(PushRoll));
    var rolled := MinerStep(s, PushRoll);
    Then(rolled, OfMiner(PushEvict));
    t := MinerStep(rolled, PushEvict);
  }

  lemma PublishStarted(s: State) returns (t: State)
    requires Reached(s) && s.miner.PushEvicted?
    ensures Reached(t) && t.miner == Pushing(s.miner.job, s.sessions.Keys) && t.jobCounter == s.jobCounter
    ensures t.lock == s.lock && t.jobs == s.jobs && Same(t.seen, s.seen) && Same(t.conns, s.conns) && SameTables(s, t)
  {
    Then(s, OfMiner(PushStart));
    t := MinerStep(s, PushStart);
  }

  lemma PushedToOne(s: State) returns (t: State)
    requires Reached(s) && s.miner.Pushing? && s.miner.pending == {1} && s.sessions == map[1 := 0] && 0 in s.conns
    ensures Reached(t) && t.miner == Pushing(s.miner.job, {}) && t.jobCounter == s.jobCounter
    ensures t.lock == s.lock && t.jobs == s.jobs && Same(t.seen, s.seen) && SameButQueue(s, t) && SameTables(s, t)
  {
    Then(s, OfMiner(PushOne(1, true)));
    t := PushTo(s, 1, true);
    assert t.miner.pending == {};
  }

  lemma PublishReleased(s: State) returns (t: State)
    requires Reached(s) && s.miner.Pushing? && s.miner.pending == {} && s.lock == Lock({}, true)
    ensures Reached(t) && t.miner == Mining(s.miner.job) && t.jobCounter == s.jobCounter && LockFree(t)
    ensures t.jobs == s.jobs && Same(t.seen, s.seen) && Same(t.conns, s.conns) && SameTables(s, t)
  {
    Then(s, OfMiner(PushRelease));
    t := MinerStep(s, PushRelease);
  }

  lemma Publish(s: State) returns (t: State)
    requires Reached(s) && s.miner.Head? && LockFree(s)
    requires s.sessions == map[] || (s.sessions == map[1 := 0] && 0 in s.conns)
    ensures Reached(t) && Published(s, t)
  {
    t := PublishWanted(s);
    t := PublishLocked(t);
    t := PublishEvicted(t);
    t := PublishStarted(t);
    if s.sessions != map[] {
      t := PushedToOne(t);
    }
    t := PublishReleased(t);
  }

  const K: Share := Share(1, 1, 7)

  // The two maps and the counts the rest of the run depends on.
  ghost predicate SameRest(s: State, t: State) {
    t.jobs == s.jobs && t.miner == s.miner && t.jobCounter == s.jobCounter && LockFree(t)
  }

  lemma LoginRead(s: State) returns (t: State)
    requires Reached(s) && 0 !in s.conns
    ensures Reached(t) && t == s.(conns := s.conns[0 := Conn(None, LoginWaiting, false, [], false)])
  {
    Then(s, OfConn(0, Open));
    Then(OpenConn(s, 0), OfConn(0, ReadLogin));
    t := ReadLoginBy(OpenConn(s, 0), 0);
    assert t.conns == s.conns[0 := Conn(None, LoginWaiting, false, [], false)];
  }

  lemma LoginStarted(s: State) returns (t: State)
    requires Reached(s) && LockFree(s) && s.jobs.current == Some(1)
    requires 0 in s.conns && s.conns[0] == Conn(None, LoginWaiting, false, [], false)
    ensures Reached(t) && t == s.(conns := t.conns, lock := Lock({0}, false))
    ensures t.conns == s.conns[0 := Conn(None, LoginReady(1), false, [], false)]
  {
    Then(s, OfConn(0, LoginAcquire));
    t := LoginAcquireBy(s, 0);
  }

  lemma LoginDone(s: State) returns (t: State)
    requires Reached(s) && s.lock == Lock({0}, false) && s.sessions == map[] && s.nextSession == 1
    requires 0 in s.conns && s.conns[0] == Conn(None, LoginReady(1), false, [], false)
    ensures Reached(t) && SameRest(s, t) && t.seen == s.seen && t.sessions == map[1 := 0]
    ensures t.conns.Keys == s.conns.Keys && t.conns[0] == Conn(Some(1), Reading, false, [1], false)
    ensures t.history == s.history.(owners := t.history.owners)
  {
    Then(s, OfConn(0, LoginList));
    t := LoginListBy(s, 0);
    Then(t, OfConn(0, LoginReply(true)));
    t := LoginReplyBy(t, 0, true);
  }

  lemma LogIn(s: State) returns (t: State)
    requires Reached(s) && LockFree(s) && s.jobs.current == Some(1)
    requires 0 !in s.conns && s.sessions == map[] && s.nextSession == 1
    ensures Reached(t) && SameRest(s, t) && t.seen == s.seen
    ensures t.sessions == map[1 := 0] && t.conns.Keys == s.conns.Keys + {0}
    ensures t.conns[0] == Conn(Some(1), Reading, false, [1], false)
    ensures t.history == s.history.(owners := t.history.owners)
  {
    t := LoginRead(s);
    t := LoginStarted(t);
    t := LoginDone(t);
  }

  ghost predicate Serving(s: State) {
    && s.sessions == map[1 := 0] && 0 in s.conns
    && s.conns[0].session == Some(1) && !s.conns[0].notified
  }

  lemma Looked7(s: State) returns (t: State)
    requires Reached(s) && Serving(s) && s.conns[0].pc.Reading? && LockFree(s) && s.jobs.IsLive(1)
    ensures Reached(t) && t == s.(conns := t.conns) && Serving(t)
    ensures t.conns[0].pc.Looked? && t.conns[0].pc.job == 1 && t.conns[0].pc.nonce == 7
  {
    Then(s, OfConn(0, ReadSubmit(1, 7)));
    t := ReadSubmitBy(s, 0, 1, 7);
    Then(t, OfConn(0, SubmitLookup));
    t := SubmitLookupBy(t, 0);
  }

  // Connection 0 submits K and stops just before the duplicate insert.
  lemma Find(s: State) returns (t: State)
    requires Reached(s) && Serving(s) && s.conns[0].pc.Reading? && LockFree(s) && s.jobs.IsLive(1)
    ensures Reached(t) && SameRest(s, t) && Serving(t) && t.seen == s.seen && t.history == s.history
    ensures t.conns[0].pc.Known? && t.conns[0].pc.job == 1 && t.conns[0].pc.nonce == 7
  {
    t := Looked7(s);
    Then(t, OfConn(0, SubmitSession));
    t := SubmitSessionBy(t, 0);
  }

  lemma Inserted7(s: State) returns (t: State)
    requires Reached(s) && Serving(s) && s.conns[0].pc.Known? && s.conns[0].pc.job == 1 && s.conns[0].pc.nonce == 7
    requires K !in s.seen && |s.seen| < MAX_SEEN_SHARES
    ensures Reached(t) && t == s.(conns := t.conns, seen := s.seen + {K}, history := t.history) && Serving(t)
    ensures t.conns[0].pc.Hashing? && t.conns[0].pc.job == 1 && t.conns[0].pc.nonce == 7
    ensures t.history.credited == s.history.credited && t.history.clears == s.history.clears
  {
    Then(s, OfConn(0, SubmitInsert));
    t := SubmitInsertBy(s, 0);
  }

  // The insert finds K new and the re-hash finds it good.
  lemma Credit(s: State) returns (t: State)
    requires Reached(s) && Serving(s) && s.conns[0].pc.Known? && LockFree(s)
    requires s.conns[0].pc.job == 1 && s.conns[0].pc.nonce == 7
    requires K !in s.seen && |s.seen| < MAX_SEEN_SHARES
    ensures Reached(t) && SameRest(s, t) && Serving(t) && t.conns[0].pc.Reading?
    ensures t.seen == s.seen + {K} && t.history.clears == s.history.clears
    ensures t.history.credited == s.history.credited + multiset{K}
  {
    t := Inserted7(s);
    Then(t, OfConn(0, SubmitHash(GoodShare)));
    t := SubmitHashBy(t, 0, GoodShare);
  }

  lemma RollOn(s: State) returns (t: State)
    requires Reached(s) && s.miner.Mining? && LockFree(s) && Serving(s)
    ensures Reached(t) && Serving(t) && t.conns[0].pc == s.conns[0].pc
    ensures t.miner.Mining? && LockFree(t) && t.jobCounter == s.jobCounter + 1
    ensures t.jobs == s.jobs.Roll(Some(s.jobCounter + 1)) && t.seen == Evict(s.seen, t.jobs)
    ensures t.history.credited == s.history.credited && t.history.clears == s.history.clears
  {
    Then(s, OfMiner(Leave));
    t := Publish(MinerStep(s, Leave));
  }

  lemma CreditedTwice()
    ensures exists schedule, k :: Run(schedule).history.credited[k] == 2 && Run(schedule).history.clears == 0
  {
    Start();
    var s := Publish(Init);
    s := LogIn(s);
    s := Find(s);
    s := Credit(s);
    s := Find(s);
    s := RollOn(s);
    s := RollOn(s);
    assert s.seen == {};
    s := Credit(s);
    var schedule :| Run(schedule) == s;
    assert Run(schedule).history.credited[K] == 2;
  }
}
