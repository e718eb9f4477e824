/** The lease that lets one starting pod at a time run migrations, as steps of pods over one lock document. */
module StartupLock {
  import opened Options

  type Time = int
  type Holder = int

  datatype LockDoc = LockDoc(holder: Holder, acquiredAt: Time, expiresAt: Time)

  datatype Settings = Settings(ttl: Time, pollInterval: Time, waitTimeout: Time)

  // ----- The three operations on the document -----

  /** No document, or one whose expiry lies strictly before the caller's reading of the clock. */
  predicate Free(doc: Option<LockDoc>, now: Time) { doc.None? || doc.value.expiresAt < now }

  function AfterAcquire(doc: Option<LockDoc>, now: Time, ttl: Time, holder: Holder): Option<LockDoc>
  {
    if Free(doc, now) then Some(LockDoc(holder, now, now + ttl)) else doc
  }

  function AfterRelease(doc: Option<LockDoc>, holder: Holder): Option<LockDoc>
  {
    if doc.Some? && doc.value.holder == holder then None else doc
  }

  /** The database's own removal of documents whose expiry has been reached. */
  function AfterSweep(doc: Option<LockDoc>, clock: Time): Option<LockDoc>
  {
    if doc.Some? && doc.value.expiresAt <= clock then None else doc
  }

  /** The _locks collection, which holds at most one document under the lock's id. */
  class Locks {
    var doc: Option<LockDoc>

    constructor ()
      ensures doc == None
    {
      doc := None;
    }

    /** Updates an expired document, or inserts one; inserting over a live document is a duplicate key. */
    method TryAcquire(now: Time, settings: Settings, holder: Holder) returns (acquired: bool)
      modifies this
      ensures acquired <==> old(doc).None? || old(doc).value.expiresAt < now
      ensures doc == AfterAcquire(old(doc), now, settings.ttl, holder)
      ensures acquired ==> doc == Some(LockDoc(holder, now, now + settings.ttl))
      ensures !acquired ==> doc == old(doc)
    {
      var expiresAt := now + settings.ttl;
      if doc.Some? && doc.value.expiresAt < now {
        doc := Some(doc.value.(holder := holder, acquiredAt := now, expiresAt := expiresAt));
      } else if doc.None? {
        doc := Some(LockDoc(holder, now, expiresAt));
      } else {
        return false;
      }
      acquired := doc.value.holder == holder;
    }

    /** Deletes the document only if this holder still owns it. */
    method Release(holder: Holder) returns (deleted: bool)
      modifies this
      ensures deleted <==> old(doc).Some? && old(doc).value.holder == holder
      ensures doc == AfterRelease(old(doc), holder)
      ensures deleted ==> doc == None
      ensures !deleted ==> doc == old(doc)
    {
      deleted := false;
      if doc.Some? && doc.value.holder == holder {
        doc := None;
        deleted := true;
      }
    }

    method Sweep(clock: Time)
      modifies this
      ensures doc == AfterSweep(old(doc), clock)
      ensures old(doc).Some? && clock < old(doc).value.expiresAt ==> doc == old(doc)
      ensures old(doc).Some? && old(doc).value.expiresAt <= clock ==> doc == None
    {
      if doc.Some? && doc.value.expiresAt <= clock {
        doc := None;
      }
    }
  }

  // ----- Any number of pods, interleaved -----

  /** Where a pod is: before an attempt, with its reading of the clock on the way to the database, after a failed
      attempt, asleep, in the locked body, out of it with its release on the way to the database, or gone (released,
      timed out or crashed). A crash can leave the pod's command on its way. */
  datatype Phase =
    | Ready(deadline: Time)
    | InFlight(deadline: Time, now: Time)
    | Waiting(deadline: Time)
    | Sleeping(deadline: Time, until: Time)
    | Locked(expires: Time)
    | Releasing
    | Orphaned(now: Time)
    | Gone

  datatype State = State(clock: Time, doc: Option<LockDoc>, pods: map<Holder, Phase>)

  datatype Event =
    | Tick(seconds: nat)
    | Start(pod: Holder)
    | ReadClock(pod: Holder)
    | Attempt(pod: Holder)
    | CheckDeadline(pod: Holder)
    | WakeUp(pod: Holder)
    | Leave(pod: Holder)
    | ReleaseLands(pod: Holder)
    | Crash(pod: Holder)
    | OrphanLands(pod: Holder)
    | Sweep

  /** A command on its way may still land, at any time or never. */
  function AfterCrash(phase: Phase): Phase
  {
    match phase
    case InFlight(_, now) => Orphaned(now)
    case Orphaned(_) => phase
    case Releasing => phase
    case _ => Gone
  }

  /** The state after an event, None when the event cannot happen. Holder ids are never reused. */
  function Next(c: Settings, s: State, e: Event): Option<State>
  {
    match e
    case Tick(seconds) => Some(s.(clock := s.clock + seconds))
    case Sweep => Some(s.(doc := AfterSweep(s.doc, s.clock)))
    case Start(p) =>
      if p in s.pods then None else Some(s.(pods := s.pods[p := Ready(s.clock + c.waitTimeout)]))
    case ReadClock(p) =>
      if p in s.pods && s.pods[p].Ready? then Some(s.(pods := s.pods[p := InFlight(s.pods[p].deadline, s.clock)]))
          else None
    case Attempt(p) =>
      if p in s.pods && s.pods[p].InFlight? then
        var now := s.pods[p].now;
        var phase := if Free(s.doc, now) then Locked(now + c.ttl) else Waiting(s.pods[p].deadline);
        Some(State(s.clock, AfterAcquire(s.doc, now, c.ttl, p), s.pods[p := phase]))
      else None
    case CheckDeadline(p) =>
      if p in s.pods && s.pods[p].Waiting? then
        var deadline := s.pods[p].deadline;
        Some(s.(pods :=
            s.pods[p := if deadline <= s.clock then Gone else Sleeping(deadline, s.clock + c.pollInterval)]))
      else None
    case WakeUp(p) =>
      if p in s.pods && s.pods[p].Sleeping? && s.pods[p].until <= s.clock
          then Some(s.(pods := s.pods[p := Ready(s.pods[p].deadline)]))
      else None
    case Leave(p) =>
      if p in s.pods && s.pods[p].Locked? then Some(s.(pods := s.pods[p := Releasing])) else None
    case ReleaseLands(p) =>
      if p in s.pods && s.pods[p].Releasing? then Some(State(s.clock, AfterRelease(s.doc, p), s.pods[p := Gone]))
          else None
    case Crash(p) =>
      if p in s.pods then
        Some(s.(pods := s.pods[p := AfterCrash(s.pods[p])]))
      else None
    case OrphanLands(p) =>
      if p in s.pods && s.pods[p].Orphaned? then
        Some(State(s.clock, AfterAcquire(s.doc, s.pods[p].now, c.ttl, p), s.pods[p := Gone]))
      else None
  }

  function Run(c: Settings, s: State, events: seq<Event>): Option<State>
  {
    if events == [] then Some(s)
    else
      var before := Run(c, s, events[..|events| - 1]);
      if before.None? then None else Next(c, before.value, events[|events| - 1])
  }

  function Initial(clock: Time): State { State(clock, None, map[]) }

  // ----- Lease exclusion -----

  predicate InBody(s: State, p: Holder) { p in s.pods && s.pods[p].Locked? }

  predicate Live(s: State, p: Holder) { InBody(s, p) && s.clock < s.pods[p].expires }

  ghost predicate Owns(s: State, p: Holder)
  {
    s.doc.Some? && s.doc.value.holder == p && InBody(s, p) && s.doc.value.expiresAt == s.pods[p].expires
  }

  /** A live pod owns the document, and no reading of the clock lies in the future. */
  ghost predicate Leased(s: State)
  {
    && (forall p :: Live(s, p) ==> Owns(s, p))
    && (forall p :: p in s.pods && (s.pods[p].InFlight? || s.pods[p].Orphaned?) ==> s.pods[p].now <= s.clock)
  }

  lemma StepKeepsLease(c: Settings, s: State, e: Event)
    requires Leased(s) && Next(c, s, e).Some?
    ensures Leased(Next(c, s, e).value)
  {
    var s' := Next(c, s, e).value;
    forall p | Live(s', p)
      ensures Owns(s', p)
    {
      if !(e.Attempt? && e.pod == p) {
        assert Live(s, p) && Owns(s, p);
      }
    }
  }

  lemma {:induction false} RunKeepsLease(c: Settings, s: State, events: seq<Event>)
    requires Leased(s) && Run(c, s, events).Some?
    ensures Leased(Run(c, s, events).value)
  {
    if events != [] {
      RunKeepsLease(c, s, events[..|events| - 1]);
      StepKeepsLease(c, Run(c, s, events[..|events| - 1]).value, events[|events| - 1]);
    }
  }

  /** In every interleaving a pod in the locked body whose expiry has not passed still owns the document, so two
      pods are in the body together only when one of them outlived its lease. */
  lemma LeaseExclusion(c: Settings, start: Time, events: seq<Event>, p: Holder, r: Holder)
    requires Run(c, Initial(start), events).Some?
    ensures var s := Run(c, Initial(start), events).value;
            && (Live(s, p) ==> Owns(s, p))
            && (InBody(s, p) && InBody(s, r) && p != r ==> s.pods[p].expires <= s.clock || s.pods[r].expires <= s.clock)
  {
    RunKeepsLease(c, Initial(start), events);
    var s := Run(c, Initial(start), events).value;
    if InBody(s, p) && InBody(s, r) && p != r {
      assert !(Owns(s, p) && Owns(s, r));
    }
  }

  /** A release, however late it lands and even after one's lease was reclaimed, never takes the document from a
      live pod. */
  lemma ReleaseSparesOthers(c: Settings, start: Time, events: seq<Event>, p: Holder, r: Holder)
    requires Run(c, Initial(start), events).Some? && p != r
    requires Live(Run(c, Initial(start), events).value, r)
    requires Next(c, Run(c, Initial(start), events).value, ReleaseLands(p)).Some?
    ensures Owns(Next(c, Run(c, Initial(start), events).value, ReleaseLands(p)).value, r)
  {
    RunKeepsLease(c, Initial(start), events);
  }

  // ----- The document over time -----

  /** From any leased state, the document stays as it is until its expiry, unless its own holder's release lands: no
      attempt, sweep, crash or release of another pod removes it, and its holder's crash does not either. */
  lemma {:induction false} LeaseLasts(c: Settings, s: State, events: seq<Event>)
    requires Leased(s) && s.doc.Some? && Run(c, s, events).Some?
    requires forall i :: 0 <= i < |events| ==> events[i] != ReleaseLands(s.doc.value.holder)
    requires Run(c, s, events).value.clock < s.doc.value.expiresAt
    ensures Run(c, s, events).value.doc == s.doc
  {
    if events != [] {
      var before, last := events[..|events| - 1], events[|events| - 1];
      var t := Run(c, s, before).value;
      assert Next(c, t, last).value.clock >= t.clock;
      LeaseLasts(c, s, before);
      RunKeepsLease(c, s, before);
      assert last != ReleaseLands(s.doc.value.holder);
    }
  }

  /** No pod stays in the body past its expiry. */
  ghost predicate NoOverrun(s: State)
  {
    forall p :: InBody(s, p) ==> s.clock < s.pods[p].expires
  }

  /** While nobody overruns, at most one pod is in the body at any point of any run, whoever crashed before. */
  lemma OnePodAtATime(c: Settings, start: Time, events: seq<Event>, p: Holder, r: Holder)
    requires Run(c, Initial(start), events).Some? && NoOverrun(Run(c, Initial(start), events).value)
    requires InBody(Run(c, Initial(start), events).value, p) && InBody(Run(c, Initial(start), events).value, r)
    ensures p == r
  {
    LeaseExclusion(c, start, events, p, r);
  }

  // ----- One session after the other -----

  lemma {:induction false} RunInTwoParts(c: Settings, s: State, events: seq<Event>, n: nat)
    requires n <= |events| && Run(c, s, events).Some?
    ensures Run(c, s, events[..n]).Some?
    ensures Run(c, Run(c, s, events[..n]).value, events[n..]) == Run(c, s, events)
    decreases |events|
  {
    if n == |events| {
      assert events[..n] == events && events[n..] == [];
    } else {
      var before := events[..|events| - 1];
      RunInTwoParts(c, s, before, n);
      assert before[..n] == events[..n];
      assert events[n..][..|events| - 1 - n] == before[n..];
    }
  }

  predicate Left(phase: Phase) { phase.Releasing? || phase.Gone? }

  /** Whoever left the body, by whatever way, does not come back under the same holder id. */
  lemma {:induction false} LockedOrGone(c: Settings, s: State, events: seq<Event>, p: Holder)
    requires Run(c, s, events).Some? && p in s.pods
    ensures p in Run(c, s, events).value.pods
    ensures Left(s.pods[p]) ==> Left(Run(c, s, events).value.pods[p])
    ensures s.pods[p].Locked? ==> Run(c, s, events).value.pods[p] == s.pods[p] || Left(Run(c, s, events).value.pods[p])
  {
    if events != [] {
      LockedOrGone(c, s, events[..|events| - 1], p);
    }
  }

  /** While nobody overruns, the stays in the locked body follow one another: between two moments at which one pod
      is inside, no other pod is. So what pods do inside, such as running the migrations, never overlaps. */
  lemma SessionsDoNotOverlap(c: Settings, start: Time, events: seq<Event>, i: nat, j: nat, k: nat, p: Holder, r: Holder)
    requires i <= j <= k <= |events| && Run(c, Initial(start), events).Some?
    requires forall n: nat :: n <= |events| && Run(c, Initial(start), events[..n]).Some? ==>
             NoOverrun(Run(c, Initial(start), events[..n]).value)
    ensures Run(c, Initial(start), events[..i]).Some? && Run(c, Initial(start), events[..j]).Some? &&
            Run(c, Initial(start), events[..k]).Some?
    ensures
      (InBody(Run(c, Initial(start), events[..i]).value, p) && InBody(Run(c, Initial(start), events[..k]).value, p) &&
       InBody(Run(c, Initial(start), events[..j]).value, r))
      ==> r == p
  {
    hide NoOverrun;
    var s0 := Initial(start);
    RunInTwoParts(c, s0, events, i);
    RunInTwoParts(c, s0, events, j);
    RunInTwoParts(c, s0, events, k);
    var at := Run(c, s0, events[..j]).value;
    if InBody(Run(c, s0, events[..i]).value, p) && InBody(Run(c, s0, events[..k]).value, p) && InBody(at, r) {
      SplitPrefix(c, s0, events, i, j);
      SplitPrefix(c, s0, events, j, k);
      LockedOrGone(c, Run(c, s0, events[..i]).value, events[..j][i..], p);
      LockedOrGone(c, at, events[..k][j..], p);
      OnePodAtATime(c, start, events[..j], p, r);
    }
  }

  lemma SplitPrefix(c: Settings, s: State, events: seq<Event>, i: nat, j: nat)
    requires i <= j <= |events| && Run(c, s, events).Some?
    ensures Run(c, s, events[..i]).Some? && Run(c, s, events[..j]).Some?
    ensures Run(c, Run(c, s, events[..i]).value, events[..j][i..]) == Run(c, s, events[..j])
  {
    RunInTwoParts(c, s, events, j);
    RunInTwoParts(c, s, events[..j], i);
    assert events[..j][..i] == events[..i];
  }

  // ----- Who gets in, and when -----

  /** p is in the body and its document is good until the given time. */
  ghost predicate Holds(s: State, p: Holder, until: Time)
  {
    && p in s.pods && s.pods[p] == Locked(until)
    && s.doc.Some? && s.doc.value.holder == p && s.doc.value.expiresAt == until
  }

  /** An attempt on its way, when it lands: with no document, or one that expired before the reading it carries, the
      pod gets the lock until a TTL after that reading; otherwise the document stays and the pod waits. */
  lemma AttemptDecides(c: Settings, start: Time, events: seq<Event>, p: Holder)
    requires Run(c, Initial(start), events).Some?
    requires var s := Run(c, Initial(start), events).value; p in s.pods && s.pods[p].InFlight?
    ensures var s := Run(c, Initial(start), events).value;
            var now, after := s.pods[p].now, Run(c, Initial(start), events + [Attempt(p)]);
            && after.Some? && after.value.clock == s.clock
            && (s.doc.None? || s.doc.value.expiresAt < now ==> Holds(after.value, p, now + c.ttl))
            && (s.doc.Some? && now <= s.doc.value.expiresAt ==>
                 after.value.doc == s.doc && after.value.pods == s.pods[p := Waiting(s.pods[p].deadline)])
  {
    RunOneMore(c, Initial(start), events, Attempt(p));
  }

  lemma RunOneMore(c: Settings, s: State, events: seq<Event>, e: Event)
    requires Run(c, s, events).Some?
    ensures Run(c, s, events + [e]) == Next(c, Run(c, s, events).value, e)
  {
    assert (events + [e])[..|events|] == events;
  }

  /** After a crash, or any other way in which a holder left its document behind: once the clock has passed the
      expiry, the next pod to read the clock and try gets the lock, with no sweep in between. */
  lemma ExpiredIsReclaimed(c: Settings, start: Time, events: seq<Event>, p: Holder)
    requires Run(c, Initial(start), events).Some?
    requires var s := Run(c, Initial(start), events).value;
             p in s.pods && s.pods[p].Ready? && s.doc.Some? && s.doc.value.expiresAt < s.clock
    ensures var s := Run(c, Initial(start), events).value;
            var after := Run(c, Initial(start), events + [ReadClock(p)] + [Attempt(p)]);
            after.Some? && Holds(after.value, p, s.clock + c.ttl)
  {
    RunOneMore(c, Initial(start), events, ReadClock(p));
    AttemptDecides(c, start, events + [ReadClock(p)], p);
  }

  /** A holder that crashes with the lock is replaced once its lease has run out. */
  lemma CrashedHolderIsReplaced(c: Settings, start: Time, events: seq<Event>, h: Holder, p: Holder, until: Time,
      seconds: nat)
    requires Run(c, Initial(start), events).Some?
    requires var s := Run(c, Initial(start), events).value;
             Holds(s, h, until) && p in s.pods && s.pods[p].Ready? && until < s.clock + seconds
    ensures var s := Run(c, Initial(start), events).value;
            var after := Run(c, Initial(start), events + [Crash(h)] + [Tick(seconds)] + [ReadClock(p)] + [Attempt(p)]);
            after.Some? && Holds(after.value, p, s.clock + seconds + c.ttl)
  {
    RunOneMore(c, Initial(start), events, Crash(h));
    RunOneMore(c, Initial(start), events + [Crash(h)], Tick(seconds));
    ExpiredIsReclaimed(c, start, events + [Crash(h)] + [Tick(seconds)], p);
  }

  lemma NoEarlyTry(c: Settings, s: State, p: Holder)
    requires p in s.pods && s.pods[p].Waiting? && s.clock < s.pods[p].deadline
    ensures var checked := Next(c, s, CheckDeadline(p)).value;
            forall k: nat :: k < c.pollInterval ==> Run(c, checked, [Tick(k)] + [WakeUp(p)]).None?
  {
    var checked := Next(c, s, CheckDeadline(p)).value;
    forall k: nat | k < c.pollInterval
      ensures Run(c, checked, [Tick(k)] + [WakeUp(p)]).None?
    {
      assert Run(c, checked, []) == Some(checked);
      assert [] + [Tick(k)] == [Tick(k)];
      RunOneMore(c, checked, [], Tick(k));
      RunOneMore(c, checked, [Tick(k)], WakeUp(p));
    }
  }

  lemma TriesAgain(c: Settings, s: State, p: Holder, slept: nat)
    requires p in s.pods && s.pods[p].Waiting? && s.clock < s.pods[p].deadline && slept >= c.pollInterval
    ensures var tries := Run(c, s, [CheckDeadline(p)] + [Tick(slept)] + [WakeUp(p)] + [ReadClock(p)]);
            && tries.Some? && tries.value.doc == s.doc
            && tries.value.pods[p] == InFlight(s.pods[p].deadline, s.clock + slept)
  {
    var e1 := [CheckDeadline(p)];
    assert Run(c, s, []) == Some(s) && [] + e1 == e1;
    hide Run;
    RunOneMore(c, s, [], CheckDeadline(p));
    RunOneMore(c, s, e1, Tick(slept));
    RunOneMore(c, s, e1 + [Tick(slept)], WakeUp(p));
    RunOneMore(c, s, e1 + [Tick(slept)] + [WakeUp(p)], ReadClock(p));
  }

  /** A pod whose attempt failed gives up exactly when its deadline is reached by then; otherwise it sleeps one poll
      interval and is ready to try again, its deadline unchanged. */
  lemma WaiterPolls(c: Settings, s: State, p: Holder, slept: nat)
    requires p in s.pods && s.pods[p].Waiting? && slept >= c.pollInterval
    ensures var checked := Next(c, s, CheckDeadline(p));
            && checked.Some? && checked.value.doc == s.doc
            && (checked.value.pods[p] == Gone <==> s.pods[p].deadline <= s.clock)
            && (s.clock < s.pods[p].deadline ==>
                 forall k: nat :: k < c.pollInterval ==> Run(c, checked.value, [Tick(k)] + [WakeUp(p)]).None?)
            && (s.clock < s.pods[p].deadline ==>
                 var tries := Run(c, s, [CheckDeadline(p)] + [Tick(slept)] + [WakeUp(p)] + [ReadClock(p)]);
                 && tries.Some? && tries.value.doc == s.doc
                 && tries.value.pods[p] == InFlight(s.pods[p].deadline, s.clock + slept))
  {
    hide Run;
    if s.clock < s.pods[p].deadline {
      NoEarlyTry(c, s, p);
      TriesAgain(c, s, p, slept);
    }
  }

  /** A holder that leaves frees the lock as soon as its release lands, even if it crashed on the way out. */
  lemma LeavingFrees(c: Settings, s: State, p: Holder, until: Time)
    requires Holds(s, p, until)
    ensures var left := Run(c, s, [Leave(p)] + [ReleaseLands(p)]);
            left.Some? && left.value.doc == None && !InBody(left.value, p)
    ensures var left := Run(c, s, [Leave(p)] + [Crash(p)] + [ReleaseLands(p)]);
            left.Some? && left.value.doc == None && !InBody(left.value, p)
  {
    assert Run(c, s, []) == Some(s) && [] + [Leave(p)] == [Leave(p)];
    hide Run;
    RunOneMore(c, s, [], Leave(p));
    RunOneMore(c, s, [Leave(p)], ReleaseLands(p));
    RunOneMore(c, s, [Leave(p)], Crash(p));
    RunOneMore(c, s, [Leave(p)] + [Crash(p)], ReleaseLands(p));
  }

  /** A pod that crashes with its attempt on the way may still take the lock, for nobody: with no document, or one
      that expired before the reading, the document becomes the dead pod's, and it lasts until a TTL after the
      reading. */
  lemma OrphanMayTakeTheLock(c: Settings, s: State, p: Holder, seconds: nat)
    requires p in s.pods && s.pods[p].InFlight? && (s.doc.None? || s.doc.value.expiresAt < s.pods[p].now)
    ensures var now, landed := s.pods[p].now, Run(c, s, [Crash(p)] + [Tick(seconds)] + [OrphanLands(p)]);
            landed.Some? && landed.value.doc == Some(LockDoc(p, now, now + c.ttl)) && !InBody(landed.value, p)
  {
    assert Run(c, s, []) == Some(s) && [] + [Crash(p)] == [Crash(p)];
    hide Run;
    RunOneMore(c, s, [], Crash(p));
    RunOneMore(c, s, [Crash(p)], Tick(seconds));
    RunOneMore(c, s, [Crash(p)] + [Tick(seconds)], OrphanLands(p));
  }

  /** A new pod may wait as long as the settings say, and begins by trying. */
  lemma NewPodTries(c: Settings, s: State, p: Holder)
    requires p !in s.pods
    ensures var tries := Run(c, s, [Start(p)] + [ReadClock(p)]);
            tries.Some? && tries.value.pods[p] == InFlight(s.clock + c.waitTimeout, s.clock) && tries.value.doc == s.doc
  {
    assert Run(c, s, []) == Some(s) && [] + [Start(p)] == [Start(p)];
    hide Run;
    RunOneMore(c, s, [], Start(p));
    RunOneMore(c, s, [Start(p)], ReadClock(p));
  }
}
