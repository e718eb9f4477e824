/** A cluster of pods that run the migrations inside the locked body, step by step, over one log. Without overruns
    their steps are those of runs that follow one another. */
module Deployment {
  import opened Options
  import opened StartupLock
  import Migrations

  type Log = set<Migrations.Record>

  /** Where a pod in the body is: not begun, about to look at migration n with the log as it read it, in the middle of
      applying it, or through. */
  datatype Runner = Entered | Looking(read: Log, n: nat) | Applying(read: Log, n: nat) | Finished

  datatype Act = Started(n: nat) | Recorded(n: nat)

  /** The lock, the log, the pods' runs, what was done so far, and whether a record met a duplicate key. */
  datatype Cluster = Cluster(lock: State, log: Log, runners: map<Holder, Runner>, history: seq<Act>, duplicate: bool)

  datatype Move = Lock(event: Event) | Work(pod: Holder)

  /** The cluster after a move, None when it cannot happen. Whoever gets into the body begins a run. */
  function After(c: Settings, s: Cluster, m: Move): Option<Cluster>
  {
    match m
    case Lock(e) =>
      var lock := Next(c, s.lock, e);
      if lock.None? then None
      else
        Some(s.(lock := lock.value,
                runners := if e.Attempt? && InBody(lock.value, e.pod) then s.runners[e.pod := Entered] else s.runners))
    case Work(p) =>
      if InBody(s.lock, p) && p in s.runners then Worked(s, p) else None
  }

  /** One step of the runner: read the log, skip what it listed, begin applying, record what was applied. */
  function Worked(s: Cluster, p: Holder): Option<Cluster>
    requires p in s.runners
  {
    match s.runners[p]
    case Entered => Some(s.(runners := s.runners[p := Looking(s.log, 1)]))
    case Looking(read, n) =>
      if n > Migrations.LAST then Some(s.(runners := s.runners[p := Finished]))
      else if Migrations.Top(n) in read then Some(s.(runners := s.runners[p := Looking(read, n + 1)]))
      else Some(s.(runners := s.runners[p := Applying(read, n)], history := s.history + [Started(n)]))
    case Applying(read, n) =>
      if Migrations.Top(n) in s.log then Some(s.(runners := s.runners[p := Finished], duplicate := true))
      else
        Some(s.(runners := s.runners[p := Looking(read, n + 1)],
                log := s.log + {Migrations.Top(n)},
                history := s.history + [Recorded(n)]))
    case Finished => None
  }

  function Reach(c: Settings, start: Time, moves: seq<Move>): Option<Cluster>
  {
    if moves == [] then Some(Cluster(Initial(start), {}, map[], [], false))
    else
      var before := Reach(c, start, moves[..|moves| - 1]);
      if before.None? then None else After(c, before.value, moves[|moves| - 1])
  }

  // ----- Runs that follow one another -----

  function RecordedIn(history: seq<Act>): nat
  {
    if history == [] then 0
    else RecordedIn(history[..|history| - 1]) + if history[|history| - 1].Recorded? then 1 else 0
  }

  /** Migrations are begun in order, each as often as it takes until it is recorded once, right after it was applied. */
  ghost predicate Serial(history: seq<Act>)
  {
    history == [] ||
    (var before, last := history[..|history| - 1], history[|history| - 1];
     && Serial(before)
     && last.n == RecordedIn(before) + 1 && last.n <= Migrations.LAST
     && (last.Recorded? ==> before != [] && before[|before| - 1] == Started(last.n)))
  }

  ghost predicate ListsUpTo(log: Log, k: nat) { forall n: nat :: Migrations.Top(n) in log <==> 1 <= n <= k }

  ghost predicate Fits(r: Runner, history: seq<Act>)
  {
    var k := RecordedIn(history);
    match r
    case Entered => true
    case Looking(read, n) => 1 <= n <= k + 1 && exists a: nat :: ListsUpTo(read, a) && a <= k && (a == k || n == k + 1)
    case Applying(read, n) =>
      && n == k + 1 && history != [] && history[|history| - 1] == Started(n)
      && exists a: nat :: ListsUpTo(read, a) && a <= k
    case Finished => k == Migrations.LAST
  }

  /** The log is a prefix, no record ever met a duplicate, and whoever is in the body, or got through, is in step. */
  ghost predicate Orderly(s: Cluster)
  {
    && Leased(s.lock) && Serial(s.history) && !s.duplicate
    && ListsUpTo(s.log, RecordedIn(s.history)) && RecordedIn(s.history) <= Migrations.LAST
    && (forall p :: InBody(s.lock, p) ==> p in s.runners && Fits(s.runners[p], s.history))
    && (forall p :: p in s.runners && s.runners[p].Finished? ==> RecordedIn(s.history) == Migrations.LAST)
  }

  lemma OnlyOneInside(lock: State, p: Holder, r: Holder)
    requires Leased(lock) && NoOverrun(lock) && InBody(lock, p) && InBody(lock, r)
    ensures p == r
  {
    assert Owns(lock, p) && Owns(lock, r);
  }

  lemma LockStepStaysOrderly(c: Settings, s: Cluster, e: Event)
    requires Orderly(s) && After(c, s, Lock(e)).Some?
    ensures Orderly(After(c, s, Lock(e)).value)
  {
    hide Serial, ListsUpTo, Leased, Fits;
    var s' := After(c, s, Lock(e)).value;
    StepKeepsLease(c, s.lock, e);
    EnteredFits(s.history);
    forall p | InBody(s'.lock, p)
      ensures p in s'.runners && Fits(s'.runners[p], s'.history)
    {
      assert InBody(s.lock, p) || e == Attempt(p);
    }
  }

  lemma EnteredFits(history: seq<Act>)
    ensures Fits(Entered, history)
  {
  }

  lemma HistoryNext(history: seq<Act>, act: Act)
    ensures RecordedIn(history + [act]) == RecordedIn(history) + if act.Recorded? then 1 else 0
    ensures Serial(history + [act]) <==>
              && Serial(history)
              && act.n == RecordedIn(history) + 1 && act.n <= Migrations.LAST
              && (act.Recorded? ==> history != [] && history[|history| - 1] == Started(act.n))
  {
    assert (history + [act])[..|history|] == history;
  }

  lemma InStep(s: Cluster, p: Holder)
    requires Orderly(s) && InBody(s.lock, p)
    ensures p in s.runners && Fits(s.runners[p], s.history) && !s.duplicate
    ensures Serial(s.history) && ListsUpTo(s.log, RecordedIn(s.history)) && RecordedIn(s.history) <= Migrations.LAST
  {
  }

  /** One step of the pod inside: what it begins is next in line, what it records was not recorded before. */
  lemma WorkFits(s: Cluster, p: Holder)
    requires Orderly(s) && InBody(s.lock, p) && Worked(s, p).Some?
    ensures var s' := Worked(s, p).value;
            && s'.lock == s.lock && Serial(s'.history) && !s'.duplicate
            && ListsUpTo(s'.log, RecordedIn(s'.history)) &&
                RecordedIn(s.history) <= RecordedIn(s'.history) <= Migrations.LAST
            && s'.runners.Keys == s.runners.Keys && Fits(s'.runners[p], s'.history)
            && (forall r :: r in s.runners && r != p ==> s'.runners[r] == s.runners[r])
  {
    hide Serial, Leased, ListsUpTo, Fits, RecordedIn;
    InStep(s, p);
    hide Orderly;
    match s.runners[p]
    case Entered => BeginFits(s.log, s.history);
    case Looking(read, n) => LookFits(read, n, s.history);
    case Applying(read, n) => RecordFits(s.log, read, n, s.history);
    case Finished =>
  }

  lemma BeginFits(log: Log, history: seq<Act>)
    requires ListsUpTo(log, RecordedIn(history))
    ensures Fits(Looking(log, 1), history)
  {
  }

  lemma LookFits(read: Log, n: nat, history: seq<Act>)
    requires Serial(history) && Fits(Looking(read, n), history) && RecordedIn(history) <= Migrations.LAST
    ensures n > Migrations.LAST ==> Fits(Finished, history)
    ensures n <= Migrations.LAST && Migrations.Top(n) in read ==> Fits(Looking(read, n + 1), history)
    ensures n <= Migrations.LAST && Migrations.Top(n) !in read ==>
              Serial(history + [Started(n)]) && RecordedIn(history + [Started(n)]) == RecordedIn(history) &&
              Fits(Applying(read, n), history + [Started(n)])
  {
    hide Serial;
    var k := RecordedIn(history);
    var a: nat :| ListsUpTo(read, a) && a <= k && (a == k || n == k + 1);
    HistoryNext(history, Started(n));
  }

  lemma RecordFits(log: Log, read: Log, n: nat, history: seq<Act>)
    requires Serial(history) && Fits(Applying(read, n), history) && ListsUpTo(log, RecordedIn(history))
    ensures Migrations.Top(n) !in log && n <= Migrations.LAST
    ensures Serial(history + [Recorded(n)]) && RecordedIn(history + [Recorded(n)]) == n
    ensures ListsUpTo(log + {Migrations.Top(n)}, n)
    ensures Fits(Looking(read, n + 1), history + [Recorded(n)])
  {
    hide Serial;
    HistoryNext(history, Recorded(n));
    SerialBounds(history);
  }

  lemma SerialBounds(history: seq<Act>)
    requires Serial(history) && history != []
    ensures history[|history| - 1].n <= Migrations.LAST
  {
  }

  lemma WorkStaysOrderly(c: Settings, s: Cluster, p: Holder)
    requires Orderly(s) && NoOverrun(s.lock) && After(c, s, Work(p)).Some?
    ensures Orderly(After(c, s, Work(p)).value)
  {
    hide Serial, ListsUpTo, Leased, Fits, Worked, NoOverrun;
    WorkFits(s, p);
    var s' := Worked(s, p).value;
    forall r | InBody(s'.lock, r)
      ensures r in s'.runners && Fits(s'.runners[r], s'.history)
    {
      OnlyOneInside(s.lock, p, r);
    }
    FinishedFits(s'.runners[p], s'.history);
  }

  lemma FinishedFits(r: Runner, history: seq<Act>)
    requires Fits(r, history)
    ensures r.Finished? ==> RecordedIn(history) == Migrations.LAST
  {
  }

  /** No pod is in the body past its lease at any point of the run. */
  ghost predicate NeverOverrun(c: Settings, start: Time, moves: seq<Move>)
  {
    forall n :: 0 <= n <= |moves| && Reach(c, start, moves[..n]).Some? ==>
        NoOverrun(Reach(c, start, moves[..n]).value.lock)
  }

  /** In every interleaving without an overrun, whoever crashes wherever: the log is a prefix of the list, no pod ever
      inserts a record that is there already, and what the pods did is what runs one after the other would do. */
  lemma {:induction false} ClusterStaysOrderly(c: Settings, start: Time, moves: seq<Move>)
    requires Reach(c, start, moves).Some? && NeverOverrun(c, start, moves)
    ensures Orderly(Reach(c, start, moves).value)
  {
    hide Orderly, After, NoOverrun;
    if moves == [] {
      InitiallyOrderly(c, start);
    } else {
      var before := moves[..|moves| - 1];
      var s := Reach(c, start, before).value;
      forall n | 0 <= n <= |before|
        ensures before[..n] == moves[..n]
      {
      }
      ClusterStaysOrderly(c, start, before);
      assert NoOverrun(s.lock);
      match moves[|moves| - 1]
      case Lock(e) => LockStepStaysOrderly(c, s, e);
      case Work(p) => WorkStaysOrderly(c, s, p);
    }
  }

  lemma InitiallyOrderly(c: Settings, start: Time)
    ensures Orderly(Reach(c, start, []).value)
  {
  }

  // ----- The database behind the log -----

  lemma {:induction false} SerialAt(history: seq<Act>, i: nat)
    requires Serial(history) && i < |history|
    ensures history[i].n == RecordedIn(history[..i]) + 1 <= Migrations.LAST
    ensures history[i].Recorded? ==> i > 0 && history[i - 1] == Started(history[i].n)
    ensures RecordedIn(history[..i + 1]) == RecordedIn(history[..i]) + if history[i].Recorded? then 1 else 0
    decreases |history|
  {
    assert history[..i + 1][..i] == history[..i];
    if i < |history| - 1 {
      var before := history[..|history| - 1];
      SerialAt(before, i);
      assert before[..i] == history[..i] && before[..i + 1] == history[..i + 1];
    } else {
      assert history[..i] == history[..|history| - 1];
    }
  }

  /** The migrations themselves, done as the history says: one recorded was applied to the end, one begun and not
      recorded was cut short somewhere. */
  method Replay(files: Migrations.Files, history: seq<Act>) returns (db: Migrations.Database)
    requires Serial(history) && Migrations.UniqueReactions(files) && Migrations.UniqueProducts(files)
    ensures fresh(db) && db.Valid(files) && db.applied == RecordedIn(history)
  {
    hide Serial, Migrations.UniqueReactions, Migrations.UniqueProducts;
    db := new Migrations.Database();
    var i := 0;
    if history != [] { SerialAt(history, 0); }
    while i < |history|
      invariant i <= |history| && fresh(db)
      invariant db.Valid(files) && db.applied == RecordedIn(history[..i])
      invariant i < |history| ==> history[i].Started?
    {
      var n := history[i].n;
      SerialAt(history, i);
      if i + 1 < |history| && history[i + 1] == Recorded(n) {
        var done := db.Apply(n, files, true);
        db.RecordApplied(n, files);
        SerialAt(history, i + 1);
        if i + 2 < |history| { SerialAt(history, i + 2); }
        i := i + 2;
      } else {
        var done := db.Apply(n, files, false);
        if i + 1 < |history| { SerialAt(history, i + 1); }
        i := i + 1;
      }
    }
    assert history[..|history|] == history;
  }

  /** From an empty database, through any interleaving without an overrun: the database is as far along as the log
      says, and once any pod got through, sde_blueprints holds exactly the expected documents. */
  method Deploy(files: Migrations.Files, c: Settings, start: Time, moves: seq<Move>)
    returns (cluster: Cluster, db: Migrations.Database)
    requires Migrations.UniqueReactions(files) && Migrations.UniqueProducts(files)
    requires Reach(c, start, moves).Some? && NeverOverrun(c, start, moves)
    ensures cluster == Reach(c, start, moves).value && !cluster.duplicate
    ensures fresh(db) && db.Valid(files)
    ensures forall n: nat :: Migrations.Top(n) in cluster.log <==> Migrations.Top(n) in db.recorded
    ensures (exists p :: p in cluster.runners && cluster.runners[p].Finished?) ==>
            db.blueprints == Migrations.Expected(files) && Migrations.AsListed(files, db.blueprints)
  {
    hide Serial, Reach, Migrations.UniqueReactions, Migrations.UniqueProducts, Migrations.Expected, Migrations.AsListed;
    Migrations.ExpectedAsListed(files);
    ClusterStaysOrderly(c, start, moves);
    cluster := Reach(c, start, moves).value;
    db := Replay(files, cluster.history);
  }
}
