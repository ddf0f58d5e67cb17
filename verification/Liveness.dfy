// The liveness worker: a snapshot of the open jobs no ingest run owns, at most eight probes at
// once, and tallies of what they did, beside every other worker.
module Liveness {
  import opened Wrappers
  import opened Catalogue
  import opened Workers
  import opened Lifecycle
  import opened DatabaseServer
  import opened Sequences
  import FanOut

  const CONCURRENCY: nat := 8

  // Anything but a liveness pass: there is one at a time.
  predicate ByOthers(e: Event) {
    !e.Lifecycle? || e.life.Sweep?
  }

  function Reported(id: nat): Option<nat> {
    Some(id)
  }

  // Expired verdicts are written, and Live ones for a candidate with strikes.
  predicate NeedsWrite(verdict: Verdict, strikes: nat) {
    verdict == Expired || (verdict == Alive && strikes != 0)
  }

  // The candidates whose verdict the database did not take: it had to be written, and the write
  // failed.
  function Lost(snapshot: map<nat, nat>, verdict: nat -> Verdict, writes: nat -> bool): set<nat> {
    set j | j in snapshot && NeedsWrite(verdict(j), snapshot[j]) && !writes(j)
  }

  // The candidates among `done` that an Expired verdict closed: they had a strike already.
  function Closing(snapshot: map<nat, nat>, verdict: nat -> Verdict, done: set<nat>): set<nat> {
    set j | j in done && j in snapshot && verdict(j) == Expired && snapshot[j] >= 1
  }

  function Striking(snapshot: map<nat, nat>, verdict: nat -> Verdict, done: set<nat>): set<nat> {
    set j | j in done && j in snapshot && verdict(j) == Expired && snapshot[j] == 0
  }

  // ---------- What holds while the pass runs ----------

  // The candidates stay with the sources nobody sweeps, and open until they are probed.
  ghost predicate RowsOk(c: Config, w: World, snapshot: map<nat, nat>, tried: set<nat>) {
    && (forall j :: j in snapshot ==> j in w.db.jobs && w.db.jobs[j].key.source !in c.providers)
    && (forall j :: j in snapshot && j !in tried ==> w.db.jobs[j].closedAt.None?)
  }

  // One verdict more for each candidate done, and none for any other job.
  ghost predicate HistoryOk(start: World, w: World, verdict: nat -> Verdict, done: set<nat>) {
    forall j :: History(w.log, j) == History(start.log, j) + if j in done then [verdict(j)] else []
  }

  // `done` are the candidates whose verdict is recorded, `tried` those that have been probed.
  ghost predicate Underway(c: Config, start: World, w: World, snapshot: map<nat, nat>, verdict: nat -> Verdict,
                           done: set<nat>, tried: set<nat>) {
    && LivesOk(c, w) && w.probing == Some(snapshot - done) && done <= tried <= snapshot.Keys
    && RowsOk(c, w, snapshot, tried) && HistoryOk(start, w, verdict, done)
  }

  lemma PassBegins(c: Config, w: World, verdict: nat -> Verdict)
    requires LivesOk(c, w) && LifeEnabled(c, w, BeginProbes)
    ensures Underway(c, w, LifeStep(c, w, BeginProbes), Candidates(w.db, c.providers), verdict, {}, {})
  {
    var t := LifeStep(c, w, BeginProbes);
    LifeStepKeepsLives(c, w, BeginProbes);
    assert Candidates(w.db, c.providers) - {} == Candidates(w.db, c.providers);
    assert forall j :: History(w.log, j) + [] == History(w.log, j);
  }

  lemma OthersLeaveVerdicts(c: Config, w: World, e: Event)
    requires LivesOk(c, w) && Enabled(c, w, e) && ByOthers(e)
    ensures Step(c, w, e).log.verdicts == w.log.verdicts && Step(c, w, e).probing == w.probing
  {
    if e.Ingest? || (e.Telegram? && e.post.Extract?) {
      UpsertingStep(c, w, e);
    } else if !e.Lifecycle? {
      OtherStepKeepsLives(c, w, e);
    }
  }

  lemma OthersLeaveThePass(c: Config, start: World, w: World, snapshot: map<nat, nat>, verdict: nat -> Verdict,
                           done: set<nat>, tried: set<nat>, e: Event)
    requires Underway(c, start, w, snapshot, verdict, done, tried) && Enabled(c, w, e) && ByOthers(e)
    ensures Underway(c, start, Step(c, w, e), snapshot, verdict, done, tried)
  {
    var t := Step(c, w, e);
    StepKeepsLives(c, w, e);
    OthersLeaveVerdicts(c, w, e);
    forall j | j in snapshot
      ensures j in t.db.jobs && t.db.jobs[j].key.source !in c.providers
      ensures j !in tried ==> t.db.jobs[j].closedAt.None?
    {
      StepLeavesUnprobed(c, w, e, j);
    }
    forall j ensures History(t.log, j) == History(w.log, j) {
    }
  }

  lemma ProbeExtendsHistory(c: Config, start: World, w: World, verdict: nat -> Verdict, done: set<nat>, id: nat)
    requires HistoryOk(start, w, verdict, done) && LivesOk(c, w) && LifeEnabled(c, w, Probe(id, verdict(id)))
    requires id !in done
    ensures HistoryOk(start, LifeStep(c, w, Probe(id, verdict(id))), verdict, done + {id})
  {
    var t := LifeStep(c, w, Probe(id, verdict(id)));
    forall j ensures History(t.log, j) == History(start.log, j) + if j in done + {id} then [verdict(j)] else [] {
      ProbeIsLogged(c, w, id, verdict(id), j);
      if j == id {
        Nothing(History(start.log, j));
      }
    }
  }

  lemma ProbeKeepsRows(c: Config, w: World, snapshot: map<nat, nat>, tried: set<nat>, id: nat, verdict: Verdict)
    requires LivesOk(c, w) && LifeEnabled(c, w, Probe(id, verdict)) && RowsOk(c, w, snapshot, tried)
    ensures RowsOk(c, LifeStep(c, w, Probe(id, verdict)), snapshot, tried + {id})
  {
    forall j | j in snapshot
      ensures LifeStep(c, w, Probe(id, verdict)).db.jobs[j].key == w.db.jobs[j].key
      ensures j != id ==> LifeStep(c, w, Probe(id, verdict)).db.jobs[j] == w.db.jobs[j]
    {
      ProbeLeavesTheOthers(c, w, id, verdict, j);
    }
  }

  lemma OneLess(snapshot: map<nat, nat>, done: set<nat>, id: nat)
    ensures snapshot - done - {id} == snapshot - (done + {id})
  {
  }

  // A recorded verdict.
  lemma OneMoreProbed(c: Config, start: World, w: World, snapshot: map<nat, nat>, verdict: nat -> Verdict,
                      done: set<nat>, tried: set<nat>, id: nat)
    requires Underway(c, start, w, snapshot, verdict, done, tried) && id in snapshot && id !in tried
    ensures Underway(c, start, LifeStep(c, w, Probe(id, verdict(id))), snapshot, verdict, done + {id}, tried + {id})
  {
    assert LifeEnabled(c, w, Probe(id, verdict(id)));
    ProbeExtendsHistory(c, start, w, verdict, done, id);
    ProbeKeepsLives(c, w, id, verdict(id));
    ProbeKeepsRows(c, w, snapshot, tried, id, verdict(id));
    OneLess(snapshot, done, id);
  }

  // The rows are as the snapshot showed them until they are probed, so an Expired verdict closes
  // exactly the candidates that had a strike.
  lemma ClosesWithAStrike(c: Config, start: World, w: World, snapshot: map<nat, nat>, verdict: nat -> Verdict,
                          done: set<nat>, tried: set<nat>, id: nat)
    requires Underway(c, start, w, snapshot, verdict, done, tried) && id in snapshot && id !in tried
    ensures id in w.db.jobs
    ensures MarkLivenessExpired(w.db, id, CLOSE_THRESHOLD).jobs[id].closedAt.Some? <==> snapshot[id] >= 1
  {
  }

  lemma ProbeAppliesTheVerdict(c: Config, w: World, id: nat, verdict: Verdict)
    requires LifeEnabled(c, w, Probe(id, verdict))
    ensures LifeStep(c, w, Probe(id, verdict)).db == ApplyVerdict(w.db, id, w.probing.value[id], verdict)
  {
  }

  // A verdict that could not be written.
  lemma OneMoreTried(c: Config, start: World, w: World, snapshot: map<nat, nat>, verdict: nat -> Verdict,
                     done: set<nat>, tried: set<nat>, id: nat)
    requires Underway(c, start, w, snapshot, verdict, done, tried) && id in snapshot
    ensures Underway(c, start, w, snapshot, verdict, done, tried + {id})
  {
  }

  lemma CountOneMore(snapshot: map<nat, nat>, verdict: nat -> Verdict, done: set<nat>, id: nat)
    requires id in snapshot && id !in done
    ensures |Closing(snapshot, verdict, done + {id})| ==
              |Closing(snapshot, verdict, done)| + if verdict(id) == Expired && snapshot[id] >= 1 then 1 else 0
    ensures |Striking(snapshot, verdict, done + {id})| ==
              |Striking(snapshot, verdict, done)| + if verdict(id) == Expired && snapshot[id] == 0 then 1 else 0
  {
    if verdict(id) == Expired && snapshot[id] >= 1 {
      assert Closing(snapshot, verdict, done + {id}) == Closing(snapshot, verdict, done) + {id};
    } else {
      assert Closing(snapshot, verdict, done + {id}) == Closing(snapshot, verdict, done);
    }
    if verdict(id) == Expired && snapshot[id] == 0 {
      assert Striking(snapshot, verdict, done + {id}) == Striking(snapshot, verdict, done) + {id};
    } else {
      assert Striking(snapshot, verdict, done + {id}) == Striking(snapshot, verdict, done);
    }
  }

  // The rows of a query that asks for no order.
  method InSomeOrder(ids: set<nat>) returns (rows: seq<nat>)
    ensures |rows| == |ids| && forall j :: j in rows <==> j in ids
    ensures Distinct(rows)
  {
    rows := [];
    var rest := ids;
    while rest != {}
      invariant rest <= ids && |rows| + |rest| == |ids|
      invariant forall j :: j in rows <==> j in ids - rest
      invariant Distinct(rows)
    {
      var j :| j in rest;
      rest := rest - {j};
      rows := rows + [j];
    }
  }

  class Pass {
    const c: Config
    const db: Database
    const verdict: nat -> Verdict // what fetching and classifying a job's page gives
    const writes: nat -> bool // whether the database takes the write for a job
    var world: World
    var probed: nat
    var closed: nat
    var struck: nat

    constructor (c: Config, db: Database, verdict: nat -> Verdict, writes: nat -> bool, world: World)
      requires db.Tables() == world.db
      ensures this.c == c && this.db == db && this.verdict == verdict && this.writes == writes && this.world == world
      ensures probed == closed == struck == 0
    {
      this.c, this.db, this.verdict, this.writes, this.world := c, db, verdict, writes, world;
      probed, closed, struck := 0, 0, 0;
    }

    // The tallies count the probes and the recorded Expired verdicts.
    ghost predicate Counted(snapshot: map<nat, nat>, done: set<nat>, tried: set<nat>)
      reads this
    {
      && probed == |tried| && done == tried - Lost(snapshot, verdict, writes)
      && closed == |Closing(snapshot, verdict, done)| && struck == |Striking(snapshot, verdict, done)|
    }

    // The live tables are the world's.
    ghost predicate Current()
      reads this, db
    {
      db.Tables() == world.db
    }

    ghost predicate Tallied(start: World, snapshot: map<nat, nat>, done: set<nat>, tried: set<nat>)
      reads this, db
    {
      Current() && Counted(snapshot, done, tried) && Underway(c, start, world, snapshot, verdict, done, tried)
    }

    // Any number of steps of the other workers.
    method Others(ghost start: World, ghost snapshot: map<nat, nat>, ghost done: set<nat>, ghost tried: set<nat>)
      requires Tallied(start, snapshot, done, tried)
      modifies this`world, db
      ensures Tallied(start, snapshot, done, tried)
    {
      var n: nat :| n >= 0;
      for k := 0 to n
        invariant Tallied(start, snapshot, done, tried)
      {
        var e: Event := *;
        if ByOthers(e) && Enabled(c, world, e) {
          OthersLeaveThePass(c, start, world, snapshot, verdict, done, tried, e);
          world := Step(c, world, e);
          db.Restore(world.db);
        }
      }
    }

    // Write one verdict; a failed write is only logged.
    method Apply(id: nat, strikes: nat) returns (recorded: bool)
      requires id in db.jobs
      modifies this`closed, this`struck, db
      ensures db.Tables() == if recorded then ApplyVerdict(old(db.Tables()), id, strikes, verdict(id))
                else old(db.Tables())
      ensures recorded && verdict(id) == Expired ==>
                var shut := MarkLivenessExpired(old(db.Tables()), id, CLOSE_THRESHOLD).jobs[id].closedAt.Some?;
                closed == old(closed) + (if shut then 1 else 0) && struck == old(struck) + (if shut then 0 else 1)
      ensures !recorded || verdict(id) != Expired ==> closed == old(closed) && struck == old(struck)
      ensures recorded <==> !NeedsWrite(verdict(id), strikes) || writes(id)
    {
      recorded := true;
      match verdict(id)
      case Expired =>
        recorded := writes(id);
        if recorded {
          var row := db.MarkLivenessExpired(id, CLOSE_THRESHOLD);
          if row.value.closedAt.Some? {
            closed := closed + 1;
          } else {
            struck := struck + 1;
          }
        }
      case Alive =>
        if strikes != 0 {
          recorded := writes(id);
          if recorded {
            db.ResetLivenessStrikes(id);
          }
        }
      case Uncertain =>
    }

    // A verdict's effect on the tables and the tallies, for a candidate still as in the snapshot.
    method ApplyAndCount(id: nat, ghost snapshot: map<nat, nat>, strikes: nat, ghost done: set<nat>,
              ghost tried: set<nat>)
      returns (recorded: bool)
      requires id in db.jobs && id in snapshot && strikes == snapshot[id] && id !in tried && done <= tried
      requires MarkLivenessExpired(db.Tables(), id, CLOSE_THRESHOLD).jobs[id].closedAt.Some? <==> snapshot[id] >= 1
      requires Counted(snapshot, done, tried)
      modifies this`probed, this`closed, this`struck, db
      ensures db.Tables() == if recorded then ApplyVerdict(old(db.Tables()), id, strikes, verdict(id))
                else old(db.Tables())
      ensures Counted(snapshot, if recorded then done + {id} else done, tried + {id})
    {
      probed := probed + 1;
      CountOneMore(snapshot, verdict, done, id);
      recorded := Apply(id, strikes);
    }

    // Keeps the world in step with the tables.
    method Note(id: nat, ghost start: World, ghost snapshot: map<nat, nat>, ghost done: set<nat>, ghost tried: set<nat>)
      requires Underway(c, start, world, snapshot, verdict, done, tried) && id in snapshot && id !in tried
      modifies this`world
      ensures Underway(c, start, world, snapshot, verdict, done + {id}, tried + {id})
      ensures world.db == ApplyVerdict(old(world.db), id, snapshot[id], verdict(id))
    {
      OneMoreProbed(c, start, world, snapshot, verdict, done, tried, id);
      ProbeAppliesTheVerdict(c, world, id, verdict(id));
      world := LifeStep(c, world, Probe(id, verdict(id)));
    }

    // One candidate: fetched, classified, and its verdict written if that succeeds.
    method ProbeOne(id: nat, strikes: nat, ghost start: World, ghost snapshot: map<nat, nat>, ghost done: set<nat>,
                    ghost tried: set<nat>) returns (recorded: bool)
      requires Tallied(start, snapshot, done, tried) && id in snapshot && id !in tried && strikes == snapshot[id]
      modifies this, db
      ensures Tallied(start, snapshot, if recorded then done + {id} else done, tried + {id})
    {
      ClosesWithAStrike(c, start, world, snapshot, verdict, done, tried, id);
      recorded := ApplyAndCount(id, snapshot, strikes, done, tried);
      if recorded {
        Note(id, start, snapshot, done, tried);
      } else {
        OneMoreTried(c, start, world, snapshot, verdict, done, tried, id);
      }
    }

    // One step of the scheduler; storing is where a goroutine performs its probe.
    method Perform(s: FanOut.State<nat>, a: FanOut.Action, rows: seq<nat>, snapshot: map<nat, nat>, ghost start: World,
                   ghost done: set<nat>, ghost tried: set<nat>) returns (ghost done': set<nat>, ghost tried': set<nat>)
      requires Tallied(start, snapshot, done, tried) && Matching(rows, s.phases, tried) && Distinct(rows)
      requires FanOut.Enabled(s, CONCURRENCY, a) && forall j :: j in rows ==> j in snapshot
      modifies this, db
      ensures Tallied(start, snapshot, done', tried')
      ensures tried' == if a.Store? then tried + {rows[a.i]} else tried
    {
      done', tried' := done, tried;
      if a.Store? {
        var recorded := ProbeOne(rows[a.i], snapshot[rows[a.i]], start, snapshot, done, tried);
        tried' := tried + {rows[a.i]};
        if recorded {
          done' := done + {rows[a.i]};
        }
      }
    }

    // One goroutine per candidate, as the scheduler of module FanOut runs them: it performs its
    // probe between taking a slot and giving it back.
    method ProbeAll(rows: seq<nat>, snapshot: map<nat, nat>, ghost start: World)
      returns (ghost done: set<nat>, ghost schedule: seq<FanOut.Action>, ghost end: FanOut.State<nat>)
      requires Tallied(start, snapshot, {}, {}) && Lists(rows, snapshot)
      modifies this, db
      ensures Tallied(start, snapshot, done, snapshot.Keys)
      ensures FanOut.Bounded(CONCURRENCY, rows, Reported, schedule, end) && FanOut.Joined(end)
    {
      var s: FanOut.State<nat> := FanOut.Initial(|rows|);
      ghost var tried := {};
      done, schedule := {}, [];
      StartsOnSchedule(rows);
      while !FanOut.Joined(s)
        invariant OnSchedule(rows, schedule, s, tried) && Tallied(start, snapshot, done, tried)
        decreases FanOut.StepsLeft(s)
      {
        Others(start, snapshot, done, tried);
        ghost var enabled := FanOut.SomeStepIsEnabled(s, CONCURRENCY, rows, Reported);
        var a :| FanOut.Enabled(s, CONCURRENCY, a);
        StaysOnSchedule(rows, schedule, s, a, tried);
        done, tried := Perform(s, a, rows, snapshot, start, done, tried);
        s := FanOut.Step(s, CONCURRENCY, rows, Reported, a);
        schedule := schedule + [a];
      }
      AllTried(rows, schedule, s, snapshot, tried);
      end := s;
    }

    // The pass itself: snapshot, probes, end.
    method RunPass() returns (ghost snapshot: map<nat, nat>, ghost done: set<nat>, ghost rows: seq<nat>,
                              ghost schedule: seq<FanOut.Action>, ghost end: FanOut.State<nat>)
      requires LivesOk(c, world) && world.probing.None? && Current() && probed == closed == struck == 0
      requires c.providers != {}
      modifies this, db
      ensures Current() && LivesOk(c, world) && world.probing.None?
      ensures snapshot == Candidates(old(world).db, c.providers) && HistoryOk(old(world), world, verdict, done)
      ensures Counted(snapshot, done, snapshot.Keys) && Lists(rows, snapshot)
      ensures FanOut.Bounded(CONCURRENCY, rows, Reported, schedule, end) && FanOut.Joined(end)
    {
      ghost var start := world;
      PassBegins(c, world, verdict);
      world := LifeStep(c, world, BeginProbes);
      var candidates := world.probing.value;
      var order := InSomeOrder(candidates.Keys);
      assert Closing(candidates, verdict, {}) == {} && Striking(candidates, verdict, {}) == {};
      snapshot, rows := candidates, order;
      done, schedule, end := ProbeAll(order, candidates, start);
      PassEnds(c, start, world, snapshot, verdict, done);
      world := LifeStep(c, world, EndProbes);
    }

    // A whole pass, beside the other workers. It refuses to run without registered providers.
    // Otherwise every candidate of the snapshot is probed once, at most eight at any moment of the
    // goroutines' schedule, and gets one verdict more, but for the candidates whose write failed.
    // `closed` counts those whose Expired verdict met an earlier strike, `struck` the other
    // Expired ones.
    method Run() returns (ok: bool, ghost snapshot: map<nat, nat>, ghost done: set<nat>, ghost rows: seq<nat>,
                          ghost schedule: seq<FanOut.Action>, ghost end: FanOut.State<nat>)
      requires LivesOk(c, world) && world.probing.None? && Current() && probed == closed == struck == 0
      modifies this, db
      ensures ok <==> c.providers != {}
      ensures Current() && LivesOk(c, world) && world.probing.None?
      ensures !ok ==> world == old(world) && probed == closed == struck == 0
      ensures ok ==> forall j :: j in snapshot <==>
                var jobs := old(world).db.jobs;
                j in jobs && jobs[j].closedAt.None? && jobs[j].key.source !in c.providers
      ensures ok ==> forall j :: j in done <==>
                j in snapshot && (writes(j) || (verdict(j) == Alive && Trailing(History(old(world).log, j)) == 0)
                                  || verdict(j) == Uncertain)
      ensures ok ==> HistoryOk(old(world), world, verdict, done)
      ensures ok ==> Lists(rows, snapshot) && probed == |snapshot|
      ensures ok ==> FanOut.Bounded(8, rows, Reported, schedule, end) && FanOut.Joined(end)
      ensures ok ==> closed == |set j | j in done && verdict(j) == Expired && Trailing(History(old(world).log, j)) >= 1|
      ensures ok ==> struck == |set j | j in done && verdict(j) == Expired && Trailing(History(old(world).log, j)) == 0|
    {
      if c.providers == {} {
        return false, map[], {}, [], [], FanOut.Initial(0);
      }
      ok := true;
      snapshot, done, rows, schedule, end := RunPass();
      CandidatesShowTheirStrikes(c, old(world), verdict, done);
      LostAreUnwritten(c, old(world), verdict, writes, done);
    }
  }

  lemma PassEnds(c: Config, start: World, w: World, snapshot: map<nat, nat>, verdict: nat -> Verdict, done: set<nat>)
    requires Underway(c, start, w, snapshot, verdict, done, snapshot.Keys)
    ensures var t := LifeStep(c, w, EndProbes);
            LivesOk(c, t) && t.probing.None? && t.db == w.db && HistoryOk(start, t, verdict, done)
  {
    LifeStepKeepsLives(c, w, EndProbes);
    assert LifeStep(c, w, EndProbes).log == w.log;
  }

  // A probe has been performed by a goroutine in one of these phases.
  predicate Probed(p: FanOut.Phase) {
    p.Stored? || p.Released? || p.Done?
  }

  predicate Matching(rows: seq<nat>, phases: seq<FanOut.Phase>, tried: set<nat>) {
    |rows| == |phases| && forall i :: 0 <= i < |rows| ==> (rows[i] in tried <==> Probed(phases[i]))
  }

  // Each candidate once, in some order.
  ghost predicate Lists(rows: seq<nat>, snapshot: map<nat, nat>) {
    Distinct(rows) && forall j :: j in rows <==> j in snapshot
  }

  // The scheduler's state, how it was reached, and whose probes have been performed.
  ghost predicate OnSchedule(rows: seq<nat>, schedule: seq<FanOut.Action>, s: FanOut.State<nat>, tried: set<nat>) {
    && FanOut.Sound(s, CONCURRENCY, rows, Reported) && FanOut.Bounded(CONCURRENCY, rows, Reported, schedule, s)
    && Matching(rows, s.phases, tried)
  }

  lemma StartsOnSchedule(rows: seq<nat>)
    ensures OnSchedule(rows, [], FanOut.Initial(|rows|), {})
  {
    FanOut.StartsSound(CONCURRENCY, rows, Reported);
    FanOut.BoundedAtFirst(CONCURRENCY, rows, Reported);
  }

  lemma StepMatches(s: FanOut.State<nat>, a: FanOut.Action, rows: seq<nat>, tried: set<nat>)
    requires FanOut.Sound(s, CONCURRENCY, rows, Reported) && FanOut.Enabled(s, CONCURRENCY, a)
    requires Matching(rows, s.phases, tried) && Distinct(rows)
    ensures Matching(rows, FanOut.Step(s, CONCURRENCY, rows, Reported, a).phases,
              if a.Store? then tried + {rows[a.i]} else tried)
  {
  }

  lemma StaysOnSchedule(rows: seq<nat>, schedule: seq<FanOut.Action>, s: FanOut.State<nat>, a: FanOut.Action,
                        tried: set<nat>)
    requires OnSchedule(rows, schedule, s, tried) && FanOut.Enabled(s, CONCURRENCY, a) && Distinct(rows)
    ensures var t := FanOut.Step(s, CONCURRENCY, rows, Reported, a);
            && OnSchedule(rows, schedule + [a], t, if a.Store? then tried + {rows[a.i]} else tried)
            && FanOut.StepsLeft(t) < FanOut.StepsLeft(s)
  {
    StepMatches(s, a, rows, tried);
    FanOut.BoundedExtends(CONCURRENCY, rows, Reported, schedule, s, a);
    FanOut.StepIsSound(s, CONCURRENCY, rows, Reported, a);
  }

  lemma AllTried(rows: seq<nat>, schedule: seq<FanOut.Action>, s: FanOut.State<nat>, snapshot: map<nat, nat>,
                 tried: set<nat>)
    requires OnSchedule(rows, schedule, s, tried) && FanOut.Joined(s) && Lists(rows, snapshot) && tried <= snapshot.Keys
    ensures tried == snapshot.Keys
  {
    FanOut.JoinedIsDone(s, CONCURRENCY, rows, Reported);
    forall j | j in snapshot ensures j in tried {
      var i :| 0 <= i < |rows| && rows[i] == j;
      assert s.phases[i] == FanOut.Done;
    }
  }

  lemma LostAreUnwritten(c: Config, w: World, verdict: nat -> Verdict, writes: nat -> bool, done: set<nat>)
    requires LivesOk(c, w)
    requires var snapshot := Candidates(w.db, c.providers);
             done == snapshot.Keys - Lost(snapshot, verdict, writes)
    ensures var snapshot := Candidates(w.db, c.providers);
            forall j :: j in done <==>
                        j in snapshot && (writes(j) || (verdict(j) == Alive && Trailing(History(w.log, j)) == 0)
                                          || verdict(j) == Uncertain)
  {
  }

  lemma CandidatesShowTheirStrikes(c: Config, w: World, verdict: nat -> Verdict, done: set<nat>)
    requires LivesOk(c, w) && done <= Candidates(w.db, c.providers).Keys
    ensures var snapshot := Candidates(w.db, c.providers);
            && Closing(snapshot, verdict, done) ==
               (set j | j in done && verdict(j) == Expired && Trailing(History(w.log, j)) >= 1)
            && Striking(snapshot, verdict, done) ==
               (set j | j in done && verdict(j) == Expired && Trailing(History(w.log, j)) == 0)
  {
  }
}
