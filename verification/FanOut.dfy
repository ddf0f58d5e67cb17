// The bounded fan-out that fetches a board's postings: one goroutine per posting, a channel
// as the semaphore, a wait group. The scheduler may interleave them in any way.
module FanOut {
  import opened Wrappers
  import opened Counting
  import opened Sequences

  // A goroutine stores its result, gives its slot back, then reports itself done.
  datatype Phase = Unstarted | Fetching | Stored | Released | Done

  // next is the posting the spawning loop is at, added whether it has already counted it in
  // the wait group, tokens what the semaphore channel holds.
  datatype State<J> = State(next: nat, added: bool, tokens: nat, waitGroup: int, phases: seq<Phase>,
            jobs: seq<Option<J>>)

  datatype Action = Add | Spawn | Store(i: nat) | Release(i: nat) | Report(i: nat)

  function Initial<J>(n: nat): State<J> {
    State(0, false, 0, 0, seq(n, _ => Unstarted), seq(n, _ => None))
  }

  predicate Enabled<J>(s: State<J>, workers: nat, a: Action) {
    match a
    case Add => !s.added && s.next < |s.phases|
    case Spawn => s.added && s.tokens < workers && s.next < |s.phases|
    case Store(i) => i < |s.phases| == |s.jobs| && s.phases[i] == Fetching
    case Release(i) => i < |s.phases| && s.phases[i] == Stored && s.tokens > 0
    case Report(i) => i < |s.phases| && s.phases[i] == Released
  }

  function Step<P, J>(s: State<J>, workers: nat, postings: seq<P>, fetch: P -> Option<J>, a: Action): State<J>
    requires Enabled(s, workers, a) && |postings| == |s.phases|
  {
    match a
    case Add => s.(added := true, waitGroup := s.waitGroup + 1)
    case Spawn => s.(added := false, tokens := s.tokens + 1, phases := s.phases[s.next := Fetching], next := s.next + 1)
    case Store(i) => s.(phases := s.phases[i := Stored], jobs := s.jobs[i := fetch(postings[i])])
    case Release(i) => s.(phases := s.phases[i := Released], tokens := s.tokens - 1)
    case Report(i) => s.(phases := s.phases[i := Done], waitGroup := s.waitGroup - 1)
  }

  // The spawning loop has ended and the wait group has released the caller.
  predicate Joined<J>(s: State<J>) {
    s.next == |s.phases| && !s.added && s.waitGroup == 0
  }

  // ---------- Counting goroutines ----------

  const HOLDING: Phase -> nat := (p: Phase) => if p == Fetching || p == Stored then 1 else 0
  const RUNNING: Phase -> nat := (p: Phase) => if p == Unstarted || p == Done then 0 else 1
  const STEPS_LEFT: Phase -> nat := (p: Phase) => match p case Unstarted => 5 case Fetching => 3
        case Stored => 2 case Released => 1 case Done => 0

  function InFlight<J>(s: State<J>): nat {
    Sum(s.phases, HOLDING)
  }

  function StepsLeft<J>(s: State<J>): nat {
    Sum(s.phases, STEPS_LEFT) + if s.added then 0 else 1
  }

  // ---------- What every interleaving keeps ----------

  ghost predicate Sound<P, J>(s: State<J>, workers: nat, postings: seq<P>, fetch: P -> Option<J>) {
    && |s.phases| == |s.jobs| == |postings| && s.next <= |postings|
    && (s.added ==> s.next < |postings|)
    && (forall i :: 0 <= i < |postings| ==> (s.phases[i] == Unstarted <==> i >= s.next))
    && s.tokens == InFlight(s) <= workers
    && s.waitGroup == Sum(s.phases, RUNNING) + (if s.added then 1 else 0)
    && (forall i :: 0 <= i < |postings| ==>
                      s.jobs[i] == if s.phases[i] == Unstarted ||
                                s.phases[i] == Fetching then None else fetch(postings[i]))
  }

  lemma StartsSound<P, J>(workers: nat, postings: seq<P>, fetch: P -> Option<J>)
    ensures Sound(Initial(|postings|), workers, postings, fetch)
  {
    var s: State<J> := Initial(|postings|);
    SumIsZero(s.phases, HOLDING);
    SumIsZero(s.phases, RUNNING);
  }

  lemma SpawnIsSound<P, J>(s: State<J>, workers: nat, postings: seq<P>, fetch: P -> Option<J>)
    requires Sound(s, workers, postings, fetch) && Enabled(s, workers, Spawn)
    ensures var t := Step(s, workers, postings, fetch, Spawn);
            Sound(t, workers, postings, fetch) && StepsLeft(t) < StepsLeft(s)
  {
    Moves(s.phases, HOLDING, RUNNING, STEPS_LEFT, s.next, Fetching);
  }

  lemma StoreIsSound<P, J>(s: State<J>, workers: nat, postings: seq<P>, fetch: P -> Option<J>, i: nat)
    requires Sound(s, workers, postings, fetch) && Enabled(s, workers, Store(i))
    ensures var t := Step(s, workers, postings, fetch, Store(i));
            Sound(t, workers, postings, fetch) && StepsLeft(t) < StepsLeft(s)
  {
    Moves(s.phases, HOLDING, RUNNING, STEPS_LEFT, i, Stored);
  }

  lemma ReleaseIsSound<P, J>(s: State<J>, workers: nat, postings: seq<P>, fetch: P -> Option<J>, i: nat)
    requires Sound(s, workers, postings, fetch) && Enabled(s, workers, Release(i))
    ensures var t := Step(s, workers, postings, fetch, Release(i));
            Sound(t, workers, postings, fetch) && StepsLeft(t) < StepsLeft(s)
  {
    Moves(s.phases, HOLDING, RUNNING, STEPS_LEFT, i, Released);
  }

  lemma ReportIsSound<P, J>(s: State<J>, workers: nat, postings: seq<P>, fetch: P -> Option<J>, i: nat)
    requires Sound(s, workers, postings, fetch) && Enabled(s, workers, Report(i))
    ensures var t := Step(s, workers, postings, fetch, Report(i));
            Sound(t, workers, postings, fetch) && StepsLeft(t) < StepsLeft(s)
  {
    Moves(s.phases, HOLDING, RUNNING, STEPS_LEFT, i, Done);
  }

  lemma StepIsSound<P, J>(s: State<J>, workers: nat, postings: seq<P>, fetch: P -> Option<J>, a: Action)
    requires Sound(s, workers, postings, fetch) && Enabled(s, workers, a)
    ensures var t := Step(s, workers, postings, fetch, a);
            Sound(t, workers, postings, fetch) && StepsLeft(t) < StepsLeft(s)
  {
    match a
    case Add =>
    case Spawn => SpawnIsSound(s, workers, postings, fetch);
    case Store(i) => StoreIsSound(s, workers, postings, fetch, i);
    case Release(i) => ReleaseIsSound(s, workers, postings, fetch, i);
    case Report(i) => ReportIsSound(s, workers, postings, fetch, i);
  }

  // Until the caller is released some step can be taken: there is no deadlock.
  lemma SomeStepIsEnabled<P, J>(s: State<J>, workers: nat, postings: seq<P>, fetch: P -> Option<J>) returns (a: Action)
    requires workers >= 1 && Sound(s, workers, postings, fetch) && !Joined(s)
    ensures Enabled(s, workers, a)
  {
    SumIsZero(s.phases, HOLDING);
    SumIsZero(s.phases, RUNNING);
    if i: nat :| i < |s.phases| && RUNNING(s.phases[i]) != 0 {
      a := match s.phases[i] case Fetching => Store(i) case Stored => Release(i) case _ => Report(i);
    } else {
      a := if s.added then Spawn else Add;
    }
  }

  function FilterMap<P, J>(postings: seq<P>, fetch: P -> Option<J>): seq<J> {
    if postings == [] then []
    else (match fetch(postings[0]) case Some(j) => [j] case None => []) + FilterMap(postings[1..], fetch)
  }

  function Collected<J>(jobs: seq<Option<J>>): seq<J> {
    if jobs == [] then [] else (match jobs[0] case Some(j) => [j] case None => []) + Collected(jobs[1..])
  }

  lemma {:induction false} AllFetched<P, J>(jobs: seq<Option<J>>, postings: seq<P>, fetch: P -> Option<J>)
    requires |jobs| == |postings| && forall i :: 0 <= i < |jobs| ==> jobs[i] == fetch(postings[i])
    ensures Collected(jobs) == FilterMap(postings, fetch)
  {
    if jobs != [] {
      AllFetched(jobs[1..], postings[1..], fetch);
    }
  }

  lemma JoinedIsDone<P, J>(s: State<J>, workers: nat, postings: seq<P>, fetch: P -> Option<J>)
    requires Sound(s, workers, postings, fetch) && Joined(s)
    ensures forall i :: 0 <= i < |postings| ==> s.phases[i] == Done
  {
    SumIsZero(s.phases, RUNNING);
    forall i | 0 <= i < |postings| ensures s.phases[i] == Done {
      assert RUNNING(s.phases[i]) == 0;
    }
  }

  lemma JoinedHasAll<P, J>(s: State<J>, workers: nat, postings: seq<P>, fetch: P -> Option<J>)
    requires Sound(s, workers, postings, fetch) && Joined(s)
    ensures Collected(s.jobs) == FilterMap(postings, fetch)
  {
    JoinedIsDone(s, workers, postings, fetch);
    AllFetched(s.jobs, postings, fetch);
  }

  // ---------- Whole schedules ----------

  predicate Schedule<P, J>(s: State<J>, workers: nat, postings: seq<P>, fetch: P -> Option<J>, actions: seq<Action>)
    requires |postings| == |s.phases|
    decreases |actions|
  {
    actions == [] || (Enabled(s, workers, actions[0]) && Schedule(Step(s, workers, postings, fetch, actions[0]),
        workers, postings, fetch, actions[1..]))
  }

  function Reached<P, J>(s: State<J>, workers: nat, postings: seq<P>, fetch: P -> Option<J>,
                         actions: seq<Action>): State<J>
    requires |postings| == |s.phases| && Schedule(s, workers, postings, fetch, actions)
    decreases |actions|
  {
    if actions == [] then s else Reached(Step(s, workers, postings, fetch, actions[0]), workers, postings, fetch,
        actions[1..])
  }

  lemma {:induction false} ScheduleIsSound<P, J>(s: State<J>, workers: nat, postings: seq<P>, fetch: P -> Option<J>,
                                                 actions: seq<Action>)
    requires Sound(s, workers, postings, fetch) && Schedule(s, workers, postings, fetch, actions)
    ensures var t := Reached(s, workers, postings, fetch, actions);
            Sound(t, workers, postings, fetch) && |actions| + StepsLeft(t) <= StepsLeft(s)
    decreases |actions|
  {
    if actions != [] {
      StepIsSound(s, workers, postings, fetch, actions[0]);
      ScheduleIsSound(Step(s, workers, postings, fetch, actions[0]), workers, postings, fetch, actions[1..]);
    }
  }

  // Every schedule keeps the fetches in flight within the bound, starts the next one as soon as it
  // may, ends after at most five
  // steps per posting, can only stop once the caller is released, and then the jobs are the
  // ones fetched, in the order of their postings.
  lemma EverySchedule<P, J>(workers: nat, postings: seq<P>, fetch: P -> Option<J>, actions: seq<Action>)
    requires workers >= 1 && Schedule(Initial(|postings|), workers, postings, fetch, actions)
    ensures var s := Reached(Initial(|postings|), workers, postings, fetch, actions);
            && InFlight(s) <= workers
            && (s.added ==> (Enabled(s, workers, Spawn) <==> InFlight(s) < workers))
            && |actions| <= 5 * |postings| + 1
            && ((forall a :: !Enabled(s, workers, a)) ==> Joined(s))
            && (Joined(s) ==> Collected(s.jobs) == FilterMap(postings, fetch))
  {
    var s0: State<J> := Initial(|postings|);
    StartsSound(workers, postings, fetch);
    ScheduleIsSound(s0, workers, postings, fetch, actions);
    SumOfConstant(s0.phases, STEPS_LEFT, 5);
    var s := Reached(s0, workers, postings, fetch, actions);
    if Joined(s) {
      JoinedHasAll(s, workers, postings, fetch);
    } else {
      var a := SomeStepIsEnabled(s, workers, postings, fetch);
    }
  }

  lemma {:induction false} ScheduleExtends<P, J>(s: State<J>, workers: nat, postings: seq<P>, fetch: P -> Option<J>,
                                                 actions: seq<Action>, a: Action)
    requires |postings| == |s.phases| && Schedule(s, workers, postings, fetch, actions)
    requires Enabled(Reached(s, workers, postings, fetch, actions), workers, a)
    requires |Reached(s, workers, postings, fetch, actions).phases| == |postings|
    ensures Schedule(s, workers, postings, fetch, actions + [a])
    ensures Reached(s, workers, postings, fetch, actions + [a]) ==
              Step(Reached(s, workers, postings, fetch, actions), workers, postings, fetch, a)
    decreases |actions|
  {
    var longer := actions + [a];
    if actions == [] {
      assert longer[1..] == [];
    } else {
      assert longer[0] == actions[0] && longer[1..] == actions[1..] + [a];
      ScheduleExtends(Step(s, workers, postings, fetch, actions[0]), workers, postings, fetch, actions[1..], a);
    }
  }

  // The schedule leads to this state, with the fetches in flight within the bound at every moment.
  ghost predicate Bounded<P, J>(workers: nat, postings: seq<P>, fetch: P -> Option<J>, actions: seq<Action>,
                                end: State<J>) {
    && Schedule(Initial(|postings|), workers, postings, fetch, actions)
    && Reached(Initial(|postings|), workers, postings, fetch, actions) == end
    && forall n :: 0 <= n <= |actions| ==>
                     && Schedule(Initial(|postings|), workers, postings, fetch, actions[..n])
                     && InFlight(Reached(Initial(|postings|), workers, postings, fetch, actions[..n])) <= workers
  }

  lemma BoundedAtFirst<P, J>(workers: nat, postings: seq<P>, fetch: P -> Option<J>)
    ensures Bounded(workers, postings, fetch, [], Initial(|postings|))
  {
    StartsSound(workers, postings, fetch);
  }

  lemma BoundedExtends<P, J>(workers: nat, postings: seq<P>, fetch: P -> Option<J>, actions: seq<Action>, s: State<J>,
                             a: Action)
    requires Bounded(workers, postings, fetch, actions, s) && Sound(s, workers, postings, fetch)
    requires Enabled(s, workers, a)
    ensures Bounded(workers, postings, fetch, actions + [a], Step(s, workers, postings, fetch, a))
  {
    var s0: State<J> := Initial(|postings|);
    var longer := actions + [a];
    ScheduleExtends(s0, workers, postings, fetch, actions, a);
    StepIsSound(s, workers, postings, fetch, a);
    forall n | 0 <= n <= |longer|
      ensures Schedule(s0, workers, postings, fetch, longer[..n])
      ensures InFlight(Reached(s0, workers, postings, fetch, longer[..n])) <= workers
    {
      assert longer[..n] == if n <= |actions| then actions[..n] else longer;
    }
  }

  ghost predicate CanJoin<P, J>(s: State<J>, workers: nat, postings: seq<P>, fetch: P -> Option<J>)
    requires |postings| == |s.phases|
  {
    exists actions :: Schedule(s, workers, postings, fetch, actions) &&
              Joined(Reached(s, workers, postings, fetch, actions))
  }

  // Without workers the spawning loop blocks on its first posting for ever, so a worker is
  // needed exactly when there is a posting.
  lemma NeedsAWorker<P, J>(workers: nat, postings: seq<P>, fetch: P -> Option<J>)
    ensures CanJoin(Initial(|postings|), workers, postings, fetch) <==> workers >= 1 || postings == []
  {
    var s0: State<J> := Initial(|postings|);
    if postings == [] {
      assert Schedule(s0, workers, postings, fetch, []);
      assert Joined(Reached(s0, workers, postings, fetch, []));
    } else if workers >= 1 {
      StartsSound(workers, postings, fetch);
      var actions := SomeScheduleJoins(s0, workers, postings, fetch);
      assert Schedule(s0, workers, postings, fetch, actions);
    } else {
      forall actions | Schedule(s0, workers, postings, fetch, actions)
        ensures !Joined(Reached(s0, workers, postings, fetch, actions))
      {
        BlocksWithoutWorkers(s0, postings, fetch, actions);
      }
    }
  }

  lemma {:induction false} SomeScheduleJoins<P, J>(s: State<J>, workers: nat, postings: seq<P>, fetch: P -> Option<J>)
    returns (actions: seq<Action>)
    requires workers >= 1 && Sound(s, workers, postings, fetch)
    ensures Schedule(s, workers, postings, fetch, actions) && Joined(Reached(s, workers, postings, fetch, actions))
    decreases StepsLeft(s)
  {
    if Joined(s) {
      actions := [];
    } else {
      var a := SomeStepIsEnabled(s, workers, postings, fetch);
      StepIsSound(s, workers, postings, fetch, a);
      var rest := SomeScheduleJoins(Step(s, workers, postings, fetch, a), workers, postings, fetch);
      actions := [a] + rest;
      assert actions[1..] == rest;
    }
  }

  lemma {:induction false} BlocksWithoutWorkers<P, J>(s: State<J>, postings: seq<P>, fetch: P -> Option<J>,
                                                      actions: seq<Action>)
    requires |postings| == |s.phases| > 0 && s.next == 0
    requires (forall i :: 0 <= i < |s.phases| ==> s.phases[i] == Unstarted)
    requires Schedule(s, 0, postings, fetch, actions)
    ensures !Joined(Reached(s, 0, postings, fetch, actions))
    decreases |actions|
  {
    if actions != [] {
      BlocksWithoutWorkers(Step(s, 0, postings, fetch, actions[0]), postings, fetch, actions[1..]);
    }
  }

  // ---------- The function itself ----------

  // The jobs are those of the postings at these positions, in order, and every other posting gave
  // none.
  ghost predicate InOrder<P, J>(postings: seq<P>, fetch: P -> Option<J>, at: seq<nat>, out: seq<J>) {
    && |at| == |out| && (forall k, l :: 0 <= k < l < |at| ==> at[k] < at[l])
    && (forall k :: 0 <= k < |at| ==> at[k] < |postings| && fetch(postings[at[k]]) == Some(out[k]))
    && (forall i :: 0 <= i < |postings| && fetch(postings[i]).Some? ==> i in at)
  }

  lemma {:induction false} FilterMapIsInOrder<P, J>(postings: seq<P>, fetch: P -> Option<J>) returns (at: seq<nat>)
    ensures InOrder(postings, fetch, at, FilterMap(postings, fetch))
    decreases |postings|
  {
    at := [];
    if postings != [] {
      var last := |postings| - 1;
      var init := postings[..last];
      assert postings == init + [postings[last]];
      FilterMapAppends(init, postings[last], fetch);
      at := FilterMapIsInOrder(init, fetch);
      assert forall i :: 0 <= i < last ==> postings[i] == init[i];
      if fetch(postings[last]).Some? {
        assert (at + [last])[|at|] == last;
        assert forall i :: i in at ==> i in at + [last];
        at := at + [last];
      }
    }
  }

  lemma {:induction false} FilterMapAppends<P, J>(postings: seq<P>, p: P, fetch: P -> Option<J>)
    ensures FilterMap(postings + [p], fetch) ==
            FilterMap(postings, fetch) + match fetch(p) case Some(j) => [j] case None => []
  {
    if postings == [] {
      assert [p][1..] == [] && [] + [p] == [p];
    } else {
      ConcatTail(postings, [p]);
      FilterMapAppends(postings[1..], p, fetch);
    }
  }

  method FetchDetails<P, J>(postings: seq<P>, workers: nat, fetch: P -> Option<J>) returns (out: seq<J>)
    requires workers >= 1
    ensures out == FilterMap(postings, fetch)
    ensures exists at :: InOrder(postings, fetch, at, out)
  {
    var s: State<J> := Initial(|postings|);
    StartsSound(workers, postings, fetch);
    while !Joined(s)
      invariant Sound(s, workers, postings, fetch)
      decreases StepsLeft(s)
    {
      ghost var enabled := SomeStepIsEnabled(s, workers, postings, fetch);
      var a :| Enabled(s, workers, a);
      StepIsSound(s, workers, postings, fetch, a);
      s := Step(s, workers, postings, fetch, a);
    }
    JoinedHasAll(s, workers, postings, fetch);
    out := [];
    for i := 0 to |s.jobs|
      invariant out + Collected(s.jobs[i..]) == Collected(s.jobs)
    {
      ghost var rest := Collected(s.jobs[i + 1..]);
      Rest(s.jobs, i);
      if s.jobs[i].Some? {
        Regroup(out, [s.jobs[i].value], rest);
        out := out + [s.jobs[i].value];
      } else {
        Nothing(rest);
      }
    }
    Nothing(out);
    ghost var at := FilterMapIsInOrder(postings, fetch);
  }
}
