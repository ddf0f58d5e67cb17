// An ingest run: one goroutine per board, a bounded number of boards at once, per-provider
// statistics in a map under a mutex; and which providers may be swept afterwards.
module Pipeline {
  import opened Wrappers
  import opened Counting
  import opened Ordering

  const CONCURRENCY: nat := 8

  datatype Stats = Stats(ingested: int, failed: int, skipped: int)

  const NO_STATS := Stats(0, 0, 0)

  type RunStats = map<string, Stats>

  // A board and what happened to it in this run: the fetch failed, or for each posting
  // fetched whether its save succeeded.
  datatype Board = Board(provider: string, fetched: Option<seq<bool>>)

  // ---------- One board ----------

  const SAVED: bool -> nat := (ok: bool) => if ok then 1 else 0
  const LOST: bool -> nat := (ok: bool) => if ok then 0 else 1

  predicate Fetched(registry: set<string>, b: Board) {
    b.provider in registry && b.fetched.Some?
  }

  function Outcome(registry: set<string>, b: Board): Stats {
    if Fetched(registry, b) then Stats(Sum(b.fetched.value, SAVED), 0, Sum(b.fetched.value, LOST)) else Stats(0, 1, 0)
  }

  method IngestBoard(registry: set<string>, b: Board) returns (r: Stats)
    ensures r == Outcome(registry, b)
  {
    if b.provider !in registry {
      return Stats(0, 1, 0);
    }
    if b.fetched.None? {
      return Stats(0, 1, 0);
    }
    var saves := b.fetched.value;
    var ingested, skipped := 0, 0;
    for i := 0 to |saves|
      invariant ingested + Sum(saves[i..], SAVED) == Sum(saves, SAVED)
      invariant skipped + Sum(saves[i..], LOST) == Sum(saves, LOST)
    {
      assert saves[i..][1..] == saves[i + 1..];
      if !saves[i] {
        skipped := skipped + 1;
        continue;
      }
      ingested := ingested + 1;
    }
    r := Stats(ingested, 0, skipped);
  }

  lemma {:induction false} EverySaveCounts(saves: seq<bool>)
    ensures Sum(saves, SAVED) + Sum(saves, LOST) == |saves|
    ensures Sum(saves, SAVED) > 0 <==> true in saves
  {
    if saves != [] {
      EverySaveCounts(saves[1..]);
      assert saves == [saves[0]] + saves[1..];
    }
  }

  // ---------- Identities ----------

  // The external id of a posting, namespaced by its board.
  function Namespaced(board: string, id: string): string {
    board + ":" + id
  }

  // other is board followed by a colon and x, and x with its colon has moved into id.
  predicate ColonShifted(board: string, id: string, other: string, otherId: string) {
    exists n: nat :: n <= |other| && other == board + ":" + other[n..] && id == other[n..] + ":" + otherId
  }

  lemma ShiftedCollides(board: string, id: string, other: string, otherId: string)
    requires ColonShifted(board, id, other, otherId)
    ensures Namespaced(board, id) == Namespaced(other, otherId) && board != other && ':' in id && ':' in other
  {
    var n: nat :| n <= |other| && other == board + ":" + other[n..] && id == other[n..] + ":" + otherId;
    assert board + ":" + id == board + ":" + other[n..] + ":" + otherId;
    assert other[|board|] == ':' && id[|other| - n] == ':';
  }

  lemma ColliderIsShifted(board: string, id: string, other: string, otherId: string)
    requires Namespaced(board, id) == Namespaced(other, otherId) && board != other && |board| <= |other|
    ensures ColonShifted(board, id, other, otherId)
  {
    var a, n := Namespaced(board, id), |board| + 1;
    assert board == a[..|board|] && other == a[..|other|] && a[|board|] == ':';
    assert |board| < |other|;
    assert board + ":" == a[..n] == other[..n];
    assert other == other[..n] + other[n..];
    assert id == a[n..] && a == other + (":" + otherId);
    assert a[n..] == other[n..] + (":" + otherId);
  }

  // Two postings of a platform share an external id if and only if they are the same posting of
  // the same board, or one board's name is the other's followed by a colon and more, and that
  // more is where the other's id starts.
  lemma BoardsCollideExactly(board: string, id: string, other: string, otherId: string)
    ensures Namespaced(board, id) == Namespaced(other, otherId) <==>
            || (board == other && id == otherId)
            || ColonShifted(board, id, other, otherId)
            || ColonShifted(other, otherId, board, id)
  {
    if ColonShifted(board, id, other, otherId) {
      ShiftedCollides(board, id, other, otherId);
    }
    if ColonShifted(other, otherId, board, id) {
      ShiftedCollides(other, otherId, board, id);
    }
    if Namespaced(board, id) == Namespaced(other, otherId) {
      if board == other {
        assert id == Namespaced(board, id)[|board| + 1..] == otherId;
      } else if |board| <= |other| {
        ColliderIsShifted(board, id, other, otherId);
      } else {
        ColliderIsShifted(other, otherId, board, id);
      }
    }
  }

  lemma ColonsCanCollide()
    ensures Namespaced("acme", "eu:1") == Namespaced("acme:eu", "1")
  {
  }

  // So postings never share an id as long as either names or ids have no colon.
  lemma WithoutColonsNoCollision(board: string, id: string, other: string, otherId: string)
    requires (':' !in board && ':' !in other) || (':' !in id && ':' !in otherId)
    requires Namespaced(board, id) == Namespaced(other, otherId)
    ensures board == other && id == otherId
  {
    BoardsCollideExactly(board, id, other, otherId);
    if ColonShifted(board, id, other, otherId) {
      ShiftedCollides(board, id, other, otherId);
    }
    if ColonShifted(other, otherId, board, id) {
      ShiftedCollides(other, otherId, board, id);
    }
  }

  // ---------- The sequential specification ----------

  function Plus(a: Stats, b: Stats): Stats {
    Stats(a.ingested + b.ingested, a.failed + b.failed, a.skipped + b.skipped)
  }

  function Lookup(stats: RunStats, provider: string): Stats {
    if provider in stats then stats[provider] else NO_STATS
  }

  function Credit(stats: RunStats, provider: string, more: Stats): RunStats {
    stats[provider := Plus(Lookup(stats, provider), more)]
  }

  // What ingesting a board adds to its provider.
  datatype Entry = Entry(provider: string, stats: Stats)

  function Entries(registry: set<string>, boards: seq<Board>): seq<Entry> {
    seq(|boards|, i requires 0 <= i < |boards| => Entry(boards[i].provider, Outcome(registry, boards[i])))
  }

  // The recorded entries, added up one after another.
  function Tally(entries: seq<Entry>, recorded: seq<bool>): RunStats
    requires |entries| == |recorded|
  {
    if entries == [] then map[]
    else
      var rest := Tally(entries[1..], recorded[1..]);
      if recorded[0] then Credit(rest, entries[0].provider, entries[0].stats) else rest
  }

  lemma CreditsCommute(stats: RunStats, p: string, a: Stats, q: string, b: Stats)
    ensures Credit(Credit(stats, p, a), q, b) == Credit(Credit(stats, q, b), p, a)
  {
  }

  lemma {:induction false} TallyOneMore(entries: seq<Entry>, recorded: seq<bool>, i: nat)
    requires |entries| == |recorded| && i < |entries| && !recorded[i]
    ensures Tally(entries, recorded[i := true]) ==
              Credit(Tally(entries, recorded), entries[i].provider, entries[i].stats)
  {
    if i == 0 {
      assert recorded[0 := true][1..] == recorded[1..];
    } else {
      TallyOneMore(entries[1..], recorded[1..], i - 1);
      assert recorded[i := true][1..] == recorded[1..][i - 1 := true];
      CreditsCommute(Tally(entries[1..], recorded[1..]), entries[0].provider, entries[0].stats,
          entries[i].provider, entries[i].stats);
    }
  }

  lemma {:induction false} TallyOfNothing(entries: seq<Entry>, recorded: seq<bool>)
    requires |entries| == |recorded| && forall i :: 0 <= i < |recorded| ==> !recorded[i]
    ensures Tally(entries, recorded) == map[]
  {
    if entries != [] {
      TallyOfNothing(entries[1..], recorded[1..]);
    }
  }

  // ---------- The concurrent run ----------

  // Holding: has a slot. Counted: has its board's statistics. Locked: holds the mutex and has
  // read its provider's entry. Leaving: about to give the slot back.
  datatype Phase = Unspawned | Waiting | Holding | Ingesting | Counted | Locked(read: Stats) | Leaving | Left | Finished

  // recorded is history: the entries whose statistics are in the map.
  datatype State = State(
    next: nat,
    cancelled: bool,
    tokens: nat,
    mutex: Option<nat>,
    waitGroup: int,
    phases: seq<Phase>,
    byProvider: RunStats,
    recorded: seq<bool>
  )

  datatype Action =
    | Spawn
    | Cancel
    | Acquire(i: nat)
    | Quit(i: nat)
    | Check(i: nat)
    | Ingest(i: nat)
    | Lock(i: nat)
    | Record(i: nat)
    | Release(i: nat)
    | Report(i: nat)

  function Initial(n: nat): State {
    State(0, false, 0, None, 0, seq(n, _ => Unspawned), map[], seq(n, _ => false))
  }

  predicate Enabled(s: State, a: Action) {
    match a
    case Spawn => s.next < |s.phases|
    case Cancel => !s.cancelled
    case Acquire(i) => i < |s.phases| && s.phases[i].Waiting? && s.tokens < CONCURRENCY
    case Quit(i) => i < |s.phases| && s.phases[i].Waiting? && s.cancelled
    case Check(i) => i < |s.phases| && s.phases[i].Holding?
    case Ingest(i) => i < |s.phases| && s.phases[i].Ingesting?
    case Lock(i) => i < |s.phases| && s.phases[i].Counted? && s.mutex.None?
    case Record(i) => i < |s.phases| == |s.recorded| && s.phases[i].Locked?
    case Release(i) => i < |s.phases| && s.phases[i].Leaving? && s.tokens > 0
    case Report(i) => i < |s.phases| && s.phases[i].Left?
  }

  function Step(s: State, entries: seq<Entry>, a: Action): State
    requires |s.phases| == |entries| && Enabled(s, a)
  {
    match a
    case Spawn => s.(phases := s.phases[s.next := Waiting], waitGroup := s.waitGroup + 1, next := s.next + 1)
    case Cancel => s.(cancelled := true)
    case Acquire(i) => s.(phases := s.phases[i := Holding], tokens := s.tokens + 1)
    case Quit(i) => s.(phases := s.phases[i := Finished], waitGroup := s.waitGroup - 1)
    case Check(i) => s.(phases := s.phases[i := if s.cancelled then Leaving else Ingesting])
    case Ingest(i) => s.(phases := s.phases[i := Counted])
    case Lock(i) => s.(phases := s.phases[i := Locked(Lookup(s.byProvider, entries[i].provider))], mutex := Some(i))
    case Record(i) =>
      s.(phases := s.phases[i := Leaving],
         byProvider := s.byProvider[entries[i].provider := Plus(s.phases[i].read, entries[i].stats)],
         mutex := None,
         recorded := s.recorded[i := true])
    case Release(i) => s.(phases := s.phases[i := Left], tokens := s.tokens - 1)
    case Report(i) => s.(phases := s.phases[i := Finished], waitGroup := s.waitGroup - 1)
  }

  predicate Joined(s: State) {
    s.next == |s.phases| && s.waitGroup == 0
  }

  const HOLDING: Phase -> nat := (p: Phase) => if p.Holding? || p.Ingesting? || p.Counted? || p.Locked? ||
            p.Leaving? then 1 else 0
  const RUNNING: Phase -> nat := (p: Phase) => if p.Unspawned? || p.Finished? then 0 else 1
  const STEPS_LEFT: Phase -> nat := (p: Phase) =>
    match p
    case Unspawned => 8
    case Waiting => 7
    case Holding => 6
    case Ingesting => 5
    case Counted => 4
    case Locked(_) => 3
    case Leaving => 2
    case Left => 1
    case Finished => 0

  function StepsLeft(s: State): nat {
    Sum(s.phases, STEPS_LEFT) + if s.cancelled then 0 else 1
  }

  predicate Over(p: Phase) {
    p.Leaving? || p.Left? || p.Finished?
  }

  predicate Counters(s: State) {
    && s.next <= |s.phases|
    && (forall i :: 0 <= i < |s.phases| ==> (s.phases[i].Unspawned? <==> i >= s.next))
    && s.tokens == Sum(s.phases, HOLDING) <= CONCURRENCY
    && s.waitGroup == Sum(s.phases, RUNNING)
  }

  // Only the holder of the mutex is between its read and its write, so what it read is
  // still current.
  predicate Exclusive(s: State, entries: seq<Entry>)
    requires |s.phases| == |entries|
  {
    && (s.mutex.Some? ==> s.mutex.value < |s.phases| && s.phases[s.mutex.value].Locked?)
    && forall i :: 0 <= i < |s.phases| && s.phases[i].Locked? ==>
                     s.mutex == Some(i) && s.phases[i].read == Lookup(s.byProvider, entries[i].provider)
  }

  predicate Faithful(s: State, entries: seq<Entry>)
    requires |s.phases| == |entries| == |s.recorded|
  {
    && s.byProvider == Tally(entries, s.recorded)
    && forall i :: 0 <= i < |s.phases| ==>
              (s.recorded[i] ==> Over(s.phases[i])) && (!s.cancelled && Over(s.phases[i]) ==> s.recorded[i])
  }

  predicate Sound(s: State, entries: seq<Entry>) {
    |s.phases| == |s.recorded| == |entries| && Counters(s) && Exclusive(s, entries) && Faithful(s, entries)
  }

  lemma StartsSound(entries: seq<Entry>)
    ensures Sound(Initial(|entries|), entries)
  {
    var s := Initial(|entries|);
    SumIsZero(s.phases, HOLDING);
    SumIsZero(s.phases, RUNNING);
    TallyOfNothing(entries, s.recorded);
  }

  function Target(s: State, a: Action): nat {
    if a.Spawn? || a.Cancel? then s.next else a.i
  }

  lemma StepKeepsCounters(s: State, entries: seq<Entry>, a: Action)
    requires |s.phases| == |entries| && Counters(s) && Enabled(s, a)
    ensures Counters(Step(s, entries, a)) && StepsLeft(Step(s, entries, a)) < StepsLeft(s)
  {
    if !a.Cancel? {
      Moves(s.phases, HOLDING, RUNNING, STEPS_LEFT, Target(s, a), Step(s, entries, a).phases[Target(s, a)]);
      assert Step(s, entries, a).phases == s.phases[Target(s, a) := Step(s, entries, a).phases[Target(s, a)]];
    }
  }

  lemma StepKeepsExclusive(s: State, entries: seq<Entry>, a: Action)
    requires |s.phases| == |entries| && Exclusive(s, entries) && Enabled(s, a)
    requires forall i :: 0 <= i < |s.phases| ==> (s.phases[i].Unspawned? <==> i >= s.next)
    ensures Exclusive(Step(s, entries, a), entries)
  {
  }

  lemma RecordKeepsFaithful(s: State, entries: seq<Entry>, i: nat)
    requires Sound(s, entries) && Enabled(s, Record(i))
    ensures |Step(s, entries, Record(i)).recorded| == |entries|
    ensures Faithful(Step(s, entries, Record(i)), entries)
  {
    assert !s.recorded[i];
    TallyOneMore(entries, s.recorded, i);
  }

  lemma StepKeepsFaithful(s: State, entries: seq<Entry>, a: Action)
    requires Sound(s, entries) && Enabled(s, a)
    ensures |Step(s, entries, a).recorded| == |entries|
    ensures Faithful(Step(s, entries, a), entries)
  {
    if a.Record? {
      RecordKeepsFaithful(s, entries, a.i);
    } else {
      OtherStepKeepsFaithful(s, entries, a);
    }
  }

  lemma OtherStepKeepsFaithful(s: State, entries: seq<Entry>, a: Action)
    requires |s.phases| == |s.recorded| == |entries| && Faithful(s, entries) && Enabled(s, a) && !a.Record?
    requires forall i :: 0 <= i < |s.phases| ==> (s.phases[i].Unspawned? <==> i >= s.next)
    ensures |Step(s, entries, a).recorded| == |entries|
    ensures Faithful(Step(s, entries, a), entries)
  {
    match a
    case Spawn =>
    case Cancel =>
    case Acquire(_) =>
    case Quit(_) =>
    case Check(_) =>
    case Ingest(_) =>
    case Lock(_) =>
    case Release(_) =>
    case Report(_) =>
  }

  lemma StepIsSound(s: State, entries: seq<Entry>, a: Action)
    requires Sound(s, entries) && Enabled(s, a)
    ensures Sound(Step(s, entries, a), entries) && StepsLeft(Step(s, entries, a)) < StepsLeft(s)
  {
    StepKeepsCounters(s, entries, a);
    StepKeepsExclusive(s, entries, a);
    StepKeepsFaithful(s, entries, a);
  }

  // No deadlock, cancelled or not: the mutex's holder, then the slots' holders, then the
  // waiting entries can go on. Cancelling is never what a run has to wait for.
  lemma SomeStepIsEnabled(s: State, entries: seq<Entry>) returns (a: Action)
    requires Sound(s, entries) && !Joined(s)
    ensures Enabled(s, a) && !a.Cancel?
  {
    SumIsZero(s.phases, HOLDING);
    SumIsZero(s.phases, RUNNING);
    if s.mutex.Some? {
      a := Record(s.mutex.value);
    } else if i: nat :| i < |s.phases| && HOLDING(s.phases[i]) != 0 {
      a := match s.phases[i]
           case Holding => Check(i)
           case Ingesting => Ingest(i)
           case Counted => Lock(i)
           case _ => Release(i);
    } else if s.next < |s.phases| {
      a := Spawn;
    } else {
      var i: nat :| i < |s.phases| && RUNNING(s.phases[i]) != 0;
      a := if s.phases[i].Waiting? then Acquire(i) else Report(i);
    }
  }

  ghost predicate Schedule(s: State, entries: seq<Entry>, actions: seq<Action>)
    requires |s.phases| == |entries|
    decreases |actions|
  {
    actions == [] || (Enabled(s, actions[0]) && Schedule(Step(s, entries, actions[0]), entries, actions[1..]))
  }

  ghost function Reached(s: State, entries: seq<Entry>, actions: seq<Action>): State
    requires |s.phases| == |entries| && Schedule(s, entries, actions)
    decreases |actions|
  {
    if actions == [] then s else Reached(Step(s, entries, actions[0]), entries, actions[1..])
  }

  lemma {:induction false} ScheduleIsSound(s: State, entries: seq<Entry>, actions: seq<Action>)
    requires Sound(s, entries) && Schedule(s, entries, actions)
    ensures Sound(Reached(s, entries, actions), entries)
    ensures |actions| + StepsLeft(Reached(s, entries, actions)) <= StepsLeft(s)
    decreases |actions|
  {
    if actions != [] {
      StepIsSound(s, entries, actions[0]);
      ScheduleIsSound(Step(s, entries, actions[0]), entries, actions[1..]);
    }
  }

  // Every schedule works on at most eight boards at once, and may go on to the next as soon as
  // there are fewer; it ends after at most eight steps per board (and a cancellation), stops only
  // when the run can return, and at every moment the map holds the sequential sums of the boards
  // recorded so far.
  lemma EverySchedule(entries: seq<Entry>, actions: seq<Action>)
    requires Schedule(Initial(|entries|), entries, actions)
    ensures var s := Reached(Initial(|entries|), entries, actions);
            && |s.phases| == |s.recorded| == |entries| && Sum(s.phases, HOLDING) <= 8
            && (forall i :: 0 <= i < |entries| && s.phases[i].Waiting? ==>
                              (Enabled(s, Acquire(i)) <==> Sum(s.phases, HOLDING) < 8))
            && |actions| <= 8 * |entries| + 1
            && s.byProvider == Tally(entries, s.recorded)
            && ((forall a :: Enabled(s, a) ==> a.Cancel?) ==> Joined(s))
            && (Joined(s) && !s.cancelled ==> forall i :: 0 <= i < |entries| ==> s.recorded[i])
  {
    var s0 := Initial(|entries|);
    StartsSound(entries);
    SumOfConstant(s0.phases, STEPS_LEFT, 8);
    ScheduleIsSound(s0, entries, actions);
    var s := Reached(s0, entries, actions);
    if Joined(s) {
      SumIsZero(s.phases, RUNNING);
      assert forall i :: 0 <= i < |entries| ==> RUNNING(s.phases[i]) == 0;
    } else {
      var a := SomeStepIsEnabled(s, entries);
    }
  }

  function All(n: nat): (r: seq<bool>)
    ensures |r| == n && forall i :: 0 <= i < n ==> r[i]
  {
    seq(n, _ => true)
  }

  // Under every schedule the run returns the sequential sums of the boards recorded: all of
  // them, unless it was cancelled.
  method Run(registry: set<string>, boards: seq<Board>) returns (byProvider: RunStats, cancelled: bool)
    ensures !cancelled ==> byProvider == Tally(Entries(registry, boards), All(|boards|))
    ensures exists recorded: seq<bool> ::
              |recorded| == |boards| && byProvider == Tally(Entries(registry, boards), recorded)
  {
    var entries := Entries(registry, boards);
    var s := Initial(|boards|);
    StartsSound(entries);
    while !Joined(s)
      invariant Sound(s, entries)
      decreases StepsLeft(s)
    {
      ghost var enabled := SomeStepIsEnabled(s, entries);
      var a :| Enabled(s, a);
      StepIsSound(s, entries, a);
      s := Step(s, entries, a);
    }
    JoinedHasAll(s, entries);
    byProvider, cancelled := s.byProvider, s.cancelled;
    assert byProvider == Tally(entries, s.recorded);
  }

  lemma JoinedHasAll(s: State, entries: seq<Entry>)
    requires Sound(s, entries) && Joined(s)
    ensures !s.cancelled ==> s.recorded == All(|entries|)
  {
    SumIsZero(s.phases, RUNNING);
    forall i | 0 <= i < |entries| ensures Over(s.phases[i]) {
      assert RUNNING(s.phases[i]) == 0;
    }
  }

  // ---------- What the statistics say ----------

  datatype Counter = Ingested | Failed | Skipped

  function Count(s: Stats, c: Counter): int {
    match c
    case Ingested => s.ingested
    case Failed => s.failed
    case Skipped => s.skipped
  }

  // The share of some providers in one counter, board after board.
  function Share(entries: seq<Entry>, recorded: seq<bool>, among: set<string>, c: Counter): int
    requires |entries| == |recorded|
  {
    if entries == [] then 0
    else
      (if recorded[0] && entries[0].provider in among then Count(entries[0].stats, c) else 0)
      + Share(entries[1..], recorded[1..], among, c)
  }

  lemma {:induction false} TallyIsTheShare(entries: seq<Entry>, recorded: seq<bool>, provider: string, c: Counter)
    requires |entries| == |recorded|
    ensures Count(Lookup(Tally(entries, recorded), provider), c) == Share(entries, recorded, {provider}, c)
    ensures provider in Tally(entries, recorded) <==>
              exists i :: 0 <= i < |entries| && recorded[i] && entries[i].provider == provider
  {
    if entries != [] {
      TallyIsTheShare(entries[1..], recorded[1..], provider, c);
      var here := exists i :: 0 <= i < |entries| && recorded[i] && entries[i].provider == provider;
      var later := exists i :: 0 <= i < |entries| - 1 && recorded[1..][i] && entries[1..][i].provider == provider;
      if later {
        var i :| 0 <= i < |entries| - 1 && recorded[1..][i] && entries[1..][i].provider == provider;
        assert recorded[i + 1] && entries[i + 1].provider == provider;
      }
      if here && !(recorded[0] && entries[0].provider == provider) {
        var i :| 0 <= i < |entries| && recorded[i] && entries[i].provider == provider;
        assert recorded[1..][i - 1] && entries[1..][i - 1].provider == provider;
      }
    }
  }

  // The postings their recorded boards fetched, and their boards that failed.
  function Postings(registry: set<string>, boards: seq<Board>, recorded: seq<bool>, among: set<string>): nat
    requires |boards| == |recorded|
  {
    if boards == [] then 0
    else
      Postings(registry, boards[1..], recorded[1..], among)
      + if recorded[0] && boards[0].provider in among &&
                Fetched(registry, boards[0]) then |boards[0].fetched.value| else 0
  }

  function Failures(registry: set<string>, boards: seq<Board>, recorded: seq<bool>, among: set<string>): nat
    requires |boards| == |recorded|
  {
    if boards == [] then 0
    else
      Failures(registry, boards[1..], recorded[1..], among)
      + if recorded[0] && boards[0].provider in among && !Fetched(registry, boards[0]) then 1 else 0
  }

  predicate SavedSome(registry: set<string>, boards: seq<Board>, recorded: seq<bool>, among: set<string>)
    requires |boards| == |recorded|
  {
    exists i :: 0 <= i < |boards| && recorded[i] && boards[i].provider in among
                && Fetched(registry, boards[i]) && true in boards[i].fetched.value
  }

  lemma SavedSomeSplits(registry: set<string>, boards: seq<Board>, recorded: seq<bool>, among: set<string>)
    requires |boards| == |recorded| > 0
    ensures SavedSome(registry, boards, recorded, among) <==>
              SavedSome(registry, boards[..1], recorded[..1], among) || SavedSome(registry, boards[1..],
                  recorded[1..], among)
  {
    if SavedSome(registry, boards, recorded, among) {
      var i :| 0 <= i < |boards| && recorded[i] && boards[i].provider in among
               && Fetched(registry, boards[i]) && true in boards[i].fetched.value;
      if i == 0 {
        assert boards[..1][0] == boards[0] && recorded[..1][0];
      } else {
        assert boards[1..][i - 1] == boards[i] && recorded[1..][i - 1];
      }
    }
    if SavedSome(registry, boards[1..], recorded[1..], among) {
      var i :| 0 <= i < |boards| - 1 && recorded[1..][i] && boards[1..][i].provider in among
               && Fetched(registry, boards[1..][i]) && true in boards[1..][i].fetched.value;
      assert boards[i + 1] == boards[1..][i] && recorded[i + 1];
    }
  }

  // Every posting fetched is counted once, as ingested or as skipped, and every board that
  // gave none is counted as failed; something was ingested exactly when a save succeeded.
  lemma {:induction false} EveryPostingIsCounted(registry: set<string>, boards: seq<Board>, recorded: seq<bool>,
                                                 among: set<string>)
    requires |boards| == |recorded|
    ensures var entries := Entries(registry, boards);
            var ingested := Share(entries, recorded, among, Ingested);
            && ingested + Share(entries, recorded, among, Skipped) == Postings(registry, boards, recorded, among)
            && Share(entries, recorded, among, Failed) == Failures(registry, boards, recorded, among)
            && ingested >= 0 && (ingested > 0 <==> SavedSome(registry, boards, recorded, among))
  {
    if boards != [] {
      var b := boards[0];
      EveryPostingIsCounted(registry, boards[1..], recorded[1..], among);
      SavedSomeSplits(registry, boards, recorded, among);
      assert Entries(registry, boards)[1..] == Entries(registry, boards[1..]);
      if Fetched(registry, b) {
        EverySaveCounts(b.fetched.value);
      }
      assert boards[..1][0] == b && recorded[..1][0] == recorded[0];
    }
  }

  lemma {:induction false} ShareSplits(entries: seq<Entry>, recorded: seq<bool>, among: set<string>, p: string,
                                       c: Counter)
    requires |entries| == |recorded| && p in among
    ensures Share(entries, recorded, among, c) ==
              Share(entries, recorded, {p}, c) + Share(entries, recorded, among - {p}, c)
  {
    if entries != [] {
      ShareSplits(entries[1..], recorded[1..], among, p, c);
    }
  }

  lemma {:induction false} ShareOfNone(entries: seq<Entry>, recorded: seq<bool>, c: Counter)
    requires |entries| == |recorded|
    ensures Share(entries, recorded, {}, c) == 0
  {
    if entries != [] {
      ShareOfNone(entries[1..], recorded[1..], c);
    }
  }

  // Folding the map, in any order, gives the sums over all its providers' boards.
  method Total(rs: RunStats, ghost entries: seq<Entry>, ghost recorded: seq<bool>) returns (t: Stats)
    requires |entries| == |recorded| && rs == Tally(entries, recorded)
    ensures forall c :: Count(t, c) == Share(entries, recorded, rs.Keys, c)
  {
    t := NO_STATS;
    var remaining := rs.Keys;
    while remaining != {}
      invariant remaining <= rs.Keys
      invariant forall c :: Count(t, c) + Share(entries, recorded, remaining, c) == Share(entries, recorded, rs.Keys, c)
    {
      var p :| p in remaining;
      forall c
        ensures Share(entries, recorded, remaining, c) == Count(rs[p], c) + Share(entries, recorded, remaining - {p}, c)
      {
        ShareSplits(entries, recorded, remaining, p, c);
        TallyIsTheShare(entries, recorded, p, c);
      }
      t := Plus(t, rs[p]);
      remaining := remaining - {p};
    }
    forall c ensures Share(entries, recorded, {}, c) == 0 {
      ShareOfNone(entries, recorded, c);
    }
  }

  // ---------- After the run ----------

  function ShouldSweep(s: Stats): bool {
    s.ingested > 0
  }

  // The providers that ingested something, in ascending order.
  method SweepableProviders(rs: RunStats) returns (providers: seq<string>)
    ensures Ascending(providers)
    ensures forall p :: p in providers <==> p in rs && rs[p].ingested > 0
  {
    providers := [];
    var remaining := rs.Keys;
    while remaining != {}
      invariant remaining <= rs.Keys && Ascending(providers)
      invariant forall p :: p in providers <==> p in rs && p !in remaining && rs[p].ingested > 0
    {
      var p :| p in remaining;
      if ShouldSweep(rs[p]) {
        providers := Insert(providers, p);
      }
      remaining := remaining - {p};
    }
  }

  // A provider's statistics account for every posting its recorded boards fetched and every
  // board of it that failed; only a registered provider can have ingested anything.
  lemma StatsAreExact(registry: set<string>, boards: seq<Board>, recorded: seq<bool>, p: string)
    requires |boards| == |recorded|
    ensures var stats := Lookup(Tally(Entries(registry, boards), recorded), p);
            && stats.ingested + stats.skipped == Postings(registry, boards, recorded, {p})
            && stats.failed == Failures(registry, boards, recorded, {p})
            && (stats.ingested > 0 <==> SavedSome(registry, boards, recorded, {p}))
    ensures SavedSome(registry, boards, recorded, {p}) ==> p in registry
  {
    var stats := Lookup(Tally(Entries(registry, boards), recorded), p);
    forall c ensures Count(stats, c) == Share(Entries(registry, boards), recorded, {p}, c) {
      TallyIsTheShare(Entries(registry, boards), recorded, p, c);
    }
    assert Count(stats, Ingested) == stats.ingested && Count(stats, Failed) == stats.failed && Count(stats,
           Skipped) == stats.skipped;
    EveryPostingIsCounted(registry, boards, recorded, {p});
  }

  // The providers swept after a run, in order: exactly those that saved something, so an
  // outage, an unknown provider or a run whose every save failed never closes a catalogue,
  // and a cancelled run sweeps none.
  method RunAndSelect(registry: set<string>, boards: seq<Board>) returns (swept: seq<string>, cancelled: bool)
    ensures Ascending(swept) && (forall p :: p in swept ==> p in registry)
    ensures cancelled ==> swept == []
    ensures !cancelled ==> forall p :: p in swept <==> SavedSome(registry, boards, All(|boards|), {p})
  {
    var stats;
    stats, cancelled := Run(registry, boards);
    if cancelled {
      return [], cancelled;
    }
    swept := SweepableProviders(stats);
    forall p
      ensures p in swept <==> SavedSome(registry, boards, All(|boards|), {p})
      ensures p in swept ==> p in registry
    {
      StatsAreExact(registry, boards, All(|boards|), p);
    }
  }
}
