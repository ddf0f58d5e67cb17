// Sign-in with an external identity: any number of callbacks at once, each looking the
// identity up and otherwise linking or creating an account in one transaction. Unique keys
// are the backstop: an insert that meets another transaction's uncommitted row waits for it,
// one that meets a committed row fails.
module OAuth {
  import opened Wrappers
  import opened Text
  import opened Counting

  datatype IdentityKey = IdentityKey(provider: string, providerUserId: string)

  // What the provider says about who is signing in.
  datatype Identity = Identity(key: IdentityKey, email: string, emailVerified: bool)

  datatype Outcome = SignedIn(userId: nat) | Refused

  // Where a callback is. Inside the transaction it may hold rows nobody else sees: `created`
  // is a user it inserted.
  datatype Phase =
    | Looking
    | Began
    | Creating
    | Linking(userId: nat, created: bool)
    | Committing(userId: nat, created: bool)
    | Retrying
    | Done(outcome: Outcome)

  datatype Callback = Callback(identity: Identity, phase: Phase)

  // The committed rows: users by id with their email, identities with their owner. The
  // authors are history: the callback that committed the row, None for other writers.
  datatype State = State(
    users: map<nat, string>,
    identities: map<IdentityKey, nat>,
    nextUser: nat,
    callbacks: seq<Callback>,
    userAuthor: map<nat, Option<nat>>,
    identityAuthor: map<IdentityKey, nat>
  )

  // What one callback does between its arrival and its commit. A failing statement ends it.
  datatype Action =
    | Lookup
    | FindUser(found: Option<nat>)
    | CreateUser
    | CreateIdentity
    | Retry
    | Break

  datatype Step =
    | Arrive(identity: Identity)
    | Register(email: string)
    | Act(i: nat, a: Action)
    | Commit(i: nat)

  function Normalized(email: string): string {
    Lower(Trim(email))
  }

  // The email a callback keys an account with.
  function Email(c: Callback): string {
    Normalized(c.identity.email)
  }

  predicate OwnsEmail(s: State, u: nat, email: string) {
    u in s.users && Lower(s.users[u]) == Lower(email)
  }

  // UNIQUE INDEX ON users (lower(email)).
  predicate EmailTaken(s: State, email: string) {
    exists u :: u in s.users && OwnsEmail(s, u, email)
  }

  predicate Verified(c: Callback) {
    c.identity.emailVerified && c.identity.email != ""
  }

  predicate HoldsUser(c: Callback, email: string) {
    (c.phase.Linking? || c.phase.Committing?) && c.phase.created && Lower(Email(c)) == Lower(email)
  }

  predicate HoldsIdentity(c: Callback, key: IdentityKey) {
    c.phase.Committing? && c.identity.key == key
  }

  // Another transaction has inserted the row and not yet committed it.
  predicate EmailHeld(s: State, email: string) {
    exists j :: 0 <= j < |s.callbacks| && HoldsUser(s.callbacks[j], email)
  }

  predicate IdentityHeld(s: State, key: IdentityKey) {
    exists j :: 0 <= j < |s.callbacks| && HoldsIdentity(s.callbacks[j], key)
  }

  predicate Enabled(s: State, e: Step) {
    match e
    case Arrive(_) => true
    case Register(email) => !EmailTaken(s, email) && !EmailHeld(s, email)
    case Act(i, a) => i < |s.callbacks| && CanAct(s, s.callbacks[i], a)
    case Commit(i) => i < |s.callbacks| && s.callbacks[i].phase.Committing?
  }

  // An insert waits while another transaction holds the row; it does not wait to fail.
  predicate CanAct(s: State, c: Callback, a: Action) {
    match a
    case Lookup => c.phase.Looking?
    case FindUser(found) =>
      c.phase.Began? && if found.Some? then OwnsEmail(s, found.value, Email(c)) else !EmailTaken(s, Email(c))
    case CreateUser => c.phase.Creating? && (EmailTaken(s, Email(c)) || !EmailHeld(s, Email(c)))
    case CreateIdentity => c.phase.Linking? && (c.identity.key in s.identities || !IdentityHeld(s, c.identity.key))
    case Retry => c.phase.Retrying?
    case Break => !c.phase.Done?
  }

  // What a lookup by identity answers.
  function Found(s: State, key: IdentityKey): Option<nat> {
    if key in s.identities && s.identities[key] in s.users then Some(s.identities[key]) else None
  }

  function AfterLookup(s: State, c: Callback): Phase {
    match Found(s, c.identity.key)
    case Some(u) => Done(SignedIn(u))
    case None => if !Verified(c) then Done(Refused) else Began
  }

  function Acted(s: State, c: Callback, a: Action): Phase
    requires CanAct(s, c, a)
  {
    match a
    case Lookup => AfterLookup(s, c)
    case FindUser(found) => if found.Some? then Linking(found.value, false) else Creating
    case CreateUser => if EmailTaken(s, Email(c)) then Retrying else Linking(s.nextUser, true)
    case CreateIdentity => if c.identity.key in s.identities then Retrying
              else Committing(c.phase.userId, c.phase.created)
    case Retry => (match Found(s, c.identity.key) case Some(u) => Done(SignedIn(u)) case None => Done(Refused))
    case Break => Done(Refused)
  }

  // A step inside a callback touches no committed row; an aborted one leaves nothing behind
  // but a number taken from the sequence.
  function Moved(s: State, i: nat, a: Action): State
    requires i < |s.callbacks| && CanAct(s, s.callbacks[i], a)
  {
    var phase := Acted(s, s.callbacks[i], a);
    s.(callbacks := s.callbacks[i := s.callbacks[i].(phase := phase)],
       nextUser := if a.CreateUser? && phase.Linking? then s.nextUser + 1 else s.nextUser)
  }

  function Committed(s: State, i: nat): State
    requires i < |s.callbacks| && s.callbacks[i].phase.Committing?
  {
    var c := s.callbacks[i];
    var u := c.phase.userId;
    s.(callbacks := s.callbacks[i := c.(phase := Done(SignedIn(u)))],
       users := if c.phase.created then s.users[u := Email(c)] else s.users,
       userAuthor := if c.phase.created then s.userAuthor[u := Some(i)] else s.userAuthor,
       identities := s.identities[c.identity.key := u],
       identityAuthor := s.identityAuthor[c.identity.key := i])
  }

  // Another way to sign up, such as with a password.
  function Registered(s: State, email: string): State {
    s.(users := s.users[s.nextUser := email], userAuthor := s.userAuthor[s.nextUser := None],
              nextUser := s.nextUser + 1)
  }

  function Take(s: State, e: Step): State
    requires Enabled(s, e)
  {
    match e
    case Arrive(identity) => s.(callbacks := s.callbacks + [Callback(identity, Looking)])
    case Register(email) => Registered(s, email)
    case Act(i, a) => Moved(s, i, a)
    case Commit(i) => Committed(s, i)
  }

  // ---------- What every interleaving keeps ----------

  ghost predicate TablesOk(s: State) {
    && (forall u :: u in s.users ==> u < s.nextUser)
    && (forall u, v :: u in s.users && v in s.users && Lower(s.users[u]) == Lower(s.users[v]) ==> u == v)
    && (forall k :: k in s.identities ==> s.identities[k] in s.users)
  }

  predicate Inserting(p: Phase) {
    p.Linking? || p.Committing?
  }

  ghost predicate CallbackOk(s: State, c: Callback) {
    match c.phase
    case Looking => true
    case Began => Verified(c)
    case Creating => Verified(c)
    case Linking(u, created) => Verified(c) && UserOk(s, c, u, created)
    case Committing(u, created) => Verified(c) && UserOk(s, c, u, created) && c.identity.key !in s.identities
    case Retrying => Verified(c) && (c.identity.key in s.identities || EmailTaken(s, Email(c)))
    case Done(SignedIn(u)) => c.identity.key in s.identities && s.identities[c.identity.key] == u
    case Done(Refused) => true
  }

  ghost predicate UserOk(s: State, c: Callback, u: nat, created: bool) {
    if created then u !in s.users && u < s.nextUser && !EmailTaken(s, Email(c)) else OwnsEmail(s, u, Email(c))
  }

  // No two open transactions hold the same new row.
  predicate Apart(c: Callback, d: Callback) {
    && (Inserting(c.phase) && c.phase.created && Inserting(d.phase) && d.phase.created ==>
          c.phase.userId != d.phase.userId && Lower(Email(c)) != Lower(Email(d)))
    && (c.phase.Committing? && d.phase.Committing? ==> c.identity.key != d.identity.key)
  }

  // Every row a callback committed was committed by one that signed in with a verified email,
  // to the account that has that email.
  ghost predicate LinksOk(s: State) {
    s.identityAuthor.Keys == s.identities.Keys && forall k :: k in s.identities ==> LinkedBy(s, k, s.identityAuthor[k])
  }

  ghost predicate CreationsOk(s: State) {
    s.userAuthor.Keys == s.users.Keys && forall u :: u in s.users && s.userAuthor[u].Some? ==> CreatedBy(s, u,
        s.userAuthor[u].value)
  }

  predicate LinkedBy(s: State, k: IdentityKey, a: nat)
    requires k in s.identities
  {
    && a < |s.callbacks| && s.callbacks[a].phase == Done(SignedIn(s.identities[k]))
    && s.callbacks[a].identity.key == k && Verified(s.callbacks[a])
    && OwnsEmail(s, s.identities[k], Email(s.callbacks[a]))
  }

  predicate CreatedBy(s: State, u: nat, a: nat)
    requires u in s.users
  {
    && a < |s.callbacks| && s.callbacks[a].phase == Done(SignedIn(u))
    && Verified(s.callbacks[a]) && s.users[u] == Email(s.callbacks[a])
  }

  ghost predicate Sound(s: State) {
    && TablesOk(s) && LinksOk(s) && CreationsOk(s)
    && (forall i :: 0 <= i < |s.callbacks| ==> CallbackOk(s, s.callbacks[i]))
    && (forall i, j :: 0 <= i < |s.callbacks| && 0 <= j < |s.callbacks| && i != j ==>
              Apart(s.callbacks[i], s.callbacks[j]))
  }

  // Rows are only ever added.
  ghost predicate Grows(s: State, t: State) {
    && s.nextUser <= t.nextUser
    && (forall u :: u in s.users ==> u in t.users && t.users[u] == s.users[u])
    && (forall k :: k in s.identities ==> k in t.identities && t.identities[k] == s.identities[k])
  }

  // ---------- Committing ----------

  predicate CommitEnabled(s: State, i: nat) {
    i < |s.callbacks| && s.callbacks[i].phase.Committing?
  }

  lemma CommitGrows(s: State, i: nat)
    requires CommitEnabled(s, i) && CallbackOk(s, s.callbacks[i])
    ensures Grows(s, Committed(s, i))
  {
  }

  lemma CommitKeepsTables(s: State, i: nat)
    requires TablesOk(s) && CommitEnabled(s, i) && CallbackOk(s, s.callbacks[i])
    ensures TablesOk(Committed(s, i))
  {
    assert forall u :: u in s.users && s.callbacks[i].phase.created ==> !OwnsEmail(s, u, Email(s.callbacks[i]));
  }

  // The others' transactions are unaffected: none holds the rows just committed.
  lemma CommitKeepsOthers(s: State, i: nat, d: Callback)
    requires CommitEnabled(s, i) && CallbackOk(s, s.callbacks[i]) && CallbackOk(s, d) && Apart(s.callbacks[i], d)
    ensures CallbackOk(Committed(s, i), d)
  {
    var t := Committed(s, i);
    if d.phase.Retrying? && d.identity.key !in s.identities {
      var u :| u in s.users && OwnsEmail(s, u, Email(d));
      assert OwnsEmail(t, u, Email(d));
    }
  }

  // A finished callback's rows keep their author.
  lemma LinkStays(s: State, t: State, k: IdentityKey, a: nat)
    requires Grows(s, t) && k in s.identities && LinkedBy(s, k, a)
    requires a < |t.callbacks| && t.callbacks[a] == s.callbacks[a]
    ensures LinkedBy(t, k, a)
  {
  }

  lemma CreationStays(s: State, t: State, u: nat, a: nat)
    requires Grows(s, t) && u in s.users && CreatedBy(s, u, a)
    requires a < |t.callbacks| && t.callbacks[a] == s.callbacks[a]
    ensures CreatedBy(t, u, a)
  {
  }

  lemma CommitAuthors(s: State, i: nat)
    requires CommitEnabled(s, i) && CallbackOk(s, s.callbacks[i])
    ensures var t := Committed(s, i);
            var c := s.callbacks[i];
            && c.identity.key in t.identities && LinkedBy(t, c.identity.key, i)
            && (c.phase.created ==> c.phase.userId in t.users && CreatedBy(t, c.phase.userId, i))
  {
  }

  lemma CommitKeepsLinks(s: State, i: nat)
    requires LinksOk(s) && CommitEnabled(s, i) && CallbackOk(s, s.callbacks[i])
    ensures LinksOk(Committed(s, i))
  {
    var t := Committed(s, i);
    CommitGrows(s, i);
    CommitAuthors(s, i);
    forall k | k in t.identities
      ensures LinkedBy(t, k, t.identityAuthor[k])
    {
      if k != s.callbacks[i].identity.key {
        LinkStays(s, t, k, s.identityAuthor[k]);
      }
    }
  }

  lemma CommitKeepsCreations(s: State, i: nat)
    requires CreationsOk(s) && CommitEnabled(s, i) && CallbackOk(s, s.callbacks[i])
    ensures CreationsOk(Committed(s, i))
  {
    var t := Committed(s, i);
    CommitGrows(s, i);
    CommitAuthors(s, i);
    forall u | u in t.users && t.userAuthor[u].Some?
      ensures CreatedBy(t, u, t.userAuthor[u].value)
    {
      if u in s.users {
        CreationStays(s, t, u, s.userAuthor[u].value);
      }
    }
  }

  // ---------- The other steps ----------

  lemma RegisterKeepsTables(s: State, email: string)
    requires TablesOk(s) && !EmailTaken(s, email)
    ensures TablesOk(Registered(s, email)) && Grows(s, Registered(s, email))
  {
    assert forall u :: u in s.users ==> !OwnsEmail(s, u, email);
  }

  lemma RegisterKeepsCallback(s: State, email: string, d: Callback)
    requires TablesOk(s) && CallbackOk(s, d) && !EmailTaken(s, email) && !HoldsUser(d, email)
    ensures CallbackOk(Registered(s, email), d)
  {
    var t := Registered(s, email);
    if d.phase.Retrying? && d.identity.key !in s.identities {
      var u :| u in s.users && OwnsEmail(s, u, Email(d));
      assert OwnsEmail(t, u, Email(d));
    }
    if Inserting(d.phase) && d.phase.created {
      assert forall u :: u in t.users ==> u in s.users || u == s.nextUser;
      assert forall u :: u in s.users ==> !OwnsEmail(s, u, Email(d));
    }
  }

  lemma RegisterKeepsAuthors(s: State, email: string)
    requires TablesOk(s) && LinksOk(s) && CreationsOk(s) && !EmailTaken(s, email)
    ensures LinksOk(Registered(s, email)) && CreationsOk(Registered(s, email))
  {
    var t := Registered(s, email);
    RegisterKeepsTables(s, email);
    forall k | k in t.identities ensures LinkedBy(t, k, t.identityAuthor[k]) {
      LinkStays(s, t, k, s.identityAuthor[k]);
    }
    forall u | u in t.users && t.userAuthor[u].Some? ensures CreatedBy(t, u, t.userAuthor[u].value) {
      CreationStays(s, t, u, s.userAuthor[u].value);
    }
  }

  // The actor's own new phase.
  lemma ActedIsOk(s: State, i: nat, a: Action)
    requires TablesOk(s) && i < |s.callbacks| && CanAct(s, s.callbacks[i], a) && CallbackOk(s, s.callbacks[i])
    ensures CallbackOk(Moved(s, i, a), Moved(s, i, a).callbacks[i])
  {
    var t := Moved(s, i, a);
    var c := s.callbacks[i];
    assert t.users == s.users && t.identities == s.identities;
    assert EmailTaken(s, Email(c)) <==> EmailTaken(t, Email(c)) by {
      assert forall u :: OwnsEmail(s, u, Email(c)) <==> OwnsEmail(t, u, Email(c));
    }
    match a
    case Lookup =>
    case FindUser(_) =>
    case CreateUser =>
    case CreateIdentity =>
    case Retry =>
    case Break =>
  }

  // The others look at the same tables.
  lemma MoveKeepsOthers(s: State, i: nat, a: Action, d: Callback)
    requires i < |s.callbacks| && CanAct(s, s.callbacks[i], a) && CallbackOk(s, d)
    ensures CallbackOk(Moved(s, i, a), d)
  {
    var t := Moved(s, i, a);
    assert forall u :: OwnsEmail(s, u, Email(d)) <==> OwnsEmail(t, u, Email(d));
  }

  // An insert only succeeds when nobody else holds the row.
  lemma MoveKeepsApart(s: State, i: nat, a: Action, j: nat)
    requires TablesOk(s) && i < |s.callbacks| && j < |s.callbacks| && i != j && CanAct(s, s.callbacks[i], a)
    requires CallbackOk(s, s.callbacks[i]) && CallbackOk(s, s.callbacks[j]) && Apart(s.callbacks[i], s.callbacks[j])
    ensures Apart(Moved(s, i, a).callbacks[i], s.callbacks[j])
  {
    match a
    case Lookup =>
    case FindUser(_) =>
    case CreateUser => assert !EmailTaken(s, Email(s.callbacks[i])) ==>
              !HoldsUser(s.callbacks[j], Email(s.callbacks[i]));
    case CreateIdentity =>
    case Retry =>
    case Break =>
  }

  lemma MoveKeepsAuthors(s: State, i: nat, a: Action)
    requires LinksOk(s) && CreationsOk(s) && i < |s.callbacks| && CanAct(s, s.callbacks[i], a)
    ensures LinksOk(Moved(s, i, a)) && CreationsOk(Moved(s, i, a))
  {
    var t := Moved(s, i, a);
    forall k | k in t.identities ensures LinkedBy(t, k, t.identityAuthor[k]) {
      LinkStays(s, t, k, s.identityAuthor[k]);
    }
    forall u | u in t.users && t.userAuthor[u].Some? ensures CreatedBy(t, u, t.userAuthor[u].value) {
      CreationStays(s, t, u, s.userAuthor[u].value);
    }
  }

  // ---------- Whole runs ----------

  lemma ActIsSound(s: State, i: nat, a: Action)
    requires Sound(s) && i < |s.callbacks| && CanAct(s, s.callbacks[i], a)
    ensures Sound(Moved(s, i, a)) && Grows(s, Moved(s, i, a))
  {
    var t := Moved(s, i, a);
    assert TablesOk(t);
    MoveKeepsAuthors(s, i, a);
    forall j | 0 <= j < |t.callbacks| ensures CallbackOk(t, t.callbacks[j]) {
      if j == i {
        ActedIsOk(s, i, a);
      } else {
        MoveKeepsOthers(s, i, a, s.callbacks[j]);
      }
    }
    forall j, k | 0 <= j < |t.callbacks| && 0 <= k < |t.callbacks| && j != k
      ensures Apart(t.callbacks[j], t.callbacks[k])
    {
      if j == i {
        MoveKeepsApart(s, i, a, k);
      } else if k == i {
        MoveKeepsApart(s, i, a, j);
      }
    }
  }

  lemma CommitKeepsCallbacks(s: State, i: nat)
    requires CommitEnabled(s, i)
    requires forall j :: 0 <= j < |s.callbacks| ==> CallbackOk(s, s.callbacks[j])
    requires forall j :: 0 <= j < |s.callbacks| && i != j ==> Apart(s.callbacks[i], s.callbacks[j])
    ensures forall j :: 0 <= j < |s.callbacks| ==> CallbackOk(Committed(s, i), Committed(s, i).callbacks[j])
  {
    forall j | 0 <= j < |s.callbacks| ensures CallbackOk(Committed(s, i), Committed(s, i).callbacks[j]) {
      if j != i {
        CommitKeepsOthers(s, i, s.callbacks[j]);
      }
    }
  }

  lemma CommitIsSound(s: State, i: nat)
    requires Sound(s) && CommitEnabled(s, i)
    ensures Sound(Committed(s, i)) && Grows(s, Committed(s, i))
  {
    var t := Committed(s, i);
    CommitKeepsCallbacks(s, i);
    assert TablesOk(t) by { CommitKeepsTables(s, i); }
    assert LinksOk(t) by { CommitKeepsLinks(s, i); }
    assert CreationsOk(t) by { CommitKeepsCreations(s, i); }
    assert Grows(s, t) by { CommitGrows(s, i); }
    forall j, k | 0 <= j < |t.callbacks| && 0 <= k < |t.callbacks| && j != k
      ensures Apart(t.callbacks[j], t.callbacks[k])
    {
      assert Apart(s.callbacks[j], s.callbacks[k]);
    }
  }

  lemma RegisterIsSound(s: State, email: string)
    requires Sound(s) && Enabled(s, Register(email))
    ensures Sound(Registered(s, email)) && Grows(s, Registered(s, email))
  {
    var t := Registered(s, email);
    RegisterKeepsTables(s, email);
    RegisterKeepsAuthors(s, email);
    forall j | 0 <= j < |t.callbacks| ensures CallbackOk(t, t.callbacks[j]) {
      assert !HoldsUser(s.callbacks[j], email);
      RegisterKeepsCallback(s, email, s.callbacks[j]);
    }
  }

  lemma ArriveKeepsAuthors(s: State, identity: Identity)
    requires LinksOk(s) && CreationsOk(s)
    ensures LinksOk(Take(s, Arrive(identity))) && CreationsOk(Take(s, Arrive(identity)))
  {
    var t := Take(s, Arrive(identity));
    forall k | k in t.identities ensures LinkedBy(t, k, t.identityAuthor[k]) {
      LinkStays(s, t, k, s.identityAuthor[k]);
    }
    forall u | u in t.users && t.userAuthor[u].Some? ensures CreatedBy(t, u, t.userAuthor[u].value) {
      CreationStays(s, t, u, s.userAuthor[u].value);
    }
  }

  lemma ArriveIsSound(s: State, identity: Identity)
    requires Sound(s)
    ensures Sound(Take(s, Arrive(identity))) && Grows(s, Take(s, Arrive(identity)))
  {
    var t := Take(s, Arrive(identity));
    ArriveKeepsAuthors(s, identity);
    forall j | 0 <= j < |t.callbacks| ensures CallbackOk(t, t.callbacks[j]) {
      if j < |s.callbacks| {
        SameTablesSameCallback(s, t, s.callbacks[j]);
      }
    }
  }

  lemma SameTablesSameCallback(s: State, t: State, d: Callback)
    requires t.users == s.users && t.identities == s.identities && t.nextUser == s.nextUser && CallbackOk(s, d)
    ensures CallbackOk(t, d)
  {
    assert forall u :: OwnsEmail(s, u, Email(d)) <==> OwnsEmail(t, u, Email(d));
  }

  lemma StepIsSound(s: State, e: Step)
    requires Sound(s) && Enabled(s, e)
    ensures Sound(Take(s, e)) && Grows(s, Take(s, e))
  {
    match e
    case Arrive(identity) => ArriveIsSound(s, identity);
    case Register(email) => RegisterIsSound(s, email);
    case Act(i, a) => ActIsSound(s, i, a);
    case Commit(i) => CommitIsSound(s, i);
  }

  const NOBODY := State(map[], map[], 1, [], map[], map[])

  ghost predicate Runs(s: State, steps: seq<Step>)
    decreases |steps|
  {
    steps == [] || (Enabled(s, steps[0]) && Runs(Take(s, steps[0]), steps[1..]))
  }

  ghost function After(s: State, steps: seq<Step>): State
    requires Runs(s, steps)
    decreases |steps|
  {
    if steps == [] then s else After(Take(s, steps[0]), steps[1..])
  }

  lemma GrowthIsTransitive(s: State, t: State, u: State)
    requires Grows(s, t) && Grows(t, u)
    ensures Grows(s, u)
  {
  }

  lemma {:induction false} RunIsSound(s: State, steps: seq<Step>)
    requires Sound(s) && Runs(s, steps)
    ensures Sound(After(s, steps)) && Grows(s, After(s, steps))
    decreases |steps|
  {
    if steps != [] {
      StepIsSound(s, steps[0]);
      RunIsSound(Take(s, steps[0]), steps[1..]);
      GrowthIsTransitive(s, Take(s, steps[0]), After(s, steps));
    }
  }

  // Callbacks for one identity that succeed all sign the same user in.
  lemma OneIdentityOneUser(steps: seq<Step>, i: nat, j: nat)
    requires Runs(NOBODY, steps)
    requires i < |After(NOBODY, steps).callbacks| && j < |After(NOBODY, steps).callbacks|
    requires var c, d := After(NOBODY, steps).callbacks[i], After(NOBODY, steps).callbacks[j];
             && c.identity.key == d.identity.key && c.phase.Done? && c.phase.outcome.SignedIn? && d.phase.Done?
                && d.phase.outcome.SignedIn?
    ensures After(NOBODY, steps).callbacks[i].phase == After(NOBODY, steps).callbacks[j].phase
  {
    var s := After(NOBODY, steps);
    RunIsSound(NOBODY, steps);
    assert CallbackOk(s, s.callbacks[i]) && CallbackOk(s, s.callbacks[j]);
  }

  // An identity never changes owner, and the lower-cased emails of users stay unique.
  lemma OwnersAndEmailsAreStable(steps: seq<Step>, more: seq<Step>)
    requires Runs(NOBODY, steps) && Runs(After(NOBODY, steps), more)
    ensures var s, t := After(NOBODY, steps), After(After(NOBODY, steps), more);
            && (forall k :: k in s.identities ==> k in t.identities && t.identities[k] == s.identities[k])
            && (forall u, v :: u in t.users && v in t.users && Lower(t.users[u]) == Lower(t.users[v]) ==> u == v)
  {
    RunIsSound(NOBODY, steps);
    RunIsSound(After(NOBODY, steps), more);
  }

  // Every identity was linked by a callback that signed in with a verified email, to the
  // account with that email; and every account a callback created has its verified email.
  lemma OnlyVerifiedEmailsLinkOrCreate(steps: seq<Step>)
    requires Runs(NOBODY, steps)
    ensures var s := After(NOBODY, steps);
            && (forall k :: k in s.identities ==> k in s.identityAuthor && LinkedBy(s, k, s.identityAuthor[k]))
            && (forall u :: u in s.users ==> u in s.userAuthor && (s.userAuthor[u].Some? ==> CreatedBy(s, u,
               s.userAuthor[u].value)))
  {
    RunIsSound(NOBODY, steps);
  }

  // The same, read off the identity: the provider had verified an email that was not empty, and the
  // account has it, trimmed and in lower case.
  lemma LinkedByItsEmail(steps: seq<Step>, k: IdentityKey)
    requires Runs(NOBODY, steps) && k in After(NOBODY, steps).identities
    ensures var s := After(NOBODY, steps);
            && k in s.identityAuthor && s.identityAuthor[k] < |s.callbacks| && s.identities[k] in s.users
            && var identity := s.callbacks[s.identityAuthor[k]].identity;
               && identity.key == k && identity.emailVerified && identity.email != ""
               && Lower(s.users[s.identities[k]]) == Lower(Trim(identity.email))
  {
    var s := After(NOBODY, steps);
    RunIsSound(NOBODY, steps);
    assert LinkedBy(s, k, s.identityAuthor[k]);
    LowerTwice(Trim(s.callbacks[s.identityAuthor[k]].identity.email));
  }

  lemma LowerTwice(s: string)
    ensures Lower(Lower(s)) == Lower(s)
  {
  }

  // A callback that failed, at whatever point, left no row behind.
  lemma FailureLeavesNothing(steps: seq<Step>, i: nat)
    requires Runs(NOBODY, steps) && i < |After(NOBODY, steps).callbacks|
    requires After(NOBODY, steps).callbacks[i].phase == Done(Refused)
    ensures var s := After(NOBODY, steps);
            && (forall k :: k in s.identityAuthor ==> s.identityAuthor[k] != i)
            && (forall u :: u in s.userAuthor ==> s.userAuthor[u] != Some(i))
  {
    var s := After(NOBODY, steps);
    RunIsSound(NOBODY, steps);
    forall k | k in s.identityAuthor ensures s.identityAuthor[k] != i {
      assert LinkedBy(s, k, s.identityAuthor[k]);
    }
    forall u | u in s.userAuthor ensures s.userAuthor[u] != Some(i) {
      if s.userAuthor[u].Some? {
        assert CreatedBy(s, u, s.userAuthor[u].value);
      }
    }
  }

  // ---------- Exactly when a sign-in can be refused ----------

  // A statement that does not fail refuses a callback in two cases only: an unknown identity
  // without a verified email, or one that lost its email to another sign-up.
  lemma WhyRefused(s: State, i: nat, a: Action)
    requires Sound(s) && i < |s.callbacks| && CanAct(s, s.callbacks[i], a) && !a.Break?
    ensures var c := s.callbacks[i];
            && (Moved(s, i, a).callbacks[i].phase == Done(Refused) <==>
                c.identity.key !in s.identities && ((a.Lookup? && !Verified(c)) || a.Retry?))
            && (c.identity.key !in s.identities && a.Retry? ==> Verified(c) && EmailTaken(s, Email(c)))
  {
    assert CallbackOk(s, s.callbacks[i]);
  }

  // A callback that will be signed in unless a statement fails: its identity has an owner, or
  // its verified email an account it will find.
  ghost predicate Welcome(s: State, c: Callback) {
    && c.phase != Done(Refused)
    && (c.identity.key in s.identities || (Verified(c) && EmailTaken(s, Email(c)) && WillFind(c.phase)))
  }

  predicate WillFind(p: Phase) {
    match p
    case Creating => false
    case Linking(_, created) => !created
    case Committing(_, created) => !created
    case Retrying => false
    case _ => true
  }

  lemma StillTaken(s: State, t: State, email: string)
    requires Grows(s, t) && EmailTaken(s, email)
    ensures EmailTaken(t, email)
  {
    var u :| u in s.users && OwnsEmail(s, u, email);
    assert OwnsEmail(t, u, email);
  }

  lemma StillWelcome(s: State, t: State, c: Callback)
    requires Grows(s, t) && Welcome(s, c)
    ensures Welcome(t, c)
  {
    if c.identity.key !in s.identities {
      StillTaken(s, t, Email(c));
    }
  }

  lemma ActingStaysWelcome(s: State, i: nat, a: Action)
    requires Sound(s) && i < |s.callbacks| && CanAct(s, s.callbacks[i], a) && !a.Break? && Welcome(s, s.callbacks[i])
    ensures Welcome(Moved(s, i, a), Moved(s, i, a).callbacks[i])
  {
    var t := Moved(s, i, a);
    var c := s.callbacks[i];
    assert CallbackOk(s, c);
    assert t.callbacks[i].identity == c.identity && t.identities == s.identities;
    assert Found(s, c.identity.key).Some? <==> c.identity.key in s.identities;
    if c.identity.key !in s.identities {
      ActIsSound(s, i, a);
      StillTaken(s, t, Email(c));
    }
  }

  lemma StepStaysWelcome(s: State, e: Step, i: nat)
    requires Sound(s) && Enabled(s, e) && e != Act(i, Break) && i < |s.callbacks| && Welcome(s, s.callbacks[i])
    ensures i < |Take(s, e).callbacks| && Welcome(Take(s, e), Take(s, e).callbacks[i])
  {
    StepIsSound(s, e);
    if e.Act? && e.i == i {
      ActingStaysWelcome(s, i, e.a);
    } else if e == Commit(i) {
      assert s.callbacks[i].identity.key in Take(s, e).identities;
    } else {
      StillWelcome(s, Take(s, e), s.callbacks[i]);
    }
  }

  lemma {:induction false} RunStaysWelcome(s: State, steps: seq<Step>, i: nat)
    requires Sound(s) && Runs(s, steps) && Act(i, Break) !in steps && i < |s.callbacks| && Welcome(s, s.callbacks[i])
    ensures i < |After(s, steps).callbacks| && Welcome(After(s, steps), After(s, steps).callbacks[i])
    decreases |steps|
  {
    if steps != [] {
      StepStaysWelcome(s, steps[0], i);
      StepIsSound(s, steps[0]);
      RunStaysWelcome(Take(s, steps[0]), steps[1..], i);
    }
  }

  // Some run refuses the callback that arrives next, although none of its statements fails.
  ghost predicate CanBeRefused(s: State, identity: Identity) {
    exists steps :: Refuses(s, identity, steps)
  }

  ghost predicate Refuses(s: State, identity: Identity, steps: seq<Step>) {
    var t, i := Take(s, Arrive(identity)), |s.callbacks|;
    && Runs(t, steps) && Act(i, Break) !in steps
    && i < |After(t, steps).callbacks| && After(t, steps).callbacks[i].phase == Done(Refused)
  }

  lemma Then(s: State, e: Step, rest: seq<Step>)
    requires Enabled(s, e) && Runs(Take(s, e), rest)
    ensures Runs(s, [e] + rest) && After(s, [e] + rest) == After(Take(s, e), rest)
  {
    assert ([e] + rest)[1..] == rest;
  }

  // Without a verified email the first lookup refuses.
  lemma UnverifiedIsRefused(s: State, identity: Identity)
    requires identity.key !in s.identities && !(identity.emailVerified && identity.email != "")
    ensures CanBeRefused(s, identity)
  {
    var t, i := Take(s, Arrive(identity)), |s.callbacks|;
    Then(t, Act(i, Lookup), []);
    assert [Act(i, Lookup)] + [] == [Act(i, Lookup)];
    assert Refuses(s, identity, [Act(i, Lookup)]);
  }

  // Once the callback has found no account, anybody who signs up with its email makes it lose.
  lemma LosingTheRace(s: State, i: nat) returns (steps: seq<Step>)
    requires i < |s.callbacks| && s.callbacks[i].phase.Creating? && s.callbacks[i].identity.key !in s.identities
    requires !EmailTaken(s, Email(s.callbacks[i])) && !EmailHeld(s, Email(s.callbacks[i]))
    ensures Runs(s, steps) && Act(i, Break) !in steps && i < |After(s, steps).callbacks|
    ensures After(s, steps).callbacks[i].phase == Done(Refused)
  {
    var email := Email(s.callbacks[i]);
    var s1 := Take(s, Register(email));
    assert OwnsEmail(s1, s.nextUser, email);
    var s2 := Take(s1, Act(i, CreateUser));
    assert s2.callbacks[i].phase.Retrying?;
    var last := [Act(i, Retry)];
    assert last[1..] == [];
    Then(s1, Act(i, CreateUser), last);
    Then(s, Register(email), [Act(i, CreateUser)] + last);
    steps := [Register(email)] + ([Act(i, CreateUser)] + last);
  }

  // Transactions that hold the email may fail; then nobody holds it.
  lemma {:induction false} Releasing(s: State, email: string, n: nat) returns (steps: seq<Step>)
    requires n <= |s.callbacks| && forall j :: n <= j < |s.callbacks| ==> !HoldsUser(s.callbacks[j], email)
    ensures Runs(s, steps)
    ensures !EmailHeld(After(s, steps), email) && |After(s, steps).callbacks| == |s.callbacks|
    ensures After(s, steps).users == s.users && After(s, steps).identities == s.identities
    ensures forall j :: 0 <= j < |s.callbacks| && !HoldsUser(s.callbacks[j], email) ==>
                          After(s, steps).callbacks[j] == s.callbacks[j] && Act(j, Break) !in steps
    decreases n
  {
    if n == 0 {
      steps := [];
    } else if HoldsUser(s.callbacks[n - 1], email) {
      var broken := Take(s, Act(n - 1, Break));
      var rest := Releasing(broken, email, n - 1);
      Then(s, Act(n - 1, Break), rest);
      steps := [Act(n - 1, Break)] + rest;
    } else {
      steps := Releasing(s, email, n - 1);
    }
  }

  lemma {:induction false} RunsJoin(s: State, a: seq<Step>, b: seq<Step>)
    requires Runs(s, a) && Runs(After(s, a), b)
    ensures Runs(s, a + b) && After(s, a + b) == After(After(s, a), b)
    decreases |a|
  {
    if a == [] {
      assert a + b == b;
    } else {
      RunsJoin(Take(s, a[0]), a[1..], b);
      assert (a + b)[0] == a[0] && (a + b)[1..] == a[1..] + b;
    }
  }

  lemma UnknownEmailCanBeRefused(s: State, identity: Identity)
    requires identity.key !in s.identities && identity.emailVerified && identity.email != ""
    requires !EmailTaken(s, Normalized(identity.email))
    ensures CanBeRefused(s, identity)
  {
    var email := Normalized(identity.email);
    var t, i := Take(s, Arrive(identity)), |s.callbacks|;
    var released := Releasing(t, email, |t.callbacks|);
    var s1 := After(t, released);
    assert forall u :: OwnsEmail(s1, u, email) <==> OwnsEmail(s, u, email);
    var s2 := Take(s1, Act(i, Lookup));
    assert s2.callbacks[i].phase.Began?;
    assert forall u :: OwnsEmail(s2, u, email) <==> OwnsEmail(s, u, email);
    var s3 := Take(s2, Act(i, FindUser(None)));
    assert forall u :: OwnsEmail(s3, u, email) <==> OwnsEmail(s, u, email);
    assert forall j :: 0 <= j < |s3.callbacks| && j != i ==> s3.callbacks[j] == s1.callbacks[j];
    assert forall j :: 0 <= j < |s3.callbacks| ==> !HoldsUser(s3.callbacks[j], email);
    var rest := LosingTheRace(s3, i);
    Then(s2, Act(i, FindUser(None)), rest);
    Then(s1, Act(i, Lookup), [Act(i, FindUser(None))] + rest);
    RunsJoin(t, released, [Act(i, Lookup)] + ([Act(i, FindUser(None))] + rest));
    assert Refuses(s, identity, released + ([Act(i, Lookup)] + ([Act(i, FindUser(None))] + rest)));
  }

  // A sign-in can be refused, short of a failing statement, if and only if nobody owns the
  // identity yet and no account has its verified email when it begins.
  lemma RefusedExactlyWhenUnknown(s: State, identity: Identity)
    requires Sound(s)
    ensures CanBeRefused(s, identity) <==>
              identity.key !in s.identities
              && !(identity.emailVerified && identity.email != "" && EmailTaken(s, Normalized(identity.email)))
  {
    if identity.key !in s.identities && !(identity.emailVerified && identity.email != "") {
      UnverifiedIsRefused(s, identity);
    } else if identity.key !in s.identities && !EmailTaken(s, Normalized(identity.email)) {
      UnknownEmailCanBeRefused(s, identity);
    } else if steps :| Refuses(s, identity, steps) {
      ArrivesWelcome(s, identity);
      RunStaysWelcome(Take(s, Arrive(identity)), steps, |s.callbacks|);
    }
  }

  lemma ArrivesWelcome(s: State, identity: Identity)
    requires Sound(s)
    requires identity.key in s.identities
             || (identity.emailVerified && identity.email != "" && EmailTaken(s, Normalized(identity.email)))
    ensures Sound(Take(s, Arrive(identity)))
    ensures Welcome(Take(s, Arrive(identity)), Callback(identity, Looking))
  {
    ArriveIsSound(s, identity);
    if identity.key !in s.identities {
      StillTaken(s, Take(s, Arrive(identity)), Normalized(identity.email));
    }
  }

  // A verified callback that was refused without a failing statement found its email taken.
  ghost predicate LostItsEmail(s: State, c: Callback) {
    c.phase == Done(Refused) && Verified(c) ==> EmailTaken(s, Email(c))
  }

  lemma StepKeepsLost(s: State, e: Step, i: nat)
    requires Sound(s) && Enabled(s, e) && e != Act(i, Break) && i < |s.callbacks| && LostItsEmail(s, s.callbacks[i])
    ensures i < |Take(s, e).callbacks| && LostItsEmail(Take(s, e), Take(s, e).callbacks[i])
  {
    var t, c := Take(s, e), s.callbacks[i];
    StepIsSound(s, e);
    if e.Act? && e.i == i {
      WhyRefused(s, i, e.a);
      if EmailTaken(s, Email(c)) {
        StillTaken(s, t, Email(c));
      }
    } else if c.phase == Done(Refused) && Verified(c) {
      StillTaken(s, t, Email(c));
    }
  }

  lemma {:induction false} RunKeepsLost(s: State, steps: seq<Step>, i: nat)
    requires Sound(s) && Runs(s, steps) && Act(i, Break) !in steps && i < |s.callbacks|
    requires LostItsEmail(s, s.callbacks[i])
    ensures i < |After(s, steps).callbacks| && LostItsEmail(After(s, steps), After(s, steps).callbacks[i])
    decreases |steps|
  {
    if steps != [] {
      StepKeepsLost(s, steps[0], i);
      StepIsSound(s, steps[0]);
      RunKeepsLost(Take(s, steps[0]), steps[1..], i);
    }
  }

  // A sign-in with a verified email that was refused cannot be refused when it is tried again.
  lemma TryingAgainSucceeds(s: State, identity: Identity, steps: seq<Step>)
    requires Sound(s) && identity.emailVerified && identity.email != "" && Refuses(s, identity, steps)
    ensures !CanBeRefused(After(Take(s, Arrive(identity)), steps), identity)
  {
    var t := Take(s, Arrive(identity));
    StepIsSound(s, Arrive(identity));
    RunIsSound(t, steps);
    RunKeepsLost(t, steps, |s.callbacks|);
    IdentityStays(t, steps, |s.callbacks|);
    RefusedExactlyWhenUnknown(After(t, steps), identity);
  }

  lemma {:induction false} IdentityStays(s: State, steps: seq<Step>, i: nat)
    requires Runs(s, steps) && i < |s.callbacks|
    ensures i < |After(s, steps).callbacks| && After(s, steps).callbacks[i].identity == s.callbacks[i].identity
    decreases |steps|
  {
    if steps != [] {
      IdentityStays(Take(s, steps[0]), steps[1..], i);
    }
  }

  // ---------- Emails of white space ----------

  lemma {:induction false} TrimLeftIsBlank(s: string)
    ensures TrimLeft(s, SPACE) == "" <==> Blank(s)
    ensures TrimLeft(s, SPACE) != "" ==> !IsSpace(TrimLeft(s, SPACE)[0])
  {
    if s != "" {
      TrimLeftIsBlank(s[1..]);
      assert s == [s[0]] + s[1..];
    }
  }

  lemma {:induction false} TrimRightIsBlank(s: string)
    ensures s != "" && !IsSpace(s[0]) ==> TrimRight(s, SPACE) != ""
  {
    if s != "" && IsSpace(s[|s| - 1]) {
      TrimRightIsBlank(s[..|s| - 1]);
    }
  }

  predicate Blank(s: string) {
    forall c :: c in s ==> IsSpace(c)
  }

  // A provider's email keys an account with the empty email if and only if it is blank.
  lemma NormalizedIsEmptyExactly(email: string)
    ensures Normalized(email) == "" <==> Blank(email)
  {
    TrimLeftIsBlank(email);
    TrimRightIsBlank(TrimLeft(email, SPACE));
  }

  // Over every run, an account that a callback created has the provider's verified email, trimmed
  // and in lower case; it has one at all if and only if that email was not blank.
  lemma CreatedAccountsHaveAnEmail(steps: seq<Step>, u: nat)
    requires Runs(NOBODY, steps)
    requires u in After(NOBODY, steps).userAuthor && After(NOBODY, steps).userAuthor[u].Some?
    ensures var s := After(NOBODY, steps);
            var a := s.userAuthor[u].value;
            && u in s.users && a < |s.callbacks|
            && var identity := s.callbacks[a].identity;
               && identity.emailVerified && identity.email != "" && s.users[u] == Lower(Trim(identity.email))
               && (s.users[u] != "" <==> !Blank(identity.email))
  {
    var s := After(NOBODY, steps);
    RunIsSound(NOBODY, steps);
    assert CreatedBy(s, u, s.userAuthor[u].value);
    NormalizedIsEmptyExactly(s.callbacks[s.userAuthor[u].value].identity.email);
  }

  // Two identities belong to one account if and only if the callbacks that linked them came
  // with the same email, up to case and surrounding space.
  lemma SameEmailSameAccount(steps: seq<Step>, k: IdentityKey, l: IdentityKey)
    requires Runs(NOBODY, steps)
    requires k in After(NOBODY, steps).identities && l in After(NOBODY, steps).identities
    ensures var s := After(NOBODY, steps);
            && k in s.identityAuthor && s.identityAuthor[k] < |s.callbacks|
            && l in s.identityAuthor && s.identityAuthor[l] < |s.callbacks|
            && (s.identities[k] == s.identities[l] <==>
                Lower(Email(s.callbacks[s.identityAuthor[k]])) == Lower(Email(s.callbacks[s.identityAuthor[l]])))
  {
    var s := After(NOBODY, steps);
    RunIsSound(NOBODY, steps);
    assert LinkedBy(s, k, s.identityAuthor[k]) && LinkedBy(s, l, s.identityAuthor[l]);
  }

  // So strangers whose verified emails are both blank share an account.
  lemma BlankEmailsShareAnAccount(steps: seq<Step>, k: IdentityKey, l: IdentityKey)
    requires Runs(NOBODY, steps)
    requires k in After(NOBODY, steps).identities && l in After(NOBODY, steps).identities
    requires var s := After(NOBODY, steps);
             && k in s.identityAuthor && s.identityAuthor[k] < |s.callbacks|
             && l in s.identityAuthor && s.identityAuthor[l] < |s.callbacks|
             && Blank(s.callbacks[s.identityAuthor[k]].identity.email)
             && Blank(s.callbacks[s.identityAuthor[l]].identity.email)
    ensures After(NOBODY, steps).identities[k] == After(NOBODY, steps).identities[l]
  {
    var s := After(NOBODY, steps);
    SameEmailSameAccount(steps, k, l);
    NormalizedIsEmptyExactly(s.callbacks[s.identityAuthor[k]].identity.email);
    NormalizedIsEmptyExactly(s.callbacks[s.identityAuthor[l]].identity.email);
  }

  // A first sign-in that meets nobody: six steps create the account and link the identity.
  lemma FirstSignIn(identity: Identity) returns (steps: seq<Step>)
    requires identity.emailVerified && identity.email != ""
    ensures Runs(NOBODY, steps)
    ensures var s := After(NOBODY, steps);
            && s.users == map[1 := Normalized(identity.email)] && s.identities == map[identity.key := 1]
            && s.callbacks == [Callback(identity, Done(SignedIn(1)))]
  {
    var s1 := Take(NOBODY, Arrive(identity));
    var s2 := Take(s1, Act(0, Lookup));
    var s3 := Take(s2, Act(0, FindUser(None)));
    var s4 := Take(s3, Act(0, CreateUser));
    var s5 := Take(s4, Act(0, CreateIdentity));
    var last := [Commit(0)];
    assert last[1..] == [];
    Then(s4, Act(0, CreateIdentity), last);
    Then(s3, Act(0, CreateUser), [Act(0, CreateIdentity)] + last);
    Then(s2, Act(0, FindUser(None)), [Act(0, CreateUser)] + ([Act(0, CreateIdentity)] + last));
    Then(s1, Act(0, Lookup), [Act(0, FindUser(None))] + ([Act(0, CreateUser)] + ([Act(0, CreateIdentity)] + last)));
    steps := [Act(0, Lookup)] + ([Act(0, FindUser(None))] + ([Act(0, CreateUser)] + ([Act(0, CreateIdentity)] + last)));
    Then(NOBODY, Arrive(identity), steps);
    steps := [Arrive(identity)] + steps;
  }

  // At one input: a verified email of one space makes an account with the empty email.
  lemma SpaceMakesAnEmptyEmail() returns (steps: seq<Step>)
    ensures Runs(NOBODY, steps) && 1 in After(NOBODY, steps).users && After(NOBODY, steps).users[1] == ""
  {
    NormalizedIsEmptyExactly(" ");
    steps := FirstSignIn(Identity(IdentityKey("google", "1"), " ", true));
  }

  // ---------- No deadlock ----------

  // Waiting goes from an email to the transaction that inserted it, from an identity to one
  // about to commit, and no further.
  lemma SomeoneCanGoOn(s: State, i: nat) returns (e: Step)
    requires i < |s.callbacks| && !s.callbacks[i].phase.Done?
    ensures Enabled(s, e) && (e.Commit? || (e.Act? && !e.a.Break?))
  {
    var c := s.callbacks[i];
    if j: nat :| j < |s.callbacks| && s.callbacks[j].phase.Committing? {
      e := Commit(j);
    } else if j: nat :| j < |s.callbacks| && s.callbacks[j].phase.Linking? {
      assert forall k :: 0 <= k < |s.callbacks| ==> !HoldsIdentity(s.callbacks[k], s.callbacks[j].identity.key);
      e := Act(j, CreateIdentity);
    } else {
      assert forall k :: 0 <= k < |s.callbacks| ==> !HoldsUser(s.callbacks[k], Email(c));
      match c.phase
      case Looking => e := Act(i, Lookup);
      case Began =>
        if u :| u in s.users && OwnsEmail(s, u, Email(c)) {
          e := Act(i, FindUser(Some(u)));
        } else {
          e := Act(i, FindUser(None));
        }
      case Creating => e := Act(i, CreateUser);
      case Retrying => e := Act(i, Retry);
    }
  }

  function StepsLeft(p: Phase): nat {
    match p
    case Looking => 6
    case Began => 5
    case Creating => 4
    case Linking(_, _) => 3
    case Committing(_, _) => 2
    case Retrying => 1
    case Done(_) => 0
  }

  // Every step of a callback brings it closer to its end.
  lemma EveryStepEndsSooner(s: State, e: Step)
    requires Enabled(s, e) && (e.Act? || e.Commit?)
    ensures StepsLeft(Take(s, e).callbacks[e.i].phase) < StepsLeft(s.callbacks[e.i].phase)
  {
    match e
    case Act(i, a) =>
      match a {
        case Lookup =>
        case FindUser(_) =>
        case CreateUser =>
        case CreateIdentity =>
        case Retry =>
        case Break =>
      }
    case Commit(_) =>
  }

  // ---------- One call among the others ----------

  const STEPS_LEFT: Callback -> nat := (c: Callback) => StepsLeft(c.phase)

  function Work(s: State): nat {
    Sum(s.callbacks, STEPS_LEFT)
  }

  lemma StepDoesWork(s: State, e: Step)
    requires Enabled(s, e) && (e.Act? || e.Commit?)
    ensures Work(Take(s, e)) < Work(s)
  {
    EveryStepEndsSooner(s, e);
    var t := Take(s, e);
    assert t.callbacks == s.callbacks[e.i := t.callbacks[e.i]];
    SumUpdate(s.callbacks, STEPS_LEFT, e.i, t.callbacks[e.i]);
  }

  // While an insert waits, some other transaction can go on.
  lemma HolderCanGoOn(s: State, i: nat, a: Action) returns (e: Step)
    requires i < |s.callbacks| && !CanAct(s, s.callbacks[i], a)
    requires (a == CreateUser && s.callbacks[i].phase.Creating?) ||
              (a == CreateIdentity && s.callbacks[i].phase.Linking?)
    ensures Enabled(s, e) && (e.Commit? || e.Act?) && e.i != i
  {
    if j: nat :| j < |s.callbacks| && s.callbacks[j].phase.Committing? {
      e := Commit(j);
    } else {
      assert forall k :: 0 <= k < |s.callbacks| ==> !s.callbacks[k].phase.Committing?;
      assert EmailHeld(s, Email(s.callbacks[i]));
      var j :| 0 <= j < |s.callbacks| && HoldsUser(s.callbacks[j], Email(s.callbacks[i]));
      e := Act(j, CreateIdentity);
    }
  }

  // The callback a step belongs to, if any.
  predicate By(e: Step, i: nat) {
    match e
    case Act(j, _) => i == j
    case Commit(j) => i == j
    case _ => false
  }

  // What the others' steps leave of callback i.
  ghost predicate Between(s: State, t: State, i: nat) {
    Sound(t) && Grows(s, t) && i < |s.callbacks| <= |t.callbacks| && t.callbacks[i] == s.callbacks[i]
  }

  // The same callback, perhaps further on, and as welcome as before.
  ghost predicate Later(s: State, t: State, i: nat) {
    && Sound(t) && Grows(s, t) && i < |s.callbacks| <= |t.callbacks|
    && t.callbacks[i].identity == s.callbacks[i].identity
    && (Welcome(s, s.callbacks[i]) ==> Welcome(t, t.callbacks[i]))
  }

  lemma BetweenIsLater(s: State, t: State, i: nat)
    requires Between(s, t, i)
    ensures Later(s, t, i)
  {
    if Welcome(s, s.callbacks[i]) {
      StillWelcome(s, t, s.callbacks[i]);
    }
  }

  lemma LaterStill(s: State, t: State, u: State, i: nat)
    requires Later(s, t, i) && Later(t, u, i)
    ensures Later(s, u, i)
  {
    GrowthIsTransitive(s, t, u);
  }

  lemma OthersStep(s: State, t: State, i: nat, e: Step)
    requires Between(s, t, i) && Enabled(t, e) && !By(e, i)
    ensures Between(s, Take(t, e), i)
  {
    StepIsSound(t, e);
    GrowthIsTransitive(s, t, Take(t, e));
  }

  lemma OwnStep(s: State, i: nat, a: Action)
    requires Sound(s) && i < |s.callbacks| && CanAct(s, s.callbacks[i], a) && !a.Break?
    ensures Later(s, Moved(s, i, a), i)
    ensures Moved(s, i, a).users == s.users && Moved(s, i, a).identities == s.identities
    ensures Moved(s, i, a).callbacks[i].phase == Acted(s, s.callbacks[i], a)
  {
    ActIsSound(s, i, a);
    if Welcome(s, s.callbacks[i]) {
      ActingStaysWelcome(s, i, a);
    }
  }

  lemma OwnCommit(s: State, i: nat)
    requires Sound(s) && CommitEnabled(s, i)
    ensures Later(s, Committed(s, i), i)
  {
    CommitIsSound(s, i);
    assert s.callbacks[i].identity.key in Committed(s, i).identities;
  }

  class Server {
    var state: State

    // Any number of steps of anybody else.
    method Others(i: nat)
      requires Sound(state) && i < |state.callbacks|
      modifies this
      ensures Between(old(state), state, i)
    {
      var n: nat :| n >= 0;
      for k := 0 to n
        invariant Between(old(state), state, i)
      {
        assert Enabled(state, Arrive(state.callbacks[i].identity));
        var e: Step :| Enabled(state, e);
        if !By(e, i) {
          OthersStep(old(state), state, i, e);
          state := Take(state, e);
        }
      }
    }

    // An insert may have to wait for other transactions; the wait ends.
    method Await(i: nat, a: Action)
      requires Sound(state) && i < |state.callbacks|
      requires (a == CreateUser && state.callbacks[i].phase.Creating?) || (a == CreateIdentity
               && state.callbacks[i].phase.Linking?)
      modifies this
      ensures Between(old(state), state, i) && CanAct(state, state.callbacks[i], a)
    {
      Others(i);
      while !CanAct(state, state.callbacks[i], a)
        invariant Between(old(state), state, i)
        decreases Work(state)
      {
        ghost var holder := HolderCanGoOn(state, i, a);
        assert !By(holder, i);
        var e: Step :| Enabled(state, e) && (e.Commit? || e.Act?) && !By(e, i);
        OthersStep(old(state), state, i, e);
        StepDoesWork(state, e);
        state := Take(state, e);
      }
    }

    // The first half of the transaction: the user, found or inserted.
    method FindOrCreateUser(i: nat)
      requires Sound(state) && i < |state.callbacks| && state.callbacks[i].phase.Began?
      modifies this
      ensures Later(old(state), state, i) && (state.callbacks[i].phase.Linking? || state.callbacks[i].phase.Retrying?)
    {
      ghost var s0 := state;
      var email := Email(state.callbacks[i]);
      if EmailTaken(state, email) {
        var u :| u in state.users && OwnsEmail(state, u, email);
        OwnStep(state, i, FindUser(Some(u)));
        state := Moved(state, i, FindUser(Some(u)));
        return;
      }
      OwnStep(state, i, FindUser(None));
      state := Moved(state, i, FindUser(None));
      ghost var s1 := state;
      Await(i, CreateUser);
      BetweenIsLater(s1, state, i);
      LaterStill(s0, s1, state, i);
      ghost var s2 := state;
      OwnStep(state, i, CreateUser);
      state := Moved(state, i, CreateUser);
      LaterStill(s0, s2, state, i);
    }

    // The second half: the identity, and the commit.
    method LinkIdentity(i: nat)
      requires Sound(state) && i < |state.callbacks| && state.callbacks[i].phase.Linking?
      modifies this
      ensures Later(old(state), state, i) && (state.callbacks[i].phase.Retrying? || state.callbacks[i].phase.Done?)
      ensures state.callbacks[i].phase.Done? ==> state.callbacks[i].phase.outcome.SignedIn?
    {
      ghost var s0 := state;
      Await(i, CreateIdentity);
      BetweenIsLater(s0, state, i);
      ghost var s1 := state;
      OwnStep(state, i, CreateIdentity);
      state := Moved(state, i, CreateIdentity);
      LaterStill(s0, s1, state, i);
      if state.callbacks[i].phase.Retrying? {
        return;
      }
      ghost var s2 := state;
      Others(i);
      BetweenIsLater(s2, state, i);
      LaterStill(s0, s2, state, i);
      ghost var s3 := state;
      OwnCommit(state, i);
      state := Committed(state, i);
      LaterStill(s0, s3, state, i);
    }

    // The transaction ends committed, or rolled back by a unique violation.
    method LinkOrCreateUser(i: nat)
      requires Sound(state) && i < |state.callbacks| && state.callbacks[i].phase.Began?
      modifies this
      ensures Later(old(state), state, i) && (state.callbacks[i].phase.Retrying? || state.callbacks[i].phase.Done?)
      ensures state.callbacks[i].phase.Done? ==> state.callbacks[i].phase.outcome.SignedIn?
    {
      ghost var s0 := state;
      FindOrCreateUser(i);
      if state.callbacks[i].phase.Linking? {
        ghost var s1 := state;
        LinkIdentity(i);
        LaterStill(s0, s1, state, i);
      }
    }

    // The lookup that answers a returning user, and refuses a new one without a verified
    // email.
    method FirstLookup(i: nat)
      requires Sound(state) && i < |state.callbacks| && state.callbacks[i].phase.Looking?
      modifies this
      ensures Later(old(state), state, i) && (state.callbacks[i].phase.Began? || state.callbacks[i].phase.Done?)
      ensures state.callbacks[i].phase == Done(Refused) ==>
                !Verified(state.callbacks[i]) && state.callbacks[i].identity.key !in old(state.identities)
    {
      ghost var s0 := state;
      Others(i);
      BetweenIsLater(s0, state, i);
      ghost var s1 := state;
      OwnStep(state, i, Lookup);
      state := Moved(state, i, Lookup);
      LaterStill(s0, s1, state, i);
    }

    method RetryLookup(i: nat)
      requires Sound(state) && i < |state.callbacks| && state.callbacks[i].phase.Retrying?
      modifies this
      ensures Later(old(state), state, i) && state.callbacks[i].phase.Done?
      ensures state.callbacks[i].phase == Done(Refused) ==>
                && EmailTaken(state, Email(state.callbacks[i]))
                && state.callbacks[i].identity.key !in old(state.identities)
    {
      ghost var s0 := state;
      Others(i);
      BetweenIsLater(s0, state, i);
      ghost var s1 := state;
      assert CallbackOk(state, state.callbacks[i]);
      OwnStep(state, i, Retry);
      state := Moved(state, i, Retry);
      LaterStill(s0, s1, state, i);
      if state.callbacks[i].phase == Done(Refused) {
        assert EmailTaken(s1, Email(s1.callbacks[i]));
        ghost var u :| u in s1.users && OwnsEmail(s1, u, Email(s1.callbacks[i]));
        assert OwnsEmail(state, u, Email(s1.callbacks[i]));
      }
    }

    method Arriving(identity: Identity) returns (i: nat)
      requires Sound(state)
      modifies this
      ensures Sound(state) && Grows(old(state), state)
      ensures i < |state.callbacks| && state.callbacks[i] == Callback(identity, Looking)
      ensures state == Take(old(state), Arrive(identity))
    {
      i := |state.callbacks|;
      StepIsSound(state, Arrive(identity));
      state := Take(state, Arrive(identity));
    }

    // From a first sign-in to its end, with one retry of the lookup after a lost race.
    method SignUp(i: nat)
      requires Sound(state) && i < |state.callbacks| && state.callbacks[i].phase.Began?
      modifies this
      ensures Later(old(state), state, i) && state.callbacks[i].phase.Done?
      ensures state.callbacks[i].phase == Done(Refused) ==>
                && EmailTaken(state, Email(state.callbacks[i]))
                && state.callbacks[i].identity.key !in old(state.identities)
    {
      ghost var s0 := state;
      LinkOrCreateUser(i);
      if state.callbacks[i].phase.Retrying? {
        ghost var s1 := state;
        RetryLookup(i);
        LaterStill(s0, s1, state, i);
      }
    }

    // A call that no statement fails, with others before, between and after its own steps. It
    // returns the owner of the identity. It refuses only an identity nobody owned when it began,
    // for want of a verified email, or because another sign-up took a verified email that no
    // account had when it began.
    method ResolveOAuthUser(identity: Identity) returns (r: Outcome)
      requires Sound(state)
      modifies this
      ensures Sound(state) && Grows(old(state), state)
      ensures r.SignedIn? ==> identity.key in state.identities && state.identities[identity.key] == r.userId
      ensures r.Refused? ==> identity.key !in old(state.identities)
      ensures r.Refused? && identity.emailVerified && identity.email != "" ==>
                !EmailTaken(old(state), Normalized(identity.email)) && EmailTaken(state, Normalized(identity.email))
    {
      ghost var before := state;
      if identity.emailVerified && identity.email != "" && EmailTaken(state, Normalized(identity.email)) {
        ArrivesWelcome(state, identity);
      }
      var i := Arriving(identity);
      ghost var s0 := state;
      FirstLookup(i);
      if state.callbacks[i].phase.Began? {
        ghost var s1 := state;
        SignUp(i);
        LaterStill(s0, s1, state, i);
      }
      GrowthIsTransitive(before, s0, state);
      r := state.callbacks[i].phase.outcome;
      if r.SignedIn? {
        SignedInIsTheOwner(state, i);
      }
    }
  }

  lemma SignedInIsTheOwner(s: State, i: nat)
    requires Sound(s) && i < |s.callbacks| && s.callbacks[i].phase.Done? && s.callbacks[i].phase.outcome.SignedIn?
    ensures var c := s.callbacks[i];
            c.identity.key in s.identities && s.identities[c.identity.key] == c.phase.outcome.userId
  {
    assert CallbackOk(s, s.callbacks[i]);
  }
}
