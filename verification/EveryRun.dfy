/** What enrollment keeps in every run, also after a power loss took a directory and the
    device started over: requests are written ahead, and success means a current identity. */
module EveryRun {
  import opened AtomicFile
  import opened Enrollment
  import opened Wrappers

  /** Some request presented `t` as its proof. */
  ghost predicate Spent(s: State, t: Token) {
    exists id :: id in s.sent && s.sent[id].proof == t
  }

  /** Known secrets, whose replacement no request has presented as a proof. */
  ghost predicate Unspent(s: State, e: Proof) {
    && e.token in s.used
    && (e.replacement.Some? ==>
          e.replacement.value in s.used && e.replacement.value != e.token && !Spent(s, e.replacement.value))
  }

  /** The registration file durably holds what the process is sending. */
  ghost predicate Written(s: State, e: Proof) {
    e.replacement.Some? && s.registration == File(Some(e), {Some(e)})
  }

  /** A granted token is the current one until some request presents it. */
  ghost predicate Standing(s: State, mac: Mac, uuid: Uuid, token: Token) {
    Spent(s, token) || IsCurrent(s.server, Credentials(uuid, token, mac))
  }

  ghost predicate GoodAnswer(s: State, q: Request, r: Reply) {
    match r
    case Exchanged(uuid, token) => token == q.replacement && Standing(s, q.mac, uuid, token)
    case PendingReply(_, Some(token)) => token == q.proof
    case _ => true
  }

  ghost predicate GoodStage(s: State) {
    match s.phase
    case Stopped => true
    case Preparing(e) => Unspent(s, e)
    case Sending(e, _) => Unspent(s, e) && Written(s, e)
    case Waiting(e, _, call) =>
      && Unspent(s, e) && Written(s, e)
      && call in s.sent && s.sent[call] == Request(e.token, e.replacement.value, e.mac)
    case Claiming(e, _) => Unspent(s, e) && e.replacement.Some?
    case SavingIdentity(e, uuid, token) => Held(s, Credentials(uuid, token, e.mac))
    case Recovering(e, uuid, token) => Held(s, Credentials(uuid, token, e.mac))
    case RemovingProof => exists c :: s.identity == File(Some(c), {Some(c)}) && Held(s, c)
  }

  /** The server's current identity, presented to nobody. */
  ghost predicate Held(s: State, c: Credentials) {
    IsCurrent(s.server, c) && !Spent(s, c.token) && c.token in s.used
  }

  ghost predicate GoodFiles(s: State) {
    && s.registration.visible in s.registration.maybe && s.identity.visible in s.identity.maybe
    && (forall e | Some(e) in s.registration.maybe :: Unspent(s, e))
    && (forall c | Some(c) in s.identity.maybe :: c.token in s.used)
  }

  ghost predicate GoodTraffic(s: State) {
    && (forall id | id in s.sent :: s.sent[id].proof in s.used)
    && (forall id, r | (id, r) in s.replies :: id in s.sent && GoodAnswer(s, s.sent[id], r))
  }

  ghost predicate Sound(s: State) {
    GoodFiles(s) && GoodTraffic(s) && GoodStage(s)
  }

  lemma InitialSound(anchored: bool)
    ensures Sound(Initial(anchored))
  {
  }

  /** Steps that send nothing and leave the server alone change nothing about traffic. */
  lemma SameTraffic(s: State, t: State)
    requires GoodTraffic(s) && t.sent == s.sent && t.replies == s.replies && t.server == s.server && s.used <= t.used
    ensures GoodTraffic(t)
    ensures forall x :: Spent(s, x) == Spent(t, x)
    ensures forall e :: Unspent(s, e) ==> Unspent(t, e)
    ensures forall c :: Held(s, c) ==> Held(t, c)
  {
    assert forall x :: Spent(s, x) == Spent(t, x);
    forall id, r | (id, r) in t.replies ensures id in t.sent && GoodAnswer(t, t.sent[id], r) {
      assert GoodAnswer(s, s.sent[id], r);
    }
  }

  lemma LoadSound(s: State, a: Action, t: State)
    requires Sound(s) && a.Load? && Step(s, a, t)
    ensures Sound(t)
  {
    SameTraffic(s, t);
    hide GoodTraffic;
    var e := Loaded(s, a.detected, a.proof, a.replacement);
    assert !Spent(t, a.replacement) by { NeverSpent(s, t, a.replacement); }
    assert s.registration.visible.Some? ==> Unspent(s, s.registration.visible.value);
    hide Spent;
    assert Unspent(t, e);
  }

  lemma NeverSpent(s: State, t: State, x: Token)
    requires GoodTraffic(s) && x !in s.used && t.sent == s.sent
    ensures !Spent(t, x)
  {
  }

  /** Steps of the process that touch only its files and its phase. */
  lemma LocalSound(s: State, a: Action, t: State)
    requires Sound(s) && Step(s, a, t)
    requires !a.Load? && !a.Send? && !a.ServerHandles? && !a.Review?
    ensures Sound(t)
  {
    SameTraffic(s, t);
    if a.Receive? { assert GoodAnswer(s, s.sent[s.phase.call], a.reply); }
    hide GoodTraffic, Spent, IsCurrent;
  }

  lemma SendSound(s: State, a: Action, t: State)
    requires Sound(s) && a.Send? && Step(s, a, t)
    ensures Sound(t)
  {
    var e := s.phase.proof;
    forall x ensures Spent(t, x) <==> Spent(s, x) || x == e.token {
      if x == e.token { assert t.sent[a.call].proof == x; }
      if Spent(s, x) {
        var id :| id in s.sent && s.sent[id].proof == x;
        assert t.sent[id].proof == x;
      }
    }
    forall id, r | (id, r) in t.replies ensures id in t.sent && GoodAnswer(t, t.sent[id], r) {
      assert id in s.sent && GoodAnswer(s, s.sent[id], r);
    }
    hide Spent, GoodAnswer, IsCurrent;
  }

  /** Whatever past request the server handles, what it granted stands until it is presented. */
  lemma ServeStands(s: State, q: Request, newId: Uuid, t: State, mac: Mac, uuid: Uuid, token: Token)
    requires Standing(s, mac, uuid, token)
    requires (exists id :: id in s.sent && s.sent[id] == q) && t.sent == s.sent
    requires t.server == Serve(s.server, q, newId).0
    ensures Standing(t, mac, uuid, token)
  {
    var id :| id in s.sent && s.sent[id] == q;
    assert s.sent[id].proof == q.proof;
    if s.sent[id].proof == token { assert Spent(t, token); }
    if x :| x in s.sent && s.sent[x].proof == token { assert Spent(t, token); }
  }

  lemma ServerSound(s: State, a: Action, t: State)
    requires Sound(s) && a.ServerHandles? && Step(s, a, t)
    ensures Sound(t)
  {
    var q := s.sent[a.call];
    var reply := Serve(s.server, q, a.newId).1;
    assert forall x :: Spent(s, x) == Spent(t, x);
    assert exists id :: id in s.sent && s.sent[id] == q;
    forall mac, uuid, token | Standing(s, mac, uuid, token) ensures Standing(t, mac, uuid, token) {
      ServeStands(s, q, a.newId, t, mac, uuid, token);
    }
    assert GoodAnswer(t, q, reply);
    forall id, r | (id, r) in t.replies ensures id in t.sent && GoodAnswer(t, t.sent[id], r) {
      if (id, r) in s.replies { assert GoodAnswer(s, s.sent[id], r); }
    }
    HeldStands(s, t);
    hide Spent, Serve, GoodAnswer, Held;
  }

  lemma HeldStands(s: State, t: State)
    requires forall x :: Spent(s, x) == Spent(t, x)
    requires forall mac, uuid, token | Standing(s, mac, uuid, token) :: Standing(t, mac, uuid, token)
    requires s.used <= t.used
    ensures forall c :: Held(s, c) ==> Held(t, c)
  {
    forall c | Held(s, c) ensures Held(t, c) {
      assert Standing(s, c.mac, c.uuid, c.token);
      assert Standing(t, c.mac, c.uuid, c.token);
    }
  }

  lemma ReviewSound(s: State, a: Action, t: State)
    requires Sound(s) && a.Review? && Step(s, a, t)
    ensures Sound(t)
  {
    assert forall x :: Spent(s, x) == Spent(t, x);
    assert forall mac, uuid, token | Standing(s, mac, uuid, token) :: Standing(t, mac, uuid, token);
    forall id, r | (id, r) in t.replies ensures id in t.sent && GoodAnswer(t, t.sent[id], r) {
      assert GoodAnswer(s, s.sent[id], r);
    }
    HeldStands(s, t);
    hide Spent, GoodAnswer, Held;
  }

  /** Every step keeps it: a power loss that takes the directory as well. */
  lemma StepSound(s: State, a: Action, t: State)
    requires Sound(s) && Step(s, a, t)
    ensures Sound(t)
  {
    hide Sound, Step;
    match a
    case Load(_, _, _) => LoadSound(s, a, t);
    case Send(_) => SendSound(s, a, t);
    case ServerHandles(_, _) => ServerSound(s, a, t);
    case Review(_, _) => ReviewSound(s, a, t);
    case _ => LocalSound(s, a, t);
  }

  lemma ClaimedIsComplete(s: State)
    requires Sound(s) && s.phase.Claiming?
    ensures s.phase.proof.replacement.Some?
  {
  }

  /** Before the proof is removed the identity file holds the current identity and nothing else. */
  lemma SavedIsCurrent(s: State) returns (c: Credentials)
    requires Sound(s) && s.phase.RemovingProof?
    ensures s.identity == File(Some(c), {Some(c)}) && IsCurrent(s.server, c)
  {
    c := s.identity.visible.value;
  }

  lemma {:induction false} RunSound(anchored: bool, states: seq<State>, actions: seq<Action>, n: nat)
    requires Run(anchored, states, actions) && n < |states|
    ensures Sound(states[n])
  {
    hide Sound, Step;
    if n == 0 {
      InitialSound(anchored);
    } else {
      RunSound(anchored, states, actions, n - 1);
      StepSound(states[n - 1], actions[n - 1], states[n]);
    }
  }

  /** Write-ahead, in every run: a request leaves only when its three secrets are exactly what
      the registration file holds, and all it could hold after a power loss that leaves the
      directory. */
  lemma WriteAhead(anchored: bool, states: seq<State>, actions: seq<Action>, n: nat)
    requires Run(anchored, states, actions) && n < |actions| && actions[n].Send?
    ensures var s, q := states[n], states[n + 1].sent[actions[n].call];
      exists e: Proof ::
        && s.registration == File(Some(e), {Some(e)})
        && q == Request(e.token, e.replacement.GetOr(0), e.mac) && e.replacement.Some?
  {
    RunSound(anchored, states, actions, n);
    assert Step(states[n], actions[n], states[n + 1]);
    assert Written(states[n], states[n].phase.proof);
  }

  /** In every run, a process that gets to remove its proof has the server's current identity
      on disk, and nothing else can come back after a power loss that leaves the directory. */
  lemma SuccessIsCurrent(anchored: bool, states: seq<State>, actions: seq<Action>, n: nat)
    requires Run(anchored, states, actions) && n < |actions| && actions[n] == RemoveProof(Done)
    ensures var t := states[n + 1];
      && t.registration == File(None, {None})
      && exists c :: t.identity == File(Some(c), {Some(c)}) && IsCurrent(t.server, c)
  {
    RunSound(anchored, states, actions, n);
    var s, t := states[n], states[n + 1];
    assert Step(s, actions[n], t);
    var c := SavedIsCurrent(s);
    assert t.identity == File(Some(c), {Some(c)}) && IsCurrent(t.server, c);
  }
}
