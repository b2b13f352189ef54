/** The secrets of an enrollment: which runs present every proof with one replacement and one
    MAC, through all retries and restarts. */
module Secrets {
  import opened AtomicFile
  import opened Enrollment
  import opened EveryRun
  import opened Wrappers

  /** No proof was presented with two replacements or two MACs. */
  ghost predicate OneRequest(s: State) {
    forall i, j | i in s.sent && j in s.sent && s.sent[i].proof == s.sent[j].proof :: s.sent[i] == s.sent[j]
  }

  /** Sending `e` would repeat whatever was sent for its proof. */
  ghost predicate Repeats(s: State, e: Proof) {
    forall id | id in s.sent && s.sent[id].proof == e.token ::
      e.replacement == Some(s.sent[id].replacement) && e.mac == s.sent[id].mac
  }

  ghost predicate StageRepeats(s: State) {
    match s.phase
    case Preparing(e) => Repeats(s, e)
    case Sending(e, _) => Repeats(s, e)
    case Waiting(e, _, _) => Repeats(s, e)
    case Claiming(e, _) => Repeats(s, e)
    case _ => true
  }

  ghost predicate FilesRepeat(s: State) {
    && (forall e | Some(e) in s.registration.maybe :: Repeats(s, e))
    && (None in s.registration.maybe ==> forall c | Some(c) in s.identity.maybe :: !Spent(s, c.token))
  }

  /** Whatever a restart may load repeats what was sent. */
  ghost predicate Consistent(s: State) {
    Sound(s) && OneRequest(s) && FilesRepeat(s) && StageRepeats(s)
  }

  /** A power loss that leaves the registration file, or does not leave an identity whose token
      was already presented as a proof. */
  ghost predicate Harmless(s: State, t: State) {
    || PowerLossStep(s.registration, t.registration)
    || (t.identity.visible.Some? ==> !Spent(s, t.identity.visible.value.token))
  }

  lemma InitialConsistent(anchored: bool)
    ensures Consistent(Initial(anchored))
  {
    InitialSound(anchored);
  }

  lemma SameSent(s: State, t: State)
    requires t.sent == s.sent
    ensures OneRequest(s) == OneRequest(t)
    ensures forall e :: Repeats(s, e) == Repeats(t, e)
    ensures forall x :: Spent(s, x) == Spent(t, x)
  {
  }

  lemma LoadConsistent(s: State, a: Action, t: State)
    requires Consistent(s) && a.Load? && Step(s, a, t)
    ensures Consistent(t)
  {
    LoadSound(s, a, t);
    SameSent(s, t);
    var e := Loaded(s, a.detected, a.proof, a.replacement);
    NeverSpent(s, t, a.proof);
    assert Repeats(t, e);
    hide Sound, Repeats, Spent, OneRequest;
  }

  lemma NeverSent(s: State)
    ensures forall e: Proof | !Spent(s, e.token) :: Repeats(s, e)
    ensures forall e, f: Proof | Repeats(s, e) && f == e.(uuid := f.uuid) :: Repeats(s, f)
  {
  }

  lemma ReceiveConsistent(s: State, a: Action, t: State)
    requires Consistent(s) && a.Receive? && Step(s, a, t)
    ensures Consistent(t)
  {
    hide Spent, Repeats, OneRequest, Standing, Unspent, Held, IsCurrent;
    LocalSound(s, a, t);
    SameSent(s, t);
    NeverSent(s);
    assert GoodAnswer(s, s.sent[s.phase.call], a.reply);
  }

  /** Steps of the process that touch only its files and its phase. */
  lemma LocalConsistent(s: State, a: Action, t: State)
    requires Consistent(s) && Step(s, a, t)
    requires !a.Load? && !a.Send? && !a.Receive? && !a.PowerFails?
    ensures Consistent(t)
  {
    hide Spent, Repeats, OneRequest, GoodTraffic, GoodFiles, Unspent, IsCurrent, Serve;
    OnDisk(s);
    StepSound(s, a, t);
    SameSent(s, t);
    NeverSent(s);
  }

  lemma OnDisk(s: State)
    requires GoodFiles(s)
    ensures s.registration.visible in s.registration.maybe && s.identity.visible in s.identity.maybe
  {
  }

  lemma PowerFailsConsistent(s: State, t: State)
    requires Consistent(s) && Step(s, PowerFails, t) && Harmless(s, t)
    ensures Consistent(t)
  {
    StepSound(s, PowerFails, t);
    SameSent(s, t);
    hide Sound, Repeats, Spent, OneRequest;
  }

  lemma SendConsistent(s: State, a: Action, t: State)
    requires Consistent(s) && a.Send? && Step(s, a, t)
    ensures Consistent(t)
  {
    SendSound(s, a, t);
    assert s.registration == File(Some(s.phase.proof), {Some(s.phase.proof)});
  }

  lemma StepConsistent(s: State, a: Action, t: State)
    requires Consistent(s) && Step(s, a, t) && (a.PowerFails? ==> Harmless(s, t))
    ensures Consistent(t)
  {
    hide Consistent, Step, Harmless;
    match a
    case Load(_, _, _) => LoadConsistent(s, a, t);
    case Send(_) => SendConsistent(s, a, t);
    case Receive(_) => ReceiveConsistent(s, a, t);
    case PowerFails => PowerFailsConsistent(s, t);
    case _ => LocalConsistent(s, a, t);
  }

  /** The power losses among the first `n` steps were harmless. */
  ghost predicate HarmlessLosses(states: seq<State>, actions: seq<Action>, n: nat)
    requires n <= |actions| < |states|
  {
    forall i | 0 <= i < n && actions[i].PowerFails? :: Harmless(states[i], states[i + 1])
  }

  lemma {:induction false} RunConsistent(anchored: bool, states: seq<State>, actions: seq<Action>, n: nat)
    requires Run(anchored, states, actions) && n < |states| && HarmlessLosses(states, actions, n)
    ensures Consistent(states[n])
  {
    hide Consistent, Step, Harmless;
    if n == 0 {
      InitialConsistent(anchored);
    } else {
      RunConsistent(anchored, states, actions, n - 1);
      StepConsistent(states[n - 1], actions[n - 1], states[n]);
    }
  }

  /** One enrollment never changes its secrets: in every run whose power losses are harmless,
      no proof is presented with two replacements, or with a second MAC. */
  lemma SecretsNeverChange(anchored: bool, states: seq<State>, actions: seq<Action>, n: nat)
    requires Run(anchored, states, actions) && n < |states| && HarmlessLosses(states, actions, n)
    ensures OneRequest(states[n])
  {
    RunConsistent(anchored, states, actions, n);
  }

  // ---------------------------------------------------------------- and only harmless losses

  /** After a harmful loss the next request presents a proof with a second replacement. */
  lemma Presents(s: State, t: State) returns (t1: State, t2: State, t3: State, x: Token, call: CallId)
    requires Step(s, PowerFails, t) && !Harmless(s, t)
    ensures Step(t, Load(0, x, x + 1), t1) && Step(t1, SavePrepared(Done), t2) && Step(t2, Send(call), t3)
    ensures !OneRequest(t3)
  {
    var c := t.identity.visible.value;
    var id :| id in s.sent && s.sent[id].proof == c.token;
    x := Unused(t.used + {s.sent[id].replacement});
    call := Unused(t.sent.Keys);
    assert x !in t.used && x + 1 !in t.used && call !in t.sent && x + 1 != s.sent[id].replacement;
    t1, t2, t3 := NextRequest(t, 0, x, call);
    assert t3.sent[call] == Request(c.token, x + 1, c.mac) && t3.sent[id] == s.sent[id];
    hide Step;
  }

  /** The power loss that ends this run is harmless exactly if no way to go on without a
      harmful one changes the secrets. */
  lemma HarmlessIff(anchored: bool, states: seq<State>, actions: seq<Action>)
    requires Run(anchored, states, actions) && actions != [] && actions[|actions| - 1].PowerFails?
    requires HarmlessLosses(states, actions, |actions| - 1)
    ensures Harmless(states[|actions| - 1], states[|actions|]) <==>
      forall later, more | Run(anchored, later, more) && Continues(states, actions, later, more) ::
        OneRequest(later[|more|])
  {
    var n := |actions|;
    var s, t := states[n - 1], states[n];
    hide Step, Harmless, OneRequest;
    if Harmless(s, t) {
      forall later, more | Run(anchored, later, more) && Continues(states, actions, later, more)
        ensures OneRequest(later[|more|])
      {
        ContinuedLosses(states, actions, later, more);
        SecretsNeverChange(anchored, later, more, |more|);
      }
    } else {
      assert Step(s, PowerFails, t);
      var t1, t2, t3, x, call := Presents(s, t);
      var later, more := states + [t1, t2, t3], actions + [Load(0, x, x + 1), SavePrepared(Done), Send(call)];
      assert Run(anchored, later, more) && Continues(states, actions, later, more);
    }
  }

  /** A longer run whose further power losses are harmless. */
  ghost predicate Continues(states: seq<State>, actions: seq<Action>, later: seq<State>, more: seq<Action>) {
    && |states| == |actions| + 1 && |later| == |more| + 1 && states <= later && actions <= more
    && forall i | |actions| <= i < |more| && more[i].PowerFails? :: Harmless(later[i], later[i + 1])
  }

  lemma ContinuedLosses(states: seq<State>, actions: seq<Action>, later: seq<State>, more: seq<Action>)
    requires Continues(states, actions, later, more) && HarmlessLosses(states, actions, |actions|)
    ensures HarmlessLosses(later, more, |more|)
  {
    hide Harmless;
    forall i | 0 <= i < |more| && more[i].PowerFails? ensures Harmless(later[i], later[i + 1]) {
      if i < |actions| {
        assert later[i] == states[i] && later[i + 1] == states[i + 1] && more[i] == actions[i];
      }
    }
  }

  // ---------------------------------------------------------------- one directory or two

  /** No power loss took the registration file and left an identity, as in one directory. */
  ghost predicate NeverApart(states: seq<State>, actions: seq<Action>)
    requires |states| == |actions| + 1
  {
    forall i | 0 <= i < |actions| && actions[i].PowerFails? ::
      PowerLossStep(states[i].registration, states[i + 1].registration) || states[i + 1].identity.visible.None?
  }

  /** The server sees the first request, an operator approves the device, the server grants. */
  lemma FirstGranted(s: State, e: Proof, call: CallId) returns (states: seq<State>, actions: seq<Action>, t: State)
    requires s.phase == Waiting(e, 0, call) && call in s.sent && s.sent[call] == Request(0, 1, 3) && s.server == map[]
    ensures PathBetween(s, t, states, actions) && |actions| == 4 && forall i | 0 <= i < 4 :: !actions[i].PowerFails?
    ensures t == s.(phase := SavingIdentity(e, 9, 1), server := t.server, replies := t.replies)
  {
    var d := Device(9, Pending, Registration(0));
    var s1 := s.(server := map[3 := d], replies := s.replies + {(call, PendingReply(9, Some(0)))});
    var s2 := s1.(server := s1.server[3 := d.(approval := Approved)]);
    var s3 := s2.(server := s2.server[3 := Device(9, Approved, Runtime(1))],
                  replies := s1.replies + {(call, Exchanged(9, 1))});
    t := s3.(phase := SavingIdentity(e, 9, 1));
    states := [s, s1, s2, s3, t];
    actions := [ServerHandles(call, 9), Review(3, Approved), ServerHandles(call, 9), Receive(Exchanged(9, 1))];
    assert Step(s, actions[0], s1);
    assert Step(s1, actions[1], s2);
    assert Step(s2, actions[2], s3);
    assert Step(s3, actions[3], t);
    hide Step;
  }

  lemma FirstStored(s: State, e: Proof) returns (states: seq<State>, actions: seq<Action>, t: State)
    requires s.phase == SavingIdentity(e, 9, 1) && e.mac == 3 && s.identity == File(None, {None})
    ensures PathBetween(s, t, states, actions) && |actions| == 2 && forall i | 0 <= i < 2 :: !actions[i].PowerFails?
    ensures var c := Credentials(9, 1, 3);
      t == s.(phase := Stopped, registration := File(None, {None}), identity := File(Some(c), {Some(c)}))
  {
    var c := Credentials(9, 1, 3);
    var s1 := s.(phase := RemovingProof, identity := File(Some(c), {Some(c)}));
    t := s1.(phase := Stopped, registration := File(None, {None}));
    states, actions := [s, s1, t], [SaveIdentity(Done), RemoveProof(Done)];
    assert Step(s, actions[0], s1) && Step(s1, actions[1], t);
  }

  lemma RegistrationGoes(s: State, t: State)
    requires !s.anchored && s.identity.visible.Some? && s.identity.maybe == {s.identity.visible}
    requires t == s.(phase := Stopped, registration := File(None, {None}))
    ensures Step(s, PowerFails, t)
  {
    assert PowerLossStep(s.identity, s.identity);
  }

  lemma Joined(s: State, t: State, u: State, first: seq<State>, xs: seq<Action>, second: seq<State>, ys: seq<Action>)
    returns (states: seq<State>)
    requires PathBetween(s, t, first, xs) && PathBetween(t, u, second, ys)
    ensures PathBetween(s, u, states, xs + ys)
  {
    hide Step;
    states := first + second[1..];
    var actions := xs + ys;
    forall i | 0 <= i < |actions| ensures Step(states[i], actions[i], states[i + 1]) {
      if i < |xs| {
        assert Step(first[i], xs[i], first[i + 1]);
      } else {
        assert Step(second[i - |xs|], ys[i - |xs|], second[i - |xs| + 1]);
      }
    }
  }

  lemma Requested(s: State, x: Token, call: CallId) returns (states: seq<State>, actions: seq<Action>, t: State)
    requires s.phase.Stopped? && x !in s.used && x + 1 !in s.used && call !in s.sent
    ensures PathBetween(s, t, states, actions) && |actions| == 3 && forall i | 0 <= i < 3 :: !actions[i].PowerFails?
    ensures var e := Loaded(s, 3, x, x + 1);
      && t.phase == Waiting(e, 0, call) && t.sent == s.sent[call := Request(e.token, e.replacement.value, e.mac)]
      && t.used == s.used + {x, x + 1} && t.registration == File(Some(e), {Some(e)})
      && t.server == s.server && t.identity == s.identity && t.anchored == s.anchored
  {
    hide Step;
    var s1, s2, s3 := NextRequest(s, 3, x, call);
    t, states, actions := s3, [s, s1, s2, s3], [Load(3, x, x + 1), SavePrepared(Done), Send(call)];
  }

  /** The failing run: the device is enrolled and sends a request to rotate its token, a power
      loss takes the directory of the registration file alone, and the device starts over from
      its identity with another replacement. */
  lemma SecretsReplaced() returns (states: seq<State>, actions: seq<Action>)
    ensures Run(false, states, actions) && |actions| == 16 && !OneRequest(states[16])
    ensures forall i | 0 <= i < 16 && i != 12 :: !actions[i].PowerFails?
  {
    hide Step, PathBetween;
    var s0, e := Initial(false), Proof(None, 0, Some(1), 3);
    var w0, a0, s3 := Requested(s0, 0, 7);
    var w1, a1, s7 := FirstGranted(s3, e, 7);
    var w2, a2, s9 := FirstStored(s7, e);
    var w3, a3, s12 := Requested(s9, 2, 8);
    var s13 := s12.(phase := Stopped, registration := File(None, {None}));
    var w5, a5, s16 := Requested(s13, 4, 9);
    states := Joined(s0, s3, s7, w0, a0, w1, a1);
    states := Joined(s0, s7, s9, states, a0 + a1, w2, a2);
    states := Joined(s0, s9, s12, states, a0 + a1 + a2, w3, a3);
    RegistrationGoes(s12, s13);
    PathOn(s0, s12, states, a0 + a1 + a2 + a3, PowerFails, s13);
    states := states + [s13];
    states := Joined(s0, s13, s16, states, a0 + a1 + a2 + a3 + [PowerFails], w5, a5);
    actions := a0 + a1 + a2 + a3 + [PowerFails] + a5;
    RunFrom(s0, s16, states, actions);
    assert s16.sent[8] == Request(1, 3, 3) && s16.sent[9] == Request(1, 5, 3);
  }

  lemma RunFrom(s: State, t: State, states: seq<State>, actions: seq<Action>)
    requires PathBetween(s, t, states, actions) && s == Initial(s.anchored)
    ensures Run(s.anchored, states, actions) && states[|actions|] == t
  {
  }

  /** The secrets of enrollments are kept in every run exactly if the directory is durable or
      the two files are never lost apart. */
  lemma SecretsIff(anchored: bool, together: bool)
    ensures (forall states, actions, n: nat |
               Run(anchored, states, actions) && n < |states| && (together ==> NeverApart(states, actions)) ::
               OneRequest(states[n]))
       <==> anchored || together
  {
    if anchored || together {
      forall states, actions, n: nat |
        Run(anchored, states, actions) && n < |states| && (together ==> NeverApart(states, actions))
        ensures OneRequest(states[n])
      {
        if anchored { AnchoredStays(states, actions, n); }
        SecretsNeverChange(anchored, states, actions, n);
      }
    } else {
      var states, actions := SecretsReplaced();
      assert Run(anchored, states, actions) && 16 < |states| && !OneRequest(states[16]);
    }
  }
}
