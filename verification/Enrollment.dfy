/** Device enrollment as a protocol over durable files, a lossy network and the server.

    One device: two files (the registration proof and the runtime identity), the
    process that runs `register`, every request ever sent, every reply ever made, and
    the server's devices.  Requests may be lost, delayed past later runs, repeated and
    reordered; the process may die and the power may fail between any two steps. */
module Enrollment {
  import opened AtomicFile
  import opened Wrappers

  type Token = nat
  type Mac = nat
  type Uuid = nat
  type CallId = nat

  const MAX_RETRIES: nat := 8

  /** The registration file. */
  datatype Proof = Proof(uuid: Option<Uuid>, token: Token, replacement: Option<Token>, mac: Mac)

  /** The identity file. */
  datatype Credentials = Credentials(uuid: Uuid, token: Token, mac: Mac)

  // ---------------------------------------------------------------- server

  datatype Approval = Pending | Approved | Rejected

  /** The one token slot of a device: a registration proof until the first exchange, a
      runtime token after it. */
  datatype Slot = Registration(token: Token) | Runtime(token: Token)

  datatype Device = Device(uuid: Uuid, approval: Approval, slot: Slot)

  datatype Request = Request(proof: Token, replacement: Token, mac: Mac)

  datatype Reply =
    | PendingReply(uuid: Uuid, registration: Option<Token>)
    | Exchanged(uuid: Uuid, token: Token)
    | Refused

  type Server = map<Mac, Device>

  /** The server's answer to one registration request; `newId` is the id it would give a
      new device. */
  function Serve(server: Server, q: Request, newId: Uuid): (Server, Reply) {
    if q.mac !in server then
      (server[q.mac := Device(newId, Pending, Registration(q.proof))], PendingReply(newId, Some(q.proof)))
    else
      var d := server[q.mac];
      if d.approval.Approved? && d.slot == Runtime(q.replacement) then
        (server, Exchanged(d.uuid, q.replacement))
      else if d.slot.token != q.proof then
        (server, Refused)
      else if !d.approval.Approved? then
        (server, PendingReply(d.uuid, None))
      else if q.replacement == q.proof then
        (server, Refused)
      else
        (server[q.mac := d.(slot := Runtime(q.replacement))], Exchanged(d.uuid, q.replacement))
  }

  /** A repeated request changes nothing more, and a granted exchange is granted again. */
  lemma ServeIdempotent(server: Server, q: Request, newId: Uuid, otherId: Uuid)
    ensures var (once, reply) := Serve(server, q, newId);
      && Serve(once, q, otherId).0 == once
      && (reply.Exchanged? ==> Serve(once, q, otherId).1 == reply)
  {
  }

  /** The server grants an exchange exactly to an approved device, on its current token or again
      on the replacement it has taken; nothing else changes a device it knows. */
  lemma GrantedIff(server: Server, q: Request, newId: Uuid)
    ensures var (after, reply) := Serve(server, q, newId);
      && (reply.Exchanged? <==>
            && q.mac in server && server[q.mac].approval == Approved
            && (server[q.mac].slot == Runtime(q.replacement)
                || (server[q.mac].slot.token == q.proof && q.proof != q.replacement)))
      && (reply.Exchanged? ==>
            && reply == Exchanged(server[q.mac].uuid, q.replacement)
            && after == server[q.mac := Device(server[q.mac].uuid, Approved, Runtime(q.replacement))])
      && (q.mac in server && !reply.Exchanged? ==> after == server)
      && (q.mac in server && server[q.mac].approval != Approved && server[q.mac].slot.token == q.proof ==>
            reply == PendingReply(server[q.mac].uuid, None))
      && (q.mac !in server ==>
            && reply == PendingReply(newId, Some(q.proof))
            && after == server[q.mac := Device(newId, Pending, Registration(q.proof))])
  {
  }

  // ---------------------------------------------------------------- the system

  /** Where the `register` process is; each constructor names what it does next. */
  datatype Phase =
    | Stopped
    | Preparing(proof: Proof)
    | Sending(proof: Proof, attempt: nat)
    | Waiting(proof: Proof, attempt: nat, call: CallId)
    | Claiming(proof: Proof, attempt: nat)
    | SavingIdentity(proof: Proof, uuid: Uuid, token: Token)
    | Recovering(proof: Proof, uuid: Uuid, token: Token)
    | RemovingProof

  /** `chain` and `home` are history: the tokens of every exchange ever prepared, in
      order, and the MAC they were prepared for.  `used` is every token ever generated.
      `anchored` tells whether the directory of the files survives every power loss. */
  datatype State = State(
    anchored: bool,
    registration: File<Proof>,
    identity: File<Credentials>,
    phase: Phase,
    sent: map<CallId, Request>,
    replies: set<(CallId, Reply)>,
    server: Server,
    used: set<Token>,
    chain: seq<Token>,
    home: Mac)

  function Initial(anchored: bool): State {
    State(anchored, File(None, {None}), File(None, {None}), Stopped, map[], {}, map[], {}, [], 0)
  }

  datatype Action =
    | Load(detected: Mac, proof: Token, replacement: Token)
    | SavePrepared(outcome: Outcome)
    | Send(call: CallId)
    | Receive(reply: Reply)
    | CallFails
    | SaveClaim(outcome: Outcome)
    | SaveIdentity(outcome: Outcome)
    | SaveRecovery(outcome: Outcome)
    | RemoveProof(outcome: Outcome)
    | ProcessDies
    | PowerFails
    | ServerHandles(call: CallId, newId: Uuid)
    | Review(mac: Mac, verdict: Approval)

  /** A save may also settle the other file of its directory. */
  ghost predicate Aside<T>(f: File<T>, g: File<T>) {
    g == f || g == Settled(f)
  }

  function NextAttempt(proof: Proof, attempt: nat): Phase {
    if attempt + 1 < MAX_RETRIES then Sending(proof, attempt + 1) else Stopped
  }

  /** What prepareRegistration loads: recovery state first, then the runtime identity,
      then a new device; missing tokens are generated. */
  function Loaded(s: State, detected: Mac, proof: Token, replacement: Token): Proof {
    var base :=
      if s.registration.visible.Some? then s.registration.visible.value
      else if s.identity.visible.Some? then
        var c := s.identity.visible.value;
        Proof(Some(c.uuid), c.token, None, c.mac)
      else Proof(None, proof, None, detected);
    if base.replacement.Some? then base else base.(replacement := Some(replacement))
  }

  function Extend(chain: seq<Token>, proof: Proof): seq<Token>
    requires proof.replacement.Some?
  {
    if chain == [] then [proof.token, proof.replacement.value]
    else if proof.token == chain[|chain| - 1] then chain + [proof.replacement.value]
    else chain
  }

  function AfterReply(p: Phase, reply: Reply): Phase
    requires p.Waiting?
  {
    match reply
    case Exchanged(uuid, token) => SavingIdentity(p.proof, uuid, token)
    case PendingReply(uuid, Some(token)) => Claiming(p.proof.(token := token, uuid := Some(uuid)), p.attempt)
    case _ => NextAttempt(p.proof, p.attempt)
  }

  ghost predicate Step(s: State, a: Action, t: State) {
    var p := s.phase;
    match a
    case Load(detected, proof, replacement) =>
      && p.Stopped? && proof != replacement && proof !in s.used && replacement !in s.used
      && t == s.(phase := Preparing(Loaded(s, detected, proof, replacement)), used := s.used + {proof, replacement})
    case SavePrepared(outcome) =>
      && p.Preparing? && p.proof.replacement.Some?
      && SaveStep(s.registration, p.proof, outcome, t.registration) && Aside(s.identity, t.identity)
      && t == (if outcome.Done?
               then s.(phase := Sending(p.proof, 0), chain := Extend(s.chain, p.proof),
                       home := if s.chain == [] then p.proof.mac else s.home)
               else s.(phase := Stopped)).(registration := t.registration, identity := t.identity)
    case Send(call) =>
      && p.Sending? && p.proof.replacement.Some? && call !in s.sent
      && t == s.(phase := Waiting(p.proof, p.attempt, call),
                 sent := s.sent[call := Request(p.proof.token, p.proof.replacement.value, p.proof.mac)])
    case Receive(reply) =>
      && p.Waiting? && (p.call, reply) in s.replies
      && t == s.(phase := AfterReply(p, reply))
    case CallFails =>
      && p.Waiting?
      && t == s.(phase := NextAttempt(p.proof, p.attempt))
    case SaveClaim(outcome) =>
      && p.Claiming?
      && SaveStep(s.registration, p.proof, outcome, t.registration) && Aside(s.identity, t.identity)
      && t == s.(phase := if outcome.Done? then NextAttempt(p.proof, p.attempt) else Stopped,
                 registration := t.registration, identity := t.identity)
    case SaveIdentity(outcome) =>
      && p.SavingIdentity?
      && SaveStep(s.identity, Credentials(p.uuid, p.token, p.proof.mac), outcome, t.identity)
      && Aside(s.registration, t.registration)
      && t == s.(phase := match outcome
                          case Done => RemovingProof
                          case Failed => Recovering(p.proof, p.uuid, p.token)
                          case Crashed => Stopped,
                 registration := t.registration, identity := t.identity)
    case SaveRecovery(outcome) =>
      && p.Recovering?
      && SaveStep(s.registration, Proof(Some(p.uuid), p.token, None, p.proof.mac), outcome, t.registration)
      && Aside(s.identity, t.identity)
      && t == s.(phase := Stopped, registration := t.registration, identity := t.identity)
    case RemoveProof(outcome) =>
      && p.RemovingProof?
      && RemoveStep(s.registration, outcome, t.registration) && Aside(s.identity, t.identity)
      && t == s.(phase := Stopped, registration := t.registration, identity := t.identity)
    case ProcessDies =>
      t == s.(phase := Stopped)
    case PowerFails =>
      && LossStep(s.anchored, s.registration, t.registration) && LossStep(s.anchored, s.identity, t.identity)
      && (s.anchored ==> t.anchored)
      && t == s.(anchored := t.anchored, phase := Stopped, registration := t.registration, identity := t.identity)
    case ServerHandles(call, newId) =>
      && call in s.sent
      && var (server, reply) := Serve(s.server, s.sent[call], newId);
         t == s.(server := server, replies := s.replies + {(call, reply)})
    case Review(mac, verdict) =>
      && mac in s.server && s.server[mac].approval.Pending?
      && t == s.(server := s.server[mac := s.server[mac].(approval := verdict)])
  }

  // ---------------------------------------------------------------- the invariant

  function Last(s: State): Token
    requires s.chain != []
  {
    s.chain[|s.chain| - 1]
  }

  /** The server has made the last prepared exchange. */
  predicate Completed(s: State)
    requires s.chain != []
  {
    && s.home in s.server && s.server[s.home].approval.Approved?
    && s.server[s.home].slot == Runtime(Last(s))
  }

  /** The server stands just before the last prepared exchange. */
  predicate Awaiting(s: State)
    requires |s.chain| >= 2
  {
    var proof := s.chain[|s.chain| - 2];
    if |s.chain| == 2 then
      s.home in s.server ==> s.server[s.home].slot == Registration(proof)
    else
      && s.home in s.server && s.server[s.home].approval.Approved?
      && s.server[s.home].slot == Runtime(proof)
  }

  /** The proof of the last prepared exchange. */
  predicate Current(s: State, e: Proof)
    requires |s.chain| >= 2
  {
    e.token == s.chain[|s.chain| - 2] && e.replacement == Some(Last(s)) && e.mac == s.home
  }

  /** The proof of an exchange to follow the last one, never sent so far. */
  predicate Following(s: State, e: Proof)
    requires |s.chain| >= 2
  {
    && Completed(s) && e.token == Last(s) && e.mac == s.home
    && (e.replacement.Some? ==> e.replacement.value !in s.chain)
  }

  predicate Runs(s: State, c: Option<Credentials>)
    requires |s.chain| >= 2
  {
    && Completed(s)
    && c == Some(Credentials(s.server[s.home].uuid, Last(s), s.home))
  }

  ghost predicate GoodRegistration(s: State, o: Option<Proof>)
    requires |s.chain| >= 2
  {
    match o
    case Some(e) => Current(s, e) || Following(s, e)
    case None => forall c | c in s.identity.maybe :: Runs(s, c)
  }

  ghost predicate OnlyCurrent(s: State)
    requires |s.chain| >= 2
  {
    forall o | o in s.registration.maybe :: o.Some? && Current(s, o.value)
  }

  ghost predicate GoodRequest(s: State, q: Request) {
    q.mac == s.home && exists i :: 0 < i < |s.chain| && q.proof == s.chain[i - 1] && q.replacement == s.chain[i]
  }

  ghost predicate GoodReply(s: State, q: Request, r: Reply)
    requires s.chain != []
  {
    match r
    case Exchanged(uuid, token) =>
      && token == q.replacement && (token == Last(s) ==> Completed(s))
      && s.home in s.server && uuid == s.server[s.home].uuid
    case PendingReply(uuid, Some(token)) => token == q.proof
    case _ => true
  }

  ghost predicate GoodPhase(s: State)
    requires |s.chain| >= 2
  {
    match s.phase
    case Stopped => true
    case Preparing(e) => e.replacement.Some? && (Current(s, e) || Following(s, e))
    case Sending(e, _) => Current(s, e) && s.registration.maybe == {Some(e)}
    case Waiting(e, _, call) =>
      && Current(s, e) && s.registration.maybe == {Some(e)}
      && call in s.sent && s.sent[call] == Request(e.token, e.replacement.value, e.mac)
    case Claiming(e, _) => Current(s, e) && OnlyCurrent(s)
    case SavingIdentity(e, uuid, token) =>
      OnlyCurrent(s) && Runs(s, Some(Credentials(uuid, token, e.mac)))
    case Recovering(e, uuid, token) =>
      OnlyCurrent(s) && Runs(s, Some(Credentials(uuid, token, e.mac)))
    case RemovingProof => forall c | c in s.identity.maybe :: Runs(s, c)
  }

  function Tokens(e: Proof): set<Token> {
    {e.token} + if e.replacement.Some? then {e.replacement.value} else {}
  }

  ghost predicate TokensKnown(s: State) {
    && (forall t | t in s.chain :: t in s.used)
    && (forall e | Some(e) in s.registration.maybe :: Tokens(e) <= s.used)
    && (forall c | Some(c) in s.identity.maybe :: c.token in s.used)
    && (s.phase.Preparing? ==> Tokens(s.phase.proof) <= s.used)
    && (forall i, j | 0 <= i < j < |s.chain| :: s.chain[i] != s.chain[j])
  }

  /** Nothing was ever sent. */
  ghost predicate Fresh(s: State) {
    && s.sent == map[] && s.replies == {} && s.server == map[] && s.identity == File(None, {None})
    && (forall e | Some(e) in s.registration.maybe :: e.replacement.Some? && e.replacement.value != e.token)
    && (s.phase.Stopped? || s.phase.Preparing?)
    && (s.phase.Preparing? ==>
      s.phase.proof.replacement.Some? && s.phase.proof.replacement.value != s.phase.proof.token)
  }

  ghost predicate Enrolling(s: State) {
    && |s.chain| >= 2
    && (forall mac | mac in s.server :: mac == s.home)
    && (Awaiting(s) || Completed(s))
    && (forall id | id in s.sent :: GoodRequest(s, s.sent[id]))
    && (forall id, r | (id, r) in s.replies :: id in s.sent && GoodReply(s, s.sent[id], r))
    && (forall o | o in s.registration.maybe :: GoodRegistration(s, o))
    && GoodPhase(s)
  }

  ghost predicate Inv(s: State) {
    && s.registration.visible in s.registration.maybe
    && s.identity.visible in s.identity.maybe
    && TokensKnown(s)
    && if s.chain == [] then Fresh(s) else Enrolling(s)
  }

  lemma InitialInv(anchored: bool)
    ensures Inv(Initial(anchored))
  {
  }

  /** What is left to show when a step touches only the files and the process. */
  lemma LocalStep(s: State, t: State)
    requires Inv(s) && s.chain != []
    requires t == s.(anchored := t.anchored, registration := t.registration, identity := t.identity,
                     phase := t.phase, used := t.used)
    requires t.registration.visible in t.registration.maybe && t.identity.visible in t.identity.maybe
    requires TokensKnown(t) && GoodPhase(t) && forall o | o in t.registration.maybe :: GoodRegistration(t, o)
    ensures Inv(t)
  {
    hide GoodPhase, GoodRegistration, TokensKnown;
    assert forall q: Request :: GoodRequest(s, q) == GoodRequest(t, q);
  }

  lemma SamePhaseFree(s: State, t: State)
    requires |s.chain| >= 2 && t == s.(phase := t.phase)
    ensures forall o | GoodRegistration(s, o) :: GoodRegistration(t, o)
  {
  }

  lemma LoadKeepsInv(s: State, a: Action, t: State)
    requires Inv(s) && a.Load? && Step(s, a, t)
    ensures Inv(t)
  {
    var e := Loaded(s, a.detected, a.proof, a.replacement);
    assert t.phase == Preparing(e);
    if s.chain != [] {
      assert GoodRegistration(s, s.registration.visible);
      assert Current(s, e) || Following(s, e);
      forall o | o in t.registration.maybe ensures GoodRegistration(t, o) {
        assert GoodRegistration(s, o);
      }
      LocalStep(s, t);
    }
  }

  /** Preparing the next exchange moves the chain on, not the server. */
  lemma Advance(s: State, e: Proof, t: State)
    requires Inv(s) && s.chain != [] && s.phase == Preparing(e)
    requires Following(s, e) && e.replacement.Some?
    requires t == s.(chain := s.chain + [e.replacement.value], registration := File(Some(e), {Some(e)}),
                     identity := t.identity, phase := Sending(e, 0)) && Aside(s.identity, t.identity)
    ensures Inv(t)
  {
    assert Awaiting(t) && Current(t, e);
    forall id | id in t.sent ensures GoodRequest(t, t.sent[id]) {
      var i :| 0 < i < |s.chain| && s.sent[id].proof == s.chain[i - 1] && s.sent[id].replacement == s.chain[i];
      assert t.chain[i - 1] == s.chain[i - 1] && t.chain[i] == s.chain[i];
    }
    forall id, r | (id, r) in t.replies ensures id in t.sent && GoodReply(t, t.sent[id], r) {
      assert GoodRequest(s, s.sent[id]);
      assert s.sent[id].replacement in s.chain;
    }
  }

  lemma PrepareStops(s: State, a: Action, t: State)
    requires Inv(s) && s.chain != [] && a.SavePrepared? && !a.outcome.Done? && Step(s, a, t)
    ensures Inv(t)
  {
    forall o | o in t.registration.maybe ensures GoodRegistration(t, o) {
      assert o == Some(s.phase.proof) || GoodRegistration(s, o);
    }
    assert TokensKnown(t) by { hide GoodRegistration, GoodPhase, Enrolling; }
    LocalStep(s, t);
  }

  lemma FirstPrepared(s: State, a: Action, t: State)
    requires Inv(s) && s.chain == [] && a.SavePrepared? && Step(s, a, t)
    ensures Inv(t)
  {
    var e := s.phase.proof;
    assert a.outcome.Done? ==> t.chain == [e.token, e.replacement.value] && Current(t, e);
  }

  /** The same exchange once more. */
  lemma Resend(s: State, e: Proof, t: State)
    requires Inv(s) && s.chain != [] && s.phase == Preparing(e) && Current(s, e)
    requires t == s.(registration := File(Some(e), {Some(e)}), identity := t.identity, phase := Sending(e, 0))
    requires Aside(s.identity, t.identity)
    ensures Inv(t)
  {
    assert Current(t, e) && GoodPhase(t);
    assert TokensKnown(t) by { hide GoodRegistration, GoodPhase, Enrolling; }
    LocalStep(s, t);
  }

  lemma SavePreparedKeepsInv(s: State, a: Action, t: State)
    requires Inv(s) && a.SavePrepared? && Step(s, a, t)
    ensures Inv(t)
  {
    if s.chain == [] {
      FirstPrepared(s, a, t);
    } else if !a.outcome.Done? {
      PrepareStops(s, a, t);
    } else {
      var e := s.phase.proof;
      assert t.registration == File(Some(e), {Some(e)});
      assert Following(s, e) || Current(s, e);
      hide Inv;
      if Following(s, e) {
        Advance(s, e, t);
      } else {
        Resend(s, e, t);
      }
    }
  }

  lemma SendKeepsInv(s: State, a: Action, t: State)
    requires Inv(s) && a.Send? && Step(s, a, t)
    ensures Inv(t)
  {
    var e := s.phase.proof;
    assert s.chain != [] && Current(s, e) && GoodPhase(t);
    SentGrows(s, a.call, t);
    SentAside(s, t);
    assert TokensKnown(t) by { hide GoodRegistration, GoodPhase, Enrolling; }
    hide GoodRequest, GoodRegistration, GoodPhase, TokensKnown, GoodReply, Awaiting, Completed, Current;
  }

  lemma SentGrows(s: State, call: CallId, t: State)
    requires Enrolling(s) && s.phase.Sending? && Current(s, s.phase.proof) && call !in s.sent
    requires var e := s.phase.proof;
      t == s.(phase := t.phase, sent := s.sent[call := Request(e.token, e.replacement.value, e.mac)])
    ensures forall id | id in t.sent :: GoodRequest(t, t.sent[id])
  {
    hide GoodReply, GoodRegistration, GoodPhase, Awaiting, Completed;
    var i := |t.chain| - 1;
    assert t.sent[call].proof == t.chain[i - 1] && t.sent[call].replacement == t.chain[i];
    assert forall q: Request :: GoodRequest(s, q) == GoodRequest(t, q);
  }

  lemma SentAside(s: State, t: State)
    requires Enrolling(s) && t == s.(phase := t.phase, sent := t.sent)
    requires forall id | id in s.sent :: id in t.sent && t.sent[id] == s.sent[id]
    ensures forall id, r | (id, r) in t.replies :: id in t.sent && GoodReply(t, t.sent[id], r)
    ensures forall o | o in t.registration.maybe :: GoodRegistration(t, o)
    ensures Awaiting(t) == Awaiting(s) && Completed(t) == Completed(s)
  {
    hide GoodRequest, GoodPhase;
    assert forall id, r | (id, r) in t.replies :: id in s.sent && GoodReply(s, s.sent[id], r);
    forall o | o in t.registration.maybe ensures GoodRegistration(t, o) { assert GoodRegistration(s, o); }
  }

  lemma ReceiveKeepsInv(s: State, a: Action, t: State)
    requires Inv(s) && a.Receive? && Step(s, a, t)
    ensures Inv(t)
  {
    var p := s.phase;
    assert s.chain != [];
    assert GoodReply(s, s.sent[p.call], a.reply);
    assert GoodPhase(t);
    SamePhaseFree(s, t);
    LocalStep(s, t);
  }

  lemma CallFailsKeepsInv(s: State, t: State)
    requires Inv(s) && Step(s, CallFails, t)
    ensures Inv(t)
  {
    assert s.chain != [] && GoodPhase(t);
    SamePhaseFree(s, t);
    LocalStep(s, t);
  }

  /** A save or removal in the course of an exchange. */
  lemma FileStep(s: State, t: State)
    requires Inv(s) && s.chain != []
    requires t == s.(registration := t.registration, identity := t.identity, phase := t.phase)
    requires t.registration.visible in t.registration.maybe && t.identity.visible in t.identity.maybe
    requires forall e | Some(e) in t.registration.maybe :: Some(e) in s.registration.maybe || Tokens(e) <= s.used
    requires forall c | Some(c) in t.identity.maybe :: Some(c) in s.identity.maybe || c.token in s.used
    requires !t.phase.Preparing? && GoodPhase(t) && forall o | o in t.registration.maybe :: GoodRegistration(t, o)
    ensures Inv(t)
  {
    assert TokensKnown(t) by { hide GoodRegistration, GoodPhase, Enrolling; }
    LocalStep(s, t);
  }

  lemma SaveClaimKeepsInv(s: State, a: Action, t: State)
    requires Inv(s) && a.SaveClaim? && Step(s, a, t)
    ensures Inv(t)
  {
    var e := s.phase.proof;
    assert s.chain != [] && Current(s, e) && OnlyCurrent(s);
    assert forall o | o in t.registration.maybe :: o == Some(e) || o in s.registration.maybe;
    assert OnlyCurrent(t) && GoodPhase(t);
    assert Last(s) in s.used && s.chain[|s.chain| - 2] in s.used;
    FileStep(s, t);
  }

  lemma SaveIdentityKeepsInv(s: State, a: Action, t: State)
    requires Inv(s) && a.SaveIdentity? && Step(s, a, t)
    ensures Inv(t)
  {
    var c := Credentials(s.phase.uuid, s.phase.token, s.phase.proof.mac);
    assert s.chain != [] && OnlyCurrent(s) && Runs(s, Some(c));
    assert forall o | o in t.registration.maybe :: o in s.registration.maybe;
    assert OnlyCurrent(t) && GoodPhase(t);
    assert Last(s) in s.used;
    FileStep(s, t);
  }

  lemma SaveRecoveryKeepsInv(s: State, a: Action, t: State)
    requires Inv(s) && a.SaveRecovery? && Step(s, a, t)
    ensures Inv(t)
  {
    var e := Proof(Some(s.phase.uuid), s.phase.token, None, s.phase.proof.mac);
    assert s.chain != [] && OnlyCurrent(s) && Following(s, e);
    assert forall o | o in t.registration.maybe :: o == Some(e) || o in s.registration.maybe;
    assert Last(s) in s.used;
    FileStep(s, t);
  }

  lemma RemoveProofKeepsInv(s: State, a: Action, t: State)
    requires Inv(s) && a.RemoveProof? && Step(s, a, t)
    ensures Inv(t)
  {
    assert s.chain != [] && GoodPhase(s);
    assert forall c | c in t.identity.maybe :: c in s.identity.maybe;
    forall o | o in t.registration.maybe ensures GoodRegistration(t, o) {
      assert o == None || GoodRegistration(s, o);
    }
    FileStep(s, t);
  }

  lemma ProcessDiesKeepsInv(s: State, t: State)
    requires Inv(s) && Step(s, ProcessDies, t)
    ensures Inv(t)
  {
    if s.chain != [] {
      SamePhaseFree(s, t);
      LocalStep(s, t);
    }
  }

  /** The power failed and the directory stayed. */
  ghost predicate Kept(s: State, t: State) {
    PowerLossStep(s.registration, t.registration) && PowerLossStep(s.identity, t.identity)
  }

  lemma PowerFailsKeepsInv(s: State, t: State)
    requires Inv(s) && Step(s, PowerFails, t) && Kept(s, t)
    ensures Inv(t)
  {
    var r :| r in s.registration.maybe && t.registration == File(r, {r});
    var c :| c in s.identity.maybe && t.identity == File(c, {c});
    if s.chain != [] {
      FallBack(s, r, c, t);
      assert TokensKnown(t) by { hide GoodRegistration, GoodPhase, Enrolling; }
      hide GoodRegistration, TokensKnown, Inv;
      LocalStep(s, t);
    }
  }

  lemma FallBack(s: State, r: Option<Proof>, c: Option<Credentials>, t: State)
    requires Enrolling(s) && r in s.registration.maybe && c in s.identity.maybe
    requires t == s.(anchored := t.anchored, phase := Stopped, registration := File(r, {r}), identity := File(c, {c}))
    ensures GoodRegistration(t, r) && GoodPhase(t)
  {
    assert GoodRegistration(s, r);
  }

  lemma ReviewKeepsInv(s: State, a: Action, t: State)
    requires Inv(s) && a.Review? && Step(s, a, t)
    ensures Inv(t)
  {
    assert s.chain != [];
    assert |s.chain| == 2 && Awaiting(s) && !Completed(s) && Awaiting(t);
  }

  /** Whatever request of the past arrives, the server only ever completes the last
      prepared exchange. */
  lemma ServerMoves(s: State, q: Request, newId: Uuid)
    requires Inv(s) && s.chain != [] && GoodRequest(s, q)
    ensures var (server, r) := Serve(s.server, q, newId);
            var t := s.(server := server);
            && (forall mac | mac in server :: mac == s.home)
            && (Awaiting(t) || Completed(t))
            && (Completed(s) ==> Completed(t))
            && (s.home in s.server ==> s.home in server && server[s.home].uuid == s.server[s.home].uuid)
            && GoodReply(t, q, r)
  {
    var i :| 0 < i < |s.chain| && q.proof == s.chain[i - 1] && q.replacement == s.chain[i];
  }

  lemma ServerKeepsFiles(s: State, t: State)
    requires Inv(s) && s.chain != [] && t == s.(server := t.server) && (Completed(s) ==> Completed(t))
    requires s.home in s.server ==> s.home in t.server && t.server[s.home].uuid == s.server[s.home].uuid
    ensures (forall o | o in t.registration.maybe :: GoodRegistration(t, o)) && GoodPhase(t)
  {
    forall o | o in t.registration.maybe ensures GoodRegistration(t, o) {
      assert GoodRegistration(s, o);
    }
  }

  lemma OldReplies(s: State, t: State)
    requires Inv(s) && s.chain != [] && t == s.(server := t.server) && (Completed(s) ==> Completed(t))
    requires s.home in s.server ==> s.home in t.server && t.server[s.home].uuid == s.server[s.home].uuid
    ensures forall id, r | (id, r) in t.replies :: id in t.sent && GoodReply(t, t.sent[id], r)
  {
    forall id, r | (id, r) in t.replies ensures id in t.sent && GoodReply(t, t.sent[id], r) {
      assert id in s.sent && GoodReply(s, s.sent[id], r);
    }
  }

  /** The server's part of handling a request. */
  lemma ServerMoved(s: State, q: Request, newId: Uuid, t: State)
    requires Inv(s) && s.chain != [] && GoodRequest(s, q) && t == s.(server := Serve(s.server, q, newId).0)
    ensures Inv(t) && GoodReply(t, q, Serve(s.server, q, newId).1)
  {
    ServerMoves(s, q, newId);
    hide Serve;
    ServerKeepsFiles(s, t);
    OldReplies(s, t);
    SameRequests(s, t);
    assert TokensKnown(t) by { hide Enrolling; }
    hide GoodPhase, GoodRegistration, GoodReply, GoodRequest, TokensKnown, Awaiting, Completed;
  }

  /** The reply's part: it joins those that may arrive. */
  lemma ReplyMade(s: State, call: CallId, reply: Reply, t: State)
    requires Inv(s) && s.chain != [] && call in s.sent && GoodReply(s, s.sent[call], reply)
    requires t == s.(replies := s.replies + {(call, reply)})
    ensures Inv(t)
  {
    SameFiles(s, t);
    SameRequests(s, t);
    assert TokensKnown(t) by { hide Enrolling; }
    hide GoodPhase, GoodRegistration, GoodReply, GoodRequest, TokensKnown, Awaiting, Completed;
  }

  lemma ServerHandlesKeepsInv(s: State, a: Action, t: State)
    requires Inv(s) && a.ServerHandles? && Step(s, a, t)
    ensures Inv(t)
  {
    assert s.chain != [] && GoodRequest(s, s.sent[a.call]);
    var q := s.sent[a.call];
    var (server, reply) := Serve(s.server, q, a.newId);
    var u := s.(server := server);
    hide Inv, Serve, GoodRequest, GoodReply;
    ServerMoved(s, q, a.newId, u);
    ReplyMade(u, a.call, reply, t);
  }

  lemma SameRequests(s: State, t: State)
    requires Enrolling(s) && t.sent == s.sent && t.chain == s.chain && t.home == s.home
    ensures forall id | id in t.sent :: GoodRequest(t, t.sent[id])
  {
    forall id | id in t.sent ensures GoodRequest(t, t.sent[id]) {
      assert GoodRequest(s, s.sent[id]);
    }
  }

  lemma SameFiles(s: State, t: State)
    requires |s.chain| >= 2 && t == s.(replies := t.replies)
    ensures GoodPhase(s) == GoodPhase(t) && Awaiting(s) == Awaiting(t) && Completed(s) == Completed(t)
    ensures forall o :: GoodRegistration(s, o) == GoodRegistration(t, o)
    ensures forall q, r :: GoodReply(s, q, r) == GoodReply(t, q, r)
  {
  }

  lemma StepKeepsInv(s: State, a: Action, t: State)
    requires Inv(s) && Step(s, a, t) && (a.PowerFails? ==> Kept(s, t))
    ensures Inv(t)
  {
    hide Inv, Step;
    match a
    case Load(_, _, _) => LoadKeepsInv(s, a, t);
    case SavePrepared(_) => SavePreparedKeepsInv(s, a, t);
    case Send(_) => SendKeepsInv(s, a, t);
    case Receive(_) => ReceiveKeepsInv(s, a, t);
    case CallFails => CallFailsKeepsInv(s, t);
    case SaveClaim(_) => SaveClaimKeepsInv(s, a, t);
    case SaveIdentity(_) => SaveIdentityKeepsInv(s, a, t);
    case SaveRecovery(_) => SaveRecoveryKeepsInv(s, a, t);
    case RemoveProof(_) => RemoveProofKeepsInv(s, a, t);
    case ProcessDies => ProcessDiesKeepsInv(s, t);
    case PowerFails => PowerFailsKeepsInv(s, t);
    case ServerHandles(_, _) => ServerHandlesKeepsInv(s, a, t);
    case Review(_, _) => ReviewKeepsInv(s, a, t);
  }

  // ---------------------------------------------------------------- runs

  ghost predicate Path(states: seq<State>, actions: seq<Action>) {
    && |states| == |actions| + 1
    && forall i | 0 <= i < |actions| :: Step(states[i], actions[i], states[i + 1])
  }

  ghost predicate Run(anchored: bool, states: seq<State>, actions: seq<Action>) {
    Path(states, actions) && states[0] == Initial(anchored)
  }

  /** No power loss among the first `n` steps took the directory of the files. */
  ghost predicate NothingLost(states: seq<State>, actions: seq<Action>, n: nat)
    requires n <= |actions| < |states|
  {
    forall i | 0 <= i < n && actions[i].PowerFails? :: Kept(states[i], states[i + 1])
  }

  lemma {:induction false} RunInv(anchored: bool, states: seq<State>, actions: seq<Action>, n: nat)
    requires Run(anchored, states, actions) && n < |states| && NothingLost(states, actions, n)
    ensures Inv(states[n])
  {
    hide Inv, Step, Kept;
    if n == 0 {
      InitialInv(anchored);
    } else {
      RunInv(anchored, states, actions, n - 1);
      StepKeepsInv(states[n - 1], actions[n - 1], states[n]);
    }
  }

  /** A durable directory is never lost. */
  lemma {:induction false} AnchoredStays(states: seq<State>, actions: seq<Action>, n: nat)
    requires Run(true, states, actions) && n < |states|
    ensures states[n].anchored && NothingLost(states, actions, n)
  {
    if n > 0 {
      AnchoredStays(states, actions, n - 1);
      assert Step(states[n - 1], actions[n - 1], states[n]);
    }
  }

  /** The server takes what `register` would send from this registration file, whatever
      new replacement it generates when the file holds none. */
  ghost predicate Accepts(server: Server, e: Proof, used: set<Token>) {
    forall token, newId | if e.replacement.Some? then token == e.replacement.value else token !in used ::
      !Serve(server, Request(e.token, token, e.mac), newId).1.Refused?
  }

  /** `c` is the identity the server takes at present. */
  predicate IsCurrent(server: Server, c: Credentials) {
    c.mac in server && server[c.mac] == Device(c.uuid, Approved, Runtime(c.token))
  }

  ghost predicate Usable(s: State, registration: Option<Proof>, identity: Option<Credentials>) {
    match registration
    case Some(e) => Accepts(s.server, e, s.used)
    case None =>
      match identity
      case Some(c) => IsCurrent(s.server, c)
      case None => s.server == map[] && s.sent == map[]
  }

  /** What a restart reads is usable, with or without a power loss that leaves the
      directory. */
  ghost predicate Restartable(s: State) {
    && Usable(s, s.registration.visible, s.identity.visible)
    && (forall r, c | r in s.registration.maybe && c in s.identity.maybe :: Usable(s, r, c))
  }

  /** The same for every power loss. */
  ghost predicate Recoverable(s: State) {
    Restartable(s) && (s.anchored || Usable(s, None, None))
  }

  lemma InvRestartable(s: State)
    requires Inv(s)
    ensures Restartable(s)
  {
    forall r, c | r in s.registration.maybe && c in s.identity.maybe ensures Usable(s, r, c) {
      if s.chain != [] {
        assert GoodRegistration(s, r);
      }
    }
  }

  /** Enrollment never strands the device whose files are in a durable directory: in every
      state of every run, whatever a crash, a failed save or the network did, what is on
      disk still gets it in. */
  lemma NeverStranded(states: seq<State>, actions: seq<Action>, n: nat)
    requires Run(true, states, actions) && n < |states|
    ensures Recoverable(states[n])
  {
    AnchoredStays(states, actions, n);
    RunInv(true, states, actions, n);
    InvRestartable(states[n]);
  }

  /** In any other directory the same holds up to the power loss that takes it. */
  lemma StrandedOnlyByLoss(anchored: bool, states: seq<State>, actions: seq<Action>, n: nat)
    requires Run(anchored, states, actions) && n < |states| && NothingLost(states, actions, n)
    ensures Restartable(states[n])
  {
    RunInv(anchored, states, actions, n);
    InvRestartable(states[n]);
  }

  /** The first three steps of a `register`: load, save, send. */
  lemma NextRequest(s: State, mac: Mac, x: Token, call: CallId) returns (t1: State, t2: State, t3: State)
    requires s.phase.Stopped? && x !in s.used && x + 1 !in s.used && call !in s.sent
    ensures Step(s, Load(mac, x, x + 1), t1) && Step(t1, SavePrepared(Done), t2) && Step(t2, Send(call), t3)
    ensures var e := Loaded(s, mac, x, x + 1);
      && t3.phase == Waiting(e, 0, call)
      && t3.sent == s.sent[call := Request(e.token, e.replacement.value, e.mac)]
      && t3 == s.(phase := t3.phase, used := s.used + {x, x + 1}, sent := t3.sent, chain := Extend(s.chain, e),
                  home := t3.home, registration := File(Some(e), {Some(e)}))
  {
    var e := Loaded(s, mac, x, x + 1);
    t1 := s.(phase := Preparing(e), used := s.used + {x, x + 1});
    t2 := t1.(phase := Sending(e, 0), chain := Extend(s.chain, e), home := if s.chain == [] then e.mac else s.home,
              registration := File(Some(e), {Some(e)}));
    t3 := t2.(phase := Waiting(e, 0, call),
              sent := s.sent[call := Request(e.token, e.replacement.value, e.mac)]);
  }

  /** The failing run: the first `register` makes the directory, its request reaches the
      server, and the power loss takes the directory; the next proof is refused. */
  lemma DirectoryLost() returns (states: seq<State>, actions: seq<Action>)
    ensures Run(false, states, actions) && |actions| == 5 && !Recoverable(states[4]) && !Restartable(states[5])
    ensures states[5].registration.visible == None && states[5].identity.visible == None
    ensures forall token, replacement, newId | token !in states[5].used ::
              Serve(states[5].server, Request(token, replacement, 3), newId).1.Refused?
  {
    hide Step;
    var s0 := Initial(false);
    var s1, s2, s3 := NextRequest(s0, 3, 0, 7);
    var d := Device(9, Pending, Registration(0));
    var s4 := s3.(server := map[3 := d], replies := {(7, PendingReply(9, Some(0)))});
    var s5 := s4.(phase := Stopped, registration := File(None, {None}), identity := File(None, {None}));
    states := [s0, s1, s2, s3, s4, s5];
    actions := [Load(3, 0, 1), SavePrepared(Done), Send(7), ServerHandles(7, 9), PowerFails];
    FirstContact(s3, 7, 9, s4);
    DirectoryGoes(s4, s5);
    assert 0 in s5.used;
  }

  lemma FirstContact(s: State, call: CallId, newId: Uuid, t: State)
    requires call in s.sent && s.server == map[] && s.replies == {}
    requires var q := s.sent[call]; t == s.(server := map[q.mac := Device(newId, Pending, Registration(q.proof))],
                                             replies := {(call, PendingReply(newId, Some(q.proof)))})
    ensures Step(s, ServerHandles(call, newId), t)
  {
    assert {} + t.replies == t.replies;
  }

  lemma DirectoryGoes(s: State, t: State)
    requires !s.anchored
    requires t == s.(phase := Stopped, registration := File(None, {None}), identity := File(None, {None}))
    ensures Step(s, PowerFails, t)
  {
  }

  /** Exactly a durable directory makes enrollment safe against every run. */
  lemma SafeIffAnchored(anchored: bool)
    ensures (forall states, actions, n: nat | Run(anchored, states, actions) && n < |states| :: Recoverable(states[n]))
       <==> anchored
  {
    if anchored {
      forall states, actions, n: nat | Run(anchored, states, actions) && n < |states| ensures Recoverable(states[n]) {
        NeverStranded(states, actions, n);
      }
    } else {
      var states, actions := DirectoryLost();
      assert Run(anchored, states, actions) && 4 < |states| && !Recoverable(states[4]);
    }
  }

  /** While no power loss takes the directory, all requests ever sent carry one MAC. */
  lemma OneMac(anchored: bool, states: seq<State>, actions: seq<Action>, n: nat, i: CallId, j: CallId)
    requires Run(anchored, states, actions) && n < |states| && NothingLost(states, actions, n)
    requires i in states[n].sent && j in states[n].sent
    ensures states[n].sent[i].mac == states[n].sent[j].mac
  {
    RunInv(anchored, states, actions, n);
    var s := states[n];
    assert s.chain != [];
    assert GoodRequest(s, s.sent[i]) && GoodRequest(s, s.sent[j]);
  }

  // ---------------------------------------------------------------- progress

  ghost predicate PathBetween(s: State, t: State, states: seq<State>, actions: seq<Action>) {
    Path(states, actions) && states[0] == s && states[|actions|] == t
  }

  ghost predicate Leads(s: State, t: State) {
    exists states, actions :: PathBetween(s, t, states, actions)
  }

  lemma LeadsNowhere(s: State)
    ensures Leads(s, s)
  {
    assert PathBetween(s, s, [s], []);
  }

  lemma PathOn(s: State, t: State, states: seq<State>, actions: seq<Action>, a: Action, u: State)
    requires PathBetween(s, t, states, actions) && Step(t, a, u)
    ensures PathBetween(s, u, states + [u], actions + [a])
  {
    hide Step;
  }

  lemma LeadsOn(s: State, t: State, a: Action, u: State)
    requires Leads(s, t) && Step(t, a, u)
    ensures Leads(s, u)
    ensures Inv(t) && (a.PowerFails? ==> Kept(t, u)) ==> Inv(u)
  {
    hide Inv, Step, Kept;
    if Inv(t) && (a.PowerFails? ==> Kept(t, u)) {
      StepKeepsInv(t, a, u);
    }
    var states, actions :| PathBetween(s, t, states, actions);
    PathOn(s, t, states, actions, a, u);
  }

  /** A step that is neither a start, a death nor a failure. */
  predicate Calm(a: Action) {
    match a
    case Load(_, _, _) | ProcessDies | PowerFails | CallFails => false
    case SavePrepared(o) => o.Done?
    case SaveClaim(o) => o.Done?
    case SaveIdentity(o) => o.Done?
    case SaveRecovery(o) => o.Done?
    case RemoveProof(o) => o.Done?
    case _ => true
  }

  /** From `s` to `t` in the course of one undisturbed `register`. */
  ghost predicate OneRun(s: State, t: State) {
    exists states, actions: seq<Action> ::
      && PathBetween(s, t, states, actions) && actions != [] && actions[0].Load?
      && forall i: nat | 0 < i < |actions| :: Calm(actions[i])
  }

  lemma OneRunOn(s: State, t: State, a: Action, u: State)
    requires OneRun(s, t) && Inv(t) && Step(t, a, u) && Calm(a)
    ensures OneRun(s, u) && Inv(u)
  {
    hide Inv, Step;
    StepKeepsInv(t, a, u);
    var states, actions: seq<Action> :|
      && PathBetween(s, t, states, actions) && actions != [] && actions[0].Load?
      && forall i: nat | 0 < i < |actions| :: Calm(actions[i]);
    PathOn(s, t, states, actions, a, u);
    assert PathBetween(s, u, states + [u], actions + [a]);
  }

  ghost predicate NoneRejected(s: State) {
    forall mac | mac in s.server :: !s.server[mac].approval.Rejected?
  }

  lemma RequestPrepared(s: State) returns (t: State)
    requires Inv(s) && s.phase.Stopped?
    ensures OneRun(s, t) && Inv(t) && t.phase.Waiting? && t.server == s.server
  {
    hide OneRun, Inv;
    var n := Unused(s.used);
    var e := Loaded(s, 0, n, n + 1);
    var t1 := s.(phase := Preparing(e), used := s.used + {n, n + 1});
    Started(s, n, t1);
    var t2 := t1.(phase := Sending(e, 0), chain := Extend(s.chain, e), home := if s.chain == [] then e.mac else s.home,
                  registration := File(Some(e), {Some(e)}));
    OneRunOn(s, t1, SavePrepared(Done), t2);
    var call := Unused(t2.sent.Keys);
    t := t2.(phase := Waiting(e, 0, call), sent := t2.sent[call := Request(e.token, e.replacement.value, e.mac)]);
    OneRunOn(s, t2, Send(call), t);
  }

  lemma Started(s: State, n: nat, t: State)
    requires Inv(s) && Step(s, Load(0, n, n + 1), t)
    ensures OneRun(s, t) && Inv(t)
  {
    hide Inv, Step;
    StepKeepsInv(s, Load(0, n, n + 1), t);
    assert PathBetween(s, t, [s, t], [Load(0, n, n + 1)]);
  }

  lemma WaitsAtHome(s: State)
    requires Inv(s) && s.phase.Waiting?
    ensures s.chain != [] && s.phase.call in s.sent && s.sent[s.phase.call].mac == s.home
    ensures var server := Serve(s.server, s.sent[s.phase.call], 0).0;
      s.home in server && (s.home !in s.server ==> server[s.home].approval == Pending)
  {
    assert s.chain != [] && GoodPhase(s);
  }

  /** The server has seen the device and an operator has approved it. */
  lemma ServerReady(s0: State, s: State) returns (t: State)
    requires OneRun(s0, s) && Inv(s) && s.phase.Waiting? && NoneRejected(s)
    ensures OneRun(s0, t) && Inv(t) && t.phase == s.phase
    ensures t.chain != [] && t.home in t.server && t.server[t.home].approval.Approved?
  {
    hide OneRun, Inv, Serve;
    WaitsAtHome(s);
    t := s;
    var call := s.phase.call;
    if s.home !in s.server {
      var (server, reply) := Serve(s.server, s.sent[call], 0);
      t := s.(server := server, replies := s.replies + {(call, reply)});
      OneRunOn(s0, s, ServerHandles(call, 0), t);
    }
    if t.server[t.home].approval.Pending? {
      var u := t.(server := t.server[t.home := t.server[t.home].(approval := Approved)]);
      OneRunOn(s0, t, Review(t.home, Approved), u);
      t := u;
    }
  }

  lemma ServerGrants(s0: State, s: State) returns (t: State, reply: Reply)
    requires OneRun(s0, s) && Inv(s) && s.phase.Waiting?
    requires s.chain != [] && s.home in s.server && s.server[s.home].approval.Approved?
    ensures OneRun(s0, t) && Inv(t) && t.phase == s.phase
    ensures reply.Exchanged? && (t.phase.call, reply) in t.replies
  {
    hide OneRun;
    assert GoodPhase(s) && (Awaiting(s) || Completed(s));
    var call := s.phase.call;
    reply := Serve(s.server, s.sent[call], 0).1;
    assert reply.Exchanged?;
    t := s.(server := Serve(s.server, s.sent[call], 0).0, replies := s.replies + {(call, reply)});
    OneRunOn(s0, s, ServerHandles(call, 0), t);
  }

  lemma GrantReceived(s: State, reply: Reply, t: State)
    requires Inv(s) && s.phase.Waiting? && reply.Exchanged? && (s.phase.call, reply) in s.replies
    requires Inv(t) && t == s.(phase := SavingIdentity(s.phase.proof, reply.uuid, reply.token))
    ensures IsCurrent(t.server, Credentials(reply.uuid, reply.token, s.phase.proof.mac))
  {
    assert t.chain != [] && GoodPhase(t);
  }

  lemma GrantStored(s0: State, s: State, reply: Reply) returns (t: State)
    requires OneRun(s0, s) && Inv(s) && s.phase.Waiting? && reply.Exchanged? && (s.phase.call, reply) in s.replies
    ensures OneRun(s0, t) && t.phase.Stopped? && t.registration == File(None, {None})
    ensures exists c :: t.identity == File(Some(c), {Some(c)}) && IsCurrent(t.server, c)
  {
    hide OneRun, Inv, IsCurrent;
    var p := s.phase;
    var t4 := s.(phase := SavingIdentity(p.proof, reply.uuid, reply.token));
    OneRunOn(s0, s, Receive(reply), t4);
    GrantReceived(s, reply, t4);
    var c := Credentials(reply.uuid, reply.token, p.proof.mac);
    var t5 := t4.(phase := RemovingProof, identity := File(Some(c), {Some(c)}));
    OneRunOn(s0, t4, SaveIdentity(Done), t5);
    t := t5.(phase := Stopped, registration := File(None, {None}));
    OneRunOn(s0, t5, RemoveProof(Done), t);
  }

  /** No state is a dead end: from wherever a crash left the device, one `register` that
      nothing disturbs can end with the device enrolled, unless an operator has rejected it. */
  lemma CanComplete(s: State) returns (t: State)
    requires Inv(s) && s.phase.Stopped? && NoneRejected(s)
    ensures OneRun(s, t) && t.phase.Stopped? && t.registration == File(None, {None})
    ensures exists c :: t.identity == File(Some(c), {Some(c)}) && IsCurrent(t.server, c)
  {
    hide OneRun, Inv;
    var t1 := RequestPrepared(s);
    var t2 := ServerReady(s, t1);
    var t3, reply := ServerGrants(s, t2);
    t := GrantStored(s, t3, reply);
  }
}
