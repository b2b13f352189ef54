/** The `register` command itself, run over the crash-safe store, a network that loses,
    delays and repeats requests, and the server.

    The registration file and the identity file are records of two directories, or, as
    installed, of one: a save of either may then settle the other.

    `world` is the protocol state that the fields show.  Every method keeps it in step
    with them and on a path of the protocol, so whatever is proved of all protocol
    runs holds of all executions of this code, also after a power loss that took a
    directory. */
module Register {
  import opened AtomicFile
  import opened Enrollment
  import opened EveryRun
  import opened Progress
  import opened Secrets
  import opened Wrappers

  const PROOF: Name := 0
  const IDENTITY: Name := 1

  /** How the file system treats one save: the fate of each of its calls. */
  type Plan = nat -> Outcome

  /** What either file holds. */
  datatype Record = ProofRecord(proof: Proof) | CredentialsRecord(credentials: Credentials)

  /** LoadEnrollment; credentials read as a proof without a replacement. */
  function AsProof(r: Record): Proof {
    match r
    case ProofRecord(e) => e
    case CredentialsRecord(c) => Proof(Some(c.uuid), c.token, None, c.mac)
  }

  /** Load; only credentials are ever saved as an identity. */
  function AsCredentials(r: Record): Credentials {
    match r
    case ProofRecord(e) => Credentials(e.uuid.GetOr(0), e.token, e.mac)
    case CredentialsRecord(c) => c
  }

  /** No file-system call fails and nobody kills the process. */
  ghost predicate Undisturbed(killed: nat -> bool, plans: nat -> Plan) {
    (forall k :: !killed(k)) && forall k :: Smooth(plans(k))
  }

  lemma UndisturbedAt(killed: nat -> bool, plans: nat -> Plan, i: nat)
    requires Undisturbed(killed, plans)
    ensures !killed(2 * i) && !killed(2 * i + 1) && Smooth(plans(i))
  {
  }

  predicate Grants(answer: Option<Reply>) {
    answer.Some? && answer.value.Exchanged?
  }

  predicate FromNetwork(answer: Option<Reply>, delivery: Delivery) {
    answer.Some? ==> delivery == Offered(answer.value) || delivery.Answered?
  }

  lemma NoReply(delivery: Delivery)
    ensures FromNetwork(None, delivery)
  {
  }

  /** What the network handed back to each attempt: a grant is the last of them. */
  ghost predicate Answers(answers: seq<Option<Reply>>, network: nat -> Delivery) {
    && |answers| <= MAX_RETRIES
    && (forall i: nat | i < |answers| :: FromNetwork(answers[i], network(i)))
    && (forall i: nat | i + 1 < |answers| :: !Grants(answers[i]))
  }

  ghost predicate Granted(answers: seq<Option<Reply>>) {
    answers != [] && Grants(answers[|answers| - 1])
  }

  lemma NoAnswers(network: nat -> Delivery)
    ensures Answers([], network) && !Granted([])
  {
  }

  lemma OneAnswer(answers: seq<Option<Reply>>, network: nat -> Delivery, reply: Option<Reply>)
    requires Answers(answers, network) && !Granted(answers) && |answers| < MAX_RETRIES
    requires FromNetwork(reply, network(|answers|))
    ensures Answers(answers + [reply], network) && Granted(answers + [reply]) == Grants(reply)
  {
  }

  /** Requests are only added, and every new one carries `mac`. */
  ghost predicate SentAs(before: map<CallId, Request>, after: map<CallId, Request>, mac: Mac) {
    && (forall id | id in before :: id in after && after[id] == before[id])
    && (forall id | id in after && id !in before :: after[id].mac == mac)
  }

  lemma SentOn(before: map<CallId, Request>, between: map<CallId, Request>, after: map<CallId, Request>, mac: Mac)
    requires SentAs(before, between, mac) && SentAs(between, after, mac)
    ensures SentAs(before, after, mac)
  {
  }

  lemma NothingSent(sent: map<CallId, Request>, mac: Mac)
    ensures SentAs(sent, sent, mac)
  {
  }

  /** The invariant that a power loss may end, if it takes a directory, and that of the secrets. */
  ghost predicate Carries(s: State, t: State) {
    (Inv(s) ==> Inv(t)) && (Consistent(s) ==> Consistent(t))
  }

  class Device {
    const proofs: Directory<Record>
    const identities: Directory<Record>
    var sent: map<CallId, Request>
    var replies: set<(CallId, Reply)>
    var server: Server
    /** Every token that was ever generated. */
    var used: set<Token>
    ghost const origin: State
    ghost var world: State

    /** The two files as the directories hold them. */
    ghost predicate Show(registration: File<Proof>, identity: File<Credentials>, anchored: bool)
      reads proofs, identities
    {
      && PROOF in proofs.reserved && IDENTITY in identities.reserved
      && proofs.disk.Valid() && proofs.disk.Clean(PROOF)
      && identities.disk.Valid() && identities.disk.Clean(IDENTITY)
      && Image(proofs.disk.View(PROOF), AsProof) == registration
      && Image(identities.disk.View(IDENTITY), AsCredentials) == identity
      && anchored == (proofs.disk.folder.Durable? && identities.disk.folder.Durable?)
    }

    ghost predicate Tied()
      reads this, proofs, identities
    {
      && Show(world.registration, world.identity, world.anchored)
      && sent == world.sent && replies == world.replies && server == world.server && used == world.used
      && Leads(origin, world) && origin == Initial(origin.anchored)
    }

    ghost predicate Valid()
      reads this, proofs, identities
    {
      Tied() && Sound(world)
    }

    constructor (proofs: Directory<Record>, identities: Directory<Record>, ghost start: State)
      ensures this.proofs == proofs && this.identities == identities
      ensures sent == map[] && replies == {} && server == map[] && used == {} && origin == world == start
    {
      this.proofs, this.identities := proofs, identities;
      sent, replies, server, used := map[], {}, map[], {};
      origin, world := start, start;
    }

    /** Records one protocol step that the fields have just made. */
    ghost method Note(a: Action, t: State)
      requires Leads(origin, world) && Step(world, a, t)
      modifies this`world
      ensures world == t && Leads(origin, world)
      ensures old(Sound(world)) ==> Sound(world)
      ensures !a.PowerFails? ==> Carries(old(world), world)
      ensures (a.PowerFails? ==> Kept(old(world), t)) && old(Inv(world)) ==> Inv(world)
      ensures (a.PowerFails? ==> Harmless(old(world), t)) && old(Consistent(world)) ==> Consistent(world)
    {
      hide Inv, Leads, Step, Kept, Sound, Consistent, Harmless;
      LeadsOn(origin, world, a, t);
      if Sound(world) { StepSound(world, a, t); }
      if Consistent(world) && (a.PowerFails? ==> Harmless(world, t)) { StepConsistent(world, a, t); }
      world := t;
    }

    // -------------------------------------------------------------- files

    /** A save of the registration file, and what it may do to the identity file. */
    method SaveEnrollment(e: Proof, plan: Plan)
      returns (outcome: Outcome, ghost registration: File<Proof>, ghost identity: File<Credentials>)
      requires Show(world.registration, world.identity, world.anchored)
      modifies proofs`disk
      ensures Show(registration, identity, world.anchored)
      ensures SaveStep(world.registration, e, outcome, registration) && Aside(world.identity, identity)
      ensures (Smooth(plan) ==> outcome.Done?) && (outcome.Crashed? ==> exists k :: plan(k).Crashed?)
      ensures outcome.Done? || !old(proofs.disk.folder).Missing? ==> !proofs.disk.folder.Missing?
    {
      ghost var was := proofs.disk;
      outcome := proofs.Write(PROOF, ProofRecord(e), plan);
      ImageSave(was.View(PROOF), ProofRecord(e), outcome, proofs.disk.View(PROOF), AsProof);
      if identities == proofs {
        ImageBeside(was, proofs.disk, IDENTITY, AsCredentials);
      }
      registration := Image(proofs.disk.View(PROOF), AsProof);
      identity := Image(identities.disk.View(IDENTITY), AsCredentials);
    }

    /** A save of the identity file, and what it may do to the registration file. */
    method SaveCredentials(c: Credentials, plan: Plan)
      returns (outcome: Outcome, ghost registration: File<Proof>, ghost identity: File<Credentials>)
      requires Show(world.registration, world.identity, world.anchored)
      modifies identities`disk
      ensures Show(registration, identity, world.anchored)
      ensures SaveStep(world.identity, c, outcome, identity) && Aside(world.registration, registration)
      ensures (Smooth(plan) ==> outcome.Done?) && (outcome.Crashed? ==> exists k :: plan(k).Crashed?)
      ensures !old(proofs.disk.folder).Missing? ==> !proofs.disk.folder.Missing?
    {
      ghost var was := identities.disk;
      outcome := identities.Write(IDENTITY, CredentialsRecord(c), plan);
      ImageSave(was.View(IDENTITY), CredentialsRecord(c), outcome, identities.disk.View(IDENTITY), AsCredentials);
      if identities == proofs {
        ImageBeside(was, identities.disk, PROOF, AsProof);
      }
      registration := Image(proofs.disk.View(PROOF), AsProof);
      identity := Image(identities.disk.View(IDENTITY), AsCredentials);
    }

    method RemoveEnrollment(plan: Plan)
      returns (outcome: Outcome, ghost registration: File<Proof>, ghost identity: File<Credentials>)
      requires Show(world.registration, world.identity, world.anchored)
      modifies proofs`disk
      ensures Show(registration, identity, world.anchored)
      ensures RemoveStep(world.registration, outcome, registration) && Aside(world.identity, identity)
      ensures Smooth(plan) && !old(proofs.disk.folder).Missing? ==> outcome.Done?
    {
      hide RemoveStep, Image, Beside, Disk.Valid, Disk.Clean, Disk.View;
      ghost var was := proofs.disk;
      outcome := proofs.Remove(PROOF, plan);
      ImageRemove(was.View(PROOF), outcome, proofs.disk.View(PROOF), AsProof);
      if identities == proofs {
        ImageBeside(was, proofs.disk, IDENTITY, AsCredentials);
      }
      registration := Image(proofs.disk.View(PROOF), AsProof);
      identity := Image(identities.disk.View(IDENTITY), AsCredentials);
    }

    // -------------------------------------------------------------- the outside world

    method ServerHandlesRequest(call: CallId, newId: Uuid) returns (reply: Reply)
      requires Valid() && call in sent
      modifies this`server, this`replies, this`world
      ensures Valid()
      ensures Carries(old(world), world)
      ensures world == old(world).(server := world.server, replies := world.replies)
      ensures (server, reply) == Serve(old(server), sent[call], newId) && (call, reply) in replies
      ensures old(replies) <= replies
    {
      hide Inv, Sound, Consistent, Leads, Serve, Show;
      var (after, made) := Serve(server, sent[call], newId);
      server, reply := after, made;
      replies := replies + {(call, reply)};
      Note(ServerHandles(call, newId), world.(server := server, replies := replies));
    }

    method OperatorReviews(mac: Mac, verdict: Approval)
      requires Valid() && mac in server && server[mac].approval.Pending?
      modifies this`server, this`world
      ensures Valid()
      ensures Carries(old(world), world)
      ensures world == old(world).(server := world.server)
      ensures server == old(server)[mac := old(server)[mac].(approval := verdict)]
    {
      hide Inv, Sound, Consistent, Leads, Show;
      server := server[mac := server[mac].(approval := verdict)];
      Note(Review(mac, verdict), world.(server := server));
    }

    /** One event: the server handles a past request, or an operator reviews the device. */
    method Happens(event: Action)
      requires Valid()
      modifies this`server, this`replies, this`world
      ensures Valid()
      ensures Carries(old(world), world)
      ensures world == old(world).(server := world.server, replies := world.replies)
      ensures forall mac :: Goes(old(server), server, [event], mac)
    {
      hide Inv, Sound, Consistent, Leads, Serve, Show, Goes;
      match event {
        case ServerHandles(call, newId) =>
          if call in sent {
            assert [event][0] == event && forall mac :: Review(mac, Approved) !in [event];
            ServeGoes(server, sent[call], newId, [event]);
            var reply := ServerHandlesRequest(call, newId);
            return;
          }
        case Review(mac, verdict) =>
          if mac in server && server[mac].approval.Pending? {
            ReviewGoes(server, mac, verdict);
            OperatorReviews(mac, verdict);
            return;
          }
        case _ =>
      }
      OtherGoes(server, event);
    }

    /** Between two steps of the process the server may handle any past requests and
        operators may review the device; or the process is killed. */
    method Elapse(events: seq<Action>, killed: bool) returns (alive: bool)
      requires Valid()
      modifies this`server, this`replies, this`world
      ensures Valid() && alive == !killed
      ensures Carries(old(world), world)
      ensures world == old(world).(server := world.server, replies := world.replies,
                                   phase := if alive then old(world).phase else Stopped)
      ensures forall mac :: Goes(old(server), server, events, mac)
    {
      hide Inv, Sound, Consistent, Leads, Serve, Show, Goes;
      GoesNowhere(server);
      assert events[..0] == [];
      for i := 0 to |events|
        invariant Valid() && Carries(old(world), world)
        invariant world == old(world).(server := world.server, replies := world.replies)
        invariant forall mac :: Goes(old(server), server, events[..i], mac)
      {
        ghost var between := server;
        Happens(events[i]);
        GoesOn(old(server), between, server, events[..i], [events[i]]);
        assert events[..i + 1] == events[..i] + [events[i]];
      }
      assert events[..|events|] == events;
      alive := !killed;
      if killed {
        Note(ProcessDies, world.(phase := Stopped));
      }
    }

    // -------------------------------------------------------------- the command

    method NewTokens() returns (a: Token, b: Token)
      ensures a != b && a !in used && b !in used
    {
      ghost var n := Unused(used);
      assert n !in used && n + 1 !in used;
      a :| a !in used;
      b :| b !in used && b != a by { if a == n { assert n + 1 != a; } }
    }

    /** The loading half of prepareRegistration: recovery state, else the runtime
        identity, else new secrets. */
    method LoadRegistration(detected: Mac) returns (e: Proof)
      requires Valid() && world.phase.Stopped?
      modifies this`used, this`world
      ensures Valid() && world.phase == Preparing(e) && e.replacement.Some?
      ensures Carries(old(world), world)
      ensures world == old(world).(phase := world.phase, used := world.used)
      ensures var saved, known := old(world).registration.visible, old(world).identity.visible;
        && e.mac == (if saved.Some? then saved.value.mac else if known.Some? then known.value.mac else detected)
        && e.uuid == (if saved.Some? then saved.value.uuid else if known.Some? then Some(known.value.uuid) else None)
        && (saved.Some? ==> e.token == saved.value.token)
        && (saved.None? && known.Some? ==> e.token == known.value.token)
        && (saved.None? && known.None? ==> e.token !in old(used) && e.replacement != Some(e.token))
        && (saved.Some? && saved.value.replacement.Some? ==> e.replacement == saved.value.replacement)
        && (saved.None? || saved.value.replacement.None? ==> e.replacement.value !in old(used))
    {
      hide Inv, Sound, Consistent, Leads;
      var saved := proofs.Load(PROOF);
      var credentials := identities.Load(IDENTITY);
      var proof, replacement := NewTokens();
      if saved.Some? {
        e := AsProof(saved.value);
      } else if credentials.Some? {
        var c := AsCredentials(credentials.value);
        e := Proof(Some(c.uuid), c.token, None, c.mac);
      } else {
        e := Proof(None, proof, None, detected);
      }
      if e.replacement.None? {
        e := e.(replacement := Some(replacement));
      }
      assert e == Loaded(world, detected, proof, replacement);
      used := used + {proof, replacement};
      Note(Load(detected, proof, replacement), world.(phase := Preparing(e), used := used));
    }

    /** The saving half: nothing is sent before the secrets are durable. */
    method SavePreparation(e: Proof, plan: Plan) returns (ok: bool)
      requires Valid() && world.phase == Preparing(e) && e.replacement.Some?
      modifies proofs`disk, this`world
      ensures Valid() && world.phase == (if ok then Sending(e, 0) else Stopped)
      ensures Carries(old(world), world)
      ensures (Smooth(plan) ==> ok) && (ok ==> !proofs.disk.folder.Missing?)
      ensures ok ==> world.registration == File(Some(e), {Some(e)})
      ensures world.identity.visible == old(world).identity.visible
    {
      hide Inv, Sound, Consistent, Leads, Show, Image;
      var outcome;
      ghost var registration, identity;
      outcome, registration, identity := SaveEnrollment(e, plan);
      ok := outcome.Done?;
      Note(SavePrepared(outcome), (if ok
        then world.(phase := Sending(e, 0), chain := Extend(world.chain, e),
                    home := if world.chain == [] then e.mac else world.home)
        else world.(phase := Stopped)).(registration := registration, identity := identity));
    }

    /** The server handles the request that the process waits for. */
    method Respond(e: Proof, attempt: nat, call: CallId, newId: Uuid, ghost start: Server, ghost events: seq<Action>)
      returns (reply: Reply)
      requires Valid() && world.phase == Waiting(e, attempt, call) && call in sent && sent[call].mac == e.mac
      requires forall mac :: Goes(start, server, events, mac)
      modifies this`server, this`replies, this`world
      ensures Valid()
      ensures Carries(old(world), world)
      ensures world == old(world).(server := world.server, replies := world.replies) && (call, reply) in replies
      ensures Goes(start, server, events, e.mac) && Status(server, e.mac).Some?
      ensures Inv(old(world)) && Status(start, e.mac) == Some(Approved) ==> reply.Exchanged?
    {
      hide Inv, Sound, Consistent, Leads, Show, Goes, Serve, Status;
      ghost var before := server;
      Stands(start, server, events, e.mac);
      ServeGoes(server, sent[call], newId, []);
      if Inv(world) && Status(server, e.mac) == Some(Approved) { Grantable(world, newId); }
      reply := ServerHandlesRequest(call, newId);
      GoesOn(start, before, server, events, []);
      assert events + [] == events;
    }

    /** One request; `reply` is what the network hands back, if it hands back anything
        that the server ever answered to this very call.  The process may be killed while
        it waits. */
    method Call(e: Proof, attempt: nat, events: seq<Action>, killed: bool, delivery: Delivery)
      returns (alive: bool, reply: Option<Reply>)
      requires Valid() && world.phase == Sending(e, attempt) && e.replacement.Some?
      modifies this`sent, this`server, this`replies, this`world
      ensures Valid() && alive == !killed
      ensures Carries(old(world), world)
      ensures !alive ==> world.phase.Stopped? && reply.None?
      ensures alive && reply.None? ==> world.phase == NextAttempt(e, attempt)
      ensures reply.Some? ==> exists call :: world.phase == AfterReply(Waiting(e, attempt, call), reply.value)
      ensures FromNetwork(reply, delivery)
      ensures SentAs(old(sent), sent, e.mac)
      ensures world.registration == old(world).registration && world.identity == old(world).identity
      ensures Goes(old(server), server, events, e.mac)
      ensures alive && delivery.Answered? ==> reply.Some? && Status(server, e.mac).Some?
      ensures alive && delivery.Answered? && Inv(old(world)) && Status(old(server), e.mac) == Some(Approved) ==>
        Grants(reply)
    {
      hide Inv, Sound, Consistent, Leads, Show, Goes, Serve, Status, AfterReply, NextAttempt;
      var call := SendRequest(e, attempt);
      reply := None;
      alive := Elapse(events, killed);
      if !alive {
        return;
      }
      if delivery.Answered? {
        var now := Respond(e, attempt, call, delivery.newId, old(server), events);
        reply := Some(now);
      } else if delivery.Offered? && (call, delivery.reply) in replies {
        reply := Some(delivery.reply);
      }
      Conclude(e, attempt, call, reply);
    }

    method SendRequest(e: Proof, attempt: nat) returns (call: CallId)
      requires Valid() && world.phase == Sending(e, attempt) && e.replacement.Some?
      modifies this`sent, this`world
      ensures Valid()
      ensures Carries(old(world), world)
      ensures call !in old(sent) && sent == old(sent)[call := Request(e.token, e.replacement.value, e.mac)]
      ensures world == old(world).(phase := world.phase, sent := sent)
      ensures world.phase == Waiting(e, attempt, call)
    {
      hide Inv, Sound, Consistent, Leads, Show;
      ghost var free := Unused(sent.Keys);
      assert free !in sent;
      call :| call !in sent;
      sent := sent[call := Request(e.token, e.replacement.value, e.mac)];
      Note(Send(call), world.(phase := Waiting(e, attempt, call), sent := sent));
    }

    /** The wait ends, with a reply or without. */
    method Conclude(e: Proof, attempt: nat, call: CallId, reply: Option<Reply>)
      requires Valid() && world.phase == Waiting(e, attempt, call) && (reply.Some? ==> (call, reply.value) in replies)
      modifies this`world
      ensures Valid()
      ensures Carries(old(world), world)
      ensures world == old(world).(phase := world.phase)
      ensures world.phase ==
        if reply.Some? then AfterReply(Waiting(e, attempt, call), reply.value) else NextAttempt(e, attempt)
    {
      hide Inv, Sound, Consistent, Leads, Show, AfterReply, NextAttempt;
      if reply.Some? {
        Note(Receive(reply.value), world.(phase := AfterReply(world.phase, reply.value)));
      } else {
        Note(CallFails, world.(phase := NextAttempt(e, attempt)));
      }
    }

    method SaveClaimedProof(e: Proof, attempt: nat, plan: Plan) returns (ok: bool)
      requires Valid() && world.phase == Claiming(e, attempt)
      modifies proofs`disk, this`world
      ensures Valid() && world.phase == (if ok then NextAttempt(e, attempt) else Stopped)
      ensures Carries(old(world), world)
      ensures (Smooth(plan) ==> ok) && (!old(proofs.disk.folder).Missing? ==> !proofs.disk.folder.Missing?)
      ensures e.replacement.Some? && (ok ==> world.registration == File(Some(e), {Some(e)}))
      ensures world.identity.visible == old(world).identity.visible
    {
      hide Inv, Sound, Consistent, Leads, Show, Image;
      ClaimedIsComplete(world);
      var outcome;
      ghost var registration, identity;
      outcome, registration, identity := SaveEnrollment(e, plan);
      ok := outcome.Done?;
      Note(SaveClaim(outcome), world.(phase := if ok then NextAttempt(e, attempt) else Stopped,
                                      registration := registration, identity := identity));
    }

    /** The retry loop of runRegisterWithClient.  The process may be killed while it backs
        off and while it waits for a reply. */
    method RequestCredentials(prepared: Proof, events: nat -> seq<Action>, killed: nat -> bool,
                              network: nat -> Delivery, plans: nat -> Plan)
      returns (granted: Option<Credentials>, e: Proof, ghost answers: seq<Option<Reply>>)
      requires Valid() && world.phase == Sending(prepared, 0) && prepared.replacement.Some?
      modifies this`sent, this`server, this`replies, this`world, proofs`disk
      ensures Valid()
      ensures Carries(old(world), world)
      ensures world.phase ==
        if granted.Some? then SavingIdentity(e, granted.value.uuid, granted.value.token) else Stopped
      ensures granted.Some? ==> granted.value.mac == e.mac
      ensures Answers(answers, network) && granted.Some? == Granted(answers)
      ensures granted.Some? ==>
        answers[|answers| - 1] == Some(Exchanged(granted.value.uuid, granted.value.token)) && e.mac == prepared.mac
      ensures SentAs(old(sent), sent, prepared.mac) && world.identity.visible == old(world).identity.visible
      ensures |answers| <= 8 && (Undisturbed(killed, plans) ==> Granted(answers) || |answers| == 8)
      ensures var mac := prepared.mac;
        Inv(old(world)) && Prospects(Status(old(server), mac), network, events, mac) ==>
          Undisturbed(killed, plans) ==> Granted(answers)
      ensures !old(proofs.disk.folder).Missing? ==> !proofs.disk.folder.Missing?
    {
      hide Inv, Sound, Consistent, Leads, Show, Smooth, Answers, Granted, Goes, Status, Prospects, OnCourse,
           FromNetwork, Undisturbed, SentAs;
      ghost var mac, status := prepared.mac, Status(server, prepared.mac);
      ghost var fair := Inv(world) && Prospects(status, network, events, mac);
      NoAnswers(network);
      NothingSent(sent, mac);
      if fair { AtFirst(server, network, events, mac); }
      e, answers := prepared, [];
      var i := 0;
      while i < MAX_RETRIES
        invariant Valid() && Carries(old(world), world) && i <= MAX_RETRIES && e.replacement.Some? && e.mac == mac
        invariant world.phase == if i < MAX_RETRIES then Sending(e, i) else Stopped
        invariant |answers| == i && Answers(answers, network) && !Granted(answers)
        invariant SentAs(old(sent), sent, mac) && world.identity.visible == old(world).identity.visible
        invariant fair ==> OnCourse(status, network, events, mac, i, Status(server, mac))
        invariant !old(proofs.disk.folder).Missing? ==> !proofs.disk.folder.Missing?
      {
        ghost var start, earlier := server, sent;
        if Undisturbed(killed, plans) { UndisturbedAt(killed, plans, i); }
        var alive, reply;
        ghost var before;
        alive, reply, e, before := Attempt(e, i, events(2 * i), events(2 * i + 1), killed(2 * i), killed(2 * i + 1),
                                           network(i), plans(i));
        OneAnswer(answers, network, reply);
        SentOn(old(sent), earlier, sent, mac);
        answers := answers + [reply];
        if Grants(reply) {
          return Some(Credentials(reply.value.uuid, reply.value.token, e.mac)), e, answers;
        }
        if !alive {
          return None, e, answers;
        }
        if fair { CourseOn(status, network, events, mac, i, start, before, server); }
        i := i + 1;
      }
      granted := None;
      if fair { NotHelped(status, network, events, mac, Status(server, mac)); }
    }

    /** One turn of the loop: the backoff, the request and, for a claimed proof, its save. */
    method Attempt(e: Proof, attempt: nat, backoff: seq<Action>, wait: seq<Action>, killedBefore: bool,
                   killedWaiting: bool, delivery: Delivery, plan: Plan)
      returns (alive: bool, reply: Option<Reply>, next: Proof, ghost before: Server)
      requires Valid() && world.phase == Sending(e, attempt) && e.replacement.Some?
      modifies this`sent, this`server, this`replies, this`world, proofs`disk
      ensures Valid()
      ensures Carries(old(world), world)
      ensures FromNetwork(reply, delivery)
      ensures if reply.Some? && reply.value.PendingReply? && reply.value.registration.Some?
              then
                && next == e.(token := reply.value.registration.value, uuid := Some(reply.value.uuid))
                && (alive ==> world.registration == File(Some(next), {Some(next)}))
              else next == e
      ensures SentAs(old(sent), sent, e.mac) && world.identity.visible == old(world).identity.visible
      ensures world.phase ==
        if Grants(reply) then SavingIdentity(next, reply.value.uuid, reply.value.token)
        else if alive then NextAttempt(next, attempt) else Stopped
      ensures !killedBefore && !killedWaiting && Smooth(plan) ==> alive
      ensures Goes(old(server), before, backoff, e.mac) && (alive ==> Goes(before, server, wait, e.mac))
      ensures alive && delivery.Answered? && !Grants(reply) ==>
        Status(server, e.mac).Some? && (Inv(old(world)) ==> Status(before, e.mac) != Some(Approved))
      ensures !old(proofs.disk.folder).Missing? ==> !proofs.disk.folder.Missing?
    {
      hide Inv, Sound, Consistent, Leads, Show, Smooth, Goes, Status, FromNetwork;
      reply, next := None, e;
      alive := Elapse(backoff, killedBefore);
      before := server;
      if alive {
        alive, reply := Call(e, attempt, wait, killedWaiting, delivery);
        match reply {
          case Some(PendingReply(uuid, Some(token))) =>
            next := e.(token := token, uuid := Some(uuid));
            alive := SaveClaimedProof(next, attempt, plan);
          case _ =>
        }
      } else {
        NoReply(delivery);
      }
    }

    /** Saves the identity; when that fails, keeps the runtime token in the
        registration file for the next run. */
    method StoreIdentity(e: Proof, c: Credentials, plan: Plan, recovery: Plan) returns (ok: bool)
      requires Valid() && world.phase == SavingIdentity(e, c.uuid, c.token) && c.mac == e.mac
      modifies proofs`disk, identities`disk, this`world
      ensures Valid() && world.phase == (if ok then RemovingProof else Stopped)
      ensures Carries(old(world), world)
      ensures (Smooth(plan) ==> ok) && (!old(proofs.disk.folder).Missing? ==> !proofs.disk.folder.Missing?)
      ensures ok ==> world.identity == File(Some(c), {Some(c)})
      ensures !ok && (forall k :: !plan(k).Crashed?) && Smooth(recovery) ==>
        var kept := Proof(Some(c.uuid), c.token, None, c.mac); world.registration == File(Some(kept), {Some(kept)})
      ensures world.identity.visible in {old(world).identity.visible, Some(c)}
    {
      hide Inv, Sound, Consistent, Leads, Show, Image;
      var outcome;
      ghost var registration, identity;
      outcome, registration, identity := SaveCredentials(c, plan);
      ok := outcome.Done?;
      var next := match outcome
                  case Done => RemovingProof
                  case Failed => Recovering(e, c.uuid, c.token)
                  case Crashed => Stopped;
      Note(SaveIdentity(outcome), world.(phase := next, registration := registration, identity := identity));
      if outcome.Failed? {
        KeepRuntimeToken(e, c, recovery);
      }
    }

    method KeepRuntimeToken(e: Proof, c: Credentials, plan: Plan)
      requires Valid() && world.phase == Recovering(e, c.uuid, c.token) && c.mac == e.mac
      modifies proofs`disk, this`world
      ensures Valid() && world.phase.Stopped?
      ensures Carries(old(world), world)
      ensures !old(proofs.disk.folder).Missing? ==> !proofs.disk.folder.Missing?
      ensures Smooth(plan) ==>
        var kept := Proof(Some(c.uuid), c.token, None, c.mac); world.registration == File(Some(kept), {Some(kept)})
      ensures world.identity.visible == old(world).identity.visible
    {
      hide Inv, Sound, Consistent, Leads, Show, Image;
      var outcome;
      ghost var registration, identity;
      outcome, registration, identity := SaveEnrollment(Proof(Some(c.uuid), c.token, None, c.mac), plan);
      Note(SaveRecovery(outcome), world.(phase := Stopped, registration := registration, identity := identity));
    }

    method RemoveRegistrationProof(plan: Plan) returns (ok: bool)
      requires Valid() && world.phase.RemovingProof?
      modifies proofs`disk, this`world
      ensures Valid() && world.phase.Stopped?
      ensures Carries(old(world), world)
      ensures ok ==> world.registration == File(None, {None})
      ensures ok ==> exists c :: world.identity == File(Some(c), {Some(c)}) && IsCurrent(server, c)
      ensures Smooth(plan) && !old(proofs.disk.folder).Missing? ==> ok
      ensures world.identity.visible == old(world).identity.visible
    {
      hide Inv, Sound, Consistent, Leads, Show, Image;
      ghost var c := SavedIsCurrent(world);
      var outcome;
      ghost var registration, identity;
      outcome, registration, identity := RemoveEnrollment(plan);
      ok := outcome.Done?;
      Note(RemoveProof(outcome), world.(phase := Stopped, registration := registration, identity := identity));
    }

    /** The whole command.  Whatever the file system, the network, the server and the
        operator do, and whenever the process is killed, success means the identity file holds
        the server's current token and nothing else can come back while the directory stays.
        Unless a directory was ever lost, the files stay usable, and an undisturbed run to which
        the server grants an exchange succeeds. */
    method RunRegister(detected: Mac, events: nat -> seq<Action>, killed: nat -> bool,
                       network: nat -> Delivery, plans: nat -> Plan)
      returns (ok: bool, ghost answers: seq<Option<Reply>>, ghost mac: Mac)
      requires Valid() && world.phase.Stopped?
      modifies this`sent, this`server, this`replies, this`used, this`world, proofs`disk, identities`disk
      ensures Valid() && world.phase.Stopped?
      ensures Carries(old(world), world)
      ensures Inv(old(world)) ==> Restartable(world) && (world.anchored ==> Recoverable(world))
      ensures Consistent(old(world)) ==> OneRequest(world)
      ensures ok ==> world.registration == File(None, {None})
      ensures mac == match old(world).registration.visible
                     case Some(e) => e.mac
                     case None =>
                       match old(world).identity.visible
                       case Some(c) => c.mac
                       case None => detected
      ensures forall id | id in sent && id !in old(sent) :: sent[id].mac == mac
      ensures forall id | id in old(sent) :: id in sent && sent[id] == old(sent)[id]
      ensures world.identity.visible != old(world).identity.visible ==>
        world.identity.visible.Some? && world.identity.visible.value.mac == mac
      ensures ok ==> Granted(answers) && exists c ::
        && world.identity == File(Some(c), {Some(c)}) && IsCurrent(server, c)
        && c.mac == mac && answers[|answers| - 1] == Some(Exchanged(c.uuid, c.token))
      ensures Answers(answers, network) && |answers| <= 8
      ensures Undisturbed(killed, plans) ==> if Granted(answers) then ok else |answers| == 8
      ensures Inv(old(world)) && Prospects(Status(old(server), mac), network, events, mac) ==>
                Undisturbed(killed, plans) ==> ok
    {
      hide Inv, Sound, Leads, Show, Answers, Granted, Undisturbed, Prospects, Status, OneRequest;
      ok, answers, mac := Enroll(detected, events, killed, network, plans);
      if Inv(world) { InvRestartable(world); }
    }

    method Enroll(detected: Mac, events: nat -> seq<Action>, killed: nat -> bool,
                  network: nat -> Delivery, plans: nat -> Plan)
      returns (ok: bool, ghost answers: seq<Option<Reply>>, ghost mac: Mac)
      requires Valid() && world.phase.Stopped?
      modifies this`sent, this`server, this`replies, this`used, this`world, proofs`disk, identities`disk
      ensures Valid() && world.phase.Stopped?
      ensures Carries(old(world), world)
      ensures ok ==> world.registration == File(None, {None})
      ensures mac == match old(world).registration.visible
                     case Some(e) => e.mac
                     case None =>
                       match old(world).identity.visible
                       case Some(c) => c.mac
                       case None => detected
      ensures forall id | id in sent && id !in old(sent) :: sent[id].mac == mac
      ensures forall id | id in old(sent) :: id in sent && sent[id] == old(sent)[id]
      ensures world.identity.visible != old(world).identity.visible ==>
        world.identity.visible.Some? && world.identity.visible.value.mac == mac
      ensures ok ==> Granted(answers) && exists c ::
        && world.identity == File(Some(c), {Some(c)}) && IsCurrent(server, c)
        && c.mac == mac && answers[|answers| - 1] == Some(Exchanged(c.uuid, c.token))
      ensures Answers(answers, network) && |answers| <= 8
      ensures Undisturbed(killed, plans) ==> if Granted(answers) then ok else |answers| == 8
      ensures Inv(old(world)) && Prospects(Status(old(server), mac), network, events, mac) ==>
                Undisturbed(killed, plans) ==> ok
    {
      hide Inv, Sound, Consistent, Leads, Show, Answers, Granted, Prospects, Status, Goes, Smooth, IsCurrent;
      ghost var start := server;
      var e := LoadRegistration(detected);
      ok, answers, mac := false, [], e.mac;
      NoAnswers(network);
      var alive := Elapse(events(100), killed(100));
      if !alive {
        return;
      }
      if Prospects(Status(start, mac), network, events, mac) {
        StillProspects(start, server, network, events, mac, 100);
      }
      alive := SavePreparation(e, plans(100));
      if !alive {
        return;
      }
      var granted;
      granted, e, answers := RequestCredentials(e, events, killed, network, plans);
      if granted.None? {
        return;
      }
      ok := Finish(e, granted.value, events, killed, plans);
    }

    /** What follows a grant: the identity is saved and the proof removed. */
    method Finish(e: Proof, c: Credentials, events: nat -> seq<Action>, killed: nat -> bool, plans: nat -> Plan)
      returns (ok: bool)
      requires Valid() && world.phase == SavingIdentity(e, c.uuid, c.token) && c.mac == e.mac
      requires !proofs.disk.folder.Missing?
      modifies this`server, this`replies, this`world, proofs`disk, identities`disk
      ensures Valid() && world.phase.Stopped?
      ensures Carries(old(world), world)
      ensures ok ==> world.registration == File(None, {None})
      ensures ok ==> world.identity == File(Some(c), {Some(c)}) && IsCurrent(server, c)
      ensures Undisturbed(killed, plans) ==> ok
      ensures world.identity.visible in {old(world).identity.visible, Some(c)}
    {
      hide Inv, Sound, Consistent, Leads, Show, Goes, Smooth, IsCurrent;
      ok := false;
      var alive := Elapse(events(102), killed(102));
      if !alive {
        return;
      }
      alive := StoreIdentity(e, c, plans(101), plans(102));
      if !alive {
        return;
      }
      alive := Elapse(events(103), killed(103));
      if !alive {
        return;
      }
      ok := RemoveRegistrationProof(plans(103));
    }

    /** The power fails and the machine restarts.  A directory that is not durable may go;
        while both stay, the device is recoverable. */
    method Reboot(proofsStay: bool, proofSurvivor: Name -> Option<Inode>,
                  identitiesStay: bool, identitySurvivor: Name -> Option<Inode>)
      requires Valid() && (proofs == identities ==> proofsStay == identitiesStay)
      requires proofsStay || !proofs.disk.folder.Durable?
      requires identitiesStay || !identities.disk.folder.Durable?
      requires forall n :: proofSurvivor(n) in proofs.disk.Bindings(n)
      requires forall n :: identitySurvivor(n) in identities.disk.Bindings(n)
      modifies proofs`disk, identities`disk, this`world
      ensures Valid() && world.phase.Stopped?
      ensures proofsStay && identitiesStay ==> Carries(old(world), world)
      ensures Inv(old(world)) && proofsStay && identitiesStay ==> Restartable(world)
      ensures Inv(old(world)) && old(world).anchored ==> Inv(world) && Recoverable(world)
      ensures Consistent(old(world)) && (proofs == identities || proofsStay || !identitiesStay) ==> Consistent(world)
    {
      hide Inv, Sound, Consistent, Leads, Restartable, PowerLossStep, Image, Disk.Valid, Disk.Clean, Disk.View;
      ghost var registration := proofs.disk.View(PROOF);
      ghost var identity := identities.disk.View(IDENTITY);
      proofs.PowerLoss(proofsStay, proofSurvivor);
      if identities != proofs {
        identities.PowerLoss(identitiesStay, identitySurvivor);
      }
      ghost var r := proofs.disk.View(PROOF);
      ghost var c := identities.disk.View(IDENTITY);
      ImageEmpty(AsProof);
      ImageEmpty(AsCredentials);
      if proofsStay { ImagePowerLoss(registration, r, AsProof); }
      if identitiesStay { ImagePowerLoss(identity, c, AsCredentials); }
      Note(PowerFails, world.(phase := Stopped, registration := Image(r, AsProof), identity := Image(c, AsCredentials),
                              anchored := proofs.disk.folder.Durable? && identities.disk.folder.Durable?));
      if Inv(world) {
        InvRestartable(world);
      }
    }
  }

  /** A device that was never enrolled. */
  method NewDevice(proofs: Directory<Record>, identities: Directory<Record>) returns (device: Device)
    requires PROOF in proofs.reserved && IDENTITY in identities.reserved
    requires proofs.disk.Valid() && proofs.disk.Clean(PROOF) && proofs.disk.View(PROOF) == File(None, {None})
    requires identities.disk.Valid() && identities.disk.Clean(IDENTITY)
    requires identities.disk.View(IDENTITY) == File(None, {None})
    ensures fresh(device) && device.Valid() && device.proofs == proofs && device.identities == identities
    ensures device.world == Initial(proofs.disk.folder.Durable? && identities.disk.folder.Durable?)
    ensures Inv(device.world) && Consistent(device.world)
  {
    hide Inv, Sound, Consistent, Leads, Image, Disk.Valid, Disk.Clean, Disk.View, AsProof, AsCredentials;
    ghost var start := Initial(proofs.disk.folder.Durable? && identities.disk.folder.Durable?);
    InitialInv(start.anchored);
    InitialSound(start.anchored);
    InitialConsistent(start.anchored);
    LeadsNowhere(start);
    ImageEmpty(AsProof);
    ImageEmpty(AsCredentials);
    device := new Device(proofs, identities, start);
  }
}
