/** Server-delivered command policies: the handler's copy, the runtime configuration and the
    policy file, through accepted, rejected and rolled-back updates, crashes and restarts. */
module CommandPolicy {
  import opened AtomicFile
  import opened Text
  import opened Wrappers

  type Commands = map<string, string>

  datatype Policy = Policy(version: string, revision: int, commands: Commands)

  // ---------------------------------------------------------------- the commands of a policy

  /** A name and path the client takes; the parser also wants an absolute path. */
  predicate Usable(name: string, path: string, absolute: bool) {
    Trim(name) != "" && Trim(path) != "" && (absolute ==> Trim(path)[0] == '/')
  }

  /** What trimming every name and path may give: when two names trim to the same one,
      either path. */
  ghost predicate Trims(from: Commands, to: Commands) {
    && (forall n | n in from :: Trim(n) in to)
    && (forall k | k in to :: exists n :: n in from && Trim(n) == k && to[k] == Trim(from[n]))
  }

  /** Trims every entry, in no fixed order. */
  method NormalizeCommands(commands: Commands, absolute: bool) returns (r: Option<Commands>)
    ensures r.Some? <==> forall n | n in commands :: Usable(n, commands[n], absolute)
    ensures r.Some? ==> Trims(commands, r.value)
  {
    var pending, normalized: Commands := commands.Keys, map[];
    while pending != {}
      invariant pending <= commands.Keys
      invariant forall n | n in commands && n !in pending :: Usable(n, commands[n], absolute) && Trim(n) in normalized
      invariant forall k | k in normalized ::
        exists n :: n in commands && Trim(n) == k && normalized[k] == Trim(commands[n])
    {
      var name :| name in pending;
      if !Usable(name, commands[name], absolute) {
        return None;
      }
      normalized := normalized[Trim(name) := Trim(commands[name])];
      pending := pending - {name};
    }
    r := Some(normalized);
  }

  /** Commands as the parser leaves them. */
  ghost predicate Tidy(c: Commands) {
    forall n | n in c :: Trim(n) == n && Trim(c[n]) == c[n] && n != "" && c[n] != ""
  }

  /** What trimming gives is tidy. */
  lemma TrimsTidy(from: Commands, to: Commands)
    requires Trims(from, to) && forall n | n in from :: Usable(n, from[n], false)
    ensures Tidy(to)
  {
    hide Trim;
    forall k | k in to ensures Trim(k) == k && Trim(to[k]) == to[k] && k != "" && to[k] != "" {
      var n :| n in from && Trim(n) == k && to[k] == Trim(from[n]);
      TrimTwice(n);
      TrimTwice(from[n]);
      assert Usable(n, from[n], false);
    }
  }

  /** And trimming it again changes nothing. */
  lemma TrimsAgain(from: Commands, to: Commands)
    requires Trims(from, to) && Tidy(from)
    ensures to == from
  {
    hide Trim;
    forall n | n in from ensures n in to {
      assert Trim(n) == n;
    }
    forall k | k in to ensures k in from && to[k] == from[k] {
      var n :| n in from && Trim(n) == k && to[k] == Trim(from[n]);
      assert n == k;
    }
  }

  datatype Request = Malformed | Request(version: string, policyVersion: string, revision: int, commands: Commands)

  method ParseApplyCommandPolicy(payload: Request) returns (r: Option<Policy>)
    ensures Parses(payload, r)
    ensures r.None? <==>
      || payload.Malformed? || (payload.version == "" && payload.policyVersion == "")
      || exists n :: n in payload.commands &&
           (Trim(n) == "" || Trim(payload.commands[n]) == "" || Trim(payload.commands[n])[0] != '/')
    ensures r.Some? ==>
      && r.value.version == (if payload.version != "" then payload.version else payload.policyVersion)
      && r.value.revision == payload.revision
      && (forall n | n in payload.commands :: Trim(n) in r.value.commands)
      && forall k | k in r.value.commands :: k != "" && r.value.commands[k] != "" && r.value.commands[k][0] == '/' &&
           exists n :: n in payload.commands && Trim(n) == k && r.value.commands[k] == Trim(payload.commands[n])
  {
    if payload.Malformed? {
      return None;
    }
    var version := if payload.version == "" then payload.policyVersion else payload.version;
    if version == "" {
      return None;
    }
    var commands := NormalizeCommands(payload.commands, true);
    if commands.None? {
      return None;
    }
    TrimsTidy(payload.commands, commands.value);
    r := Some(Policy(version, payload.revision, commands.value));
  }

  // ---------------------------------------------------------------- the copies in memory

  /** The handler's own copy (no commands before the first policy) and the runtime
      configuration it shares, when there is one. */
  datatype Memory = Memory(version: string, revision: int, commands: Option<Commands>, runtime: Option<Policy>)

  const NO_POLICY := Policy("", 0, map[])

  /** The configuration scripts run with. */
  function Effective(m: Memory): Policy {
    if m.commands.Some? then Policy(m.version, m.revision, m.commands.value) else m.runtime.GetOr(NO_POLICY)
  }

  /** The policy in force, with the runtime configuration filling in what the handler
      does not have. */
  function Previous(m: Memory): Policy {
    var own := Policy(m.version, m.revision, m.commands.GetOr(map[]));
    if m.runtime.None? then own
    else Policy(
      if own.version == "" then m.runtime.value.version else own.version,
      if own.revision == 0 then m.runtime.value.revision else own.revision,
      if own.commands == map[] then m.runtime.value.commands else own.commands)
  }

  datatype Verdict = Stale | Conflict | Already | Fresh

  function Judge(m: Memory, p: Policy): Verdict {
    var previous := Previous(m);
    if 0 < p.revision < previous.revision then Stale
    else if previous.version != "" && p.version == previous.version then
      if p.commands == m.commands.GetOr(map[]) then Already else Conflict
    else Fresh
  }

  /** Memory once `p` is taken: a replay leaves the handler's copy alone. */
  function Taken(m: Memory, p: Policy): Memory {
    var runtime := if m.runtime.Some? then Some(p) else None;
    if Judge(m, p).Already? then m.(runtime := runtime)
    else Memory(p.version, p.revision, Some(p.commands), runtime)
  }

  /** Memory once the save has failed. */
  function RolledBack(m: Memory): Memory {
    var q := Previous(m);
    Memory(q.version, q.revision, Some(q.commands), if m.runtime.Some? then Some(q) else None)
  }

  /** The handler and the runtime configuration hold the same version and commands, once
      the handler holds any. */
  predicate Agree(m: Memory) {
    if m.commands.Some? then
      m.runtime.Some? ==> m.runtime.value.version == m.version && m.runtime.value.commands == m.commands.value
    else m.version == "" && m.revision == 0
  }

  lemma TakenAgrees(m: Memory, p: Policy)
    requires Agree(m) && (Judge(m, p).Already? || Judge(m, p).Fresh?)
    ensures Agree(Taken(m, p))
    ensures var e := Effective(Taken(m, p)); e.version == p.version && e.commands == p.commands
  {
  }

  /** A failed update leaves the effective version and commands as they were; it changes
      the effective revision exactly when the handler has none and the runtime
      configuration has one. */
  lemma RollbackExact(m: Memory)
    requires Agree(m)
    ensures var before, after := Effective(m), Effective(RolledBack(m));
      && Agree(RolledBack(m))
      && after.version == before.version && after.commands == before.commands
      && (after == before <==>
          !(m.commands.Some? && m.revision == 0 && m.runtime.Some? && m.runtime.value.revision != 0))
  {
  }

  // ---------------------------------------------------------------- one update, with its file

  /** What the store writes for `p`. */
  function OnDisk(p: Policy): Policy {
    p.(version := Trim(p.version))
  }

  /** One parsed update against memory `m` and file `f`, when there is a store.  A crash
      leaves memory to the restart. */
  ghost predicate Updates(m: Memory, f: Option<File<Policy>>, p: Policy, outcome: Outcome, n: Memory,
                          g: Option<File<Policy>>) {
    var verdict := Judge(m, p);
    if verdict.Stale? || verdict.Conflict? then outcome.Failed? && n == m && g == f
    else if f.None? then outcome.Done? && n == Taken(m, p) && g == f
    else if Trim(p.version) == "" then outcome.Failed? && n == RolledBack(m) && g == f
    else
      && g.Some? && SaveStep(f.value, OnDisk(p), outcome, g.value)
      && n == if outcome.Failed? then RolledBack(m) else Taken(m, p)
  }

  /** What the parser may make of a request. */
  ghost predicate Parses(payload: Request, p: Option<Policy>) {
    if p.None? then
      || payload.Malformed? || (payload.version == "" && payload.policyVersion == "")
      || exists n :: n in payload.commands && !Usable(n, payload.commands[n], true)
    else
      && payload.Request?
      && p.value.version == (if payload.version == "" then payload.policyVersion else payload.version)
      && p.value.version != "" && p.value.revision == payload.revision
      && Trims(payload.commands, p.value.commands) && Tidy(p.value.commands)
      && forall n | n in payload.commands :: Usable(n, payload.commands[n], true)
  }

  datatype Applied = Refused | Applied(policy: Policy, previous: Policy, already: bool)

  datatype Answer = Failure | Success(already: bool, previousVersion: string)

  const PATH: Name := 0

  class Handler {
    var appliedVersion: string
    var appliedRevision: int
    var appliedCommands: Option<Commands>
    var runtime: Option<Policy>
    const store: Option<Directory<Policy>>

    function Copies(): Memory
      reads this
    {
      Memory(appliedVersion, appliedRevision, appliedCommands, runtime)
    }

    ghost predicate StoreValid()
      reads this, if store.Some? then {store.value} else {}
    {
      store.Some? ==> PATH in store.value.reserved && store.value.disk.Valid() && store.value.disk.Clean(PATH)
    }

    ghost function PolicyFile(): Option<File<Policy>>
      reads this, if store.Some? then {store.value} else {}
      requires StoreValid()
    {
      if store.Some? then Some(store.value.disk.View(PATH)) else None
    }

    /** The polling service's handler starts from the runtime configuration. */
    constructor Preloaded(runtime: Option<Policy>, store: Option<Directory<Policy>>)
      ensures this.store == store && Agree(Copies()) && Effective(Copies()) == runtime.GetOr(NO_POLICY)
      ensures Copies() == match runtime
                          case Some(p) => Memory(p.version, p.revision, Some(p.commands), runtime)
                          case None => Memory("", 0, None, None)
    {
      var p := runtime.GetOr(NO_POLICY);
      appliedVersion, appliedRevision := p.version, p.revision;
      appliedCommands := if runtime.Some? then Some(p.commands) else None;
      this.runtime, this.store := runtime, store;
    }

    /** Other callers only share the runtime configuration. */
    constructor Shared(runtime: Option<Policy>)
      ensures store == None && this.runtime == runtime && Agree(Copies())
      ensures Effective(Copies()) == runtime.GetOr(NO_POLICY)
    {
      appliedVersion, appliedRevision, appliedCommands := "", 0, None;
      this.runtime, store := runtime, None;
    }

    /** What scripts run with. */
    method CommandRuntimeConfig() returns (p: Policy)
      ensures p == Effective(Copies())
    {
      p := runtime.GetOr(NO_POLICY);
      if appliedCommands.Some? {
        p := Policy(appliedVersion, appliedRevision, appliedCommands.value);
      }
    }

    method ApplyPolicy(p: Policy) returns (r: Applied)
      modifies this`appliedVersion, this`appliedRevision, this`appliedCommands
      ensures var verdict := Judge(old(Copies()), p);
        if verdict.Stale? || verdict.Conflict? then r == Refused && Copies() == old(Copies())
        else
          && r == Applied(p, Previous(old(Copies())), verdict.Already?)
          && Copies() == Taken(old(Copies()), p).(runtime := runtime)
      ensures var version := if old(appliedVersion) == "" && runtime.Some? then runtime.value.version
                             else old(appliedVersion);
        var revision := if old(appliedRevision) == 0 && runtime.Some? then runtime.value.revision
                        else old(appliedRevision);
        r == Refused <==>
          || 0 < p.revision < revision
          || (version != "" && p.version == version && p.commands != old(appliedCommands).GetOr(map[]))
    {
      var version, revision, commands := appliedVersion, appliedRevision, appliedCommands.GetOr(map[]);
      if runtime.Some? {
        if version == "" { version := runtime.value.version; }
        if revision == 0 { revision := runtime.value.revision; }
        if commands == map[] { commands := runtime.value.commands; }
      }
      if p.revision > 0 && revision > 0 && p.revision < revision {
        return Refused;
      }
      var previous := Policy(version, revision, commands);
      if version != "" && p.version == version {
        if p.commands == appliedCommands.GetOr(map[]) {
          return Applied(Policy(p.version, p.revision, appliedCommands.GetOr(map[])), previous, true);
        }
        return Refused;
      }
      appliedVersion, appliedRevision, appliedCommands := p.version, p.revision, Some(p.commands);
      r := Applied(p, previous, false);
    }

    method RestorePreviousPolicy(previous: Policy)
      modifies this
      ensures Copies() == Memory(previous.version, previous.revision, Some(previous.commands),
                                 if old(runtime).Some? then Some(previous) else None)
    {
      appliedVersion, appliedRevision, appliedCommands := previous.version, previous.revision, Some(previous.commands);
      if runtime.Some? {
        runtime := Some(previous);
      }
    }

    /** The store's save: normalise, then replace the file. */
    method Save(p: Policy, plan: nat -> Outcome) returns (outcome: Outcome)
      requires StoreValid() && store.Some? && Tidy(p.commands)
      modifies store.value
      ensures StoreValid()
      ensures if Trim(p.version) == "" then outcome.Failed? && PolicyFile() == old(PolicyFile())
              else SaveStep(old(PolicyFile()).value, OnDisk(p), outcome, PolicyFile().value)
      ensures Trim(p.version) != "" && Smooth(plan) ==>
        outcome.Done? && PolicyFile().value.visible == Some(Policy(Trim(p.version), p.revision, p.commands))
      ensures store.value.disk.folder.Durable? == old(store.value.disk.folder.Durable?)
    {
      if Trim(p.version) == "" {
        return Failed;
      }
      var commands := NormalizeCommands(p.commands, false);
      assert forall n | n in p.commands :: Usable(n, p.commands[n], false);
      TrimsAgain(p.commands, commands.value);
      outcome := store.value.Write(PATH, Policy(Trim(p.version), p.revision, commands.value), plan);
    }

    method ApplyCommandPolicy(payload: Option<Request>, expired: bool, plan: nat -> Outcome)
      returns (answer: Answer, ghost p: Option<Policy>, ghost outcome: Outcome)
      requires StoreValid()
      modifies this, if store.Some? then {store.value} else {}
      ensures StoreValid()
      ensures store.Some? ==> store.value.disk.folder.Durable? == old(store.value.disk.folder.Durable?)
      ensures payload.None? ==> p == None
      ensures payload.Some? ==> Parses(payload.value, p)
      ensures p.None? || expired ==> Copies() == old(Copies()) && PolicyFile() == old(PolicyFile()) && answer == Failure
      ensures p.Some? && !expired ==>
        Updates(old(Copies()), old(PolicyFile()), p.value, outcome, Copies(), PolicyFile())
      ensures p.Some? && !expired ==>
        var verdict, previous := Judge(old(Copies()), p.value), Previous(old(Copies()));
        answer == if outcome.Done? then Success(verdict.Already?, previous.version) else Failure
      ensures p.Some? && !expired ==>
        var version := if old(appliedVersion) == "" && old(runtime).Some? then old(runtime).value.version
                       else old(appliedVersion);
        var revision := if old(appliedRevision) == 0 && old(runtime).Some? then old(runtime).value.revision
                        else old(appliedRevision);
        var replay := version != "" && p.value.version == version;
        if 0 < p.value.revision < revision || (replay && p.value.commands != old(appliedCommands).GetOr(map[])) then
          answer == Failure && Copies() == old(Copies()) && PolicyFile() == old(PolicyFile())
        else store.None? || (Trim(p.value.version) != "" && Smooth(plan)) ==>
          && answer == Success(replay, version)
          && appliedCommands.GetOr(map[]) == p.value.commands && (!replay ==> appliedCommands.Some?)
          && appliedVersion == (if replay then old(appliedVersion) else p.value.version)
          && appliedRevision == (if replay then old(appliedRevision) else p.value.revision)
          && runtime == (if old(runtime).Some? then Some(p.value) else None)
          && (store.Some? ==> PolicyFile().value.visible == Some(p.value.(version := Trim(p.value.version))))
    {
      outcome, p := Failed, None;
      if payload.None? {
        return Failure, p, outcome;
      }
      var policy := ParseApplyCommandPolicy(payload.value);
      p := policy;
      if policy.None? || expired {
        return Failure, p, outcome;
      }
      var applied := ApplyPolicy(policy.value);
      if applied.Refused? {
        return Failure, p, outcome;
      }
      if runtime.Some? {
        runtime := Some(applied.policy);
      }
      if store.Some? {
        var saved := Save(applied.policy, plan);
        outcome := saved;
        if saved.Failed? {
          RestorePreviousPolicy(applied.previous);
        }
        if !saved.Done? {
          return Failure, p, outcome;
        }
      }
      outcome := Done;
      answer := Success(applied.already, applied.previous.version);
    }
  }

  // ---------------------------------------------------------------- whole runs of the service

  /** The service with its store.  `anchored`: no power loss takes the directory.  `saved` is
      what the last successful save or the last load gave; `others` is what else the disk may
      hold: failed and crashed saves since then, and what a reload found not yet durably
      replaced.  `exposed` records a reload that a power loss can undo to an older policy. */
  datatype World = World(
    anchored: bool,
    memory: Memory,
    file: File<Policy>,
    saved: Option<Policy>,
    others: set<Option<Policy>>,
    exposed: bool,
    alive: bool)

  /** A parsed update, or a restart, with or without a power loss. */
  datatype Event = Update(p: Policy, outcome: Outcome) | Restart(config: Commands, power: bool)

  /** The memory of a service that has just loaded `loaded`; without a policy file the
      local configuration applies. */
  function Boot(loaded: Option<Policy>, config: Commands): Memory {
    var p := loaded.GetOr(Policy("", 0, config));
    Memory(p.version, p.revision, Some(p.commands), Some(p))
  }

  /** Starting the service: the policy file if there is one, else the local configuration. */
  method StartService(store: Directory<Policy>, config: Commands) returns (handler: Handler)
    requires store.disk.Valid() && store.disk.Clean(PATH)
    ensures fresh(handler) && handler.store == Some(store)
    ensures handler.Copies() == Boot(store.disk.View(PATH).visible, config)
    ensures match store.disk.View(PATH).visible
            case Some(p) =>
              && handler.appliedVersion == p.version && handler.appliedRevision == p.revision
              && handler.appliedCommands == Some(p.commands) && handler.runtime == Some(p)
            case None =>
              && handler.appliedVersion == "" && handler.appliedRevision == 0
              && handler.appliedCommands == Some(config) && handler.runtime == Some(Policy("", 0, config))
  {
    var loaded := store.Load(PATH);
    handler := new Handler.Preloaded(Some(loaded.GetOr(Policy("", 0, config))), Some(store));
  }

  /** Loading accepts only such a version. */
  predicate Loadable(o: Option<Policy>) {
    o.Some? ==> o.value.version != "" && Trim(o.value.version) == o.value.version
  }

  /** A power loss leaves only one thing to read. */
  ghost predicate IsSettled(f: File<Policy>) {
    f.maybe == {f.visible}
  }

  function Revision(w: World): int {
    Effective(w.memory).revision
  }

  ghost predicate Start(w: World) {
    && w.alive && !w.exposed && w.others == {} && w.file == File(w.saved, {w.saved}) && Loadable(w.saved)
    && exists config :: w.memory == Boot(w.saved, config)
  }

  ghost predicate UpdateStep(w: World, p: Policy, outcome: Outcome, v: World) {
    && w.alive && v.alive == !outcome.Crashed? && v.anchored == w.anchored
    && Updates(w.memory, Some(w.file), p, outcome, if v.alive then v.memory else Taken(w.memory, p), Some(v.file))
    && (v.alive || v.memory == w.memory)
    && v.saved == (if outcome.Done? then Some(OnDisk(p)) else w.saved)
    && v.others == (if outcome.Done? then {} else if v.file == w.file then w.others else w.others + {Some(OnDisk(p))})
    && v.exposed == (w.exposed && !IsSettled(v.file))
  }

  /** A reload exposes the service if it raises the revision while the old policy may still
      be what the disk holds. */
  ghost predicate RestartStep(w: World, config: Commands, power: bool, v: World) {
    && (if power then LossStep(w.anchored, w.file, v.file) else v.file == w.file)
    && (w.anchored ==> v.anchored) && (!power ==> v.anchored == w.anchored)
    && v.memory == Boot(v.file.visible, config) && v.alive && v.saved == v.file.visible
    && v.others == (if power then {} else if v.saved == w.saved then w.others else w.others + {w.saved})
    && v.exposed == (!power && (w.exposed || (!IsSettled(w.file) && Revision(w) < Revision(v))))
  }

  ghost predicate Step(w: World, e: Event, v: World) {
    match e
    case Update(p, outcome) => UpdateStep(w, p, outcome, v)
    case Restart(config, power) => RestartStep(w, config, power, v)
  }

  ghost predicate Run(ws: seq<World>, es: seq<Event>) {
    |ws| == |es| + 1 && Start(ws[0]) && forall i | 0 <= i < |es| :: Step(ws[i], es[i], ws[i + 1])
  }

  /** `q` is what a save of the policy in force would have written, except perhaps its revision. */
  predicate Records(q: Policy, m: Memory) {
    q.version == Trim(Effective(m).version) && q.commands == Effective(m).commands
  }

  ghost predicate Inv(w: World) {
    && Agree(w.memory)
    && (w.saved.Some? ==> w.alive ==> Records(w.saved.value, w.memory))
    && w.file.visible in w.file.maybe
    && (forall o | o in w.file.maybe :: o == w.saved || o in w.others)
    && Loadable(w.saved) && (forall o | o in w.others :: Loadable(o))
  }

  lemma StartInv(w: World)
    requires Start(w)
    ensures Inv(w)
  {
  }

  lemma UpdateKeepsInv(w: World, p: Policy, outcome: Outcome, v: World)
    requires Inv(w) && UpdateStep(w, p, outcome, v)
    ensures Inv(v)
  {
    hide Trim;
    TrimTwice(p.version);
    RollbackExact(w.memory);
    var verdict := Judge(w.memory, p);
    if verdict.Already? || verdict.Fresh? { TakenAgrees(w.memory, p); }
    hide Judge, Taken, RolledBack;
  }

  lemma RestartKeepsInv(w: World, config: Commands, power: bool, v: World)
    requires Inv(w) && RestartStep(w, config, power, v)
    ensures Inv(v)
  {
    hide Trim;
  }

  lemma StepKeepsInv(w: World, e: Event, v: World)
    requires Inv(w) && Step(w, e, v)
    ensures Inv(v)
  {
    hide Inv, UpdateStep, RestartStep;
    match e
    case Update(p, outcome) => UpdateKeepsInv(w, p, outcome, v);
    case Restart(config, power) => RestartKeepsInv(w, config, power, v);
  }

  lemma {:induction false} RunInv(ws: seq<World>, es: seq<Event>, i: nat)
    requires Run(ws, es) && i <= |es|
    ensures Inv(ws[i])
  {
    hide Inv, Step;
    if i == 0 {
      StartInv(ws[0]);
    } else {
      RunInv(ws, es, i - 1);
      StepKeepsInv(ws[i - 1], es[i - 1], ws[i]);
    }
  }

  /** In every run: the handler and the runtime configuration agree; the disk holds nothing
      but the last saved policy and what `others` accounts for; and when nothing else is
      outstanding the file records exactly the policy in force. */
  lemma PolicyAgreement(ws: seq<World>, es: seq<Event>, i: nat)
    requires Run(ws, es) && i <= |es|
    ensures var w := ws[i];
      && Agree(w.memory)
      && (forall o | o in w.file.maybe :: o == w.saved || o in w.others)
      && (w.others == {} ==> w.file == File(w.saved, {w.saved}))
      && (w.alive && w.saved.Some? ==> Records(w.saved.value, w.memory))
  {
    RunInv(ws, es, i);
    var w := ws[i];
    if w.others == {} {
      assert w.file.maybe == {w.saved};
    }
  }

  /** The last policy that an update put in force or a start loaded. */
  function LastApplied(ws: seq<World>, es: seq<Event>, i: nat): Policy
    requires |ws| == |es| + 1 && i <= |es|
  {
    if i == 0 then Effective(ws[0].memory)
    else match es[i - 1]
      case Update(p, Done) => p
      case Update(_, _) => LastApplied(ws, es, i - 1)
      case Restart(config, _) => ws[i].file.visible.GetOr(Policy("", 0, config))
  }

  /** Scripts run with the version and commands of the last policy applied: no refused,
      failed or crashed update shows in the effective configuration. */
  lemma {:induction false} EffectiveIsLastApplied(ws: seq<World>, es: seq<Event>, i: nat)
    requires Run(ws, es) && i <= |es|
    ensures var e, p := Effective(ws[i].memory), LastApplied(ws, es, i);
      e.version == p.version && e.commands == p.commands
  {
    hide UpdateStep, Agree, Updates, Judge, Records, Start;
    if i > 0 {
      EffectiveIsLastApplied(ws, es, i - 1);
      PolicyAgreement(ws, es, i - 1);
      assert Step(ws[i - 1], es[i - 1], ws[i]);
      match es[i - 1]
      case Update(p, outcome) => EffectiveStep(ws[i - 1], p, outcome, ws[i]);
      case Restart(_, _) =>
    }
  }

  /** A version is one set of commands: over every run, an update that carries the version in
      force carries its commands, and one with a revision is not older than a revision in force. */
  lemma AppliedAgrees(ws: seq<World>, es: seq<Event>, k: nat, p: Policy)
    requires Run(ws, es) && k < |es| && es[k] == Update(p, Done)
    ensures p.version != "" && p.version == Effective(ws[k].memory).version ==>
              p.commands == Effective(ws[k].memory).commands
    ensures !(0 < p.revision < Effective(ws[k].memory).revision)
  {
    PolicyAgreement(ws, es, k);
    OwnPolicy(ws, es, k);
    assert Step(ws[k], es[k], ws[k + 1]);
    var verdict := Judge(ws[k].memory, p);
    assert !verdict.Stale? && !verdict.Conflict?;
  }

  /** A running service holds a policy of its own. */
  lemma {:induction false} OwnPolicy(ws: seq<World>, es: seq<Event>, i: nat)
    requires Run(ws, es) && i <= |es|
    ensures ws[i].memory.commands.Some?
  {
    if i > 0 {
      OwnPolicy(ws, es, i - 1);
      assert Step(ws[i - 1], es[i - 1], ws[i]);
    }
  }

  lemma EffectiveStep(w: World, p: Policy, outcome: Outcome, v: World)
    requires Agree(w.memory) && UpdateStep(w, p, outcome, v)
    ensures var before, after := Effective(w.memory), Effective(v.memory);
      if outcome.Done? then after.version == p.version && after.commands == p.commands
      else after.version == before.version && after.commands == before.commands
  {
    RollbackExact(w.memory);
    var verdict := Judge(w.memory, p);
    if verdict.Already? || verdict.Fresh? { TakenAgrees(w.memory, p); }
    hide Judge, Taken, RolledBack, Trim;
  }

  // ---------------------------------------------------------------- revisions

  /** Every version has one positive revision and no surrounding white space. */
  ghost predicate Catalogued(p: Policy, revisionOf: string -> int) {
    p.version != "" && Trim(p.version) == p.version && p.revision == revisionOf(p.version) && p.revision > 0
  }

  /** In memory or on the disk: a catalogued policy, or the local configuration. */
  ghost predicate Known(version: string, revision: int, revisionOf: string -> int) {
    if version == "" then revision == 0 else revision == revisionOf(version) && revision > 0 && Trim(version) == version
  }

  /** The revision that loading `o` puts in force. */
  function Loads(o: Option<Policy>): int {
    o.GetOr(NO_POLICY).revision
  }

  /** All updates come from the catalogue. */
  ghost predicate FromCatalogue(ws: seq<World>, es: seq<Event>, revisionOf: string -> int) {
    && Run(ws, es)
    && (ws[0].saved.Some? ==> Catalogued(ws[0].saved.value, revisionOf))
    && forall k | 0 <= k < |es| && es[k].Update? :: Catalogued(es[k].p, revisionOf)
  }

  /** Everything that a restart may load is no older than what is in force, unless the
      service is exposed. */
  ghost predicate Ordered(w: World, revisionOf: string -> int) {
    && w.memory.commands.Some? && w.memory.runtime.Some? && w.memory.revision == w.memory.runtime.value.revision
    && Known(w.memory.version, w.memory.revision, revisionOf)
    && Loads(w.saved) == Revision(w) <= Loads(w.file.visible)
    && (w.alive || !IsSettled(w.file) ==> w.saved in w.file.maybe)
    && (w.exposed <==> exists o :: o in w.file.maybe && Loads(o) < Revision(w))
    && (forall o | o in w.file.maybe :: o.Some? ==> Catalogued(o.value, revisionOf))
  }

  lemma StartOrdered(w: World, revisionOf: string -> int)
    requires Start(w) && (w.saved.Some? ==> Catalogued(w.saved.value, revisionOf))
    ensures Ordered(w, revisionOf)
  {
  }

  lemma UpdateOrdered(w: World, p: Policy, outcome: Outcome, v: World, revisionOf: string -> int)
    requires Inv(w) && Ordered(w, revisionOf) && Catalogued(p, revisionOf) && UpdateStep(w, p, outcome, v)
    ensures Ordered(v, revisionOf) && Revision(w) <= Revision(v)
  {
    hide Trim;
  }

  lemma RestartOrdered(w: World, config: Commands, power: bool, v: World, revisionOf: string -> int)
    requires Inv(w) && Ordered(w, revisionOf) && RestartStep(w, config, power, v)
    ensures Ordered(v, revisionOf)
    ensures !power ==> Revision(w) <= Revision(v)
    ensures !w.exposed && (w.anchored || Revision(w) == 0) ==> Revision(w) <= Revision(v)
  {
    hide Trim;
  }

  lemma StepOrdered(w: World, e: Event, v: World, revisionOf: string -> int)
    requires Inv(w) && Ordered(w, revisionOf) && Step(w, e, v) && (e.Update? ==> Catalogued(e.p, revisionOf))
    ensures Ordered(v, revisionOf)
    ensures !(e.Restart? && e.power) || PowerSafe(w) ==> Revision(w) <= Revision(v)
  {
    hide Inv, UpdateStep, RestartStep, Ordered, Catalogued, Revision;
    match e
    case Update(p, outcome) => UpdateOrdered(w, p, outcome, v, revisionOf);
    case Restart(config, power) => RestartOrdered(w, config, power, v, revisionOf);
  }

  lemma {:induction false} RunOrdered(ws: seq<World>, es: seq<Event>, revisionOf: string -> int, i: nat)
    requires FromCatalogue(ws, es, revisionOf) && i <= |es|
    ensures Ordered(ws[i], revisionOf) && Inv(ws[i])
  {
    hide Inv, Step, Ordered, Catalogued, Start;
    RunInv(ws, es, i);
    if i == 0 {
      StartOrdered(ws[0], revisionOf);
    } else {
      RunOrdered(ws, es, revisionOf, i - 1);
      StepOrdered(ws[i - 1], es[i - 1], ws[i], revisionOf);
    }
  }

  /** A power loss in `w` cannot bring an older policy back. */
  predicate PowerSafe(w: World) {
    !w.exposed && (w.anchored || Revision(w) == 0)
  }

  ghost predicate NoPowerLossLowers(w: World) {
    forall config, v | RestartStep(w, config, true, v) :: Revision(w) <= Revision(v)
  }

  /** Loading `o` after a power loss. */
  lemma PowerLossTo(w: World, o: Option<Policy>) returns (v: World)
    requires o in w.file.maybe || (o.None? && !w.anchored)
    ensures RestartStep(w, map[], true, v) && Revision(v) == Loads(o)
  {
    v := World(w.anchored, Boot(o, map[]), File(o, {o}), o, {}, false, true);
  }

  /** Over every run from the catalogue: a power loss cannot lower the revision in force
      exactly if the service is not exposed and its directory is durable or it has no policy
      yet. */
  lemma SafeIffNotExposed(ws: seq<World>, es: seq<Event>, revisionOf: string -> int, i: nat)
    requires FromCatalogue(ws, es, revisionOf) && i <= |es|
    ensures NoPowerLossLowers(ws[i]) <==> PowerSafe(ws[i])
  {
    RunOrdered(ws, es, revisionOf, i);
    var w := ws[i];
    if PowerSafe(w) {
      forall config, v | RestartStep(w, config, true, v) ensures Revision(w) <= Revision(v) {
        RestartOrdered(w, config, true, v, revisionOf);
      }
    } else if w.exposed {
      var o :| o in w.file.maybe && Loads(o) < Revision(w);
      var v := PowerLossTo(w, o);
    } else {
      var v := PowerLossTo(w, None);
    }
  }

  /** The `k`-th step is a reload, after a process death alone, of a policy newer than the one
      in force whose save was renamed but is not settled. */
  ghost predicate RaisingReload(ws: seq<World>, es: seq<Event>, k: nat)
    requires |ws| == |es| + 1 && k < |es|
  {
    && es[k].Restart? && !es[k].power && !IsSettled(ws[k].file)
    && Revision(ws[k]) < Revision(ws[k + 1])
  }

  /** The `k`-th step was such a reload and nothing has settled the file since. */
  ghost predicate UnsettledSince(ws: seq<World>, es: seq<Event>, k: nat, i: nat)
    requires |ws| == |es| + 1 && i <= |es|
  {
    k < i && RaisingReload(ws, es, k) && forall j: nat | k < j <= i :: !IsSettled(ws[j].file)
  }

  lemma {:induction false} StaysExposed(ws: seq<World>, es: seq<Event>, k: nat, i: nat)
    requires Run(ws, es) && i <= |es| && UnsettledSince(ws, es, k, i)
    ensures ws[i].exposed
  {
    hide IsSettled, Revision, Start, Step;
    assert Step(ws[i - 1], es[i - 1], ws[i]);
    Exposure(ws[i - 1], es[i - 1], ws[i]);
    if k < i - 1 {
      StaysExposed(ws, es, k, i - 1);
    }
  }

  lemma {:induction false} WhyExposed(ws: seq<World>, es: seq<Event>, i: nat) returns (k: nat)
    requires Run(ws, es) && i <= |es| && ws[i].exposed
    ensures UnsettledSince(ws, es, k, i)
  {
    assert i > 0;
    var w, v := ws[i - 1], ws[i];
    hide IsSettled, Revision, Start, Step;
    assert Step(w, es[i - 1], v);
    Exposure(w, es[i - 1], v);
    k := i - 1;
    if w.exposed {
      k := WhyExposed(ws, es, i - 1);
    }
  }

  /** The service is exposed exactly after such a reload, until a save, a crash after the
      directory sync or a power loss settles the file. */
  lemma ExposedIff(ws: seq<World>, es: seq<Event>, i: nat)
    requires Run(ws, es) && i <= |es|
    ensures ws[i].exposed <==> exists k: nat :: UnsettledSince(ws, es, k, i)
  {
    if ws[i].exposed {
      var k := WhyExposed(ws, es, i);
    }
    if k: nat :| UnsettledSince(ws, es, k, i) {
      StaysExposed(ws, es, k, i);
    }
  }

  lemma Exposure(w: World, e: Event, v: World)
    requires Step(w, e, v)
    ensures w.exposed && !IsSettled(v.file) ==> v.exposed
    ensures !w.exposed && v.exposed ==> e.Restart? && !e.power && !IsSettled(w.file) && Revision(w) < Revision(v)
    ensures v.exposed && (w.exposed ==> !IsSettled(w.file)) ==> !IsSettled(v.file)
    ensures e.Restart? && !e.power && !IsSettled(w.file) && Revision(w) < Revision(v) ==> v.exposed
  {
  }

  /** Over a whole run from the catalogue, through failures, crashes and restarts, the revision
      in force never decreases, except at a power loss that is not safe. */
  lemma {:induction false} RevisionsNeverDecrease(ws: seq<World>, es: seq<Event>, revisionOf: string -> int, i: nat,
                                                  j: nat)
    requires FromCatalogue(ws, es, revisionOf) && i <= j <= |es|
    requires forall k | i <= k < j && es[k].Restart? && es[k].power :: PowerSafe(ws[k])
    ensures Revision(ws[i]) <= Revision(ws[j])
    decreases j - i
  {
    hide Inv, Step, Catalogued, Start, Ordered, Revision, PowerSafe;
    if i < j {
      RevisionsNeverDecrease(ws, es, revisionOf, i, j - 1);
      RunOrdered(ws, es, revisionOf, j - 1);
      StepOrdered(ws[j - 1], es[j - 1], ws[j], revisionOf);
    }
  }

  /** And every copy carries it. */
  lemma OneRevision(ws: seq<World>, es: seq<Event>, revisionOf: string -> int, i: nat)
    requires FromCatalogue(ws, es, revisionOf) && i <= |es|
    ensures var w := ws[i];
      && w.memory.revision == Revision(w) == Loads(w.saved)
      && w.memory.runtime.Some? && w.memory.runtime.value.revision == Revision(w)
  {
    RunOrdered(ws, es, revisionOf, i);
    hide Inv, Step, Catalogued, Start;
  }

  /** The failing run: revision 2 crashes after its rename, is reloaded and in force, and a
      power loss brings revision 1 back. */
  lemma PowerLossUndoesReload(p: Policy, q: Policy) returns (ws: seq<World>, es: seq<Event>)
    requires p.revision == 1 && q.revision == 2 && p.version != q.version
    requires Loadable(Some(p)) && Loadable(Some(q))
    ensures Run(ws, es) && |es| == 3 && RaisingReload(ws, es, 1) && ws[2].anchored && ws[2].exposed
    ensures Revision(ws[0]) == 1 && Revision(ws[2]) == 2 && Revision(ws[3]) == 1
  {
    hide Trim;
    var between := File(Some(q), {Some(p), Some(q)});
    var w0 := World(true, Boot(Some(p), map[]), File(Some(p), {Some(p)}), Some(p), {}, false, true);
    var w1 := World(true, w0.memory, between, Some(p), {Some(q)}, false, false);
    var w2 := World(true, Boot(Some(q), map[]), between, Some(q), {Some(q), Some(p)}, true, true);
    ws, es := [w0, w1, w2, w0], [Update(q, Crashed), Restart(map[], false), Restart(map[], true)];
    assert OnDisk(q) == q;
    assert SaveStep(w0.file, q, Crashed, between) by { assert {Some(p)} + {Some(q)} == {Some(p), Some(q)}; }
    assert Step(w0, es[0], w1) by { assert {} + {Some(q)} == {Some(q)}; }
    assert Some(p) in between.maybe && !IsSettled(between);
    assert Step(w1, es[1], w2) by { assert {Some(q)} + {Some(p)} == {Some(q), Some(p)}; }
    assert Step(w2, es[2], w0);
  }

  /** The other failing run: the first policy is saved in a directory that the save makes, and
      the power loss takes it. */
  lemma PowerLossTakesDirectory(p: Policy) returns (ws: seq<World>, es: seq<Event>)
    requires p.revision == 1 && Loadable(Some(p))
    ensures Run(ws, es) && |es| == 2 && !ws[1].anchored && !ws[1].exposed
    ensures es[0] == Update(p, Done) && Revision(ws[1]) == 1 && Revision(ws[2]) == 0
  {
    hide Trim;
    var w0 := World(false, Boot(None, map[]), File(None, {None}), None, {}, false, true);
    var w1 := World(false, Boot(Some(p), map[]), File(Some(p), {Some(p)}), Some(p), {}, false, true);
    ws, es := [w0, w1, w0], [Update(p, Done), Restart(map[], true)];
    assert OnDisk(p) == p;
    assert Start(w0) && Step(w0, es[0], w1) && Step(w1, es[1], w0);
  }

  // ---------------------------------------------------------------- where the copies differ

  /** An accepted update leaves handler and runtime configuration with one revision, unless
      it replays the version in force under another revision. */
  lemma ReplayedRevision(m: Memory, p: Policy)
    requires Agree(m) && m.runtime.Some? && (Judge(m, p).Already? || Judge(m, p).Fresh?)
    ensures var n := Taken(m, p);
      n.revision == n.runtime.value.revision <==> Judge(m, p).Fresh? || p.revision == m.revision
  {
  }

  /** With a positive revision in force, an accepted update is older exactly when it carries
      no positive revision. */
  lemma UnorderedRevision(m: Memory, p: Policy)
    requires Previous(m).revision > 0 && !Judge(m, p).Stale?
    ensures p.revision < Previous(m).revision <==> p.revision <= 0
  {
  }

  /** After a restart a replay of the saved policy is recognised exactly when its version
      carries no white space around it; a blank version is never saved. */
  lemma ReplayAfterRestart(m: Memory, f: File<Policy>, p: Policy, n: Memory, g: File<Policy>, config: Commands)
    requires Updates(m, Some(f), p, Done, n, Some(g)) && p.version != ""
    ensures Trim(p.version) != "" && g.visible.Some?
    ensures Judge(Boot(g.visible, config), p).Already? <==> Trim(p.version) == p.version
    ensures Judge(Boot(g.visible, config), p).Fresh? <==> Trim(p.version) != p.version
  {
    hide Trim;
  }

  // ---------------------------------------------------------------- and runs that show it

  /** A running service whose file is settled. */
  function Quiet(m: Memory, saved: Option<Policy>): World {
    World(true, m, File(saved, {saved}), saved, {}, false, true)
  }

  lemma QuietUpdate(m: Memory, saved: Option<Policy>, p: Policy)
    requires !Judge(m, p).Stale? && !Judge(m, p).Conflict? && Trim(p.version) != ""
    ensures Step(Quiet(m, saved), Update(p, Done), Quiet(Taken(m, p), Some(OnDisk(p))))
    ensures Step(Quiet(m, saved), Update(p, Failed), Quiet(RolledBack(m), saved))
  {
    hide Judge, Taken, RolledBack, Trim;
  }

  lemma QuietStart()
    ensures Start(Quiet(Boot(None, map[]), None))
  {
  }

  lemma Plain()
    ensures Trim("1") == "1" && Trim("2") == "2" && Trim(" 1") == "1"
  {
    TrimWord("1");
    TrimWord("2");
    assert TrimLeft(" 1") == TrimLeft("1") by { assert " 1"[1..] == "1"; }
  }

  /** A replay under another revision divides the copies, and the next failed update changes
      the effective revision from 0 to 5. */
  lemma RevisionAppears(c: Commands) returns (ws: seq<World>, es: seq<Event>)
    ensures Run(ws, es) && |es| == 3
    ensures es[0] == Update(Policy("1", 0, c), Done) && es[1] == Update(Policy("1", 5, c), Done)
    ensures es[2] == Update(Policy("2", 6, c), Failed)
    ensures ws[2].memory.revision == 0 && ws[2].memory.runtime.Some? && ws[2].memory.runtime.value.revision == 5
    ensures Revision(ws[2]) == 0 && Revision(ws[3]) == 5
  {
    Plain();
    QuietStart();
    hide Trim, Start, Step;
    var p, q, r := Policy("1", 0, c), Policy("1", 5, c), Policy("2", 6, c);
    var m0 := Boot(None, map[]);
    var m1 := Memory("1", 0, Some(c), Some(p));
    var m2 := Memory("1", 0, Some(c), Some(q));
    var m3 := Memory("1", 5, Some(c), Some(q));
    ws := [Quiet(m0, None), Quiet(m1, Some(p)), Quiet(m2, Some(q)), Quiet(m3, Some(q))];
    es := [Update(p, Done), Update(q, Done), Update(r, Failed)];
    QuietUpdate(m0, None, p);
    QuietUpdate(m1, Some(p), q);
    QuietUpdate(m2, Some(q), r);
  }

  /** A policy without a revision is accepted over revision 3. */
  lemma RevisionDisappears(c: Commands) returns (ws: seq<World>, es: seq<Event>)
    ensures Run(ws, es) && |es| == 2
    ensures es == [Update(Policy("1", 3, c), Done), Update(Policy("2", 0, c), Done)]
    ensures Revision(ws[1]) == 3 && Revision(ws[2]) == 0
  {
    Plain();
    QuietStart();
    hide Trim, Start, Step;
    var p, q := Policy("1", 3, c), Policy("2", 0, c);
    var m0 := Boot(None, map[]);
    var m1, m2 := Memory("1", 3, Some(c), Some(p)), Memory("2", 0, Some(c), Some(q));
    ws, es := [Quiet(m0, None), Quiet(m1, Some(p)), Quiet(m2, Some(q))], [Update(p, Done), Update(q, Done)];
    QuietUpdate(m0, None, p);
    QuietUpdate(m1, Some(p), q);
  }

  /** A policy whose version has a blank in front is recognised before a restart and not
      after it. */
  lemma PaddedReplay(c: Commands) returns (ws: seq<World>, es: seq<Event>)
    ensures Run(ws, es) && es == [Update(Policy(" 1", 1, c), Done), Restart(map[], false)]
    ensures Judge(ws[1].memory, Policy(" 1", 1, c)).Already? && Judge(ws[2].memory, Policy(" 1", 1, c)).Fresh?
  {
    Plain();
    QuietStart();
    var p, q := Policy(" 1", 1, c), Policy("1", 1, c);
    var m0 := Boot(None, map[]);
    var m1 := Memory(" 1", 1, Some(c), Some(p));
    var w := Quiet(Boot(Some(q), map[]), Some(q));
    ws, es := [Quiet(m0, None), Quiet(m1, Some(q)), w], [Update(p, Done), Restart(map[], false)];
    hide Trim, Start;
    QuietUpdate(m0, None, p);
    assert Step(ws[1], es[1], w);
  }
}
