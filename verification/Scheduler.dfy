/** Batch execution of the commands of one poll.

    Non-serial commands are collected and run on goroutines behind a semaphore; serial
    commands are barriers.  Every scheduling choice is made freely, so the contracts
    hold for all schedules.  The reference is the batch run one by one, in order. */
module Scheduler {
  import opened Wrappers

  const MAX_COMMANDS_PER_POLL: nat := 50
  const MAX_CONCURRENT: nat := 8

  /** What the handler holds besides the batch, a command's payload, and an operation's
      answer: the scheduler never looks inside them. */
  type State(!new)
  type Payload(!new)
  type Output(!new)

  datatype Command = Command(id: string, kind: string, payloadRef: string, payload: Option<Payload>)

  /** The answer to a command; every answer carries the command's id. */
  datatype Body = Failure(reason: string) | Reply(value: Output)
  datatype Result = Result(id: string, body: Body)

  /** The timing of one command: its goroutine may lose to cancellation while it waits
      for a slot; its context may have ended before it starts; and `clock` fixes what it
      meets later. */
  datatype Fate = Fate(cancelled: bool, expired: bool, clock: nat)

  /** What the handler's operations do: listing only reads the handler's state. */
  datatype Operations = Operations(
    list: (State, Fate) -> Body,
    change: (State, Command, Fate) -> (State, Body))

  function Limited<T>(cs: seq<T>): seq<T> {
    if |cs| > MAX_COMMANDS_PER_POLL then cs[..MAX_COMMANDS_PER_POLL] else cs
  }

  predicate RequiresSerial(kind: string) {
    || kind == "install_script" || kind == "remove_script" || kind == "ssh_authorize"
    || kind == "ssh_revoke" || kind == "run_script" || kind == "apply_command_policy"
  }

  function MissingId(): Body { Failure("missing_command_id") }
  function DuplicateId(): Body { Failure("duplicate_command_id") }
  function TimedOut(): Body { Failure("timeout") }

  function ExecuteOne(ops: Operations, h: State, c: Command, f: Fate): (State, Body) {
    if f.expired then (h, TimedOut())
    else if c.kind == "list_scripts" then (h, ops.list(h, f))
    else if RequiresSerial(c.kind) then ops.change(h, c, f)
    else (h, Failure("unsupported command: " + c.kind))
  }

  // ---------------------------------------------------------------- one by one

  /** The first command with its id. */
  predicate First(cs: seq<Command>, i: nat)
    requires i < |cs|
  {
    cs[i].id != "" && forall j | 0 <= j < i :: cs[j].id != cs[i].id
  }

  /** Command `i` reaches executeOne. */
  predicate Executes(cs: seq<Command>, fates: int -> Fate, i: nat)
    requires i < |cs|
  {
    First(cs, i) && (RequiresSerial(cs[i].kind) || !fates(i).cancelled)
  }

  /** Handling command `i` alone, with nothing else going on. */
  function Alone(ops: Operations, h: State, cs: seq<Command>, fates: int -> Fate, i: nat): (State, Body)
    requires i < |cs|
  {
    if cs[i].id == "" then (h, MissingId())
    else if !First(cs, i) then (h, DuplicateId())
    else if !Executes(cs, fates, i) then (h, TimedOut())
    else ExecuteOne(ops, h, cs[i], fates(i))
  }

  /** The handler's state after the first `n` commands, one by one in order. */
  function StateAfter(ops: Operations, h: State, cs: seq<Command>, fates: int -> Fate, n: nat): State
    requires n <= |cs|
  {
    if n == 0 then h else Alone(ops, StateAfter(ops, h, cs, fates, n - 1), cs, fates, n - 1).0
  }

  function ResultAt(ops: Operations, h: State, cs: seq<Command>, fates: int -> Fate, i: nat): Result
    requires i < |cs|
  {
    Result(cs[i].id, Alone(ops, StateAfter(ops, h, cs, fates, i), cs, fates, i).1)
  }

  function Results(ops: Operations, h: State, cs: seq<Command>, fates: int -> Fate): seq<Result> {
    seq(|cs|, i requires 0 <= i < |cs| => ResultAt(ops, h, cs, fates, i))
  }

  /** What each command of a batch is answered and does, in the terms of its fields. */
  lemma AnswerTo(ops: Operations, h: State, cs: seq<Command>, fates: int -> Fate, i: nat)
    requires i < |cs|
    ensures var c, f, r := cs[i], fates(i), Results(ops, h, cs, fates)[i];
      var s, next := StateAfter(ops, h, cs, fates, i), StateAfter(ops, h, cs, fates, i + 1);
      var serial := c.kind in {"install_script", "remove_script", "ssh_authorize", "ssh_revoke", "run_script",
                               "apply_command_policy"};
      && r.id == c.id
      && if c.id == "" then r.body == Failure("missing_command_id") && next == s
         else if exists j :: 0 <= j < i && cs[j].id == c.id then r.body == Failure("duplicate_command_id") && next == s
         else if f.expired || (f.cancelled && !serial) then r.body == Failure("timeout") && next == s
         else if serial then (next, r.body) == ops.change(s, c, f)
         else if c.kind == "list_scripts" then r.body == ops.list(s, f) && next == s
         else r.body == Failure("unsupported command: " + c.kind) && next == s
  {
  }

  /** At most fifty answers, to the first commands in their order. */
  lemma InOrder(ops: Operations, h: State, all: seq<Command>, fates: int -> Fate)
    ensures var sent := Results(ops, h, Limited(all), fates);
      |sent| == (if |all| > 50 then 50 else |all|) && forall i | 0 <= i < |sent| :: sent[i].id == all[i].id
  {
  }

  // ---------------------------------------------------------------- the record of a schedule

  /** Which commands began and ended, in time order. */
  datatype Trace = Nothing | Begun(before: Trace, i: int) | Ended(before: Trace, i: int) {
    ghost function Running(): set<int> {
      match this
      case Nothing => {}
      case Begun(t, i) => t.Running() + {i}
      case Ended(t, i) => t.Running() - {i}
    }

    ghost function Starts(): multiset<int> {
      match this
      case Nothing => multiset{}
      case Begun(t, i) => t.Starts() + multiset{i}
      case Ended(t, _) => t.Starts()
    }

    /** At every moment at most eight commands run, and a serial one runs alone. */
    ghost predicate Orderly(cs: seq<Command>) {
      (Nothing? || before.Orderly(cs)) && MayRun(cs, Running())
    }
  }

  ghost predicate MayRun(cs: seq<Command>, running: set<int>) {
    && |running| <= MAX_CONCURRENT
    && forall i | i in running :: 0 <= i < |cs| && (RequiresSerial(cs[i].kind) ==> running == {i})
  }

  /** Which are the limits of a schedule. */
  lemma OrderlyLimits(cs: seq<Command>, t: Trace)
    requires t.Orderly(cs)
    ensures |t.Running()| <= 8 && (!t.Nothing? ==> t.before.Orderly(cs))
    ensures forall i | i in t.Running() :: 0 <= i < |cs|
    ensures forall i | i in t.Running() && cs[i].kind in {"install_script", "remove_script", "ssh_authorize",
              "ssh_revoke", "run_script", "apply_command_policy"} :: t.Running() == {i}
  {
  }

  /** The commands of `which` began exactly once, the others never. */
  ghost predicate Once(t: Trace, which: set<int>) {
    forall i :: t.Starts()[i] == if i in which then 1 else 0
  }

  lemma BeginOne(cs: seq<Command>, t: Trace, i: int, which: set<int>)
    requires t.Orderly(cs) && MayRun(cs, t.Running() + {i}) && Once(t, which) && i !in which
    ensures Begun(t, i).Orderly(cs) && Once(Begun(t, i), which + {i}) && Begun(t, i).Running() == t.Running() + {i}
  {
    hide MayRun;
  }

  lemma EndOne(cs: seq<Command>, t: Trace, i: int, which: set<int>)
    requires t.Orderly(cs) && MayRun(cs, t.Running() - {i}) && Once(t, which)
    ensures Ended(t, i).Orderly(cs) && Once(Ended(t, i), which) && Ended(t, i).Running() == t.Running() - {i}
  {
    hide MayRun;
  }

  // ---------------------------------------------------------------- the concurrent part

  predicate Waits(cs: seq<Command>, i: int) {
    0 <= i < |cs| && First(cs, i) && !RequiresSerial(cs[i].kind)
  }

  /** What has executed once the goroutines of `batch` other than `waiting` have begun. */
  ghost function Executed(cs: seq<Command>, fates: int -> Fate, earlier: set<int>, batch: set<int>,
                          waiting: set<int>): set<int> {
    earlier + set i | i in batch && i !in waiting && 0 <= i < |cs| && Executes(cs, fates, i)
  }

  /** The slots of `done` hold what their commands give alone in state `h`; no other slot
      has changed. */
  ghost predicate Stored(ops: Operations, h: State, cs: seq<Command>, fates: int -> Fate, done: set<int>,
                                  before: seq<Result>, now: seq<Result>) {
    && |before| == |now| == |cs|
    && forall i: nat | i < |cs| ::
         now[i] == if i in done then Result(cs[i].id, Alone(ops, h, cs, fates, i).1) else before[i]
  }

  lemma StoreOne(ops: Operations, h: State, cs: seq<Command>, fates: int -> Fate, done: set<int>,
                          before: seq<Result>, now: seq<Result>, i: int)
    requires Stored(ops, h, cs, fates, done, before, now) && Waits(cs, i)
    ensures var body := if fates(i).cancelled then TimedOut() else ExecuteOne(ops, h, cs[i], fates(i)).1;
      Stored(ops, h, cs, fates, done + {i}, before, now[i := Result(cs[i].id, body)])
  {
  }

  /** Every command of the batch is waiting, running or done. */
  ghost predicate Staged(cs: seq<Command>, fates: int -> Fate, batch: set<int>, waiting: set<int>, running: set<int>,
                         done: set<int>) {
    && (forall i | i in batch :: Waits(cs, i))
    && (forall i | i in batch :: i in waiting || i in running || i in done)
    && (forall i | i in waiting :: i in batch && i !in running && i !in done)
    && (forall i | i in running :: i in batch && i !in done)
    && (forall i | i in running :: !fates(i).cancelled)
    && (forall i | i in done :: i in batch)
    && |running| <= MAX_CONCURRENT
  }

  lemma StageGiveUp(cs: seq<Command>, fates: int -> Fate, batch: set<int>, waiting: set<int>, running: set<int>,
                    done: set<int>, i: int)
    requires Staged(cs, fates, batch, waiting, running, done) && i in waiting && fates(i).cancelled
    ensures Staged(cs, fates, batch, waiting - {i}, running, done + {i}) && Waits(cs, i) && i in batch
    ensures |waiting - {i}| == |waiting| - 1
  {
    hide First;
  }

  lemma StageBegin(cs: seq<Command>, fates: int -> Fate, batch: set<int>, waiting: set<int>, running: set<int>,
                   done: set<int>, i: int)
    requires Staged(cs, fates, batch, waiting, running, done) && i in waiting && !fates(i).cancelled
    requires |running| < MAX_CONCURRENT
    ensures Staged(cs, fates, batch, waiting - {i}, running + {i}, done) && MayRun(cs, running + {i})
    ensures Waits(cs, i) && i in batch && |waiting - {i}| == |waiting| - 1 && |running + {i}| == |running| + 1
  {
    hide First;
  }

  lemma StageEnd(cs: seq<Command>, fates: int -> Fate, batch: set<int>, waiting: set<int>, running: set<int>,
                 done: set<int>, i: int)
    requires Staged(cs, fates, batch, waiting, running, done) && i in running
    ensures Staged(cs, fates, batch, waiting, running - {i}, done + {i}) && MayRun(cs, running - {i})
    ensures Waits(cs, i) && !fates(i).cancelled && |running - {i}| == |running| - 1
  {
    hide First;
  }

  lemma StageOver(cs: seq<Command>, fates: int -> Fate, batch: set<int>, done: set<int>)
    requires Staged(cs, fates, batch, {}, {}, done)
    ensures done == batch
  {
    forall i ensures i in done <==> i in batch {}
  }

  /** Who has executed, when `i` stops waiting. */
  lemma ExecutedStep(cs: seq<Command>, fates: int -> Fate, earlier: set<int>, batch: set<int>, waiting: set<int>,
                     i: int)
    requires Waits(cs, i) && i in waiting && i in batch && i !in earlier
    ensures var was := Executed(cs, fates, earlier, batch, waiting);
      && i !in was
      && Executed(cs, fates, earlier, batch, waiting - {i}) == if fates(i).cancelled then was else was + {i}
  {
    hide First;
  }

  // ---------------------------------------------------------------- the sequential part

  /** The ids met so far. */
  ghost function Ids(cs: seq<Command>, n: nat): set<string>
    requires n <= |cs|
  {
    set j | 0 <= j < n && cs[j].id != "" :: cs[j].id
  }

  lemma SeenIds(cs: seq<Command>, n: nat)
    requires n < |cs|
    ensures First(cs, n) <==> cs[n].id != "" && cs[n].id !in Ids(cs, n)
    ensures Waits(cs, n) <==> First(cs, n) && !RequiresSerial(cs[n].kind)
    ensures Ids(cs, n + 1) == if First(cs, n) then Ids(cs, n) + {cs[n].id} else Ids(cs, n)
  {
  }

  /** After `n` commands, with those of `batch` collected but not yet run. */
  ghost predicate Reached(ops: Operations, h: State, cs: seq<Command>, fates: int -> Fate, n: nat, batch: set<int>,
                                   state: State, rs: seq<Result>) {
    && |rs| == |cs| && n <= |cs| && state == StateAfter(ops, h, cs, fates, n)
    && (forall j | j in batch :: 0 <= j < n && Waits(cs, j) && StateAfter(ops, h, cs, fates, j) == state)
    && (forall j: nat | j < n && j !in batch :: rs[j] == ResultAt(ops, h, cs, fates, j))
  }

  lemma Collect(ops: Operations, h: State, cs: seq<Command>, fates: int -> Fate, n: nat, batch: set<int>,
                         state: State, rs: seq<Result>)
    requires Reached(ops, h, cs, fates, n, batch, state, rs) && Waits(cs, n)
    ensures Reached(ops, h, cs, fates, n + 1, batch + {n}, state, rs)
  {
  }

  lemma Reject(ops: Operations, h: State, cs: seq<Command>, fates: int -> Fate, n: nat, batch: set<int>,
                        state: State, rs: seq<Result>)
    requires Reached(ops, h, cs, fates, n, batch, state, rs) && n < |cs| && !First(cs, n)
    ensures var body := if cs[n].id == "" then MissingId() else DuplicateId();
      Reached(ops, h, cs, fates, n + 1, batch, state, rs[n := Result(cs[n].id, body)])
  {
  }

  lemma Flushed(ops: Operations, h: State, cs: seq<Command>, fates: int -> Fate, n: nat, batch: set<int>,
                         state: State, rs: seq<Result>, now: seq<Result>)
    requires Reached(ops, h, cs, fates, n, batch, state, rs) && Stored(ops, state, cs, fates, batch, rs, now)
    ensures Reached(ops, h, cs, fates, n, {}, state, now)
  {
    hide Alone;
  }

  lemma BatchWaits(ops: Operations, h: State, cs: seq<Command>, fates: int -> Fate, n: nat, batch: set<int>,
                            state: State, rs: seq<Result>)
    requires Reached(ops, h, cs, fates, n, batch, state, rs)
    ensures forall j | j in batch :: 0 <= j < n && Waits(cs, j) && j !in Past(cs, fates, n, batch)
  {
    hide Alone, StateAfter;
  }

  lemma Serve(ops: Operations, h: State, cs: seq<Command>, fates: int -> Fate, n: nat,
                       state: State, rs: seq<Result>)
    requires Reached(ops, h, cs, fates, n, {}, state, rs) && n < |cs| && First(cs, n) && RequiresSerial(cs[n].kind)
    ensures var (next, body) := ExecuteOne(ops, state, cs[n], fates(n));
      Reached(ops, h, cs, fates, n + 1, {}, next, rs[n := Result(cs[n].id, body)])
  {
  }

  /** Which of the first `n` commands have executed. */
  ghost function Past(cs: seq<Command>, fates: int -> Fate, n: nat, batch: set<int>): set<int>
    requires n <= |cs|
  {
    set j | 0 <= j < n && j !in batch && Executes(cs, fates, j)
  }

  lemma PastSteps(cs: seq<Command>, fates: int -> Fate, n: nat, batch: set<int>)
    requires n <= |cs|
    ensures (forall j | j in batch :: 0 <= j < n) ==>
        Executed(cs, fates, Past(cs, fates, n, batch), batch, {}) == Past(cs, fates, n, {})
    ensures n < |cs| && Waits(cs, n) ==> Past(cs, fates, n + 1, batch + {n}) == Past(cs, fates, n, batch)
    ensures n < |cs| && !First(cs, n) ==> Past(cs, fates, n + 1, batch) == Past(cs, fates, n, batch)
    ensures n < |cs| && First(cs, n) && RequiresSerial(cs[n].kind) ==>
        Past(cs, fates, n + 1, {}) == Past(cs, fates, n, {}) + {n}
    ensures n !in Past(cs, fates, n, batch)
  {
    hide First, RequiresSerial;
  }

  /** The batch so far: state and answers of the first `n` commands except those collected,
      and the schedule that led here. */
  ghost predicate Progress(ops: Operations, h: State, cs: seq<Command>, fates: int -> Fate, n: nat, batch: set<int>,
                           state: State, rs: seq<Result>, t: Trace) {
    && Reached(ops, h, cs, fates, n, batch, state, rs)
    && Once(t, Past(cs, fates, n, batch)) && t.Orderly(cs) && t.Running() == {}
  }

  lemma Start(ops: Operations, h: State, cs: seq<Command>, fates: int -> Fate, rs: seq<Result>)
    requires |rs| == |cs|
    ensures Progress(ops, h, cs, fates, 0, {}, h, rs, Nothing)
  {
  }

  lemma Skip(ops: Operations, h: State, cs: seq<Command>, fates: int -> Fate, n: nat, batch: set<int>,
             state: State, rs: seq<Result>, t: Trace)
    requires Progress(ops, h, cs, fates, n, batch, state, rs, t) && n < |cs|
    ensures Waits(cs, n) ==> Progress(ops, h, cs, fates, n + 1, batch + {n}, state, rs, t)
    ensures !First(cs, n) ==>
      var body := if cs[n].id == "" then MissingId() else DuplicateId();
      Progress(ops, h, cs, fates, n + 1, batch, state, rs[n := Result(cs[n].id, body)], t)
  {
    hide Reached, Once, Past, Trace.Orderly, Trace.Running;
    PastSteps(cs, fates, n, batch);
    if Waits(cs, n) { Collect(ops, h, cs, fates, n, batch, state, rs); }
    if !First(cs, n) { Reject(ops, h, cs, fates, n, batch, state, rs); }
  }

  lemma AllReached(ops: Operations, h: State, cs: seq<Command>, fates: int -> Fate, state: State, rs: seq<Result>,
                   t: Trace)
    requires Progress(ops, h, cs, fates, |cs|, {}, state, rs, t)
    ensures rs == Results(ops, h, cs, fates) && state == StateAfter(ops, h, cs, fates, |cs|)
    ensures t.Orderly(cs) && t.Running() == {} && Once(t, Past(cs, fates, |cs|, {}))
  {
    hide Alone, StateAfter, Once, Past, Trace.Orderly, Trace.Running;
  }

  /** Every writer has a slot of its own. */
  method Put<T>(results: array<T>, i: nat, r: T)
    requires i < results.Length
    modifies results
    ensures results[..] == old(results[..])[i := r]
  {
    results[i] := r;
  }

  /** The Go scheduler's choice. */
  method Choose<T>(s: set<T>) returns (i: T)
    requires s != {}
    ensures i in s
  {
    i :| i in s;
  }

  class Handler {
    const ops: Operations
    var state: State

    constructor (ops: Operations, state: State)
      ensures this.ops == ops && this.state == state
    {
      this.ops, this.state := ops, state;
    }

    /** Runs the collected commands: each goroutine waits for one of the eight slots or
        gives up, executes, and stores its result in its own slot. */
    method FlushBatch(commands: seq<Command>, fates: int -> Fate, batch: set<int>, results: array<Result>,
                      ghost earlier: set<int>, ghost started: Trace) returns (ghost trace: Trace)
      requires results.Length == |commands| && forall i | i in batch :: Waits(commands, i) && i !in earlier
      requires started.Running() == {} && started.Orderly(commands) && Once(started, earlier)
      modifies results
      ensures trace.Running() == {} && trace.Orderly(commands)
          && Once(trace, Executed(commands, fates, earlier, batch, {}))
      ensures Stored(ops, state, commands, fates, batch, old(results[..]), results[..])
    {
      var h := state;
      var waiting, running: set<int> := batch, {};
      ghost var done: set<int>, begun, before := {}, earlier, results[..];
      trace := started;
      assert begun == Executed(commands, fates, earlier, batch, waiting);
      assert Staged(commands, fates, batch, waiting, running, done)
          && Stored(ops, h, commands, fates, done, before, results[..]);
      hide Alone, ExecuteOne, Executes, First, Once, MayRun, Executed, Staged, Stored, Trace.Running, Trace.Orderly;
      while waiting + running != {}
        invariant Staged(commands, fates, batch, waiting, running, done)
        invariant trace.Running() == running && trace.Orderly(commands)
        invariant begun == Executed(commands, fates, earlier, batch, waiting) && Once(trace, begun)
        invariant Stored(ops, h, commands, fates, done, before, results[..])
        decreases 2 * |waiting| + |running|
      {
        var i := Choose(waiting + running);
        if |running| == MAX_CONCURRENT {
          i := Choose(running + set w | w in waiting && fates(w).cancelled);
        }
        if i in waiting && !fates(i).cancelled {
          StageBegin(commands, fates, batch, waiting, running, done, i);
          ExecutedStep(commands, fates, earlier, batch, waiting, i);
          BeginOne(commands, trace, i, begun);
          waiting, running, trace, begun := waiting - {i}, running + {i}, Begun(trace, i), begun + {i};
        } else {
          var body := TimedOut();
          if i in running {
            StageEnd(commands, fates, batch, waiting, running, done, i);
            EndOne(commands, trace, i, begun);
            body := ExecuteOne(ops, h, commands[i], fates(i)).1;
            running, trace := running - {i}, Ended(trace, i);
          } else {
            StageGiveUp(commands, fates, batch, waiting, running, done, i);
            ExecutedStep(commands, fates, earlier, batch, waiting, i);
            waiting := waiting - {i};
          }
          StoreOne(ops, h, commands, fates, done, before, results[..], i);
          Put(results, i, Result(commands[i].id, body));
          done := done + {i};
        }
      }
      assert waiting == {} && running == {};
      StageOver(commands, fates, batch, done);
    }

    /** Waits for the collected commands. */
    method CatchUp(commands: seq<Command>, fates: int -> Fate, n: nat, batch: set<int>, results: array<Result>,
                   ghost h: State, ghost started: Trace) returns (ghost trace: Trace)
      requires results.Length == |commands| && n <= |commands|
      requires Progress(ops, h, commands, fates, n, batch, state, results[..], started)
      modifies results
      ensures Progress(ops, h, commands, fates, n, {}, state, results[..], trace)
    {
      hide Reached, Once, Past, Stored, Executed, Waits, Trace.Orderly, Trace.Running;
      ghost var before := results[..];
      BatchWaits(ops, h, commands, fates, n, batch, state, before);
      PastSteps(commands, fates, n, batch);
      trace := FlushBatch(commands, fates, batch, results, Past(commands, fates, n, batch), started);
      Flushed(ops, h, commands, fates, n, batch, state, before, results[..]);
    }

    /** A serial command waits for the collected ones, then runs alone. */
    method RunSerial(commands: seq<Command>, fates: int -> Fate, i: nat, batch: set<int>, results: array<Result>,
                     ghost h: State, ghost started: Trace) returns (ghost trace: Trace)
      requires results.Length == |commands| && i < |commands| && First(commands, i) && RequiresSerial(commands[i].kind)
      requires Progress(ops, h, commands, fates, i, batch, state, results[..], started)
      modifies results, this`state
      ensures Progress(ops, h, commands, fates, i + 1, {}, state, results[..], trace)
    {
      hide Once, Past, Reached, First, Trace.Orderly, Trace.Running, ExecuteOne, RequiresSerial;
      trace := CatchUp(commands, fates, i, batch, results, h, started);
      Serve(ops, h, commands, fates, i, state, results[..]);
      PastSteps(commands, fates, i, {});
      BeginOne(commands, trace, i, Past(commands, fates, i, {}));
      EndOne(commands, Begun(trace, i), i, Past(commands, fates, i + 1, {}));
      var (next, body) := ExecuteOne(ops, state, commands[i], fates(i));
      state := next;
      Put(results, i, Result(commands[i].id, body));
      trace := Ended(Begun(trace, i), i);
    }

    /** The whole batch. */
    method ExecuteBatch(all: seq<Command>, fates: int -> Fate) returns (sent: seq<Result>, ghost trace: Trace)
      modifies this`state
      ensures var commands := Limited(all);
        && sent == Results(ops, old(state), commands, fates)
        && state == StateAfter(ops, old(state), commands, fates, |commands|)
        && trace.Orderly(commands) && trace.Running() == {}
        && Once(trace, Past(commands, fates, |commands|, {}))
      ensures |sent| == (if |all| > 50 then 50 else |all|) && forall i | 0 <= i < |sent| :: sent[i].id == all[i].id
    {
      var commands := Limited(all);
      var results := new Result[|commands|](_ => Result("", MissingId()));
      var seen: set<string>, batch: set<int> := {}, {};
      trace := Nothing;
      ghost var h := state;
      Start(ops, h, commands, fates, results[..]);
      assert seen == Ids(commands, 0);
      hide *;
      for i := 0 to |commands|
        invariant seen == Ids(commands, i)
        invariant Progress(ops, h, commands, fates, i, batch, state, results[..], trace)
      {
        var cmd := commands[i];
        SeenIds(commands, i);
        Skip(ops, h, commands, fates, i, batch, state, results[..], trace);
        if cmd.id == "" || cmd.id in seen {
          var body := if cmd.id == "" then MissingId() else DuplicateId();
          Put(results, i, Result(cmd.id, body));
          continue;
        }
        seen := seen + {cmd.id};
        if RequiresSerial(cmd.kind) {
          trace := RunSerial(commands, fates, i, batch, results, h, trace);
          batch := {};
        } else {
          batch := batch + {i};
        }
      }
      trace := CatchUp(commands, fates, |commands|, batch, results, h, trace);
      AllReached(ops, h, commands, fates, state, results[..], trace);
      sent := results[..];
      InOrder(ops, h, all, fates);
    }
  }
}
