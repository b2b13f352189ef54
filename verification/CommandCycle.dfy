/** The command cycle of one poll: payloads are fetched by a pool of workers, the commands
    that are ready are executed, and one list of answers is sent. */
module CommandCycle {
  import opened Wrappers
  import opened Scheduler

  const MAX_CONCURRENT_PAYLOAD_FETCHES: nat := 8

  /** What a worker stores for its command. */
  datatype Hydration = Ready(command: Command) | Refused(answer: Result)

  /** A payload reference that may be put into a URL path. */
  predicate ValidRef(ref: string) {
    && ref != "" && AlphaNumeric(ref[0])
    && forall k | 0 <= k < |ref| :: AlphaNumeric(ref[k]) || ref[k] in "_.-"
  }

  predicate AlphaNumeric(c: char) {
    'A' <= c <= 'Z' || 'a' <= c <= 'z' || '0' <= c <= '9'
  }

  /** One command, when fetching its payload would give `fetched`. */
  function Hydrate(c: Command, fetched: Option<Payload>): Hydration {
    if c.payloadRef == "" || c.payload.Some? then Ready(c)
    else if !ValidRef(c.payloadRef) then Refused(Result(c.id, Failure("invalid_payload_ref")))
    else if fetched.None? then Refused(Result(c.id, Failure("payload_fetch_failed")))
    else Ready(c.(payload := fetched))
  }

  /** Without a fetcher every command is taken as it is. */
  ghost function Hydrations(cs: seq<Command>, fetcher: Option<int -> Option<Payload>>): seq<Hydration> {
    seq(|cs|, i requires 0 <= i < |cs| => if fetcher.None? then Ready(cs[i]) else Hydrate(cs[i], fetcher.value(i)))
  }

  ghost function Readies(hs: seq<Hydration>): seq<Command> {
    if hs == [] then []
    else Readies(hs[..|hs| - 1]) + match hs[|hs| - 1] case Ready(c) => [c] case Refused(_) => []
  }

  ghost function Refusals(hs: seq<Hydration>): seq<Result> {
    if hs == [] then []
    else Refusals(hs[..|hs| - 1]) + match hs[|hs| - 1] case Ready(_) => [] case Refused(r) => [r]
  }

  // ---------------------------------------------------------------- conservation

  ghost function CommandIds(cs: seq<Command>): seq<string> {
    seq(|cs|, i requires 0 <= i < |cs| => cs[i].id)
  }

  ghost function AnswerIds(rs: seq<Result>): seq<string> {
    seq(|rs|, i requires 0 <= i < |rs| => rs[i].id)
  }

  /** `a` is what remains of `b` after leaving elements out. */
  ghost predicate Subsequence<T>(a: seq<T>, b: seq<T>)
    decreases |b|
  {
    || a == []
    || (b != [] && Subsequence(a, b[..|b| - 1]))
    || (b != [] && a[|a| - 1] == b[|b| - 1] && Subsequence(a[..|a| - 1], b[..|b| - 1]))
  }

  /** `a` and `b` together hold the elements of `all`, each list in the order of `all`. */
  ghost predicate Split<T>(a: seq<T>, b: seq<T>, all: seq<T>) {
    multiset(a) + multiset(b) == multiset(all) && Subsequence(a, all) && Subsequence(b, all)
  }

  lemma SplitMore<T>(a: seq<T>, b: seq<T>, all: seq<T>, x: T)
    requires Split(a, b, all)
    ensures Split(a + [x], b, all + [x]) && Split(a, b + [x], all + [x])
  {
    assert (all + [x])[..|all|] == all && (a + [x])[..|a|] == a && (b + [x])[..|b|] == b;
  }

  lemma SameId(cs: seq<Command>, fetcher: Option<int -> Option<Payload>>, h: Hydration, n: nat)
    requires n < |cs| && h == Hydrations(cs, fetcher)[n]
    ensures cs[n].id == match h case Ready(c) => c.id case Refused(r) => r.id
  {
    assert h == if fetcher.None? then Ready(cs[n]) else Hydrate(cs[n], fetcher.value(n));
  }

  lemma MoreCommands(cs: seq<Command>, c: Command)
    ensures CommandIds(cs + [c]) == CommandIds(cs) + [c.id]
  {
  }

  lemma MoreAnswers(rs: seq<Result>, r: Result)
    ensures AnswerIds(rs + [r]) == AnswerIds(rs) + [r.id]
  {
  }

  lemma Separated(hs: seq<Hydration>, n: nat)
    requires |hs| == n + 1
    ensures hs[n].Ready? ==> Readies(hs) == Readies(hs[..n]) + [hs[n].command] && Refusals(hs) == Refusals(hs[..n])
    ensures hs[n].Refused? ==> Readies(hs) == Readies(hs[..n]) && Refusals(hs) == Refusals(hs[..n]) + [hs[n].answer]
  {
  }

  /** Each command is either ready or refused, under its own id, and neither list changes
      the order. */
  lemma {:induction false} NothingLost(cs: seq<Command>, fetcher: Option<int -> Option<Payload>>)
    ensures var hs: seq<Hydration> := Hydrations(cs, fetcher);
      Split(CommandIds(Readies(hs)), AnswerIds(Refusals(hs)), CommandIds(cs))
  {
    if cs != [] {
      var n := |cs| - 1;
      var hs: seq<Hydration> := Hydrations(cs, fetcher);
      NothingLost(cs[..n], fetcher);
      assert hs[..n] == Hydrations(cs[..n], fetcher) && cs == cs[..n] + [cs[n]];
      SameId(cs, fetcher, hs[n], n);
      var ready, refused := Readies(hs[..n]), Refusals(hs[..n]);
      Separated(hs, n);
      hide Split, Readies, Refusals, CommandIds, AnswerIds, Hydrations;
      SplitMore(CommandIds(ready), AnswerIds(refused), CommandIds(cs[..n]), cs[n].id);
      MoreCommands(cs[..n], cs[n]);
      if hs[n].Ready? {
        MoreCommands(ready, hs[n].command);
      } else {
        MoreAnswers(refused, hs[n].answer);
      }
    }
  }

  /** Executing a batch answers its commands, in order. */
  lemma ResultIds(ops: Operations, h: State, cs: seq<Command>, fates: int -> Fate, rs: seq<Result>)
    ensures AnswerIds(Results(ops, h, cs, fates) + rs) == CommandIds(cs) + AnswerIds(rs)
  {
    hide Alone, StateAfter;
  }

  lemma {:induction false} AllReady(cs: seq<Command>)
    ensures var hs: seq<Hydration> := Hydrations(cs, None); Readies(hs) == cs && Refusals(hs) == []
  {
    if cs != [] {
      var n := |cs| - 1;
      AllReady(cs[..n]);
      assert Hydrations(cs, None)[..n] == Hydrations(cs[..n], None);
    }
  }

  /** A hydration is in the list of its kind, and nothing else is. */
  lemma {:induction false} Collected(hs: seq<Hydration>)
    ensures forall i | 0 <= i < |hs| ::
      if hs[i].Ready? then hs[i].command in Readies(hs) else hs[i].answer in Refusals(hs)
    ensures forall c | c in Readies(hs) :: Ready(c) in hs
    ensures forall r | r in Refusals(hs) :: Refused(r) in hs
  {
    if hs != [] {
      Collected(hs[..|hs| - 1]);
      assert hs == hs[..|hs| - 1] + [hs[|hs| - 1]];
    }
  }

  /** `c` is one of the commands with its fetched payload. */
  ghost predicate Fetched(cs: seq<Command>, fetch: int -> Option<Payload>, c: Command) {
    exists i :: 0 <= i < |cs| && cs[i].payload.None? && fetch(i).Some? &&
                c == Command(cs[i].id, cs[i].kind, cs[i].payloadRef, fetch(i))
  }

  /** The references that may stand in a URL path. */
  lemma RefIsSafe(ref: string)
    ensures ValidRef(ref) <==>
      && ref != "" && ref[0] !in "_.-"
      && forall c | c in ref :: 'A' <= c <= 'Z' || 'a' <= c <= 'z' || '0' <= c <= '9' || c in "_.-"
  {
    forall k | 0 <= k < |ref| ensures ref[k] in ref {}
  }

  /** What becomes of each command, in the terms of its fields: without a reference, or with a
      payload, it is ready as it is; a valid reference whose fetch succeeds makes it ready with
      exactly that payload; any other reference is refused with its reason. */
  lemma SortedOut(cs: seq<Command>, fetch: int -> Option<Payload>, ready: seq<Command>, failures: seq<Result>)
    requires ready == Readies(Hydrations(cs, Some(fetch))) && failures == Refusals(Hydrations(cs, Some(fetch)))
    ensures forall i | 0 <= i < |cs| ::
      var c, fetched := cs[i], fetch(i);
      if c.payloadRef == "" || c.payload.Some? then c in ready
      else if !ValidRef(c.payloadRef) then Result(c.id, Failure("invalid_payload_ref")) in failures
      else if fetched.None? then Result(c.id, Failure("payload_fetch_failed")) in failures
      else Command(c.id, c.kind, c.payloadRef, fetched) in ready
    ensures forall c | c in ready :: c in cs || Fetched(cs, fetch, c)
  {
    var hs: seq<Hydration> := Hydrations(cs, Some(fetch));
    Collected(hs);
    hide ValidRef;
    assert forall i | 0 <= i < |cs| :: hs[i] == Hydrate(cs[i], fetch(i));
    forall c | c in ready ensures c in cs || Fetched(cs, fetch, c) {
      var i :| 0 <= i < |hs| && hs[i] == Ready(c);
      assert hs[i] == Hydrate(cs[i], fetch(i));
    }
  }

  lemma {:induction false} ReadiesFit(hs: seq<Hydration>)
    ensures |Readies(hs)| <= |hs|
  {
    if hs != [] { ReadiesFit(hs[..|hs| - 1]); }
  }

  lemma SameSize(rs: seq<Result>, cs: seq<Command>)
    requires multiset(AnswerIds(rs)) == multiset(CommandIds(cs))
    ensures |rs| == |cs|
  {
    assert |multiset(AnswerIds(rs))| == |AnswerIds(rs)| && |multiset(CommandIds(cs))| == |CommandIds(cs)|;
  }

  // ---------------------------------------------------------------- the workers

  /** `jobs` indices have left the queue; those of `busy` are with a worker, the others have
      their outcome stored. */
  ghost predicate Stashed(cs: seq<Command>, fetch: int -> Option<Payload>, jobs: nat, busy: set<int>,
                          now: seq<Hydration>) {
    && |now| == |cs| && jobs <= |cs| && |busy| <= MAX_CONCURRENT_PAYLOAD_FETCHES
    && (forall i | i in busy :: 0 <= i < jobs)
    && (forall i | 0 <= i < jobs && i !in busy :: now[i] == Hydrate(cs[i], fetch(i)))
  }

  lemma TakeJob(cs: seq<Command>, fetch: int -> Option<Payload>, jobs: nat, busy: set<int>, now: seq<Hydration>)
    requires Stashed(cs, fetch, jobs, busy, now) && jobs < |cs| && |busy| < MAX_CONCURRENT_PAYLOAD_FETCHES
    ensures Stashed(cs, fetch, jobs + 1, busy + {jobs}, now) && |busy + {jobs}| == |busy| + 1
  {
    hide Hydrate;
  }

  lemma FinishJob(cs: seq<Command>, fetch: int -> Option<Payload>, jobs: nat, busy: set<int>, now: seq<Hydration>,
                  i: int)
    requires Stashed(cs, fetch, jobs, busy, now) && i in busy
    ensures 0 <= i < |cs| && Stashed(cs, fetch, jobs, busy - {i}, now[i := Hydrate(cs[i], fetch(i))])
    ensures |busy - {i}| == |busy| - 1
  {
    hide Hydrate;
  }

  lemma QueueEmpty(cs: seq<Command>, fetch: int -> Option<Payload>, now: seq<Hydration>)
    requires Stashed(cs, fetch, |cs|, {}, now)
    ensures now == Hydrations(cs, Some(fetch))
  {
    hide Hydrate;
  }

  /** Workers take indices from a queue; each stores its outcome in its own slot.  `peak` is
      the most that were ever busy at once. */
  method HydrateCommandPayloads(cmds: seq<Command>, fetcher: Option<int -> Option<Payload>>)
    returns (ready: seq<Command>, failures: seq<Result>, ghost peak: nat)
    ensures var hs := Hydrations(cmds, fetcher); ready == Readies(hs) && failures == Refusals(hs)
    ensures fetcher.None? ==> ready == cmds && failures == []
    ensures fetcher.Some? ==> forall i | 0 <= i < |cmds| ::
      var c, fetched := cmds[i], fetcher.value(i);
      if c.payloadRef == "" || c.payload.Some? then c in ready
      else if !ValidRef(c.payloadRef) then Result(c.id, Failure("invalid_payload_ref")) in failures
      else if fetched.None? then Result(c.id, Failure("payload_fetch_failed")) in failures
      else Command(c.id, c.kind, c.payloadRef, fetched) in ready
    ensures fetcher.Some? ==> forall c | c in ready :: c in cmds || Fetched(cmds, fetcher.value, c)
    ensures peak <= 8
  {
    if fetcher.None? {
      AllReady(cmds);
      return cmds, [], 0;
    }
    var fetch := fetcher.value;
    var results := new Hydration[|cmds|](i requires 0 <= i < |cmds| => Ready(cmds[i]));
    var jobs: nat, busy: set<int> := 0, {};
    peak := 0;
    assert Stashed(cmds, fetch, jobs, busy, results[..]);
    hide *;
    while jobs < |cmds| || busy != {}
      invariant jobs <= |cmds| && Stashed(cmds, fetch, jobs, busy, results[..])
      invariant |busy| <= peak <= MAX_CONCURRENT_PAYLOAD_FETCHES
      decreases 2 * (|cmds| - jobs) + |busy|
    {
      if
      case jobs < |cmds| && |busy| < MAX_CONCURRENT_PAYLOAD_FETCHES =>
        TakeJob(cmds, fetch, jobs, busy, results[..]);
        jobs, busy := jobs + 1, busy + {jobs};
        peak := if |busy| > peak then |busy| else peak;
      case busy != {} =>
        var i := Choose(busy);
        FinishJob(cmds, fetch, jobs, busy, results[..], i);
        Put(results, i, Hydrate(cmds[i], fetch(i)));
        busy := busy - {i};
    }
    QueueEmpty(cmds, fetch, results[..]);
    SortedOut(cmds, fetch, Readies(Hydrations(cmds, fetcher)), Refusals(Hydrations(cmds, fetcher)));
    ready, failures := Separate(results);
  }

  /** The collecting loop. */
  method Separate(results: array<Hydration>) returns (ready: seq<Command>, failures: seq<Result>)
    ensures ready == Readies(results[..]) && failures == Refusals(results[..])
  {
    ready, failures := [], [];
    for i := 0 to results.Length
      invariant ready == Readies(results[..i]) && failures == Refusals(results[..i])
    {
      assert results[..i + 1][..i] == results[..i];
      match results[i]
      case Ready(command) => ready := ready + [command];
      case Refused(answer) => failures := failures + [answer];
    }
    assert results[..results.Length] == results[..];
  }

  /** One poll's commands: at most fifty are handled, and what is sent answers each of them
      exactly once. */
  method HandleCommandResponses(handler: Handler, fetcher: Option<int -> Option<Payload>>,
                                         all: seq<Command>, fates: int -> Fate)
    returns (sent: Option<seq<Result>>)
    modifies handler`state
    ensures all == [] <==> sent.None?
    ensures all == [] ==> handler.state == old(handler.state)
    ensures sent.Some? ==> multiset(AnswerIds(sent.value)) == multiset(CommandIds(Limited(all)))
    ensures sent.Some? ==> |sent.value| == if |all| > 50 then 50 else |all|
    ensures sent.Some? ==>
      var hs: seq<Hydration> := Hydrations(Limited(all), fetcher);
      && sent.value == Results(handler.ops, old(handler.state), Readies(hs), fates) + Refusals(hs)
      && handler.state == StateAfter(handler.ops, old(handler.state), Readies(hs), fates, |Readies(hs)|)
  {
    hide Results, StateAfter, Readies, Refusals, Trace.Orderly, Trace.Running, Once, Past, CommandIds, AnswerIds;
    if all == [] {
      return None;
    }
    var cmds := Limited(all);
    var ready, failures, peak := HydrateCommandPayloads(cmds, fetcher);
    ReadiesFit(Hydrations(cmds, fetcher));
    NothingLost(cmds, fetcher);
    ResultIds(handler.ops, handler.state, ready, fates, failures);
    var results, trace := handler.ExecuteBatch(ready, fates);
    sent := Some(results + failures);
    SameSize(results + failures, cmds);
  }
}
