/** The polling service with its policy store, as code.  It keeps the run of `CommandPolicy`
    that it goes through, so that whatever is proved of all runs holds of all its executions. */
module PolicyService {
  import opened AtomicFile
  import opened CommandPolicy
  import opened Wrappers

  ghost function Last(ws: seq<World>): World
    requires ws != []
  {
    ws[|ws| - 1]
  }

  /** The world that the service and its directory show. */
  ghost predicate Shows(w: World, alive: bool, memory: Memory, file: File<Policy>, durable: bool) {
    w.alive == alive && (alive ==> w.memory == memory) && w.file == file && w.anchored == durable
  }

  /** One more step of a run. */
  lemma RunOn(ws: seq<World>, es: seq<Event>, e: Event, v: World)
    requires Run(ws, es) && Step(Last(ws), e, v)
    ensures Run(ws + [v], es + [e])
  {
    hide Step, Start;
  }

  /** The world after an update. */
  lemma UpdateMade(w: World, memory: Memory, p: Policy, outcome: Outcome, n: Memory, g: File<Policy>)
    returns (v: World)
    requires w.alive && w.memory == memory && Updates(memory, Some(w.file), p, outcome, n, Some(g))
    ensures UpdateStep(w, p, outcome, v) && Shows(v, !outcome.Crashed?, n, g, w.anchored)
  {
    v := World(w.anchored, if outcome.Crashed? then memory else n, g,
               if outcome.Done? then Some(OnDisk(p)) else w.saved,
               if outcome.Done? then {} else if g == w.file then w.others else w.others + {Some(OnDisk(p))},
               w.exposed && !IsSettled(g), !outcome.Crashed?);
    hide Judge, OnDisk, RolledBack, SaveStep;
  }

  /** The world after a restart. */
  lemma RestartMade(w: World, config: Commands, power: bool, g: File<Policy>, durable: bool) returns (v: World)
    requires if power then LossStep(w.anchored, w.file, g) else g == w.file
    requires (w.anchored ==> durable) && (!power ==> durable == w.anchored)
    ensures RestartStep(w, config, power, v) && Shows(v, true, Boot(g.visible, config), g, durable)
  {
    var raised := !power && (w.exposed || (!IsSettled(w.file) &&
                    Revision(w) < Effective(Boot(g.visible, config)).revision));
    v := World(durable, Boot(g.visible, config), g, g.visible,
               if power then {} else if g.visible == w.saved then w.others else w.others + {w.saved}, raised, true);
  }

  class Service {
    const store: Directory<Policy>
    var handler: Handler
    ghost var alive: bool
    ghost var worlds: seq<World>
    ghost var events: seq<Event>

    ghost predicate Valid()
      reads this, handler, store
    {
      && handler.store == Some(store) && handler.StoreValid()
      && Run(worlds, events)
      && Shows(Last(worlds), alive, handler.Copies(), store.disk.View(PATH), store.disk.folder.Durable?)
    }

    /** The first start, with a settled policy file or none. */
    constructor (store: Directory<Policy>, config: Commands)
      requires PATH in store.reserved && store.disk.Valid() && store.disk.Clean(PATH)
      requires IsSettled(store.disk.View(PATH)) && Loadable(store.disk.View(PATH).visible)
      ensures Valid() && alive && events == [] && this.store == store && fresh(handler)
    {
      var started := StartService(store, config);
      ghost var f := store.disk.View(PATH);
      handler, this.store, alive, events := started, store, true, [];
      worlds := [World(store.disk.folder.Durable?, Boot(f.visible, config), f, f.visible, {}, false, true)];
    }

    /** Records a step that the fields have just made. */
    ghost method Note(e: Event, v: World)
      requires Run(worlds, events) && Step(Last(worlds), e, v)
      modifies this`worlds, this`events
      ensures Run(worlds, events) && worlds == old(worlds) + [v] && events == old(events) + [e]
    {
      hide Run, Step;
      RunOn(worlds, events, e, v);
      worlds, events := worlds + [v], events + [e];
    }

    /** A policy command: a parsed one that comes in time is one update of the run, and any
        other is answered with a failure and changes nothing. */
    method ApplyCommandPolicy(payload: Option<Request>, expired: bool, plan: nat -> Outcome)
      returns (answer: Answer, ghost p: Option<Policy>, ghost outcome: Outcome)
      requires Valid() && alive
      modifies this`alive, this`worlds, this`events, handler, store
      ensures Valid() && handler == old(handler)
      ensures payload.None? ==> p == None
      ensures payload.Some? ==> Parses(payload.value, p)
      ensures if p.None? || expired then alive && answer == Failure && events == old(events) && worlds == old(worlds)
              else
                && alive == !outcome.Crashed? && (answer.Success? <==> outcome.Done?)
                && events == old(events) + [Update(p.value, outcome)] && worlds[..|old(worlds)|] == old(worlds)
    {
      hide Start, Updates, Parses, UpdateStep, SaveStep, Disk.Valid, Disk.Clean, Disk.View;
      answer, p, outcome := handler.ApplyCommandPolicy(payload, expired, plan);
      if p.Some? && !expired {
        alive := !outcome.Crashed?;
        ghost var v := UpdateMade(Last(worlds), old(handler.Copies()), p.value, outcome, handler.Copies(),
                                  store.disk.View(PATH));
        Note(Update(p.value, outcome), v);
      }
    }

    /** The process starts anew, after its death or after a power loss. */
    method Restart(config: Commands, power: bool, stays: bool, survivor: Name -> Option<Inode>)
      requires Valid()
      requires power ==> (stays || !store.disk.folder.Durable?) && forall n :: survivor(n) in store.disk.Bindings(n)
      modifies this`handler, this`alive, this`worlds, this`events, store
      ensures Valid() && alive && fresh(handler)
      ensures events == old(events) + [Event.Restart(config, power)] && worlds[..|old(worlds)|] == old(worlds)
    {
      hide Start, RestartStep, Disk.Valid, Disk.Clean, Disk.View, PowerLossStep;
      if power {
        store.PowerLoss(stays, survivor);
      }
      handler := StartService(store, config);
      alive := true;
      ghost var v := RestartMade(Last(worlds), config, power, store.disk.View(PATH), store.disk.folder.Durable?);
      Note(Event.Restart(config, power), v);
    }

    /** What scripts run with: the version and commands of the last policy that an update put
        in force or a start loaded. */
    method CommandRuntimeConfig() returns (p: Policy)
      requires Valid() && alive
      ensures var last := LastApplied(worlds, events, |events|);
        p.version == last.version && p.commands == last.commands
    {
      hide Start, Step, LastApplied;
      EffectiveIsLastApplied(worlds, events, |events|);
      p := handler.CommandRuntimeConfig();
    }
  }
}
