/** The in-memory store of terminal SSH authorizations: a map with a timer per entry, whose
    callbacks may come late, or come although they were stopped, and find a newer entry.

    The reference is the log of what was added and revoked: a key is granted by its last
    addition that no later revocation covers, until that expires.  Every method runs under
    the store's lock, but reads the clock before it takes the lock. */
module SshStore {
  import opened Wrappers
  import opened KeyCodec

  type Time = int

  datatype Entry = Entry(key: AuthorizedKey, targetUser: string, commandId: string, sessionRef: string,
                         issuedAt: Time, expiresAt: Time)

  /** Who may log in with which key. */
  datatype Subject = Subject(targetUser: string, keyType: string, blob: string)

  function SubjectOf(e: Entry): Subject {
    Subject(e.targetUser, e.key.keyType, e.key.blob)
  }

  // ---------------------------------------------------------------- entry keys

  function EntryKey(s: Subject): string {
    s.targetUser + "\0" + s.keyType + "\0" + s.blob
  }

  lemma SameTail(x: string, a: string, y: string, b: string)
    requires x + "\0" + a == y + "\0" + b && '\0' !in a && '\0' !in b
    ensures x == y && a == b
  {
    var s := x + "\0" + a;
    assert s[|x|] == '\0' && s[|y|] == '\0';
    assert forall k | |x| < k < |s| :: s[k] == a[k - |x| - 1] && s[k] in a;
    assert forall k | |y| < k < |s| :: s[k] == b[k - |y| - 1] && s[k] in b;
    assert s[..|x|] == x && (y + "\0" + b)[..|y|] == y;
    assert s[|x| + 1..] == a && (y + "\0" + b)[|y| + 1..] == b;
  }

  /** Different subjects have different entry keys, whatever the target user contains. */
  lemma EntryKeyInjective(s: Subject, t: Subject)
    requires '\0' !in s.keyType && '\0' !in s.blob && '\0' !in t.keyType && '\0' !in t.blob
    ensures EntryKey(s) == EntryKey(t) <==> s == t
  {
    if EntryKey(s) == EntryKey(t) {
      SameTail(s.targetUser + "\0" + s.keyType, s.blob, t.targetUser + "\0" + t.keyType, t.blob);
      SameTail(s.targetUser, s.keyType, t.targetUser, t.keyType);
    }
  }

  // ---------------------------------------------------------------- the reference

  datatype Log =
    | Empty
    | Added(before: Log, entry: Entry)
    | RevokedSession(before: Log, sessionRef: string)
    | RevokedCommand(before: Log, commandId: string)
    | RevokedAll(before: Log)

  predicate Covers(revocation: Log, e: Entry) {
    match revocation
    case RevokedSession(_, ref) => e.sessionRef == ref
    case RevokedCommand(_, id) => e.commandId == id
    case RevokedAll(_) => true
    case _ => false
  }

  /** The last addition of `s` that no later revocation covers. */
  function Granted(log: Log, s: Subject): Option<Entry> {
    match log
    case Empty => None
    case Added(before, e) => if SubjectOf(e) == s then Some(e) else Granted(before, s)
    case _ =>
      var g := Granted(log.before, s);
      if g.Some? && Covers(log, g.value) then None else g
  }

  ghost predicate Allowed(log: Log, s: Subject, now: Time) {
    Granted(log, s).Some? && Granted(log, s).value.expiresAt > now
  }

  /** The log in the terms of its operations: an addition grants its subject and nobody else
      anything new, and a revocation takes exactly the grants that carry its session or command. */
  lemma LogLaws(log: Log, e: Entry, ref: string, id: string, s: Subject)
    ensures Granted(Empty, s) == None && Granted(RevokedAll(log), s) == None
    ensures Granted(Added(log, e), Subject(e.targetUser, e.key.keyType, e.key.blob)) == Some(e)
    ensures s != Subject(e.targetUser, e.key.keyType, e.key.blob) ==> Granted(Added(log, e), s) == Granted(log, s)
    ensures var g := Granted(log, s);
      && Granted(RevokedSession(log, ref), s) == (if g.Some? && g.value.sessionRef == ref then None else g)
      && Granted(RevokedCommand(log, id), s) == (if g.Some? && g.value.commandId == id then None else g)
  {
  }

  /** The grant expires between the reading of the clock and the moment of the answer. */
  ghost predicate Expiring(log: Log, s: Subject, now: Time, clock: Time) {
    Granted(log, s).Some? && now < Granted(log, s).value.expiresAt <= clock
  }

  /** A key as the codec produces it. */
  predicate Sound(e: Entry) {
    SupportedKeyType(e.key.keyType) && e.key == Canonical(e.key.keyType, e.key.fingerprint)
  }

  ghost predicate SoundLog(log: Log) {
    log.Empty? || (SoundLog(log.before) && (log.Added? ==> Sound(log.entry)))
  }

  lemma {:induction false} GrantedSound(log: Log, s: Subject)
    requires SoundLog(log) && Granted(log, s).Some?
    ensures Sound(Granted(log, s).value) && SubjectOf(Granted(log, s).value) == s
  {
    if !(log.Added? && SubjectOf(log.entry) == s) { GrantedSound(log.before, s); }
  }

  lemma SoundSubject(e: Entry)
    requires Sound(e)
    ensures '\0' !in SubjectOf(e).keyType && '\0' !in SubjectOf(e).blob
  {
    TypesAreWords(e.key.keyType);
    Base64.EncodePrintable(e.key.fingerprint);
    PrintableWord(e.key.blob);
  }

  lemma SoundInjective(e: Entry, f: Entry)
    requires Sound(e) && Sound(f)
    ensures EntryKey(SubjectOf(e)) == EntryKey(SubjectOf(f)) <==> SubjectOf(e) == SubjectOf(f)
  {
    SoundSubject(e);
    SoundSubject(f);
    EntryKeyInjective(SubjectOf(e), SubjectOf(f));
  }

  lemma LineSound(publicKey: string, e: Entry)
    requires ParseAuthorizedKeyLine(publicKey) == Some(e.key)
    ensures Sound(e)
  {
  }

  lemma OfferedSound(keyType: string, keyBlob: string, e: Entry)
    requires ParseOfferedKey(keyType, keyBlob) == Some(e.key)
    ensures Sound(e)
  {
  }

  // ---------------------------------------------------------------- refinement

  /** Every stored entry is the one granted for its subject, and whatever is granted but not
      stored has expired. */
  ghost predicate Refines(entries: map<string, Entry>, log: Log, clock: Time) {
    && SoundLog(log)
    && (forall id | id in entries :: Sound(entries[id]) && id == EntryKey(SubjectOf(entries[id])))
    && (forall id | id in entries :: Granted(log, SubjectOf(entries[id])) == Some(entries[id]))
    && (forall s | Granted(log, s).Some? && EntryKey(s) !in entries :: Granted(log, s).value.expiresAt <= clock)
  }

  ghost predicate Submap<K, V>(m: map<K, V>, n: map<K, V>) {
    forall k | k in m :: k in n && m[k] == n[k]
  }

  lemma LookUp(entries: map<string, Entry>, log: Log, clock: Time, e: Entry)
    requires Refines(entries, log, clock) && Sound(e) && EntryKey(SubjectOf(e)) in entries
    ensures SubjectOf(entries[EntryKey(SubjectOf(e))]) == SubjectOf(e)
    ensures Granted(log, SubjectOf(e)) == Some(entries[EntryKey(SubjectOf(e))])
    ensures entries[EntryKey(SubjectOf(e))].key == e.key
  {
    var found := entries[EntryKey(SubjectOf(e))];
    SoundInjective(e, found);
    Base64.EncodeInjective(e.key.fingerprint, found.key.fingerprint);
  }

  /** What looking up an offered key tells. */
  lemma Found(entries: map<string, Entry>, log: Log, clock: Time, offered: Entry)
    requires Refines(entries, log, clock) && Sound(offered)
    ensures var id := EntryKey(SubjectOf(offered));
      if id in entries then Granted(log, SubjectOf(offered)) == Some(entries[id]) && entries[id].key == offered.key
      else !Allowed(log, SubjectOf(offered), clock)
  {
    if EntryKey(SubjectOf(offered)) in entries { LookUp(entries, log, clock, offered); }
  }

  /** Expired entries may go at any time. */
  lemma DropRefines(entries: map<string, Entry>, kept: map<string, Entry>, log: Log, clock: Time)
    requires Refines(entries, log, clock)
    requires Submap(kept, entries) && forall id | id in entries && id !in kept :: entries[id].expiresAt <= clock
    ensures Refines(kept, log, clock)
  {
    forall s | Granted(log, s).Some? && EntryKey(s) !in kept ensures Granted(log, s).value.expiresAt <= clock {
      GrantedSound(log, s);
      if EntryKey(s) in entries { LookUp(entries, log, clock, Granted(log, s).value); }
    }
  }

  lemma AddRefines(entries: map<string, Entry>, log: Log, clock: Time, e: Entry)
    requires Refines(entries, log, clock) && Sound(e)
    ensures Refines(entries[EntryKey(SubjectOf(e)) := e], Added(log, e), clock)
  {
    var after := entries[EntryKey(SubjectOf(e)) := e];
    forall id | id in after
      ensures Granted(Added(log, e), SubjectOf(after[id])) == Some(after[id])
    {
      SoundInjective(e, after[id]);
    }
  }

  lemma RevokeRefines(entries: map<string, Entry>, kept: map<string, Entry>, log: Log, clock: Time)
    requires !log.Empty? && !log.Added? && Refines(entries, log.before, clock)
    requires Submap(kept, entries) && forall id | id in entries :: id in kept <==> !Covers(log, entries[id])
    ensures Refines(kept, log, clock)
  {
    forall s | Granted(log, s).Some? && EntryKey(s) !in kept ensures Granted(log, s).value.expiresAt <= clock {
      GrantedSound(log.before, s);
      if EntryKey(s) in entries { LookUp(entries, log.before, clock, Granted(log, s).value); }
    }
  }

  lemma TimePasses(entries: map<string, Entry>, log: Log, clock: Time, later: Time)
    requires Refines(entries, log, clock) && clock <= later
    ensures Refines(entries, log, later)
  {
  }

  // ---------------------------------------------------------------- the store

  /** A scheduled callback: it will not run before `due`. */
  datatype Timer = Timer(id: string, expiresAt: Time, due: Time)

  /** Every entry has a timer, set for its own expiry. */
  ghost predicate Timed(entries: map<string, Entry>, timers: map<string, Timer>, started: set<Timer>) {
    && timers.Keys == entries.Keys
    && (forall id | id in timers ::
          timers[id] in started && timers[id].id == id && timers[id].expiresAt == entries[id].expiresAt)
    && (forall t | t in started :: t.expiresAt <= t.due)
  }

  /** Exactly the matching entries have gone, with their timers. */
  ghost predicate Removed(entries: map<string, Entry>, timers: map<string, Timer>, match_: Entry -> bool,
                          kept: map<string, Entry>, running: map<string, Timer>) {
    && Submap(kept, entries) && Submap(running, timers) && running.Keys == kept.Keys
    && forall id | id in entries :: id in kept <==> !match_(entries[id])
  }

  ghost function Matching(entries: map<string, Entry>, match_: Entry -> bool): set<string> {
    set id | id in entries && match_(entries[id])
  }

  lemma RemovedTimed(entries: map<string, Entry>, timers: map<string, Timer>, started: set<Timer>,
                     match_: Entry -> bool, kept: map<string, Entry>, running: map<string, Timer>)
    requires Timed(entries, timers, started) && Removed(entries, timers, match_, kept, running)
    ensures Timed(kept, running, started)
    ensures |Matching(entries, match_)| == |entries| - |kept|
  {
    assert entries.Keys == kept.Keys + Matching(entries, match_);
  }

  lemma PurgeRefines(entries: map<string, Entry>, timers: map<string, Timer>, log: Log, clock: Time, now: Time,
                     kept: map<string, Entry>, running: map<string, Timer>)
    requires Refines(entries, log, clock) && now <= clock && Removed(entries, timers, Expired(now), kept, running)
    ensures Refines(kept, log, clock)
  {
    hide Refines;
    DropRefines(entries, kept, log, clock);
  }

  lemma Purged(entries: map<string, Entry>, timers: map<string, Timer>, now: Time, kept: map<string, Entry>,
               running: map<string, Timer>, id: string)
    requires Removed(entries, timers, Expired(now), kept, running)
    ensures id in kept <==> id in entries && entries[id].expiresAt > now
    ensures id in kept ==> kept[id] == entries[id]
  {
  }

  lemma NoneExpired(entries: map<string, Entry>, timers: map<string, Timer>, now: Time, kept: map<string, Entry>,
                    running: map<string, Timer>)
    requires Removed(entries, timers, Expired(now), kept, running)
    ensures forall id | id in kept :: kept[id].expiresAt > now
  {
  }

  function Expired(now: Time): Entry -> bool {
    (e: Entry) => e.expiresAt <= now
  }

  /** Part of the deletion: `pending` has not been looked at. */
  ghost predicate Removing(entries: map<string, Entry>, timers: map<string, Timer>, match_: Entry -> bool,
                           pending: set<string>, kept: map<string, Entry>, running: map<string, Timer>, count: nat) {
    && Submap(kept, entries) && Submap(running, timers) && running.Keys == kept.Keys
    && (forall id | id in pending :: id in kept)
    && (forall id | id in entries :: id in kept <==> id in pending || !match_(entries[id]))
    && count == |entries| - |kept|
  }

  lemma RemoveOne(entries: map<string, Entry>, timers: map<string, Timer>, match_: Entry -> bool, pending: set<string>,
                  kept: map<string, Entry>, running: map<string, Timer>, count: nat, id: string)
    requires Removing(entries, timers, match_, pending, kept, running, count) && id in pending
    ensures id in kept
    ensures !match_(kept[id]) ==> Removing(entries, timers, match_, pending - {id}, kept, running, count)
    ensures match_(kept[id]) ==>
        Removing(entries, timers, match_, pending - {id}, kept - {id}, running - {id}, count + 1)
  {
    assert kept.Keys == (kept - {id}).Keys + {id};
  }

  class Store {
    var entries: map<string, Entry>
    var expiryTimers: map<string, Timer>
    var clock: Time
    ghost var log: Log
    /** Every timer that was ever started; stopping one may come too late. */
    ghost var started: set<Timer>

    ghost predicate Valid()
      reads this
    {
      Refines(entries, log, clock) && Timed(entries, expiryTimers, started)
    }

    constructor (clock: Time)
      ensures Valid() && log == Empty && entries == map[] && this.clock == clock && started == {}
    {
      entries, expiryTimers, this.clock, log, started := map[], map[], clock, Empty, {};
    }

    method Tick(later: Time)
      requires Valid() && clock <= later
      modifies this`clock
      ensures Valid() && clock == later
    {
      hide Refines, Timed;
      TimePasses(entries, log, clock, later);
      clock := later;
    }

    /** Deletes the matching entries and their timers, in no fixed order. */
    method DeleteMatchingLocked(match_: Entry -> bool) returns (count: nat)
      requires Timed(entries, expiryTimers, started)
      modifies this`entries, this`expiryTimers
      ensures Removed(old(entries), old(expiryTimers), match_, entries, expiryTimers)
      ensures count == |Matching(old(entries), match_)|
      ensures Timed(entries, expiryTimers, started)
    {
      count := 0;
      var pending := entries.Keys;
      ghost var before, timers := entries, expiryTimers;
      assert Removing(before, timers, match_, pending, entries, expiryTimers, count);
      hide Removing, Timed, Matching;
      while pending != {}
        invariant Removing(before, timers, match_, pending, entries, expiryTimers, count)
      {
        var id :| id in pending;
        RemoveOne(before, timers, match_, pending, entries, expiryTimers, count, id);
        pending := pending - {id};
        if match_(entries[id]) {
          entries := entries - {id};
          expiryTimers := expiryTimers - {id};
          count := count + 1;
        }
      }
      AllLookedAt(before, timers, match_, entries, expiryTimers, count);
      RemovedTimed(before, timers, started, match_, entries, expiryTimers);
    }

    /** Removes what has expired by `now`. */
    method PurgeExpiredLocked(now: Time)
      requires Valid() && now <= clock
      modifies this`entries, this`expiryTimers
      ensures Valid()
      ensures Removed(old(entries), old(expiryTimers), Expired(now), entries, expiryTimers)
      ensures forall id | id in entries :: entries[id].expiresAt > now
    {
      hide Refines, Timed, Matching, Expired, Removed;
      var count := DeleteMatchingLocked(Expired(now));
      NoneExpired(old(entries), old(expiryTimers), now, entries, expiryTimers);
      PurgeRefines(old(entries), old(expiryTimers), log, clock, now, entries, expiryTimers);
    }

    /** Stores a key until `now + ttl`, replacing an earlier entry of the same subject. */
    method Add(publicKey: string, targetUser: string, commandId: string, sessionRef: string, ttl: Time, now: Time)
      returns (r: Option<Entry>)
      requires Valid() && now <= clock
      modifies this`entries, this`expiryTimers, this`log, this`started
      ensures Valid()
      ensures r.Some? <==> targetUser != "" && ttl > 0 && ParseAuthorizedKeyLine(publicKey).Some?
      ensures r.None? ==> entries == old(entries) && expiryTimers == old(expiryTimers) && log == old(log)
      ensures r.Some? ==>
          r.value == Entry(ParseAuthorizedKeyLine(publicKey).value, targetUser, commandId, sessionRef, now, now + ttl)
      ensures r.Some? ==> log == Added(old(log), r.value)
      ensures r.Some? ==> var id := EntryKey(SubjectOf(r.value)); id in entries && entries[id] == r.value
      ensures r.Some? ==> forall id | id in entries :: entries[id].expiresAt > now
    {
      hide Refines, Timed, Removed, EntryKey, Sound, ParseAuthorizedKeyLine;
      if targetUser == "" || ttl <= 0 {
        return None;
      }
      var key := ParseAuthorizedKeyLine(publicKey);
      if key.None? {
        return None;
      }
      var entry := Entry(key.value, targetUser, commandId, sessionRef, now, now + ttl);
      LineSound(publicKey, entry);
      PurgeExpiredLocked(now);
      var id := EntryKey(SubjectOf(entry));
      var timer := Timer(id, entry.expiresAt, clock + ttl);
      AddRefines(entries, log, clock, entry);
      AddTimed(entries, expiryTimers, started, entry, timer);
      entries := entries[id := entry];
      expiryTimers := expiryTimers[id := timer];
      started := started + {timer};
      log := Added(log, entry);
      r := Some(entry);
    }

    /** Answers as the log does, unless the grant expires between the reading of the clock and
        the answer; then it depends on whether its timer came first. */
    method Authorize(targetUser: string, keyType: string, keyBlob: string, now: Time) returns (r: Option<AuthorizedKey>)
      requires Valid() && now <= clock
      modifies this`entries, this`expiryTimers
      ensures Valid()
      ensures targetUser == "" || ParseOfferedKey(keyType, keyBlob).None? ==> r.None?
      ensures r.Some? ==> r == ParseOfferedKey(keyType, keyBlob)
      ensures r.Some? ==> Allowed(log, Subject(targetUser, r.value.keyType, r.value.blob), now)
      ensures targetUser != "" && ParseOfferedKey(keyType, keyBlob).Some? && r.None? ==>
        var key := ParseOfferedKey(keyType, keyBlob).value;
        !Allowed(log, Subject(targetUser, key.keyType, key.blob), clock)
      ensures targetUser != "" && ParseOfferedKey(keyType, keyBlob).Some? ==>
        var key := ParseOfferedKey(keyType, keyBlob).value;
        var s := Subject(targetUser, key.keyType, key.blob);
        && (r.Some? <==> EntryKey(s) in old(entries) && old(entries)[EntryKey(s)].expiresAt > now)
        && (!Expiring(log, s, now, clock) ==> (r.Some? <==> Allowed(log, s, clock)))
        && forall id | id in entries :: entries[id].expiresAt > now
    {
      hide Refines, Timed, Removed, Sound, ParseOfferedKey, Granted, EntryKey;
      if targetUser == "" {
        return None;
      }
      var key := ParseOfferedKey(keyType, keyBlob);
      if key.None? {
        return None;
      }
      ghost var offered := Entry(key.value, targetUser, "", "", now, now);
      OfferedSound(keyType, keyBlob, offered);
      PurgeExpiredLocked(now);
      var id := EntryKey(Subject(targetUser, key.value.keyType, key.value.blob));
      Purged(old(entries), old(expiryTimers), now, entries, expiryTimers, id);
      Found(entries, log, clock, offered);
      if id !in entries || entries[id].expiresAt <= now {
        return None;
      }
      r := Some(entries[id].key);
    }

    method RevokeCommand(commandId: string) returns (count: nat)
      requires Valid()
      modifies this`entries, this`expiryTimers, this`log
      ensures Valid()
      ensures log == if commandId == "" then old(log) else RevokedCommand(old(log), commandId)
      ensures count == if commandId == "" then 0 else |Matching(old(entries), (e: Entry) => e.commandId == commandId)|
      ensures forall id :: id in entries <==>
        id in old(entries) && (commandId == "" || old(entries)[id].commandId != commandId)
      ensures Submap(entries, old(entries))
    {
      if commandId == "" {
        return 0;
      }
      hide Refines, Timed, Matching;
      count := DeleteMatchingLocked((e: Entry) => e.commandId == commandId);
      log := RevokedCommand(log, commandId);
      RevokeRefines(old(entries), entries, log, clock);
    }

    method RevokeSession(sessionRef: string) returns (count: nat)
      requires Valid()
      modifies this`entries, this`expiryTimers, this`log
      ensures Valid()
      ensures log == if sessionRef == "" then old(log) else RevokedSession(old(log), sessionRef)
      ensures count ==
        if sessionRef == "" then 0 else |Matching(old(entries), (e: Entry) => e.sessionRef == sessionRef)|
      ensures forall id :: id in entries <==>
        id in old(entries) && (sessionRef == "" || old(entries)[id].sessionRef != sessionRef)
      ensures Submap(entries, old(entries))
    {
      if sessionRef == "" {
        return 0;
      }
      hide Refines, Timed, Matching;
      count := DeleteMatchingLocked((e: Entry) => e.sessionRef == sessionRef);
      log := RevokedSession(log, sessionRef);
      RevokeRefines(old(entries), entries, log, clock);
    }

    /** Counts what was still valid and removes everything. */
    method RevokeAll() returns (count: nat)
      requires Valid()
      modifies this`entries, this`expiryTimers, this`log
      ensures Valid() && log == RevokedAll(old(log)) && entries == map[]
      ensures count == |old(entries)| - |Matching(old(entries), Expired(clock))|
    {
      hide Refines, Timed;
      PurgeExpiredLocked(clock);
      count := |entries|;
      CountLeft(old(entries), old(expiryTimers), Expired(clock), entries, expiryTimers);
      NothingTimed(started, entries, expiryTimers);
      ghost var before := entries;
      entries, expiryTimers := map[], map[];
      log := RevokedAll(log);
      RevokeRefines(before, entries, log, clock);
    }

    /** A timer callback, possibly late or already stopped: it removes the entry it was
        started for, or one that expires at the same moment, and so never a live one. */
    method Expire(timer: Timer)
      requires Valid() && timer in started && timer.due <= clock
      modifies this`entries, this`expiryTimers
      ensures Valid()
      ensures entries == if timer.id in old(entries) && old(entries)[timer.id].expiresAt == timer.expiresAt
                         then old(entries) - {timer.id} else old(entries)
      ensures forall id | id in old(entries) && id !in entries :: old(entries)[id].expiresAt <= clock
    {
      if timer.id !in entries || entries[timer.id].expiresAt != timer.expiresAt {
        return;
      }
      assert timer.expiresAt <= timer.due;
      hide Refines;
      entries := entries - {timer.id};
      expiryTimers := expiryTimers - {timer.id};
      DropRefines(old(entries), entries, log, clock);
    }
  }

  lemma AllLookedAt(entries: map<string, Entry>, timers: map<string, Timer>, match_: Entry -> bool,
                    kept: map<string, Entry>, running: map<string, Timer>, count: nat)
    requires Removing(entries, timers, match_, {}, kept, running, count)
    ensures Removed(entries, timers, match_, kept, running) && count == |entries| - |kept|
  {
  }

  lemma AddTimed(entries: map<string, Entry>, timers: map<string, Timer>, started: set<Timer>, e: Entry, t: Timer)
    requires Timed(entries, timers, started) && t.expiresAt == e.expiresAt <= t.due
    ensures Timed(entries[t.id := e], timers[t.id := t], started + {t})
  {
  }

  lemma NothingTimed(started: set<Timer>, entries: map<string, Entry>, timers: map<string, Timer>)
    requires Timed(entries, timers, started)
    ensures Timed(map[], map[], started)
  {
  }

  lemma CountLeft(entries: map<string, Entry>, timers: map<string, Timer>, match_: Entry -> bool,
                  kept: map<string, Entry>, running: map<string, Timer>)
    requires Removed(entries, timers, match_, kept, running)
    ensures |kept| == |entries| - |Matching(entries, match_)|
  {
    assert entries.Keys == kept.Keys + Matching(entries, match_);
  }

  /** Such an answer: a key added until 10, with the clock read at 5 and the lock taken at 10. */
  method LateAnswer(publicKey: string) returns (store: Store, r: Option<AuthorizedKey>)
    requires ParseAuthorizedKeyLine(publicKey).Some?
    ensures r == ParseAuthorizedKeyLine(publicKey) && store.Valid() && store.clock == 10
    ensures !Allowed(store.log, Subject("root", r.value.keyType, r.value.blob), store.clock)
  {
    hide ParseOfferedKey, ParseAuthorizedKeyLine, EntryKey, Sound, Refines, Timed;
    ReparseLine(publicKey);
    store := new Store(0);
    var added := store.Add(publicKey, "root", "command", "session", 10, 0);
    store.Tick(10);
    r := store.Authorize("root", added.value.key.keyType, added.value.key.blob, 5);
  }
}
