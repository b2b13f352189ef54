/** Reconciling the remote-access tunnel with each heartbeat response.

    The poller tracks what it believes the tunnel runs and decides to stop, start,
    restart or keep it.  Stop and start may fail, and the tunnel may die on its own
    between polls. */
module RemoteAccess {
  import opened Wrappers

  // ---------------------------------------------------------------- profiles

  datatype Selection = Selection(name: string, version: int)

  /** The client's own profiles after normalisation; `sound` is the verdict on the routes. */
  datatype Profile = Profile(version: int, sound: bool)
  type Config = map<string, Profile>

  predicate NameStart(c: char) {
    'a' <= c <= 'z'
  }

  predicate NamePart(c: char) {
    'a' <= c <= 'z' || '0' <= c <= '9' || c == '_' || c == '.' || c == '-'
  }

  /** ^[a-z][a-z0-9_.-]{0,63}$ */
  predicate ValidProfileName(name: string) {
    1 <= |name| <= 64 && NameStart(name[0]) && forall i | 1 <= i < |name| :: NamePart(name[i])
  }

  function Digit(d: int): char
    requires 0 <= d < 10
  {
    "0123456789"[d]
  }

  function Decimal(n: nat): string {
    if n < 10 then [Digit(n)] else Decimal(n / 10) + [Digit(n % 10)]
  }

  predicate Resolves(cfg: Config, sel: Selection) {
    && ValidProfileName(sel.name) && sel.version > 0
    && sel.name in cfg && cfg[sel.name].version == sel.version && cfg[sel.name].sound
  }

  /** remoteAccessProfileKey; `None` is its error. */
  function ProfileKey(cfg: Config, sel: Option<Selection>): Option<string> {
    if sel.Some? && Resolves(cfg, sel.value)
    then Some(sel.value.name + ":" + Decimal(sel.value.version))
    else None
  }

  /** Numbers are written in decimal. */
  lemma Numerals(n: nat)
    ensures n < 10 ==> Decimal(n) == [('0' as int + n) as char]
    ensures n >= 10 ==> Decimal(n) == Decimal(n / 10) + Decimal(n % 10)
  {
  }

  lemma {:induction false} DecimalInjective(m: nat, n: nat)
    requires Decimal(m) == Decimal(n)
    ensures m == n
    decreases m
  {
    DecimalLength(m);
    DecimalLength(n);
    var s, t := Decimal(m), Decimal(n);
    assert s[|s| - 1] == Digit(m % 10) && t[|t| - 1] == Digit(n % 10);
    if m >= 10 {
      assert n >= 10;
      assert Decimal(m / 10) == s[..|s| - 1] == t[..|t| - 1] == Decimal(n / 10);
      DecimalInjective(m / 10, n / 10);
    }
  }

  lemma DecimalLength(n: nat)
    ensures if n < 10 then |Decimal(n)| == 1 else |Decimal(n)| > 1
  {
  }

  lemma SplitAtColon(a: string, b: string, c: string, d: string)
    requires forall i | 0 <= i < |a| :: a[i] != ':'
    requires forall i | 0 <= i < |c| :: c[i] != ':'
    requires a + ":" + b == c + ":" + d
    ensures a == c && b == d
  {
    var k := a + ":" + b;
    assert k[|a|] == ':' && k[|c|] == ':';
    assert a == k[..|a|] && c == k[..|c|];
    assert b == k[|a| + 1..] && d == k[|c| + 1..];
  }

  /** The key names the profile: no two selections share one. */
  lemma ProfileKeyInjective(cfg: Config, a: Option<Selection>, b: Option<Selection>)
    requires ProfileKey(cfg, a).Some? && ProfileKey(cfg, a) == ProfileKey(cfg, b)
    ensures a == b
  {
    var x, y := a.value, b.value;
    SplitAtColon(x.name, Decimal(x.version), y.name, Decimal(y.version));
    DecimalInjective(x.version, y.version);
  }

  // ---------------------------------------------------------------- state

  type Token = nat
  type Lease = string
  type Millis = int

  const RENEWAL_MARGIN: Millis := 30_000

  /** The remote-access part of a heartbeat response; 0 is no expiry. */
  datatype Response = Response(token: Option<Token>, expires: Millis, lease: Lease, profile: Option<Selection>)

  /** What the poller tracks.  The token is kept as a hash, taken to be injective. */
  datatype Tracked = Tracked(hash: Option<Token>, profileKey: string, expires: Millis, lease: Lease)

  const UNKNOWN: Tracked := Tracked(None, "", 0, "")

  /** The tunnel and the response it was started for. */
  datatype Tunnel = Tunnel(active: bool, origin: Response)

  datatype Call = StopCall(ok: bool) | StartCall(ok: bool)

  datatype System = System(tracked: Tracked, tunnel: Tunnel)

  /** One poll: the response, the two clock readings and the fate of the calls. */
  datatype Poll = Poll(response: Response, now: Millis, later: Millis, stopOk: bool, startOk: bool)

  predicate Granted(r: Response, now: Millis) {
    r.token.Some? && (r.expires == 0 || r.expires > now)
  }

  /** Renew before the tracked credential expires, not for every newly signed token. */
  predicate NeedsRefresh(stored: Millis, next: Millis, now: Millis) {
    next > 0 && (stored <= 0 || next < stored || (stored <= now + RENEWAL_MARGIN && next > stored))
  }

  predicate Changed(t: Tracked, r: Response, key: string, now: Millis) {
    (t.profileKey != "" && t.profileKey != key) || t.lease != r.lease || NeedsRefresh(t.expires, r.expires, now)
  }

  datatype Decision = TurnOff | Launch | Replace | Relaunch | Keep

  function Decide(cfg: Config, s: System, p: Poll): Decision {
    var key := ProfileKey(cfg, p.response.profile);
    if !Granted(p.response, p.now) || key.None? then TurnOff
    else if !s.tunnel.active then Launch
    else if Changed(s.tracked, p.response, key.value, p.later) then Replace
    else if s.tracked.hash.None? || s.tracked.profileKey == "" then Relaunch
    else Keep
  }

  function Calls(cfg: Config, s: System, p: Poll): seq<Call> {
    match Decide(cfg, s, p)
    case TurnOff => if s.tunnel.active then [StopCall(p.stopOk)] else []
    case Launch => [StartCall(p.startOk)]
    case Keep => []
    case _ => if p.stopOk then [StopCall(true), StartCall(p.startOk)] else [StopCall(false)]
  }

  /** The responses' token, expiry and lease are folded into the tracked state whenever
      the tracked hash is theirs. */
  function Noted(t: Tracked, r: Response): Tracked {
    if t.hash == r.token then t.(expires := r.expires, lease := r.lease) else t
  }

  function Started(s: System, r: Response, key: string, ok: bool): System {
    if ok then System(s.tracked.(hash := r.token, profileKey := key), Tunnel(true, r)) else s
  }

  /** The system after one poll. */
  function After(cfg: Config, s: System, p: Poll): System {
    var r := p.response;
    var off := s.(tunnel := s.tunnel.(active := false));
    var d := Decide(cfg, s, p);
    if d.TurnOff? then
      if s.tunnel.active && !p.stopOk then s else off.(tracked := UNKNOWN)
    else
      var key := ProfileKey(cfg, r.profile).value;
      var next :=
        match d
        case Launch => Started(s, r, key, p.startOk)
        case Replace => if p.stopOk then Started(off.(tracked := UNKNOWN), r, key, p.startOk) else s
        case Relaunch => if p.stopOk then Started(off, r, key, p.startOk) else s
        case _ => s;
      next.(tracked := Noted(next.tracked, r))
  }

  // ---------------------------------------------------------------- the code

  class Poller {
    var tokenHash: Option<Token>
    var profileKey: string
    var expiresAtMS: Millis
    var leaseID: Lease
    var tunnel: Tunnel
    var calls: seq<Call>

    function State(): System
      reads this
    {
      System(Tracked(tokenHash, profileKey, expiresAtMS, leaseID), tunnel)
    }

    /** The process starts knowing nothing; a tunnel of an earlier process may run. */
    constructor (tunnel: Tunnel)
      ensures State() == System(UNKNOWN, tunnel) && calls == []
    {
      tokenHash, profileKey, expiresAtMS, leaseID := None, "", 0, "";
      this.tunnel, calls := tunnel, [];
    }

    method Stop(ok: bool) returns (stopped: bool)
      modifies this`tunnel, this`calls
      ensures stopped == ok && calls == old(calls) + [StopCall(ok)]
      ensures tunnel == if ok then old(tunnel).(active := false) else old(tunnel)
    {
      calls := calls + [StopCall(ok)];
      if ok {
        tunnel := tunnel.(active := false);
      }
      stopped := ok;
    }

    method ClearRemoteAccessState()
      modifies this`tokenHash, this`profileKey, this`expiresAtMS, this`leaseID
      ensures State() == old(State()).(tracked := UNKNOWN)
    {
      tokenHash := None;
      profileKey := "";
      expiresAtMS := 0;
      leaseID := "";
    }

    method StartFRP(r: Response, key: string, ok: bool)
      requires !tunnel.active
      modifies this`tunnel, this`calls, this`tokenHash, this`profileKey
      ensures State() == Started(old(State()), r, key, ok) && calls == old(calls) + [StartCall(ok)]
      ensures if ok then tunnel == Tunnel(true, r) && tokenHash == r.token && profileKey == key
              else tunnel == old(tunnel) && tokenHash == old(tokenHash) && profileKey == old(profileKey)
    {
      calls := calls + [StartCall(ok)];
      if !ok {
        return;
      }
      tunnel := Tunnel(true, r);
      tokenHash := r.token;
      profileKey := key;
    }

    /** Off, and nothing tracked unless the stop fails. */
    method TurnTunnelOff(ok: bool)
      modifies this
      ensures State() == (if old(tunnel).active && !ok then old(State())
                          else System(UNKNOWN, old(tunnel).(active := false)))
      ensures calls == old(calls) + if old(tunnel).active then [StopCall(ok)] else []
    {
      if tunnel.active {
        var stopped := Stop(ok);
        if stopped {
          ClearRemoteAccessState();
        }
      } else {
        ClearRemoteAccessState();
      }
    }

    /** Stop, then start; `clear` forgets the tracked state in between. */
    method Restart(r: Response, key: string, clear: bool, stopOk: bool, startOk: bool)
      modifies this
      ensures var off := System(if clear then UNKNOWN else old(State()).tracked, old(tunnel).(active := false));
        State() == if stopOk then Started(off, r, key, startOk) else old(State())
      ensures calls == old(calls) + if stopOk then [StopCall(true), StartCall(startOk)] else [StopCall(false)]
    {
      var stopped := Stop(stopOk);
      if stopped {
        if clear {
          ClearRemoteAccessState();
        }
        StartFRP(r, key, startOk);
      }
    }

    /** The reconciling half of pollOnce. */
    method Reconcile(cfg: Config, p: Poll)
      modifies this
      ensures State() == After(cfg, old(State()), p)
      ensures calls == old(calls) + Calls(cfg, old(State()), p)
    {
      hide ProfileKey, NeedsRefresh, Started;
      ghost var d := Decide(cfg, State(), p);
      var r := p.response;
      var active := tunnel.active;
      if r.token.Some? && (r.expires == 0 || r.expires > p.now) {
        var key := ProfileKey(cfg, r.profile);
        if key.None? {
          TurnTunnelOff(p.stopOk);
          return;
        }
        if !active {
          assert d.Launch?;
          StartFRP(r, key.value, p.startOk);
        } else if (profileKey != "" && profileKey != key.value) || leaseID != r.lease
               || NeedsRefresh(expiresAtMS, r.expires, p.later) {
          assert d.Replace?;
          Restart(r, key.value, true, p.stopOk, p.startOk);
        } else if tokenHash.None? || profileKey == "" {
          assert d.Relaunch?;
          Restart(r, key.value, false, p.stopOk, p.startOk);
        }
        if tokenHash == r.token {
          expiresAtMS := r.expires;
          leaseID := r.lease;
        }
      } else {
        TurnTunnelOff(p.stopOk);
      }
    }
  }

  // ---------------------------------------------------------------- runs

  datatype Event = Polled(poll: Poll) | TunnelDies

  function Next(cfg: Config, s: System, e: Event): System {
    match e
    case Polled(p) => After(cfg, s, p)
    case TunnelDies => s.(tunnel := s.tunnel.(active := false))
  }

  /** The system after a run of events. */
  function Run(cfg: Config, s: System, es: seq<Event>): System {
    if es == [] then s else Next(cfg, Run(cfg, s, es[..|es| - 1]), es[|es| - 1])
  }

  /** The latest accepted response of `es` that carried `token`. */
  function LatestFor(cfg: Config, es: seq<Event>, token: Option<Token>): Option<Response> {
    if es == [] then None else
      var e := es[|es| - 1];
      if e.Polled? && e.poll.response.token == token && Accepted(cfg, e.poll)
      then Some(e.poll.response)
      else LatestFor(cfg, es[..|es| - 1], token)
  }

  predicate Accepted(cfg: Config, p: Poll) {
    Granted(p.response, p.now) && ProfileKey(cfg, p.response.profile).Some?
  }

  /** The tracked state tells the truth about a running tunnel: it was started with the
      tracked token and profile, and the tracked lease and expiry are those of the
      latest accepted response carrying that token. */
  predicate Truthful(cfg: Config, s: System, es: seq<Event>) {
    s.tunnel.active && s.tracked.hash.Some? ==>
      && s.tracked.hash == s.tunnel.origin.token
      && ProfileKey(cfg, s.tunnel.origin.profile) == Some(s.tracked.profileKey)
      && var latest := LatestFor(cfg, es, s.tracked.hash);
         latest.Some? && s.tracked.lease == latest.value.lease && s.tracked.expires == latest.value.expires
  }

  /** From any tunnel an earlier process may have left, after any polls, failures and
      deaths, the tracked state is truthful. */
  lemma {:induction false} TrackedStateTruthful(cfg: Config, left: Tunnel, es: seq<Event>)
    ensures Truthful(cfg, Run(cfg, System(UNKNOWN, left), es), es)
    decreases |es|
  {
    if es != [] {
      var before := es[..|es| - 1];
      TrackedStateTruthful(cfg, left, before);
      var s := Run(cfg, System(UNKNOWN, left), before);
      var e := es[|es| - 1];
      match e
      case TunnelDies =>
      case Polled(p) => assert Decide(cfg, s, p).TurnOff? <==> !Accepted(cfg, p);
    }
  }

  // ---------------------------------------------------------------- signed responses

  /** What the server signs into a token. */
  datatype Claims = Claims(lease: Lease, expires: Millis, profile: Option<Selection>)

  predicate Signed(sign: Token -> Claims, r: Response) {
    r.token.Some? ==> sign(r.token.value) == Claims(r.lease, r.expires, r.profile)
  }

  predicate AllSigned(sign: Token -> Claims, es: seq<Event>) {
    forall i | 0 <= i < |es| && es[i].Polled? :: Signed(sign, es[i].poll.response)
  }

  /** What is tracked about a running tunnel is what it was started with. */
  predicate Faithful(cfg: Config, s: System) {
    s.tunnel.active && s.tracked.hash.Some? ==>
      && s.tracked.hash == s.tunnel.origin.token
      && ProfileKey(cfg, s.tunnel.origin.profile) == Some(s.tracked.profileKey)
      && s.tracked.lease == s.tunnel.origin.lease && s.tracked.expires == s.tunnel.origin.expires
  }

  predicate OriginSigned(sign: Token -> Claims, s: System) {
    s.tunnel.active && s.tracked.hash.Some? ==> Signed(sign, s.tunnel.origin)
  }

  lemma {:induction false} TrackedStateFaithful(cfg: Config, sign: Token -> Claims, left: Tunnel, es: seq<Event>)
    requires AllSigned(sign, es)
    ensures Faithful(cfg, Run(cfg, System(UNKNOWN, left), es))
    ensures OriginSigned(sign, Run(cfg, System(UNKNOWN, left), es))
    decreases |es|
  {
    if es != [] {
      var before := es[..|es| - 1];
      assert forall i | 0 <= i < |before| :: before[i] == es[i];
      TrackedStateFaithful(cfg, sign, left, before);
      FaithfulStep(cfg, sign, Run(cfg, System(UNKNOWN, left), before), es[|es| - 1]);
    }
  }

  lemma FaithfulStep(cfg: Config, sign: Token -> Claims, s: System, e: Event)
    requires Faithful(cfg, s) && OriginSigned(sign, s) && (e.Polled? ==> Signed(sign, e.poll.response))
    ensures Faithful(cfg, Next(cfg, s, e)) && OriginSigned(sign, Next(cfg, s, e))
  {
  }

  predicate AllOk(calls: seq<Call>) {
    forall c | c in calls :: c.ok
  }

  /** A poll whose calls succeed leaves the tunnel as the response asks: off, with
      nothing tracked, when access is withdrawn, expired or its profile is refused;
      otherwise running that profile under that lease. */
  lemma PollSettles(cfg: Config, sign: Token -> Claims, left: Tunnel, es: seq<Event>, p: Poll)
    requires AllSigned(sign, es) && Signed(sign, p.response)
    requires AllOk(Calls(cfg, Run(cfg, System(UNKNOWN, left), es), p))
    ensures var t := After(cfg, Run(cfg, System(UNKNOWN, left), es), p);
      if Accepted(cfg, p)
      then t.tunnel.active && t.tunnel.origin.profile == p.response.profile && t.tunnel.origin.lease == p.response.lease
      else !t.tunnel.active && t.tracked == UNKNOWN
  {
    var s := Run(cfg, System(UNKNOWN, left), es);
    TrackedStateFaithful(cfg, sign, left, es);
    var calls := Calls(cfg, s, p);
    assert forall i | 0 <= i < |calls| :: calls[i].ok;
    if Decide(cfg, s, p).Keep? {
      ProfileKeyInjective(cfg, s.tunnel.origin.profile, p.response.profile);
    }
  }

  /** Without signatures the profile is still right, and the lease is exactly unless the tunnel
      is kept while its lease is not the tracked one. */
  lemma PollSettlesUnsigned(cfg: Config, left: Tunnel, es: seq<Event>, p: Poll)
    requires AllOk(Calls(cfg, Run(cfg, System(UNKNOWN, left), es), p))
    ensures var s := Run(cfg, System(UNKNOWN, left), es);
      var t := After(cfg, s, p);
      if Accepted(cfg, p) then
        && t.tunnel.active && t.tunnel.origin.profile == p.response.profile
        && (t.tunnel.origin.lease == p.response.lease <==>
              !(Decide(cfg, s, p).Keep? && s.tunnel.origin.lease != s.tracked.lease))
      else !t.tunnel.active && t.tracked == UNKNOWN
  {
    var s := Run(cfg, System(UNKNOWN, left), es);
    TrackedStateTruthful(cfg, left, es);
    var calls := Calls(cfg, s, p);
    assert forall i | 0 <= i < |calls| :: calls[i].ok;
    if Decide(cfg, s, p).Keep? {
      ProfileKeyInjective(cfg, s.tunnel.origin.profile, p.response.profile);
    }
  }

  /** A poll starts no tunnel, and leaves none if its stop succeeds, when the response carries no
      token or an expired one, names no profile, a malformed name, a version that is not positive,
      a profile that is not configured or is configured in another version, or unsound routes. */
  lemma RefusedAccess(cfg: Config, s: System, p: Poll)
    requires
      var r := p.response;
      || r.token.None? || (r.expires != 0 && r.expires <= p.now) || r.profile.None?
      || var (name, version) := (r.profile.value.name, r.profile.value.version);
         || name == "" || |name| > 64 || !('a' <= name[0] <= 'z')
         || (exists c :: c in name && !('a' <= c <= 'z' || '0' <= c <= '9' || c in "_.-"))
         || version <= 0 || name !in cfg || cfg[name].version != version || !cfg[name].sound
    ensures forall c | c in Calls(cfg, s, p) :: c.StopCall?
    ensures !s.tunnel.active || p.stopOk ==>
      !After(cfg, s, p).tunnel.active && After(cfg, s, p).tracked == Tracked(None, "", 0, "")
  {
    var r := p.response;
    if r.profile.Some? && ValidProfileName(r.profile.value.name) { NameChars(r.profile.value.name); }
    assert !Accepted(cfg, p);
  }

  /** Otherwise a poll whose calls succeed leaves the tunnel running that profile, and what is
      tracked carries that profile's key. */
  lemma GrantedAccess(cfg: Config, left: Tunnel, es: seq<Event>, p: Poll)
    requires
      var r := p.response;
      && r.token.Some? && (r.expires == 0 || p.now < r.expires) && r.profile.Some?
      && var (name, version) := (r.profile.value.name, r.profile.value.version);
         && 1 <= |name| <= 64 && 'a' <= name[0] <= 'z'
         && (forall c | c in name :: 'a' <= c <= 'z' || '0' <= c <= '9' || c in "_.-")
         && version > 0 && name in cfg && cfg[name].version == version && cfg[name].sound
    requires forall c | c in Calls(cfg, Run(cfg, System(UNKNOWN, left), es), p) :: c.ok
    ensures var t := After(cfg, Run(cfg, System(UNKNOWN, left), es), p);
      && t.tunnel.active && t.tunnel.origin.profile == p.response.profile
      && t.tracked.profileKey == p.response.profile.value.name + ":" + Decimal(p.response.profile.value.version)
  {
    var name := p.response.profile.value.name;
    assert forall i | 0 <= i < |name| :: name[i] in name;
    assert Accepted(cfg, p);
    PollSettlesUnsigned(cfg, left, es, p);
    var s, t := Run(cfg, System(UNKNOWN, left), es), After(cfg, Run(cfg, System(UNKNOWN, left), es), p);
    TrackedStateTruthful(cfg, left, es);
    var calls := Calls(cfg, s, p);
    assert forall i | 0 <= i < |calls| :: calls[i].ok;
  }

  lemma NameChars(name: string)
    requires ValidProfileName(name)
    ensures forall c | c in name :: 'a' <= c <= 'z' || '0' <= c <= '9' || c in "_.-"
  {
  }

  /** A failed stop leaves the tunnel running, and no other token or profile is tracked; when
      access was to end, nothing changes at all. */
  lemma FailedStop(cfg: Config, s: System, p: Poll)
    requires StopCall(false) in Calls(cfg, s, p)
    ensures s.tunnel.active && After(cfg, s, p).tunnel == s.tunnel && Calls(cfg, s, p) == [StopCall(false)]
    ensures After(cfg, s, p).tracked.hash == s.tracked.hash
    ensures After(cfg, s, p).tracked.profileKey == s.tracked.profileKey
    ensures s.tracked.hash != p.response.token || !Accepted(cfg, p) ==> After(cfg, s, p) == s
  {
  }

  /** Only a response's own token may carry new claims past a failed stop: then the
      change is taken as made, and the same response never asks for it again. */
  lemma FailedStopRetried(cfg: Config, s: System, p: Poll, q: Poll)
    requires s.tunnel.active && s.tracked.hash.Some? && s.tracked.profileKey != ""
    requires Accepted(cfg, p) && Decide(cfg, s, p).Replace? && !p.stopOk
    requires q.response == p.response && Accepted(cfg, q) && p.later <= q.later
    ensures Decide(cfg, After(cfg, s, p), q).Replace? <==>
              s.tracked.hash != p.response.token || Some(s.tracked.profileKey) != ProfileKey(cfg, p.response.profile)
  {
  }

  /** Poll `k` asked for a restart with another lease under the tracked token, and the stop
      failed. */
  predicate Forgets(cfg: Config, left: Tunnel, es: seq<Event>, k: nat)
    requires k < |es|
  {
    var s := Run(cfg, System(UNKNOWN, left), es[..k]);
    && es[k].Polled? && Decide(cfg, s, es[k].poll).Replace? && !es[k].poll.stopOk
    && es[k].poll.response.token == s.tracked.hash && es[k].poll.response.lease != s.tracked.lease
  }

  /** Nothing else makes the tracked lease another than that of the running tunnel. */
  lemma {:induction false} LeaseFaithful(cfg: Config, left: Tunnel, es: seq<Event>)
    requires forall k: nat | k < |es| :: !Forgets(cfg, left, es, k)
    ensures var s := Run(cfg, System(UNKNOWN, left), es);
      s.tunnel.active && s.tracked.hash.Some? ==> s.tunnel.origin.lease == s.tracked.lease
    decreases |es|
  {
    if es != [] {
      var before, last := es[..|es| - 1], |es| - 1;
      forall k: nat | k < |before| ensures !Forgets(cfg, left, before, k) {
        assert before[..k] == es[..k] && !Forgets(cfg, left, es, k);
      }
      LeaseFaithful(cfg, left, before);
      assert !Forgets(cfg, left, es, last);
    }
  }

  /** So a poll that follows no such poll, and whose calls succeed, settles the lease too. */
  lemma PollSettlesLease(cfg: Config, left: Tunnel, es: seq<Event>, p: Poll)
    requires forall k: nat | k < |es| :: !Forgets(cfg, left, es, k)
    requires Accepted(cfg, p) && AllOk(Calls(cfg, Run(cfg, System(UNKNOWN, left), es), p))
    ensures var t := After(cfg, Run(cfg, System(UNKNOWN, left), es), p);
      t.tunnel.active && t.tunnel.origin.profile == p.response.profile && t.tunnel.origin.lease == p.response.lease
  {
    hide Forgets;
    PollSettlesUnsigned(cfg, left, es, p);
    LeaseFaithful(cfg, left, es);
  }

  /** An unsigned response shows the gap: the lease changes under the same token, the
      stop fails, and the next poll keeps a tunnel of the old lease. */
  lemma FailedStopForgotten()
    ensures var cfg := map["web" := Profile(1, true)];
      var sel := Some(Selection("web", 1));
      var first := Response(Some(7), 0, "a", sel);
      var second := Response(Some(7), 0, "b", sel);
      var s := System(Tracked(Some(7), "web:1", 0, "a"), Tunnel(true, first));
      var t := After(cfg, s, Poll(second, 0, 0, false, true));
      && Decide(cfg, s, Poll(second, 0, 0, false, true)).Replace?
      && Decide(cfg, t, Poll(second, 1, 1, true, true)).Keep?
      && t.tunnel.origin.lease == "a"
  {
    assert Decimal(1) == "1";
    assert "web" + ":" + "1" == "web:1";
  }

  /** After a granting poll whose calls succeed, the tracked expiry is no later than the
      server allows and is either up to date or more than the margin away. */
  lemma ExpiryBound(cfg: Config, s: System, p: Poll)
    requires Accepted(cfg, p) && p.response.expires > 0 && AllOk(Calls(cfg, s, p))
    ensures var x := After(cfg, s, p).tracked.expires;
      x <= p.response.expires && (x == p.response.expires || x > p.later + 30_000)
  {
    var calls := Calls(cfg, s, p);
    assert forall i | 0 <= i < |calls| :: calls[i].ok;
  }

  /** A server that keeps extending, polled no further apart than the margin, never
      lets the running credential lapse before the next poll at `next`. */
  lemma NeverLapses(cfg: Config, sign: Token -> Claims, left: Tunnel, es: seq<Event>, p: Poll, next: Millis)
    requires AllSigned(sign, es) && Signed(sign, p.response)
    requires Accepted(cfg, p) && p.response.expires > p.later + RENEWAL_MARGIN && p.response.expires > 0
    requires AllOk(Calls(cfg, Run(cfg, System(UNKNOWN, left), es), p))
    requires next <= p.later + RENEWAL_MARGIN
    ensures var t := After(cfg, Run(cfg, System(UNKNOWN, left), es), p);
      t.tunnel.active && t.tunnel.origin.expires > next
  {
    var s := Run(cfg, System(UNKNOWN, left), es);
    ExpiryBound(cfg, s, p);
    PollSettles(cfg, sign, left, es, p);
    TrackedStateFaithful(cfg, sign, left, es);
    FaithfulStep(cfg, sign, s, Polled(p));
    var calls := Calls(cfg, s, p);
    assert forall i | 0 <= i < |calls| :: calls[i].ok;
  }

  /** Without signatures the same holds of the latest expiry that came with the running
      token. */
  lemma NeverLapsesUnsigned(cfg: Config, left: Tunnel, es: seq<Event>, p: Poll, next: Millis)
    requires Accepted(cfg, p) && p.response.expires > p.later + RENEWAL_MARGIN && p.response.expires > 0
    requires AllOk(Calls(cfg, Run(cfg, System(UNKNOWN, left), es), p))
    requires next <= p.later + RENEWAL_MARGIN
    ensures var all := es + [Polled(p)];
      var t := Run(cfg, System(UNKNOWN, left), all);
      && t.tunnel.active && t.tracked.hash == t.tunnel.origin.token
      && var latest := LatestFor(cfg, all, t.tunnel.origin.token);
         latest.Some? && latest.value.expires > next
  {
    var all := es + [Polled(p)];
    var s := Run(cfg, System(UNKNOWN, left), es);
    assert all[..|all| - 1] == es;
    assert Run(cfg, System(UNKNOWN, left), all) == After(cfg, s, p);
    TrackedStateTruthful(cfg, left, all);
    ExpiryBound(cfg, s, p);
    PollSettlesUnsigned(cfg, left, es, p);
  }

  // ---------------------------------------------------------------- no churn

  function CallsOf(cfg: Config, s: System, ps: seq<Poll>): seq<Call>
    decreases |ps|
  {
    if ps == [] then [] else Calls(cfg, s, ps[0]) + CallsOf(cfg, After(cfg, s, ps[0]), ps[1..])
  }

  /** The polls of a tunnel with tracked state `t` that ask for nothing new: its profile and
      lease, and an expiry that is none, the stored one, or a later one while the stored one
      is not near.  The expiry of a response with the tracked token becomes the stored one. */
  predicate Extends(cfg: Config, t: Tracked, ps: seq<Poll>)
    decreases |ps|
  {
    ps == [] ||
    var p, r := ps[0], ps[0].response;
    && Accepted(cfg, p) && ProfileKey(cfg, r.profile) == Some(t.profileKey) && r.lease == t.lease
    && (r.expires == 0 || 0 < t.expires == r.expires || p.later + 30_000 < t.expires <= r.expires)
    && Extends(cfg, if r.token == t.hash then t.(expires := r.expires) else t, ps[1..])
  }

  /** However often the server signs a new token, a running tunnel is left alone through a
      series of polls exactly if they ask for nothing new. */
  lemma {:induction false} NoChurn(cfg: Config, s: System, ps: seq<Poll>)
    requires s.tunnel.active && s.tracked.hash.Some?
    requires forall i | 0 <= i < |ps| :: 0 <= ps[i].now && 0 <= ps[i].later
    ensures CallsOf(cfg, s, ps) == [] <==> Extends(cfg, s.tracked, ps)
    decreases |ps|
  {
    if ps != [] {
      assert ps[0].now >= 0 && ps[0].later >= 0;
      if ProfileKey(cfg, ps[0].response.profile) == Some(s.tracked.profileKey) {
        KeyNotEmpty(cfg, ps[0].response.profile);
      }
      if Decide(cfg, s, ps[0]).Keep? {
        NoChurn(cfg, After(cfg, s, ps[0]), ps[1..]);
      }
    }
  }

  lemma KeyNotEmpty(cfg: Config, sel: Option<Selection>)
    requires ProfileKey(cfg, sel).Some?
    ensures ProfileKey(cfg, sel).value != ""
  {
    assert |ProfileKey(cfg, sel).value| > 0;
  }
}
