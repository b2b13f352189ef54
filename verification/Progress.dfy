/** Which undisturbed executions of `register` get the device enrolled: what the network
    delivers, and how far the server and its operators have got with a device. */
module Progress {
  import opened AtomicFile
  import opened Enrollment
  import opened Wrappers

  /** What becomes of one call: no reply, one that the server made earlier to this very call, or
      the one it makes now. */
  datatype Delivery = Lost | Offered(reply: Reply) | Answered(newId: Uuid)

  /** The server's verdict on the device, if it has seen it. */
  function Status(server: Server, mac: Mac): Option<Approval> {
    if mac in server then Some(server[mac].approval) else None
  }

  predicate Willing(events: seq<Action>) {
    forall k | 0 <= k < |events| && events[k].Review? :: !events[k].verdict.Rejected?
  }

  /** What `events` may do to the verdict: an approval stands, and one that is given to a
      device that the server has seen takes effect unless the device is rejected. */
  ghost predicate Goes(before: Server, after: Server, events: seq<Action>, mac: Mac) {
    && (Status(before, mac).Some? ==> Status(after, mac).Some?)
    && (Status(before, mac) == Some(Approved) ==> Status(after, mac) == Some(Approved))
    && (Willing(events) && Status(before, mac) != Some(Rejected) ==> Status(after, mac) != Some(Rejected))
    && (Willing(events) && Status(before, mac).Some? && Status(before, mac) != Some(Rejected) ==>
          Review(mac, Approved) in events ==> Status(after, mac) == Some(Approved))
  }

  /** What has been reached stays. */
  lemma Stands(before: Server, after: Server, events: seq<Action>, mac: Mac)
    requires Goes(before, after, events, mac)
    ensures Status(before, mac).Some? ==> Status(after, mac).Some?
    ensures Status(before, mac) == Some(Approved) ==> Status(after, mac) == Some(Approved)
  {
  }

  lemma GoesNowhere(server: Server)
    ensures forall mac :: Goes(server, server, [], mac)
  {
  }

  lemma GoesOn(before: Server, between: Server, after: Server, first: seq<Action>, second: seq<Action>)
    requires forall mac :: Goes(before, between, first, mac)
    requires forall mac :: Goes(between, after, second, mac)
    ensures forall mac :: Goes(before, after, first + second, mac)
  {
    assert Willing(first + second) ==> Willing(first) && Willing(second) by {
      if Willing(first + second) {
        assert forall k | 0 <= k < |first| :: first[k] == (first + second)[k];
        assert forall k | 0 <= k < |second| :: second[k] == (first + second)[|first| + k];
      }
    }
    hide Willing, Status;
    forall mac ensures Goes(before, after, first + second, mac) {
      assert Goes(before, between, first, mac) && Goes(between, after, second, mac);
    }
  }

  lemma ServeGoes(server: Server, q: Request, newId: Uuid, events: seq<Action>)
    requires forall mac :: Review(mac, Approved) !in events
    ensures forall mac :: Goes(server, Serve(server, q, newId).0, events, mac)
    ensures Status(Serve(server, q, newId).0, q.mac).Some?
  {
    hide Willing;
  }

  lemma ReviewGoes(server: Server, mac: Mac, verdict: Approval)
    requires Status(server, mac) == Some(Pending)
    ensures var after := server[mac := server[mac].(approval := verdict)];
      forall m :: Goes(server, after, [Review(mac, verdict)], m)
  {
    var a := Review(mac, verdict);
    assert [a][0] == a && forall x :: x in [a] ==> x == a;
  }

  /** Any other event changes nothing. */
  lemma OtherGoes(server: Server, a: Action)
    requires a.Review? ==> Status(server, a.mac) != Some(Pending)
    ensures forall mac :: Goes(server, server, [a], mac)
  {
    forall mac ensures Goes(server, server, [a], mac) {
      if Review(mac, Approved) in [a] && mac in server {
        assert a == Review(mac, Approved);
        assert !server[mac].approval.Pending?;
      }
    }
  }

  /** A waiting process whose device is approved gets its token when the server handles the
      request. */
  lemma Grantable(s: State, newId: Uuid)
    requires Inv(s) && s.phase.Waiting? && Status(s.server, s.phase.proof.mac) == Some(Approved)
    ensures s.phase.call in s.sent && Serve(s.server, s.sent[s.phase.call], newId).1.Exchanged?
  {
    assert s.chain != [] && GoodPhase(s) && (Awaiting(s) || Completed(s));
  }

  // ---------------------------------------------------------------- eight attempts

  /** Before attempt `i` the server had seen the device: `status` is the verdict at the start. */
  ghost predicate Seen(status: Option<Approval>, network: nat -> Delivery, i: nat) {
    status.Some? || exists k: nat :: k < i && network(k).Answered?
  }

  /** By the first `i` backoffs the device was approved, after the server had seen it. */
  ghost predicate Cleared(status: Option<Approval>, network: nat -> Delivery, events: nat -> seq<Action>, mac: Mac,
                          i: nat) {
    status == Some(Approved) ||
    exists k: nat :: k < i && Seen(status, network, k) && Review(mac, Approved) in events(2 * k)
  }

  /** Among the first `i` attempts is one that the server answers when the device is approved. */
  ghost predicate Helped(status: Option<Approval>, network: nat -> Delivery, events: nat -> seq<Action>, mac: Mac,
                         i: nat) {
    exists k: nat :: k < i && network(k).Answered? && Cleared(status, network, events, mac, k + 1)
  }

  lemma OneMore(status: Option<Approval>, network: nat -> Delivery, events: nat -> seq<Action>, mac: Mac, i: nat)
    ensures Seen(status, network, i + 1) <==> Seen(status, network, i) || network(i).Answered?
    ensures Cleared(status, network, events, mac, i + 1) <==>
      Cleared(status, network, events, mac, i) ||
      (Seen(status, network, i) && Review(mac, Approved) in events(2 * i))
    ensures Helped(status, network, events, mac, i + 1) <==>
      Helped(status, network, events, mac, i) ||
      (network(i).Answered? && Cleared(status, network, events, mac, i + 1))
  {
    hide Status;
  }

  /** Nobody rejects the device, and one of the eight attempts is so. */
  ghost predicate Prospects(status: Option<Approval>, network: nat -> Delivery, events: nat -> seq<Action>, mac: Mac) {
    && status != Some(Rejected) && (forall k :: Willing(events(k)))
    && Helped(status, network, events, mac, MAX_RETRIES)
  }

  /** Whatever the server knew: it sees the device at attempt `i`, an operator approves the device
      before attempt `j`, and the server answers that attempt. */
  lemma ApprovedMeanwhile(status: Option<Approval>, network: nat -> Delivery, events: nat -> seq<Action>, mac: Mac,
                          i: nat, j: nat)
    requires status != Some(Rejected) && forall k :: Willing(events(k))
    requires i < j < MAX_RETRIES && network(i).Answered? && network(j).Answered?
    requires exists k: nat :: i < k <= j && Review(mac, Approved) in events(2 * k)
    ensures Prospects(status, network, events, mac)
  {
    var k: nat :| i < k <= j && Review(mac, Approved) in events(2 * k);
    assert Seen(status, network, k);
    assert Cleared(status, network, events, mac, j + 1);
  }

  /** Being further on does not hurt. */
  lemma StillProspects(before: Server, after: Server, network: nat -> Delivery, events: nat -> seq<Action>, mac: Mac,
                       n: nat)
    requires Prospects(Status(before, mac), network, events, mac) && Goes(before, after, events(n), mac)
    ensures Prospects(Status(after, mac), network, events, mac)
  {
    var status, further := Status(before, mac), Status(after, mac);
    assert forall k | Seen(status, network, k) :: Seen(further, network, k);
    var k: nat :| k < MAX_RETRIES && network(k).Answered? && Cleared(status, network, events, mac, k + 1);
    assert Cleared(further, network, events, mac, k + 1);
  }

  /** What is known of the device before attempt `i`, if nobody rejects it. */
  ghost predicate OnCourse(status: Option<Approval>, network: nat -> Delivery, events: nat -> seq<Action>, mac: Mac,
                           i: nat, now: Option<Approval>) {
    && now != Some(Rejected)
    && (Seen(status, network, i) ==> now.Some?)
    && (Cleared(status, network, events, mac, i) ==> now == Some(Approved))
    && !Helped(status, network, events, mac, i)
  }

  lemma AtFirst(server: Server, network: nat -> Delivery, events: nat -> seq<Action>, mac: Mac)
    requires Prospects(Status(server, mac), network, events, mac)
    ensures OnCourse(Status(server, mac), network, events, mac, 0, Status(server, mac))
  {
  }

  lemma NotHelped(status: Option<Approval>, network: nat -> Delivery, events: nat -> seq<Action>, mac: Mac,
                  now: Option<Approval>)
    requires OnCourse(status, network, events, mac, MAX_RETRIES, now)
    ensures !Prospects(status, network, events, mac)
  {
  }

  /** One attempt without a grant: `before` and `after` are the verdicts around its request. */
  lemma CourseOn(status: Option<Approval>, network: nat -> Delivery, events: nat -> seq<Action>, mac: Mac, i: nat,
                 start: Server, before: Server, after: Server)
    requires OnCourse(status, network, events, mac, i, Status(start, mac))
    requires Prospects(status, network, events, mac)
    requires Goes(start, before, events(2 * i), mac) && Goes(before, after, events(2 * i + 1), mac)
    requires network(i).Answered? ==> Status(after, mac).Some? && Status(before, mac) != Some(Approved)
    ensures OnCourse(status, network, events, mac, i + 1, Status(after, mac))
  {
    OneMore(status, network, events, mac, i);
    hide Seen, Cleared, Helped, Willing, Status;
  }
}
