/**
 One bounded HTTP exchange and what both services share around it
 (src/tarkka/application/policy_http_exchange.py and the helpers of
 src/tarkka/application/http_acquisition.py).
 */
module HttpExchange {
  import opened Wrappers
  import opened Identities
  import opened TraversalCheckpoints
  import opened DurableStores

  /** URI handling that stays abstract. */
  datatype Web = Web(
    normalize: string -> Option<Uri>, requiresTransient: Uri -> bool,
    join: (string, string) -> string, hostname: string -> string,
    snapshot: (string, string, int, seq<(string, string)>, seq<string>, nat) -> Option<Facts>)

  // ----- clocks and budgets

  /** A reading `_elapsed` accepts. */
  predicate Usable(reading: Option<real>, startedAt: real) {
    reading.Some? && reading.value - startedAt >= 0.0
  }

  /** Since the reading `startedAt`, taken when `b0` backward readings had been counted. */
  ghost predicate OnTime(c: Clock, startedAt: real, b0: nat)
    reads c
  {
    c.latest.Some? && b0 <= c.backward && (c.backward == b0 ==> startedAt <= c.latest.value)
  }

  /** No reading from index `n` on comes so late that a wait would use up the elapsed budget. */
  ghost predicate InTime(p: Policy, base: real, startedAt: real, readings: seq<Option<real>>, n: nat) {
    p.maxElapsed.Some? ==>
      forall i :: n <= i < |readings| && readings[i].Some? ==>
                    base + (readings[i].value - startedAt) + p.minInterval < p.maxElapsed.value
  }

  /** The reading leaves some of the elapsed budget. */
  predicate Within(p: Policy, base: real, startedAt: real, reading: Option<real>) {
    p.maxElapsed.Some? ==> Usable(reading, startedAt) && base + (reading.value - startedAt) < p.maxElapsed.value
  }

  /**
   Where there is an elapsed limit, the budget was checked `k` times since the first `n` readings, each time with some
   left.
   */
  predicate BudgetChecked(p: Policy, base: real, startedAt: real, readings: seq<Option<real>>, n: nat, k: nat) {
    p.maxElapsed.Some? ==>
      |readings| == n + k && forall i :: n <= i < |readings| ==> Within(p, base, startedAt, readings[i])
  }

  lemma CheckedAgain(p: Policy, base: real, startedAt: real, before: seq<Option<real>>, readings: seq<Option<real>>,
                     n: nat, j: nat, k: nat)
    requires before <= readings && BudgetChecked(p, base, startedAt, before, n, j) &&
             BudgetChecked(p, base, startedAt, readings, |before|, k)
    ensures BudgetChecked(p, base, startedAt, readings, n, j + k)
  {
  }

  /** Where an elapsed limit makes the clock matter: every reading was usable, in order, and before the limit. */
  twostate predicate Punctual(w: World, base: real, startedAt: real, b0: nat)
    reads w, w.clock
  {
    w.policy.maxElapsed.Some? ==>
      && w.clock.backward == b0 && w.clock.unusable == old(w.clock.unusable)
      && InTime(w.policy, base, startedAt, w.clock.readings, |old(w.clock.readings)|)
  }

  /** No port failed, and no elapsed limit interfered. */
  twostate predicate Undisturbed(w: World, base: real, startedAt: real, b0: nat)
    reads w, w.clock
  {
    w.faults == old(w.faults) && Punctual(w, base, startedAt, b0)
  }

  /** No port failed and the clock never did either. */
  twostate predicate Calm(w: World, base: real, startedAt: real, b0: nat)
    reads w, w.clock
  {
    && w.faults == old(w.faults) && w.clock.backward == b0 && w.clock.unusable == old(w.clock.unusable)
    && InTime(w.policy, base, startedAt, w.clock.readings, |old(w.clock.readings)|)
  }

  /** No port failed and the clock did not either. */
  twostate predicate Orderly(w: World)
    reads w, w.clock
  {
    w.faults == old(w.faults) && w.clock.backward == old(w.clock.backward) && w.clock.unusable == old(w.clock.unusable)
  }

  /** The clock failed, went back, or had not passed `startedAt`. */
  twostate predicate Hitched(c: Clock, startedAt: real)
    reads c
  {
    !(old(c.latest).Some? && startedAt <= old(c.latest).value && c.backward == old(c.backward) &&
      c.unusable == old(c.unusable))
  }

  /** Everything only grew, and time went on. */
  twostate predicate Onward(w: World)
    reads w, w.clock
  {
    && old(w.history) <= w.history && Keeps(old(w.disk), w.disk)
    && old(w.faults) <= w.faults && old(w.replies) <= w.replies && old(w.answers) <= w.answers
    && Ticked(w.clock)
  }

  twostate lemma StandsStill(w: World)
    requires unchanged(w) && unchanged(w.clock)
    ensures Onward(w)
  {
    KeepsItself(w.disk);
  }

  /** The start time was read. */
  predicate StartRead(readings: seq<Option<real>>, m: nat) {
    m < |readings| && readings[m].Some?
  }

  /** `_elapsed`: raises when the clock is unusable or moved backwards. */
  method Elapsed(w: World, cp: Checkpoint, startedAt: real) returns (elapsed: Option<real>)
    requires w.Good()
    modifies w.clock
    ensures w.Good() && Ticked(w.clock) && |w.clock.readings| == |old(w.clock.readings)| + 1
    ensures var t := w.clock.readings[|old(w.clock.readings)|];
            && elapsed == (if Usable(t, startedAt) then Some(cp.budget.elapsed + (t.value - startedAt)) else None)
            && (t.Some? ==> w.clock.latest == t && w.clock.unusable == old(w.clock.unusable))
            && (t.None? ==> w.clock.unusable == old(w.clock.unusable) + 1)
    ensures elapsed.None? ==> Hitched(w.clock, startedAt)
  {
    var now := w.ReadClock();
    if now.None? || now.value - startedAt < 0.0 {
      return None;
    }
    return Some(cp.budget.elapsed + (now.value - startedAt));
  }

  /** `_remaining_elapsed`: raises when the elapsed budget is used up. */
  method RemainingElapsed(w: World, cp: Checkpoint, startedAt: real, ghost b0: nat)
    returns (ok: bool, remaining: Option<real>)
    requires w.policy.Valid() && w.Good() && OnTime(w.clock, startedAt, b0)
    modifies w.clock
    ensures w.Good() && Ticked(w.clock) && OnTime(w.clock, startedAt, b0)
    ensures Punctual(w, cp.budget.elapsed, startedAt, b0) ==> ok
    ensures w.policy.maxElapsed.None? ==> ok && remaining == None && w.clock.readings == old(w.clock.readings) &&
                                          w.clock.backward == old(w.clock.backward) &&
                                          w.clock.latest == old(w.clock.latest)
    ensures w.policy.maxElapsed.Some? ==>
              && |w.clock.readings| == |old(w.clock.readings)| + 1
              && var t := w.clock.readings[|old(w.clock.readings)|];
                 && (ok <==> Within(w.policy, cp.budget.elapsed, startedAt, t))
                 && (ok ==> w.clock.latest == t)
                 && (ok ==> remaining == Some(w.policy.maxElapsed.value - (cp.budget.elapsed + (t.value - startedAt))))
  {
    hide World.Good;
    if w.policy.maxElapsed.None? {
      return true, None;
    }
    var elapsed := Elapsed(w, cp, startedAt);
    if elapsed.None? || w.policy.maxElapsed.value - elapsed.value <= 0.0 {
      return false, None;
    }
    return true, Some(w.policy.maxElapsed.value - elapsed.value);
  }

  /** The first resolved address the policy allows, if any is. */
  function FirstAllowed(p: Policy, addresses: seq<string>): (address: Option<string>)
    ensures address.None? <==> forall i :: 0 <= i < |addresses| ==> !p.allowsAddress(addresses[i])
    ensures address.Some? ==> p.allowsAddress(address.value) &&
                              exists i :: 0 <= i < |addresses| && addresses[i] == address.value &&
                                          forall j :: 0 <= j < i ==> !p.allowsAddress(addresses[j])
  {
    if addresses == [] then None
    else if p.allowsAddress(addresses[0]) then Some(addresses[0])
    else
      var address := FirstAllowed(p, addresses[1..]);
      assert forall i :: 0 < i < |addresses| ==> addresses[i] == addresses[1..][i - 1];
      assert address.Some? ==> exists i :: 0 <= i < |addresses| && addresses[i] == address.value &&
                                           forall j :: 0 <= j < i ==> !p.allowsAddress(addresses[j]) by {
        if address.Some? {
          var k :| 0 <= k < |addresses[1..]| && addresses[1..][k] == address.value &&
                   forall j :: 0 <= j < k ==> !p.allowsAddress(addresses[1..][j]);
          assert addresses[k + 1] == address.value;
        }
      }
      address
  }

  /** At most one host was resolved, the URI's own, and at most one request made, of the first address allowed there. */
  predicate Pinned(p: Policy, web: Web, uri: string, answers: seq<Answer>, a: nat, replies: seq<Reply>, n: nat) {
    && |answers| <= a + 1 && |replies| <= n + 1
    && (|answers| > a ==> answers[a].host == web.hostname(uri))
    && (|replies| > n ==>
          |answers| > a && replies[n].uri == uri && Some(replies[n].address) == FirstAllowed(p, answers[a].addresses))
  }

  lemma PinnedUri(p: Policy, web: Web, uri: string, answers: seq<Answer>, a: nat, replies: seq<Reply>, n: nat)
    requires Pinned(p, web, uri, answers, a, replies, n)
    ensures |replies| <= n + 1 && (n < |replies| ==> replies[n].uri == uri)
  {
  }

  /** In a reliable world: the host of the URI has an address that is allowed. */
  predicate Reaches(w: World, web: Web, uri: string) {
    && w.reliable && w.policy.maxElapsed.None? && w.policy.allowsUri(uri)
    && FirstAllowed(w.policy, w.hosts(web.hostname(uri))).Some?
  }

  /**
   The first half of `PolicySafeHttpExchange.request`: resolve the host of an allowed URI and choose its first allowed
   address.
   */
  method PinAddress(w: World, web: Web, active: Checkpoint, uri: string, startedAt: real, ghost b0: nat)
    returns (address: Option<string>)
    requires w.policy.Valid() && w.Good() && OnTime(w.clock, startedAt, b0) && w.disk.durable == Some(active)
    modifies w`disk, w`history, w`faults, w`answers, w.clock
    ensures w.Good() && (old(w.Settled()) ==> w.Settled()) && Ticked(w.clock) && OnTime(w.clock, startedAt, b0)
    ensures w.disk == old(w.disk) && w.history == old(w.history)
    ensures old(w.faults) <= w.faults && old(w.answers) <= w.answers && |w.answers| <= |old(w.answers)| + 1
    ensures |w.answers| > |old(w.answers)| ==>
              var answer := w.answers[|old(w.answers)|];
              && answer.host == web.hostname(uri) && address == FirstAllowed(w.policy, answer.addresses)
              && (w.reliable ==> answer.addresses == w.hosts(answer.host))
    ensures address.Some? ==>
              && |w.answers| > |old(w.answers)| && w.faults == old(w.faults)
              && BudgetChecked(w.policy, active.budget.elapsed, startedAt, w.clock.readings, |old(w.clock.readings)|, 1)
    ensures address.None? && Undisturbed(w, active.budget.elapsed, startedAt, b0) ==> |w.answers| > |old(w.answers)|
    ensures w.reliable ==> w.faults == old(w.faults)
    ensures w.policy.maxElapsed.None? ==> w.clock.readings == old(w.clock.readings)
  {
    hide World.Good;
    var ok, timeout := RemainingElapsed(w, active, startedAt, b0);
    if !ok {
      return None;
    }
    var addresses := w.Resolve(web.hostname(uri), startedAt);
    if addresses.None? {
      return None;
    }
    if addresses.value == [] {
      return None;
    }
    address := FirstAllowed(w.policy, addresses.value);
  }

  /** `_request_once` and `PolicySafeHttpExchange.request`: `None` is any raised error. */
  method RequestOnce(w: World, web: Web, active: Checkpoint, uri: string, startedAt: real, ghost b0: nat)
    returns (response: Option<Response>)
    requires w.policy.Valid() && w.Good() && w.Settled()
    requires w.disk.durable == Some(active) && Charged(w.disk, w.policy, active)
    requires w.disk.calls < active.budget.requests && OnTime(w.clock, startedAt, b0)
    modifies w`disk, w`history, w`faults, w`answers, w`replies, w.clock
    ensures w.Good() && old(w.history) <= w.history && Keeps(old(w.disk), w.disk)
    ensures Ticked(w.clock) && OnTime(w.clock, startedAt, b0)
    ensures w.disk == old(w.disk).(calls := w.disk.calls, received := w.disk.received) &&
            w.disk.calls <= old(w.disk).calls + 1
    ensures old(w.faults) <= w.faults && old(w.replies) <= w.replies && old(w.answers) <= w.answers
    ensures w.policy.maxElapsed.None? ==> w.clock.readings == old(w.clock.readings)
    ensures response.None? ==> w.Settled()
    ensures response.Some? ==>
              && w.faults == old(w.faults)
              && active.budget.bytes + |response.value.body| <= w.policy.maxBytes
              && w.disk.received == old(w.disk).received + |response.value.body|
              && |w.replies| == |old(w.replies)| + 1 && |w.answers| == |old(w.answers)| + 1
              && w.replies[|old(w.replies)|].uri == uri && w.replies[|old(w.replies)|].response == response.value
              && w.replies[|old(w.replies)|].cap == w.policy.maxBytes - active.budget.bytes
              && BudgetChecked(w.policy, active.budget.elapsed, startedAt, w.clock.readings, |old(w.clock.readings)|, 2)
    ensures Pinned(w.policy, web, uri, w.answers, |old(w.answers)|, w.replies, |old(w.replies)|)
    ensures w.reliable ==> w.faults == old(w.faults)
    ensures Reaches(w, web, uri) ==> response.Some?
    ensures response.None? && w.policy.allowsUri(uri) && Undisturbed(w, active.budget.elapsed, startedAt, b0) ==>
              && w.replies == old(w.replies) && |w.answers| == |old(w.answers)| + 1
              && FirstAllowed(w.policy, w.answers[|old(w.answers)|].addresses).None?
  {
    hide World.Good, Accounted, Keeps, TargetsSafe, BudgetChecked, FirstAllowed;
    KeepsItself(w.disk);
    response := None;
    var remainingBytes := w.policy.maxBytes - active.budget.bytes;
    if remainingBytes < 0 || !w.policy.allowsUri(uri) {
      return;
    }
    var address := PinAddress(w, web, active, uri, startedAt, b0);
    if address.None? {
      MoreExcused(w.policy, old(w.faults), w.faults);
      return;
    }
    ghost var read := w.clock.readings;
    var ok, timeout := RemainingElapsed(w, active, startedAt, b0);
    if !ok {
      return;
    }
    CheckedAgain(w.policy, active.budget.elapsed, startedAt, read, w.clock.readings, |old(w.clock.readings)|, 1, 1);
    response := w.Request(uri, address.value, remainingBytes, startedAt);
    MoreExcused(w.policy, old(w.faults), w.faults);
    if response.Some? && |response.value.body| > remainingBytes {
      response := None;
    }
  }

  /** `_wait_for_followup`: false is any raised error. Sleeping changes nothing durable. */
  method WaitForFollowup(w: World, active: Checkpoint, depth: nat, startedAt: real, ghost b0: nat) returns (ok: bool)
    requires w.policy.Valid() && w.Good() && OnTime(w.clock, startedAt, b0)
    modifies w.clock
    ensures w.Good() && Ticked(w.clock) && OnTime(w.clock, startedAt, b0)
    ensures ok ==> active.budget.AllowsRequest(w.policy, depth, 0, Some(w.policy.minInterval)) == Ok(true)
    ensures ok ==>
              BudgetChecked(w.policy, active.budget.elapsed, startedAt, w.clock.readings, |old(w.clock.readings)|, 2)
    ensures ok && w.policy.maxElapsed.Some? ==>
              active.budget.elapsed + (w.clock.readings[|old(w.clock.readings)|].value - startedAt)
                  + w.policy.minInterval
              <= w.policy.maxElapsed.value
    ensures !ok && Punctual(w, active.budget.elapsed, startedAt, b0) ==>
              active.budget.AllowsRequest(w.policy, depth, 0, Some(w.policy.minInterval)) != Ok(true)
    ensures !ok && active.budget.AllowsRequest(w.policy, depth, 0, Some(w.policy.minInterval)) == Ok(true) ==>
              var n := |old(w.clock.readings)|;
              && w.policy.maxElapsed.Some? && n < |w.clock.readings|
              && var first := w.clock.readings[n];
                 || !Within(w.policy, active.budget.elapsed, startedAt, first)
                 || active.budget.elapsed + (first.value - startedAt) + w.policy.minInterval > w.policy.maxElapsed.value
                 || (|w.clock.readings| == n + 2 &&
                     !Within(w.policy, active.budget.elapsed, startedAt, w.clock.readings[n + 1]))
    ensures w.policy.maxElapsed.None? ==> w.clock.readings == old(w.clock.readings)
  {
    hide World.Good;
    var remaining;
    ok, remaining := RemainingElapsed(w, active, startedAt, b0);
    if !ok || (remaining.Some? && w.policy.minInterval > remaining.value) {
      return false;
    }
    if active.budget.AllowsRequest(w.policy, depth, 0, Some(w.policy.minInterval)) != Ok(true) {
      return false;
    }
    ok, remaining := RemainingElapsed(w, active, startedAt, b0);
  }

  // ----- disks in sequence

  lemma KeepsItself(d: Disk)
    ensures Keeps(d, d)
  {
  }

  lemma KeepsOn(a: Disk, b: Disk, c: Disk)
    requires Keeps(a, b) && Keeps(b, c)
    ensures Keeps(a, c)
  {
  }

  lemma KeepsReceived(before: Disk, after: Disk)
    requires Keeps(before, after)
    ensures before.received <= after.received && before.calls <= after.calls && before.saves <= after.saves
  {
  }

  lemma SavedKeepsTargets(d: Disk, cp: Checkpoint, at: real)
    requires TargetsSafe(d, cp.targets)
    ensures TargetsSafe(Saved(d, cp, at), cp.targets) && Keeps(d, Saved(d, cp, at))
  {
    KeepsTargetsSafe(d, Saved(d, cp, at), cp.targets);
  }

  lemma NothingSaved(d: Disk)
    ensures OnlySaved(d, d)
  {
  }

  lemma DurableIsHeld(w: World)
    requires w.Good() && w.disk.durable.Some?
    ensures TargetsSafe(w.disk, w.disk.durable.value.targets) && Charged(w.disk, w.policy, w.disk.durable.value)
  {
    hide World.Good, TargetsSafe, Charged, JournalSafe, IntentsFirst;
    w.Present();
  }

  lemma SettledSlack(w: World, cp: Checkpoint)
    requires w.Settled() && w.disk.durable.Some? && cp.budget.bytes == w.disk.durable.value.budget.bytes
    ensures w.disk.received - cp.budget.bytes <= Excused(w.policy, w.faults)
    ensures Slack(w.disk) <= Excused(w.policy, w.faults) + w.policy.maxBytes
  {
  }

  // ----- what a response means

  predicate IsRedirect(status: int) {
    status == 301 || status == 302 || status == 303 || status == 307 || status == 308
  }

  /** What a response within its cap means for the loop: the end, another hop, or a failure. */
  datatype Ruling = Ends | Bounces(next: string) | Stops

  function Rule(p: Policy, web: Web, uri: string, redirects: nat, r: Response): (ruling: Ruling)
    ensures ruling.Bounces? ==> p.allowsUri(ruling.next) && redirects < p.maxRedirects
  {
    if r.limitExceeded || r.location.BadLocation? then Stops
    else if !IsRedirect(r.status) then Ends
    else if r.location.NoLocation? || redirects >= p.maxRedirects then Stops
    else if !p.allowsUri(web.join(uri, r.location.text)) then Stops
    else Bounces(web.join(uri, r.location.text))
  }

  /** A pass that ended the acquisition without any port failing had this cause. */
  ghost predicate HopStopped(p: Policy, web: Web, uri: string, redirects: nat, depth: nat, budget: Budget,
                             replies: seq<Reply>, n: nat, answers: seq<Answer>, a: nat) {
    && |answers| == a + 1
    && ((|replies| == n && FirstAllowed(p, answers[a].addresses).None?) ||
        (|replies| == n + 1 && replies[n].uri == uri &&
         var rule := Rule(p, web, uri, redirects, replies[n].response);
         rule.Stops? || (rule.Bounces? && budget.AllowsRequest(p, depth, 0, Some(p.minInterval)) != Ok(true))))
  }

  // ----- the trail of redirects

  function Uris(replies: seq<Reply>): seq<string> {
    seq(|replies|, i requires 0 <= i < |replies| => replies[i].uri)
  }

  /** The replies from index `n` on came from the requested URI and then from each redirect, ending at `uri`. */
  predicate Trail(replies: seq<Reply>, n: nat, requested: string, chain: seq<string>, uri: string) {
    n <= |replies| && Uris(replies[n..]) + [uri] == [requested] + chain
  }

  lemma TrailStarts(replies: seq<Reply>, requested: string)
    ensures Trail(replies, |replies|, requested, [], requested)
  {
  }

  lemma TrailGrows(replies: seq<Reply>, n: nat, requested: string, chain: seq<string>, uri: string, r: Reply,
                   next: string)
    requires Trail(replies, n, requested, chain, uri) && r.uri == uri
    ensures |replies| == n + |chain|
    ensures Trail(replies + [r], n, requested, chain + [next], next)
    ensures |(replies + [r])| - n - 1 == |chain| && (replies + [r])[|replies + [r]| - 1] == r
    ensures Uris((replies + [r])[n + 1..]) == chain
  {
    var all := replies + [r];
    assert |Uris(replies[n..]) + [uri]| == |[requested] + chain|;
    assert all[n..] == replies[n..] + [r];
    assert Uris(all[n..]) == Uris(replies[n..]) + [uri];
    assert all[n + 1..] == all[n..][1..];
    assert Uris(all[n + 1..]) == Uris(all[n..])[1..];
  }

  /**
   The replies from index `n` on: the first to the requested URI, each other one to what the redirect before it
   refers to, within the limit of redirects.
   */
  ghost predicate Redirected(p: Policy, web: Web, requested: string, replies: seq<Reply>, n: nat) {
    && n <= |replies| <= n + p.maxRedirects + 1
    && (n < |replies| ==> replies[n].uri == requested)
    && forall i :: n < i < |replies| ==> SentTo(p, web, replies[i - 1], replies[i].uri)
  }

  /** A redirect with an acceptable reference to this URI. */
  ghost predicate SentTo(p: Policy, web: Web, reply: Reply, next: string) {
    && reply.response.status in {301, 302, 303, 307, 308}
    && reply.response.location.Reference?
    && next == web.join(reply.uri, reply.response.location.text)
    && p.allowsUri(next)
  }

  /** So far, and the request that comes next. */
  ghost predicate RedirectedTo(p: Policy, web: Web, requested: string, replies: seq<Reply>, n: nat, uri: string) {
    && Redirected(p, web, requested, replies, n)
    && |replies| <= n + p.maxRedirects
    && if n == |replies| then uri == requested else SentTo(p, web, replies[|replies| - 1], uri)
  }

  lemma RedirectedStarts(p: Policy, web: Web, requested: string, replies: seq<Reply>)
    ensures RedirectedTo(p, web, requested, replies, |replies|, requested)
  {
  }

  lemma RedirectedGrows(p: Policy, web: Web, requested: string, before: seq<Reply>, replies: seq<Reply>, n: nat,
                        uri: string)
    requires RedirectedTo(p, web, requested, before, n, uri) && before <= replies && |replies| <= |before| + 1
    requires |before| < |replies| ==> replies[|before|].uri == uri
    ensures Redirected(p, web, requested, replies, n)
  {
    hide SentTo;
    forall i | n < i < |replies| ensures SentTo(p, web, replies[i - 1], replies[i].uri) {
      if i < |before| {
        assert SentTo(p, web, before[i - 1], before[i].uri);
      }
    }
  }

  lemma RedirectedNext(p: Policy, web: Web, requested: string, replies: seq<Reply>, n: nat, redirects: nat,
                       next: string)
    requires Redirected(p, web, requested, replies, n) && |replies| == n + redirects + 1
    requires Rule(p, web, replies[|replies| - 1].uri, redirects, replies[|replies| - 1].response) == Bounces(next)
    ensures RedirectedTo(p, web, requested, replies, n, next)
  {
  }

  /** The snapshot of the last reply, if its sanitized form could be built. */
  function SnapshotOf(web: Web, requested: string, depth: nat, replies: seq<Reply>, n: nat): Option<Facts>
    requires n < |replies|
  {
    var r := replies[|replies| - 1];
    web.snapshot(requested, r.uri, r.response.status, r.response.headers, Uris(replies[n + 1..]), depth)
  }

  /** The network served the resource: the last reply ends the redirects within every limit. */
  predicate Served(p: Policy, web: Web, requested: string, depth: nat, replies: seq<Reply>, n: nat) {
    && n < |replies|
    && var r := replies[|replies| - 1];
       Rule(p, web, r.uri, |replies| - n - 1, r.response).Ends? && SnapshotOf(web, requested, depth, replies, n).Some?
  }

  /** The last reply ends the redirects, but its snapshot cannot be built. */
  predicate Unmarkable(p: Policy, web: Web, requested: string, depth: nat, replies: seq<Reply>, n: nat) {
    && n < |replies|
    && var r := replies[|replies| - 1];
       Rule(p, web, r.uri, |replies| - n - 1, r.response).Ends? && SnapshotOf(web, requested, depth, replies, n).None?
  }

  /** The last reply, if there is one, sent the loop on. */
  predicate SentOn(p: Policy, web: Web, replies: seq<Reply>, n: nat) {
    n < |replies| ==>
      Rule(p, web, replies[|replies| - 1].uri, |replies| - n - 1, replies[|replies| - 1].response).Bounces?
  }

  lemma SentOnStarts(p: Policy, web: Web, replies: seq<Reply>)
    ensures SentOn(p, web, replies, |replies|)
    ensures forall depth, requested :: !Served(p, web, requested, depth, replies, |replies|)
  {
  }

  lemma SentOnAgain(p: Policy, web: Web, replies: seq<Reply>, n: nat, redirects: nat)
    requires |replies| == n + redirects + 1
    requires Rule(p, web, replies[|replies| - 1].uri, redirects, replies[|replies| - 1].response).Bounces?
    ensures SentOn(p, web, replies, n)
  {
  }

  /** One more redirect: the trail grows by it. */
  lemma TrailGoesOn(p: Policy, web: Web, requested: string, before: seq<Reply>, replies: seq<Reply>, n: nat,
                    chain: seq<string>, uri: string, next: string)
    requires Trail(before, n, requested, chain, uri) && RedirectedTo(p, web, requested, before, n, uri)
    requires |replies| == |before| + 1 && before <= replies && replies[|before|].uri == uri
    requires Rule(p, web, uri, |chain|, replies[|before|].response) == Bounces(next)
    ensures Trail(replies, n, requested, chain + [next], next) && SentOn(p, web, replies, n)
    ensures RedirectedTo(p, web, requested, replies, n, next)
  {
    hide Rule, Trail, RedirectedTo, Redirected, SentOn;
    assert replies == before + [replies[|before|]];
    TrailGrows(before, n, requested, chain, uri, replies[|before|], next);
    SentOnAgain(p, web, replies, n, |chain|);
    RedirectedGrows(p, web, requested, before, replies, n, uri);
    RedirectedNext(p, web, requested, replies, n, |chain|, next);
  }

  /** It did not: no allowed address, an unacceptable reply, or a redirect the budget does not cover. */
  predicate Stopped(p: Policy, web: Web, requested: string, depth: nat, budget: Budget,
                    replies: seq<Reply>, n: nat, answers: seq<Answer>, a: nat) {
    && n <= |replies| && a < |answers|
    && ((|answers| - a == |replies| - n + 1 && FirstAllowed(p, answers[|answers| - 1].addresses).None? &&
         SentOn(p, web, replies, n)) ||
        (n < |replies| && |answers| - a == |replies| - n &&
         var r := replies[|replies| - 1];
         var rule := Rule(p, web, r.uri, |replies| - n - 1, r.response);
         || rule.Stops?
         || (rule.Ends? && SnapshotOf(web, requested, depth, replies, n).None?)
         || (rule.Bounces? && budget.AllowsRequest(p, depth, 0, Some(p.minInterval)) != Ok(true))))
  }

  lemma HopStoppedIsStopped(p: Policy, web: Web, requested: string, depth: nat, budget: Budget, uri: string,
                            chain: seq<string>, before: seq<Reply>, replies: seq<Reply>, n: nat, answers: seq<Answer>,
                            a: nat)
    requires Trail(before, n, requested, chain, uri) && SentOn(p, web, before, n) && before <= replies &&
             |answers| >= a + |chain|
    requires HopStopped(p, web, uri, |chain|, depth, budget, replies, |before|, answers, a + |chain|)
    ensures Stopped(p, web, requested, depth, budget, replies, n, answers, a)
    ensures !Served(p, web, requested, depth, replies, n) && !Unmarkable(p, web, requested, depth, replies, n)
  {
    hide Rule, Budget.AllowsRequest, FirstAllowed;
    assert |Uris(before[n..]) + [uri]| == |[requested] + chain|;
  }

  /** What the conclusion of the loop starts from. */
  lemma FinalIsServed(p: Policy, web: Web, requested: string, depth: nat, budget: Budget, uri: string,
                      chain: seq<string>, before: seq<Reply>, replies: seq<Reply>, n: nat, answers: seq<Answer>, a: nat)
    requires Trail(before, n, requested, chain, uri) && |answers| == a + |chain| + 1
    requires |replies| == |before| + 1 && before <= replies && replies[|before|].uri == uri
    requires Rule(p, web, uri, |chain|, replies[|before|].response).Ends?
    ensures n < |replies|
    ensures var r := replies[|before|].response;
            SnapshotOf(web, requested, depth, replies, n) ==
              web.snapshot(requested, uri, r.status, r.headers, chain, depth)
    ensures SnapshotOf(web, requested, depth, replies, n).Some? <==> Served(p, web, requested, depth, replies, n)
    ensures SnapshotOf(web, requested, depth, replies, n).None? <==> Unmarkable(p, web, requested, depth, replies, n)
    ensures SnapshotOf(web, requested, depth, replies, n).None? ==>
              Stopped(p, web, requested, depth, budget, replies, n, answers, a)
  {
    hide Rule, Budget.AllowsRequest, FirstAllowed;
    var r := replies[|before|];
    TrailGrows(before, n, requested, chain, uri, r, uri);
    assert replies == before + [r];
  }

  // ----- storing outputs

  /** Both outputs, bytes first; only what a durable intent names may be stored. */
  method StoreOutputs(w: World, sha: Sha, observation: Uuid, body: Bytes) returns (ok: bool)
    requires w.Good() && w.Settled() && WellNamed(sha, observation) && sha == Sha256(body) &&
             Intended(w.disk, Intent(sha, observation))
    modifies w`disk, w`history, w`faults
    ensures w.Good() && w.Settled() && old(w.history) <= w.history && Keeps(old(w.disk), w.disk)
    ensures w.disk ==
              old(w.disk).(artifacts := w.disk.artifacts, misfiled := w.disk.misfiled,
                           observations := w.disk.observations)
    ensures old(w.faults) <= w.faults && (!ok ==> old(w.faults) < w.faults)
    ensures ok ==> OutputsDurable(w.disk, sha, observation)
    ensures w.faults == old(w.faults) ==>
              w.disk == old(w.disk).(artifacts := old(w.disk).artifacts + {sha},
                                     observations := old(w.disk).observations[observation := ArtifactUuid(sha)])
  {
    hide World.Good, World.Settled;
    var stored := w.PutBytes(body, observation);
    if stored.None? || stored.value.sha != sha || stored.value.id != ArtifactUuid(sha) {
      return false;
    }
    IntendedStays(old(w.disk), w.disk, Intent(sha, observation));
    ok := w.SaveObservation(observation, ArtifactUuid(sha));
  }

  lemma IntendedStays(before: Disk, after: Disk, i: Intent)
    requires Intended(before, i) && after.durable == before.durable && after.journal == before.journal
    ensures Intended(after, i)
  {
  }

  lemma PairStaysDurable(before: Disk, after: Disk, sha: Sha, observation: Uuid)
    requires OutputsDurable(before, sha, observation) && Keeps(before, after)
    ensures OutputsDurable(after, sha, observation)
  {
  }
}
