/**
 The durable stores an acquisition writes to, and what must hold of them at every instant.

 Each method of `World` is one call through a port. Ports may fail before or after their
 write has become durable, so every combination of crash and partial commit is covered;
 `history` records the disk after each effect, `faults` how often a port did not do its
 part, and `Clock` every reading of the injected clock.
 */
module DurableStores {
  import opened Wrappers
  import opened Identities
  import opened TraversalCheckpoints
  import opened TraversalRuns

  /** An intent to commit the outputs of one policy fetch (src/tarkka/domain/policy_fetch_finalization.py). */
  datatype Marker = Marker(checkpoint: Uuid, requestedUri: Uri, sha: Sha, observation: Uuid, facts: Facts)
  {
    /** What `PolicyFetchFinalization.__post_init__` enforces. */
    predicate Valid() {
      && requestedUri == facts.requestedUri
      && observation == ObservationUuid(ArtifactUuid(sha), facts)
    }
  }

  /** One checkpoint made durable, and the last usable clock reading before it. */
  datatype Save = Save(cp: Checkpoint, readAt: real)

  /** A pair of outputs named before it is stored. */
  datatype Intent = Intent(sha: Sha, observation: Uuid)

  /**
   What is durable: the latest checkpoint and all before it, the pairs of outputs any of them or any marker
   has named, the stored outputs (`misfiled` are artifacts the store kept instead of what it was given), and the
   journal. `calls` and `received` count the network calls made and the bytes of the bodies they brought.
   */
  datatype Disk = Disk(
    durable: Option<Checkpoint>,
    saves: seq<Save>,
    intents: set<Intent>,
    artifacts: set<Sha>,
    misfiled: set<Sha>,
    observations: map<Uuid, Uuid>,
    journal: map<Uri, Marker>,
    everMarked: set<Marker>,
    calls: nat,
    received: nat)

  const BLANK: Disk := Disk(None, [], {}, {}, {}, map[], map[], {}, 0, 0)

  datatype Response = Response(status: int, headers: seq<(string, string)>, body: Bytes, limitExceeded: bool,
                               location: Location)

  /** `redirect_location`: absent, malformed (it raises), or a reference. */
  datatype Location = NoLocation | BadLocation | Reference(text: string)

  datatype StoredArtifact = StoredArtifact(sha: Sha, id: Uuid)

  /** What the transport and the resolver have answered. */
  datatype Reply = Reply(uri: string, address: string, cap: nat, response: Response)

  datatype Answer = Answer(host: string, addresses: seq<string>)

  // ----- what must hold of the disk

  /** An output pair is durable: the bytes, and an observation that points to them. */
  ghost predicate OutputsDurable(d: Disk, sha: Sha, observation: Uuid) {
    sha in d.artifacts && observation in d.observations && d.observations[observation] == ArtifactUuid(sha)
  }

  /** The observation's identity was derived from the artifact with this digest. */
  predicate WellNamed(sha: Sha, observation: Uuid) {
    observation.ObservationUuid? && observation.artifact == ArtifactUuid(sha)
  }

  /** A target names well-formed outputs, and has both of them durable once it is completed with them. */
  ghost predicate TargetSafe(d: Disk, t: Target) {
    && t.Valid()
    && (t.artifact.Some? ==> WellNamed(t.artifact.value, t.observation.value))
    && (t.status.Completed? && t.artifact.Some? ==> OutputsDurable(d, t.artifact.value, t.observation.value))
  }

  ghost predicate TargetsSafe(d: Disk, targets: seq<Target>) {
    forall i :: 0 <= i < |targets| ==> TargetSafe(d, targets[i])
  }

  /** The checkpoint is one its transitions can produce: constructor invariants, exact accounts, retry bounds. */
  ghost predicate Accounted(cp: Checkpoint, p: Policy) {
    exists requests: nat, bytes: nat :: Inv(Ledger(cp, requests, bytes), p)
  }

  lemma StepKeepsAccounted(cp: Checkpoint, p: Policy, op: Op)
    requires Accounted(cp, p) && Step(cp, p, op).Ok?
    ensures Accounted(Step(cp, p, op).value, p)
    ensures cp.budget.elapsed <= Step(cp, p, op).value.budget.elapsed
  {
    hide Inv, Step;
    var requests: nat, bytes: nat :| Inv(Ledger(cp, requests, bytes), p);
    StepKeeps(Ledger(cp, requests, bytes), p, op);
  }

  lemma AccountedIsValid(cp: Checkpoint, p: Policy)
    requires Accounted(cp, p)
    ensures cp.Valid() && cp.budget.elapsed >= 0.0 && cp.budget.requests <= p.maxRequests && RetriesHold(cp.targets, p)
  {
    hide Target.Valid, Unique, ParentsKnown, RetriesHold, Attempts, BytesOf;
    var requests: nat, bytes: nat :| Inv(Ledger(cp, requests, bytes), p);
  }

  /** The bytes the durable checkpoint has accounted for. */
  ghost function Spent(d: Disk): nat {
    if d.durable.None? then 0 else d.durable.value.budget.bytes
  }

  ghost function Recorded(d: Disk): real {
    if d.durable.None? then 0.0 else d.durable.value.budget.elapsed
  }

  /** Requests are charged before they are made, bytes counted after they came, and both budgets hold. */
  ghost predicate Charged(d: Disk, p: Policy, cp: Checkpoint) {
    && d.calls <= cp.budget.requests <= p.maxRequests
    && Spent(d) <= cp.budget.bytes <= d.received
    && cp.budget.bytes <= p.maxBytes
    && Accounted(cp, p)
  }

  /** The outputs a checkpoint's finalizing targets name. */
  function Naming(cp: Checkpoint): set<Intent> {
    set t | t in cp.targets && t.status.Finalizing? && t.artifact.Some? && t.observation.Some?
      :: Intent(t.artifact.value, t.observation.value)
  }

  /** A durable finalizing target or a journalled marker names these outputs now. */
  ghost predicate Intended(d: Disk, i: Intent) {
    || (d.durable.Some? && i in Naming(d.durable.value))
    || exists uri :: uri in d.journal && d.journal[uri].sha == i.sha && d.journal[uri].observation == i.observation
  }

  /** A marker that was ever saved is still there, or both its outputs are durable. */
  ghost predicate JournalSafe(d: Disk) {
    && (forall m :: m in d.everMarked ==>
          m.Valid() && ((m.requestedUri in d.journal && d.journal[m.requestedUri] == m) ||
                        OutputsDurable(d, m.sha, m.observation)))
    && (forall uri :: uri in d.journal ==> d.journal[uri] in d.everMarked && d.journal[uri].requestedUri == uri)
  }

  /** Write-ahead: no output is stored whose pair was not durably named first. */
  ghost predicate IntentsFirst(d: Disk) {
    && (forall sha :: sha in d.artifacts ==> sha in d.misfiled || exists i :: i in d.intents && i.sha == sha)
    && (forall id :: id in d.observations ==>
          exists i ::
            i in d.intents && i.observation == id && d.observations[id] == ArtifactUuid(i.sha) && WellNamed(i.sha, id))
    && (d.durable.Some? ==> Naming(d.durable.value) <= d.intents)
    && (forall m :: m in d.everMarked ==> Intent(m.sha, m.observation) in d.intents)
  }

  ghost predicate CheckpointSafe(d: Disk, p: Policy) {
    && (d.durable.Some? ==>
          && TargetsSafe(d, d.durable.value.targets) && Charged(d, p, d.durable.value)
          && d.saves != [] && d.saves[|d.saves| - 1].cp == d.durable.value)
    && (d.durable.None? ==> d.calls == 0 && d.saves == [])
  }

  ghost predicate Safe(d: Disk, p: Policy) {
    CheckpointSafe(d, p) && JournalSafe(d) && IntentsFirst(d)
  }

  /** Later disks keep what earlier ones stored. */
  ghost predicate Keeps(before: Disk, after: Disk) {
    && before.saves <= after.saves
    && before.intents <= after.intents
    && before.artifacts <= after.artifacts
    && (forall id :: id in before.observations ==>
          id in after.observations && after.observations[id] == before.observations[id])
    && before.everMarked <= after.everMarked
    && before.calls <= after.calls
    && before.received <= after.received
  }

  /** The disk after a checkpoint has become durable. */
  function Saved(d: Disk, cp: Checkpoint, at: real): Disk {
    d.(durable := Some(cp), saves := d.saves + [Save(cp, at)], intents := d.intents + Naming(cp))
  }

  /** Only checkpoints were saved. */
  ghost predicate OnlySaved(before: Disk, after: Disk) {
    after == before.(durable := after.durable, saves := after.saves, intents := after.intents)
  }

  /**
   A checkpoint that may be saved: safe, charged, and - while the clock never went back - no earlier than the durable
   one.
   */
  ghost predicate MaySave(d: Disk, p: Policy, cp: Checkpoint, steady: bool) {
    TargetsSafe(d, cp.targets) && Charged(d, p, cp) && (steady ==> Recorded(d) <= cp.budget.elapsed)
  }

  // ----- received bytes and elapsed time

  /** Bytes received that no durable checkpoint accounts for. */
  ghost function Slack(d: Disk): int {
    d.received - Spent(d)
  }

  /** Each fault may cost the account of one response body. */
  ghost function Excused(p: Policy, faults: nat): nat {
    if faults == 0 then 0 else Excused(p, faults - 1) + p.maxBytes
  }

  lemma {:induction false} ExcusedIsProduct(p: Policy, faults: nat)
    ensures Excused(p, faults) == p.maxBytes * faults
  {
    if faults > 0 {
      ExcusedIsProduct(p, faults - 1);
    }
  }

  /** Later faults excuse no less. */
  lemma {:induction false} MoreExcused(p: Policy, before: nat, after: nat)
    requires before <= after
    ensures Excused(p, before) <= Excused(p, after)
    ensures before < after ==> Excused(p, before) + p.maxBytes <= Excused(p, after)
  {
    if before < after {
      MoreExcused(p, before, after - 1);
    }
  }

  /** The durable elapsed time never fell. */
  ghost predicate Rising(saves: seq<Save>) {
    forall i, j :: 0 <= i < j < |saves| ==> saves[i].cp.budget.elapsed <= saves[j].cp.budget.elapsed
  }

  /** What holds of every recorded instant. */
  ghost predicate Sound(d: Disk, p: Policy, faults: nat, steady: bool) {
    && Safe(d, p)
    && Slack(d) <= Excused(p, faults + 1)
    && d.received <= Excused(p, faults + 1)
    && (steady ==> Rising(d.saves))
  }

  // ----- transitions of one target keep a checkpoint safe

  lemma {:induction false} FindReplaced(targets: seq<Target>, u: Target)
    requires FindIn(targets, u.id).Some?
    ensures FindIn(ReplaceIn(targets, u), u.id) == Some(u)
  {
    if targets[0].id != u.id {
      assert ReplaceIn(targets, u)[1..] == ReplaceIn(targets[1..], u);
      FindReplaced(targets[1..], u);
    }
  }

  lemma {:induction false} FoundIsSafe(d: Disk, targets: seq<Target>, id: Uuid)
    requires TargetsSafe(d, targets) && FindIn(targets, id).Some?
    ensures TargetSafe(d, FindIn(targets, id).value) && FindIn(targets, id).value.id == id
  {
    var k := TargetAt(targets, FindIn(targets, id).value);
  }

  /**
   A step moves its target as `Moved` says and keeps the checkpoint safe, given what it names is well-formed and what it
   completes is durable.
   */
  lemma MoveIsSafe(d: Disk, cp: Checkpoint, p: Policy, op: Op)
    requires TargetsSafe(d, cp.targets) && MovesTarget(op) && Step(cp, p, op).Ok?
    requires op.DoBeginFinalization? ==> WellNamed(op.sha, op.observation)
    requires op.DoCompleteFinalization? ==>
               FindIn(cp.targets, op.id).Some? &&
               var t := FindIn(cp.targets, op.id).value;
               t.artifact.Some? && t.observation.Some? && OutputsDurable(d, t.artifact.value, t.observation.value)
    ensures FindIn(cp.targets, op.id).Some?
    ensures var next, u := Step(cp, p, op).value, Moved(FindIn(cp.targets, op.id).value, op);
            TargetsSafe(d, next.targets) && FindIn(next.targets, op.id) == Some(u) && TargetSafe(d, u)
  {
    hide Step, Target.Valid, OutputsDurable, FindIn, ReplaceIn;
    StepMoves(cp, p, op);
    FoundIsSafe(d, cp.targets, op.id);
    MovedIsValid(cp, p, op);
    var t := FindIn(cp.targets, op.id).value;
    var u := Moved(t, op);
    CompletionIsSafe(d, cp, p, op, t);
    FindReplaced(cp.targets, u);
    ReplaceIsSafe(d, cp.targets, u);
  }

  lemma ReplaceIsSafe(d: Disk, targets: seq<Target>, u: Target)
    requires TargetsSafe(d, targets) && TargetSafe(d, u)
    ensures TargetsSafe(d, ReplaceIn(targets, u))
  {
    hide TargetSafe;
  }

  lemma CompletionIsSafe(d: Disk, cp: Checkpoint, p: Policy, op: Op, t: Target)
    requires MovesTarget(op) && Step(cp, p, op).Ok? && FindIn(cp.targets, op.id) == Some(t) && TargetSafe(d, t)
    requires op.DoBeginFinalization? ==> WellNamed(op.sha, op.observation)
    requires op.DoCompleteFinalization? ==>
               t.artifact.Some? && t.observation.Some? && OutputsDurable(d, t.artifact.value, t.observation.value)
    ensures var u := Moved(t, op);
            u.id == t.id && u.uri == t.uri && u.depth == t.depth &&
            (u.artifact.Some? ==> u.observation.Some? && WellNamed(u.artifact.value, u.observation.value))
    ensures var u := Moved(t, op);
            u.status.Completed? && u.artifact.Some? ==>
              u.observation.Some? && OutputsDurable(d, u.artifact.value, u.observation.value)
  {
    hide OutputsDurable, FindIn, ReplaceIn, Enqueue, RecordFollowup, RecoverInterrupted;
  }

  /** Storing more never makes a safe checkpoint unsafe. */
  lemma KeepsTargetsSafe(before: Disk, after: Disk, targets: seq<Target>)
    requires Keeps(before, after) && TargetsSafe(before, targets)
    ensures TargetsSafe(after, targets)
  {
    hide Target.Valid;
    forall i | 0 <= i < |targets| ensures TargetSafe(after, targets[i]) {
      assert TargetSafe(before, targets[i]);
    }
  }

  // ----- the clock

  /** The injected clock: every reading, and how often one could not be used or was lower than the one before. */
  class Clock {
    const tape: seq<Option<real>>
    var readings: seq<Option<real>>
    var latest: Option<real>
    var backward: nat
    var unusable: nat

    /** The first readings are those on the tape; after it ends they are arbitrary. */
    ghost predicate Valid()
      reads this
    {
      forall i :: 0 <= i < |readings| && i < |tape| ==> readings[i] == tape[i]
    }

    constructor (tape: seq<Option<real>>)
      ensures this.tape == tape && Valid()
      ensures readings == [] && latest == None && backward == 0 && unusable == 0
    {
      this.tape := tape;
      readings, latest, backward, unusable := [], None, 0, 0;
    }

    function Last(): real
      reads this
    {
      if latest.None? then 0.0 else latest.value
    }

    method Read() returns (time: Option<real>)
      requires Valid()
      modifies this
      ensures Valid() && readings == old(readings) + [time]
      ensures time.None? ==> latest == old(latest) && backward == old(backward) && unusable == old(unusable) + 1
      ensures time.Some? ==> latest == time && unusable == old(unusable)
      ensures time.Some? ==>
                backward == old(backward) + (if old(latest).Some? && time.value < old(latest).value then 1 else 0)
    {
      var usable: bool := *;
      var t: real := *;
      time := if usable then Some(t) else None;
      if |readings| < |tape| {
        time := tape[|readings|];
      }
      readings := readings + [time];
      if time.None? {
        unusable := unusable + 1;
      } else {
        if latest.Some? && time.value < latest.value {
          backward := backward + 1;
        }
        latest := time;
      }
    }

    /** A new process starts with a clock of its own. */
    method Restart()
      requires Valid()
      modifies this
      ensures Valid() && latest == None
      ensures readings == old(readings) && backward == old(backward) && unusable == old(unusable)
    {
      latest := None;
    }
  }

  /** Time went on: readings were only added, and the latest is no lower unless a backward one was counted. */
  twostate predicate Ticked(c: Clock)
    reads c
  {
    && old(c.readings) <= c.readings
    && old(c.backward) <= c.backward
    && old(c.unusable) <= c.unusable
    && (old(c.latest).Some? ==>
          c.latest.Some? && (c.backward == old(c.backward) ==> old(c.latest).value <= c.latest.value))
  }

  // ----- the ports

  /** What a transport that honours its contract delivers of a response. */
  function Delivered(r: Response, cap: nat): Response {
    if |r.body| <= cap then r else r.(body := r.body[..cap], limitExceeded := true)
  }

  /**
   With `reliable` set every port does its part, except for the saves of the checkpoints in `failing`, and
   the network is the fixed `site` and `hosts`.
   */
  class World {
    const policy: Policy
    const clock: Clock
    const reliable: bool
    const failing: set<Checkpoint>
    const site: string -> Response
    const hosts: string -> seq<string>
    var disk: Disk
    var history: seq<Disk>
    var faults: nat
    var answers: seq<Answer>
    var replies: seq<Reply>

    constructor (policy: Policy, clock: Clock, reliable: bool, failing: set<Checkpoint>, site: string -> Response,
                 hosts: string -> seq<string>)
      requires clock.Valid()
      ensures this.policy == policy && this.clock == clock && this.reliable == reliable && this.failing == failing
      ensures this.site == site && this.hosts == hosts
      ensures disk == BLANK && faults == 0 && answers == [] && replies == []
      ensures Good() && Settled()
    {
      hide Sound, Slack;
      this.policy, this.clock, this.reliable, this.failing := policy, clock, reliable, failing;
      this.site, this.hosts := site, hosts;
      disk, history, faults, answers, replies := BLANK, [BLANK], 0, [], [];
      new;
      BlankIsSound(policy, clock.backward == 0);
    }

    /** Every instant so far is sound, the present one included. */
    ghost predicate Good()
      reads this, clock
    {
      && clock.Valid()
      && history != [] && history[|history| - 1] == disk
      && (forall i :: 0 <= i < |history| ==> Sound(history[i], policy, faults, clock.backward == 0))
      && (reliable && failing == {} ==> faults == 0)
      && (reliable ==>
            && (forall i :: 0 <= i < |answers| ==> answers[i].addresses == hosts(answers[i].host))
            && (forall i :: 0 <= i < |replies| ==>
                  replies[i].response == Delivered(site(replies[i].uri), replies[i].cap)))
    }

    /** Saving this checkpoint is set to fail, before it has become durable. */
    predicate SaveFails(cp: Checkpoint) {
      reliable && cp in failing
    }

    /** By the latest reading the elapsed budget is not used up. */
    ghost predicate TimeLeft(startedAt: real)
      reads this, clock
    {
      policy.maxElapsed.Some? ==>
        && clock.latest.Some? && startedAt <= clock.latest.value
        && Recorded(disk) + (clock.latest.value - startedAt) < policy.maxElapsed.value
    }

    /** All that was received is accounted for, apart from one response for each fault. */
    ghost predicate Settled()
      reads this
    {
      0 <= Slack(disk) <= Excused(policy, faults)
    }

    /** The present instant, taken out of `Good`. */
    lemma Present()
      requires Good()
      ensures Sound(disk, policy, faults, clock.backward == 0)
      ensures Safe(disk, policy) && (clock.backward == 0 ==> Rising(disk.saves))
    {
      hide Safe, Rising, Slack;
      assert Sound(history[|history| - 1], policy, faults, clock.backward == 0);
    }

    /** A marker in the journal was saved once. */
    lemma PendingWasMarked(m: Marker)
      requires Good() && m.requestedUri in disk.journal && disk.journal[m.requestedUri] == m
      ensures m in disk.everMarked && m.Valid()
    {
      hide Good, CheckpointSafe, IntentsFirst;
      Present();
    }

    lemma ReliableHasNoFaults()
      requires Good() && reliable
      ensures failing == {} ==> faults == 0
      ensures forall i :: 0 <= i < |answers| ==> answers[i].addresses == hosts(answers[i].host)
      ensures forall i :: 0 <= i < |replies| ==> replies[i].response == Delivered(site(replies[i].uri), replies[i].cap)
      ensures forall i :: 0 <= i < |clock.readings| && i < |clock.tape| ==> clock.readings[i] == clock.tape[i]
    {
    }

    lemma HasInstants()
      requires Good()
      ensures history != []
    {
    }

    /** The journal holds each marker under its own URI. */
    lemma JournalIsKeyed(uri: Uri)
      requires Good() && uri in disk.journal
      ensures disk.journal[uri].requestedUri == uri && disk.journal[uri].Valid()
    {
      hide Good, CheckpointSafe, IntentsFirst;
      Present();
    }

    /** One effect, or one fault, or both; a port that changes nothing leaves no new instant. */
    method Record(next: Disk, failed: bool)
      requires Good() && Sound(next, policy, faults, clock.backward == 0) && !(reliable && failing == {} && failed)
      modifies this`disk, this`history, this`faults
      ensures Good() && disk == next
      ensures history == if next == old(disk) then old(history) else old(history) + [next]
      ensures faults == old(faults) + (if failed then 1 else 0)
      ensures old(Settled()) && 0 <= Slack(next) <= old(Slack(disk)) ==> Settled()
    {
      hide Safe, Rising, Slack;
      if failed {
        faults := faults + 1;
      }
      if next != disk {
        disk := next;
        history := history + [next];
      }
    }

    /** `checkpoint_repository.save`. */
    method SaveCheckpoint(cp: Checkpoint) returns (ok: bool)
      requires Good() && MaySave(disk, policy, cp, clock.backward == 0)
      modifies this`disk, this`history, this`faults
      ensures Good() && (old(Settled()) ==> Settled()) && old(history) <= history && Keeps(old(disk), disk)
      ensures disk == old(disk) || disk == Saved(old(disk), cp, clock.Last())
      ensures ok ==> disk == Saved(old(disk), cp, clock.Last())
      ensures faults == old(faults) + (if ok then 0 else 1)
      ensures reliable ==> ok == !SaveFails(cp)
      ensures SaveFails(cp) ==> disk == old(disk)
    {
      hide Safe, MaySave, Naming, Rising, Sound;
      var written: bool := *;
      var reported: bool := *;
      ok := written && reported;
      if reliable {
        ok, written := !SaveFails(cp), !SaveFails(cp);
      }
      Present();
      SavedIsSound(disk, policy, cp, faults, clock.Last(), clock.backward == 0);
      Record(if ok || written then Saved(disk, cp, clock.Last()) else disk, !ok);
    }

    /**
     `transport.request`: one network exchange, allowed only when it is durably charged, time is left, and nothing
     but faults is unaccounted for. Of a body longer than its cap nothing counts as received.
     */
    method Request(uri: string, address: string, cap: nat, ghost startedAt: real) returns (response: Option<Response>)
      requires Good() && Settled()
      requires disk.durable.Some? && disk.calls < disk.durable.value.budget.requests
      requires policy.allowsUri(uri) && policy.allowsAddress(address)
      requires disk.durable.value.budget.bytes + cap <= policy.maxBytes && TimeLeft(startedAt)
      modifies this`disk, this`history, this`faults, this`replies
      ensures Good() && old(history) <= history && Keeps(old(disk), disk)
      ensures disk == old(disk).(calls := old(disk).calls + 1, received := disk.received)
      ensures old(faults) <= faults <= old(faults) + 1
      ensures response.None? ==>
                faults == old(faults) + 1 && replies == old(replies) && disk.received == old(disk).received
      ensures response.Some? ==> replies == old(replies) + [Reply(uri, address, cap, response.value)]
      ensures response.Some? ==>
                disk.received ==
                  old(disk).received + (if |response.value.body| <= cap then |response.value.body| else 0)
      ensures response.Some? && |response.value.body| > cap ==> faults == old(faults) + 1
      ensures response.Some? && |response.value.body| <= cap ==> faults == old(faults)
      ensures reliable ==> response.Some? && |response.value.body| <= cap && faults == old(faults)
    {
      hide Safe, Sound;
      var answered: bool := *;
      var r: Response := *;
      if reliable {
        answered, r := true, Delivered(site(uri), cap);
      }
      response := if answered then Some(r) else None;
      var arrived := if answered && |r.body| <= cap then |r.body| else 0;
      Present();
      CallIsSound(disk, policy, faults, arrived, clock.backward == 0);
      if answered {
        replies := replies + [Reply(uri, address, cap, r)];
      }
      Record(disk.(calls := disk.calls + 1, received := disk.received + arrived), !answered || |r.body| > cap);
    }

    /** `resolver.resolve`. */
    method Resolve(host: string, ghost startedAt: real) returns (addresses: Option<seq<string>>)
      requires Good() && TimeLeft(startedAt)
      modifies this`disk, this`history, this`faults, this`answers
      ensures Good() && (old(Settled()) ==> Settled()) && disk == old(disk) && history == old(history)
      ensures addresses.None? ==> faults == old(faults) + 1 && answers == old(answers)
      ensures addresses.Some? ==> faults == old(faults) && answers == old(answers) + [Answer(host, addresses.value)]
      ensures reliable ==> addresses == Some(hosts(host))
    {
      hide Safe, Sound;
      var answered: bool := *;
      var a: seq<string> := *;
      if reliable {
        answered, a := true, hosts(host);
      }
      Present();
      addresses := None;
      if answered {
        answers := answers + [Answer(host, a)];
        addresses := Some(a);
      }
      Record(disk, !answered);
    }

    /**
     `artifact_store.put_bytes`: only bytes already intended are offered; what a faulty store keeps is its own choice.
     */
    method PutBytes(body: Bytes, ghost observation: Uuid) returns (stored: Option<StoredArtifact>)
      requires Good() && Intended(disk, Intent(Sha256(body), observation))
      modifies this`disk, this`history, this`faults
      ensures Good() && (old(Settled()) ==> Settled()) && old(history) <= history && Keeps(old(disk), disk)
      ensures disk == old(disk).(artifacts := disk.artifacts, misfiled := disk.misfiled)
      ensures stored.Some? ==> stored.value.sha in disk.artifacts
      ensures old(faults) <= faults <= old(faults) + 1
      ensures faults == old(faults) ==>
                && stored == Some(StoredArtifact(Sha256(body), ArtifactUuid(Sha256(body))))
                && disk == old(disk).(artifacts := old(disk).artifacts + {Sha256(body)})
    {
      hide Safe, Sound;
      var kept: StoredArtifact := *;
      var written: bool := *;
      var reported: bool := *;
      var right := StoredArtifact(Sha256(body), ArtifactUuid(Sha256(body)));
      if reliable {
        kept, written, reported := right, true, true;
      }
      Present();
      ArtifactIsSound(disk, policy, faults, kept.sha, Intent(Sha256(body), observation), clock.backward == 0);
      stored := if written && reported then Some(kept) else None;
      Record(if !written then disk else Filed(disk, kept.sha, Sha256(body)), stored != Some(right));
    }

    /** `observation_repository.save_observation`: idempotent, and refuses to change a stored observation. */
    method SaveObservation(id: Uuid, artifact: Uuid) returns (ok: bool)
      requires Good() && artifact.ArtifactUuid? && WellNamed(artifact.sha, id) &&
               Intended(disk, Intent(artifact.sha, id))
      modifies this`disk, this`history, this`faults
      ensures Good() && (old(Settled()) ==> Settled()) && old(history) <= history && Keeps(old(disk), disk)
      ensures disk == old(disk) || disk == old(disk).(observations := old(disk).observations[id := artifact])
      ensures ok ==> disk == old(disk).(observations := old(disk).observations[id := artifact])
      ensures faults == old(faults) + (if ok then 0 else 1)
    {
      hide Safe, Sound;
      var written: bool := *;
      var reported: bool := *;
      Present();
      ObservationIsSound(disk, policy, faults, id, artifact, clock.backward == 0);
      var next := disk;
      ok := reliable || reported;
      if id in disk.observations {
        ok := ok && disk.observations[id] == artifact;
      } else {
        ok := reliable || (written && reported);
        next := if ok || written then disk.(observations := disk.observations[id := artifact]) else disk;
      }
      Record(next, !ok);
    }

    /** `checkpoint_repository.get`, if it answers. */
    method GetCheckpoint() returns (found: Option<Option<Checkpoint>>)
      requires Good()
      modifies this`disk, this`history, this`faults
      ensures Good() && (old(Settled()) ==> Settled()) && disk == old(disk) && history == old(history)
      ensures faults == old(faults) + (if found.None? then 1 else 0) && (reliable ==> found.Some?)
      ensures found.Some? ==> found.value == disk.durable
    {
      var answered := Ask();
      found := if answered then Some(disk.durable) else None;
    }

    /** `finalization_repository.get`, if it answers. */
    method GetMarker(uri: Uri) returns (found: Option<Option<Marker>>)
      requires Good()
      modifies this`disk, this`history, this`faults
      ensures Good() && (old(Settled()) ==> Settled()) && disk == old(disk) && history == old(history)
      ensures faults == old(faults) + (if found.None? then 1 else 0) && (reliable ==> found.Some?)
      ensures found.Some? ==> found.value == (if uri in disk.journal then Some(disk.journal[uri]) else None)
    {
      var answered := Ask();
      found := if !answered then None else Some(if uri in disk.journal then Some(disk.journal[uri]) else None);
    }

    /** `artifact_store.exists`, if it answers. */
    method Exists(sha: Sha) returns (there: Option<bool>)
      requires Good()
      modifies this`disk, this`history, this`faults
      ensures Good() && (old(Settled()) ==> Settled()) && disk == old(disk) && history == old(history)
      ensures faults == old(faults) + (if there.None? then 1 else 0) && (reliable ==> there.Some?)
      ensures there.Some? ==> there.value == (sha in disk.artifacts)
    {
      var answered := Ask();
      there := if answered then Some(sha in disk.artifacts) else None;
    }

    /** `observation_repository.get_observation`, if it answers: the artifact the observation names. */
    method GetObservation(id: Uuid) returns (found: Option<Option<Uuid>>)
      requires Good()
      modifies this`disk, this`history, this`faults
      ensures Good() && (old(Settled()) ==> Settled()) && disk == old(disk) && history == old(history)
      ensures faults == old(faults) + (if found.None? then 1 else 0) && (reliable ==> found.Some?)
      ensures found.Some? ==> found.value == (if id in disk.observations then Some(disk.observations[id]) else None)
    {
      var answered := Ask();
      found := if !answered then None else Some(if id in disk.observations then Some(disk.observations[id]) else None);
    }

    /** Whether a port that only reads answers. */
    method Ask() returns (answered: bool)
      requires Good()
      modifies this`disk, this`history, this`faults
      ensures Good() && (old(Settled()) ==> Settled()) && disk == old(disk) && history == old(history)
      ensures faults == old(faults) + (if answered then 0 else 1) && (reliable ==> answered)
    {
      hide Safe, Sound;
      var up: bool := *;
      answered := reliable || up;
      Present();
      Record(disk, !answered);
    }

    /** `artifact_store.read_bytes_by_sha256`: whatever the store returns, if it returns. */
    method ReadBytes(sha: Sha) returns (body: Option<Bytes>)
      requires Good() && sha in disk.artifacts
      modifies this`disk, this`history, this`faults
      ensures Good() && (old(Settled()) ==> Settled()) && disk == old(disk) && history == old(history)
      ensures faults == old(faults) + (if body == Some(sha.body) then 0 else 1)
    {
      hide Safe, Sound;
      var answered: bool := *;
      var b: Bytes := *;
      body := if reliable then Some(sha.body) else if answered then Some(b) else None;
      Present();
      Record(disk, body != Some(sha.body));
    }

    /** `finalization_repository.save`: idempotent, and refuses a different marker for the same resource. */
    method SaveMarker(m: Marker) returns (ok: bool)
      requires Good() && m.Valid()
      modifies this`disk, this`history, this`faults
      ensures Good() && (old(Settled()) ==> Settled()) && old(history) <= history && Keeps(old(disk), disk)
      ensures disk == old(disk) || (m.requestedUri !in old(disk).journal && disk == Marked(old(disk), m))
      ensures ok ==> m.requestedUri in disk.journal && disk.journal[m.requestedUri] == m
      ensures m.requestedUri in old(disk).journal && old(disk).journal[m.requestedUri] != m ==> !ok
      ensures old(faults) <= faults <= old(faults) + 1
      ensures faults == old(faults) ==>
                ok == (m.requestedUri !in old(disk).journal || old(disk).journal[m.requestedUri] == m)
    {
      hide Safe, Sound;
      var written: bool := *;
      var reported: bool := *;
      Present();
      if m.requestedUri in disk.journal {
        var same := disk.journal[m.requestedUri] == m;
        ok := same && (reliable || reported);
        Record(disk, same && !ok);
        return;
      }
      MarkerIsSound(disk, policy, faults, m, clock.backward == 0);
      ok := reliable || (written && reported);
      Record(if ok || written then Marked(disk, m) else disk, !ok);
    }

    /** `finalization_repository.delete`: only once both outputs are durable, and never another marker. */
    method DeleteMarker(m: Marker) returns (ok: bool)
      requires Good() && OutputsDurable(disk, m.sha, m.observation)
      modifies this`disk, this`history, this`faults
      ensures Good() && (old(Settled()) ==> Settled()) && old(history) <= history && Keeps(old(disk), disk)
      ensures disk == old(disk) ||
              (m.requestedUri in old(disk).journal && old(disk).journal[m.requestedUri] == m &&
               disk == Unmarked(old(disk), m.requestedUri))
      ensures m.requestedUri in old(disk).journal && old(disk).journal[m.requestedUri] != m ==> !ok
      ensures ok ==> disk == Unmarked(old(disk), m.requestedUri)
      ensures old(faults) <= faults <= old(faults) + 1
      ensures faults == old(faults) ==>
                ok == (m.requestedUri !in old(disk).journal || old(disk).journal[m.requestedUri] == m)
    {
      hide Safe, Sound;
      var written: bool := *;
      var reported: bool := *;
      Present();
      if m.requestedUri !in disk.journal {
        assert disk.journal - {m.requestedUri} == disk.journal;
        ok := reliable || reported;
        Record(disk, !ok);
        return;
      }
      if disk.journal[m.requestedUri] != m {
        return false;
      }
      DeletionIsSound(disk, policy, faults, m, clock.backward == 0);
      ok := reliable || (written && reported);
      Record(if ok || written then Unmarked(disk, m.requestedUri) else disk, !ok);
    }

    /** A reading of the clock. */
    method ReadClock() returns (time: Option<real>)
      requires Good()
      modifies clock
      ensures Good() && Ticked(clock) && clock.readings == old(clock.readings) + [time]
      ensures time.None? ==> clock.latest == old(clock.latest) && clock.backward == old(clock.backward) &&
                             clock.unusable == old(clock.unusable) + 1
      ensures time.Some? ==> clock.latest == time && clock.unusable == old(clock.unusable)
      ensures time.Some? ==>
                clock.backward == old(clock.backward) +
                                  (if old(clock.latest).Some? && time.value < old(clock.latest).value then 1 else 0)
    {
      hide Safe, Rising, Slack, Clock.Valid;
      time := clock.Read();
    }

    /** A crash: of everything since, only what was durable at instant `k` remains, and a new process starts. */
    method Crash(k: nat)
      requires Good() && k < |history| && !reliable
      modifies this`disk, this`history, this`faults, clock
      ensures Good() && Settled() && disk == old(history)[k] && history == old(history)[..k + 1]
      ensures faults == old(faults) + 1 && clock.backward == old(clock.backward)
    {
      hide Safe, Rising, Clock.Valid;
      assert Sound(history[k], policy, faults, clock.backward == 0);
      SafeSlack(history[k], policy);
      clock.Restart();
      disk := history[k];
      history := history[..k + 1];
      faults := faults + 1;
    }
  }

  /** The disk once the store has kept `kept` when offered `offered`. */
  function Filed(d: Disk, kept: Sha, offered: Sha): Disk {
    d.(artifacts := d.artifacts + {kept}, misfiled := if kept == offered then d.misfiled else d.misfiled + {kept})
  }

  function Marked(d: Disk, m: Marker): Disk {
    d.(journal := d.journal[m.requestedUri := m], everMarked := d.everMarked + {m},
       intents := d.intents + {Intent(m.sha, m.observation)})
  }

  function Unmarked(d: Disk, uri: Uri): Disk {
    d.(journal := d.journal - {uri})
  }

  // ----- the ports keep the disk sound

  lemma BlankIsSound(p: Policy, steady: bool)
    ensures Sound(BLANK, p, 0, steady) && Slack(BLANK) == 0
  {
  }

  lemma SafeSlack(d: Disk, p: Policy)
    requires Safe(d, p)
    ensures Slack(d) >= 0
  {
    hide JournalSafe, IntentsFirst, TargetsSafe, Accounted;
  }

  /** More of what is stored and received, and the same checkpoint, journal and intents. */
  ghost predicate Grows(d: Disk, next: Disk) {
    && next == d.(artifacts := next.artifacts, misfiled := next.misfiled, observations := next.observations,
                  received := next.received, calls := next.calls, journal := next.journal,
                  everMarked := next.everMarked, intents := next.intents)
    && Keeps(d, next) && next.misfiled >= d.misfiled
    && (d.durable.None? ==> next.calls == d.calls)
    && (d.durable.Some? ==> next.calls <= d.durable.value.budget.requests)
  }

  lemma GrowthIsSafe(d: Disk, next: Disk, p: Policy)
    requires Safe(d, p) && Grows(d, next) && JournalSafe(next) && IntentsFirst(next)
    ensures Safe(next, p)
  {
    hide JournalSafe, IntentsFirst, TargetsSafe, Accounted;
    if d.durable.Some? {
      KeepsTargetsSafe(d, next, d.durable.value.targets);
    }
  }

  lemma SavedIsSound(d: Disk, p: Policy, cp: Checkpoint, faults: nat, at: real, steady: bool)
    requires Sound(d, p, faults, steady) && MaySave(d, p, cp, steady)
    ensures Sound(Saved(d, cp, at), p, faults, steady) && Keeps(d, Saved(d, cp, at))
    ensures 0 <= Slack(Saved(d, cp, at)) <= Slack(d)
  {
    hide Target.Valid, Accounted, Naming, IntentsFirst, JournalSafe, Excused;
    var next := Saved(d, cp, at);
    KeepsTargetsSafe(d, next, cp.targets);
    SavedKeepsIntents(d, cp, at);
  }

  lemma SavedKeepsIntents(d: Disk, cp: Checkpoint, at: real)
    requires IntentsFirst(d) && JournalSafe(d)
    ensures IntentsFirst(Saved(d, cp, at)) && JournalSafe(Saved(d, cp, at))
  {
    hide Naming;
    MoreIntents(d, Saved(d, cp, at));
  }

  /** Naming more outputs takes nothing away. */
  lemma MoreIntents(d: Disk, next: Disk)
    requires IntentsFirst(d) && d.intents <= next.intents
    requires next.artifacts == d.artifacts && next.misfiled == d.misfiled && next.observations == d.observations
    requires next.durable.Some? ==> Naming(next.durable.value) <= next.intents
    requires forall m :: m in next.everMarked ==> Intent(m.sha, m.observation) in next.intents
    ensures IntentsFirst(next)
  {
    hide Naming;
    forall sha | sha in next.artifacts && sha !in next.misfiled ensures exists i :: i in next.intents && i.sha == sha {
      var i :| i in d.intents && i.sha == sha;
      assert i in next.intents;
    }
    forall id | id in next.observations
      ensures exists i ::
                i in next.intents && i.observation == id && next.observations[id] == ArtifactUuid(i.sha) &&
                WellNamed(i.sha, id)
    {
      var i :| i in d.intents && i.observation == id && d.observations[id] == ArtifactUuid(i.sha) &&
          WellNamed(i.sha, id);
      assert i in next.intents;
    }
  }

  lemma {:induction false} CallIsSound(d: Disk, p: Policy, faults: nat, arrived: nat, steady: bool)
    requires Sound(d, p, faults, steady) && d.durable.Some? && d.calls < d.durable.value.budget.requests
    requires Slack(d) <= Excused(p, faults) && Spent(d) + arrived <= p.maxBytes
    ensures var next := d.(calls := d.calls + 1, received := d.received + arrived);
            Sound(next, p, faults, steady) && Keeps(d, next)
  {
    hide Target.Valid, IntentsFirst, JournalSafe, TargetsSafe, Accounted;
    var next := d.(calls := d.calls + 1, received := d.received + arrived);
    assert IntentsFirst(next) && JournalSafe(next) by {
      SameStores(d, next);
    }
    GrowthIsSafe(d, next, p);
  }

  lemma SameStores(d: Disk, next: Disk)
    requires next == d.(calls := next.calls, received := next.received)
    ensures IntentsFirst(d) ==> IntentsFirst(next)
    ensures JournalSafe(d) ==> JournalSafe(next)
  {
  }

  lemma IntendedIsKnown(d: Disk, i: Intent)
    requires IntentsFirst(d) && JournalSafe(d) && Intended(d, i)
    ensures i in d.intents
  {
    hide Naming;
  }

  lemma ArtifactIsSound(d: Disk, p: Policy, faults: nat, kept: Sha, i: Intent, steady: bool)
    requires Sound(d, p, faults, steady) && Intended(d, i)
    ensures Sound(Filed(d, kept, i.sha), p, faults, steady) && Keeps(d, Filed(d, kept, i.sha))
  {
    hide Target.Valid, TargetsSafe, Accounted, Naming, Intended, Excused;
    var next := Filed(d, kept, i.sha);
    IntendedIsKnown(d, i);
    ArtifactKeepsStores(d, kept, i);
    GrowthIsSafe(d, next, p);
  }

  lemma ArtifactKeepsStores(d: Disk, kept: Sha, i: Intent)
    requires IntentsFirst(d) && JournalSafe(d) && i in d.intents
    ensures IntentsFirst(Filed(d, kept, i.sha)) && JournalSafe(Filed(d, kept, i.sha))
  {
    hide Naming;
  }

  lemma ObservationIsSound(d: Disk, p: Policy, faults: nat, id: Uuid, artifact: Uuid, steady: bool)
    requires Sound(d, p, faults, steady)
    requires artifact.ArtifactUuid? && WellNamed(artifact.sha, id) && Intended(d, Intent(artifact.sha, id))
    ensures id in d.observations ==> d.observations[id] == artifact
    ensures var next := d.(observations := d.observations[id := artifact]);
            Sound(next, p, faults, steady) && Keeps(d, next) && (id in d.observations ==> next == d)
  {
    hide Target.Valid, TargetsSafe, Accounted, Naming, Intended, Excused;
    var next := d.(observations := d.observations[id := artifact]);
    IntendedIsKnown(d, Intent(artifact.sha, id));
    ObservationKeepsStores(d, id, artifact);
    GrowthIsSafe(d, next, p);
  }

  lemma ObservationKeepsStores(d: Disk, id: Uuid, artifact: Uuid)
    requires IntentsFirst(d) && JournalSafe(d)
    requires artifact.ArtifactUuid? && WellNamed(artifact.sha, id) && Intent(artifact.sha, id) in d.intents
    ensures id in d.observations ==> d.observations[id] == artifact
    ensures var next := d.(observations := d.observations[id := artifact]);
            IntentsFirst(next) && JournalSafe(next) && (id in d.observations ==> next == d)
  {
    hide Naming;
    if id in d.observations {
      assert d.observations[id] == artifact;
      assert d.observations[id := artifact] == d.observations;
    }
  }

  lemma MarkerIsSound(d: Disk, p: Policy, faults: nat, m: Marker, steady: bool)
    requires Sound(d, p, faults, steady) && m.Valid() && m.requestedUri !in d.journal
    ensures Sound(Marked(d, m), p, faults, steady) && Keeps(d, Marked(d, m))
  {
    hide Target.Valid, TargetsSafe, Accounted, Naming, Excused;
    var next := Marked(d, m);
    MarkerKeepsStores(d, m);
    GrowthIsSafe(d, next, p);
  }

  lemma MarkerKeepsStores(d: Disk, m: Marker)
    requires IntentsFirst(d) && JournalSafe(d) && m.Valid() && m.requestedUri !in d.journal
    ensures IntentsFirst(Marked(d, m)) && JournalSafe(Marked(d, m))
  {
    hide Naming, WellNamed;
    MoreIntents(d, Marked(d, m));
  }

  lemma DeletionIsSound(d: Disk, p: Policy, faults: nat, m: Marker, steady: bool)
    requires Sound(d, p, faults, steady) && m.requestedUri in d.journal && d.journal[m.requestedUri] == m
    requires OutputsDurable(d, m.sha, m.observation)
    ensures Sound(Unmarked(d, m.requestedUri), p, faults, steady) && Keeps(d, Unmarked(d, m.requestedUri))
  {
    hide Target.Valid, TargetsSafe, Accounted, Naming, Excused;
    var next := Unmarked(d, m.requestedUri);
    DeletionKeepsStores(d, m);
    GrowthIsSafe(d, next, p);
  }

  lemma DeletionKeepsStores(d: Disk, m: Marker)
    requires IntentsFirst(d) && JournalSafe(d) && OutputsDurable(d, m.sha, m.observation)
    requires m.requestedUri in d.journal && d.journal[m.requestedUri] == m
    ensures IntentsFirst(Unmarked(d, m.requestedUri)) && JournalSafe(Unmarked(d, m.requestedUri))
  {
    hide Naming, WellNamed;
  }
}
