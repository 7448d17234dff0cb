/** The generated-copy cache: one row per key, coordinated by leases with attempt numbers and tokens.
    Each repository call is one atomic step at an arbitrary clock reading. */
module CopyCache {
  import opened Common

  type CacheKey = string
  type Token = string
  type Time = real

  /** An immutable copy artifact: the plan it was made for and its output. */
  datatype Artifact = Artifact(plan: CacheKey, output: string)

  datatype Status = Generating | Retry | Ready

  datatype Row = Row(
    status: Status,
    attempts: nat,
    availableAt: Time,
    token: Option<Token>,
    artifact: Option<Artifact>,
    errorCode: Option<string>,
    readyAt: Option<Time>)

  datatype Lease = Lease(key: CacheKey, token: Token, attempt: nat, expiresAt: Time)

  datatype Acquired =
    | AlreadyReady(artifact: Artifact)
    | Leased(lease: Lease)
    | Busy(retryAt: Time)
    | Backoff(retryAt: Time)
    | Corrupt

  datatype Config = Config(leaseSeconds: real, retryBase: real, retryMax: real)
  {
    /** Checked by the repository's constructor. */
    predicate Valid() { leaseSeconds > 0.0 && 0.0 < retryBase <= retryMax }
  }

  type Rows = map<CacheKey, Row>

  // ----- back-off -----

  function Doubled(base: real, times: nat): real {
    if times == 0 then base else 2.0 * Doubled(base, times - 1)
  }

  function Min(a: real, b: real): real { if a <= b then a else b }

  /** Delay before the attempt after `attempt` may start. */
  function RetryDelay(c: Config, attempt: nat): real {
    Min(Doubled(c.retryBase, if attempt == 0 then 0 else attempt - 1), c.retryMax)
  }

  lemma {:induction false} DoubledGrows(base: real, m: nat, n: nat)
    requires base > 0.0 && m <= n
    ensures 0.0 < Doubled(base, m) <= Doubled(base, n)
    decreases n
  {
    if n > 0 {
      if m < n {
        DoubledGrows(base, m, n - 1);
      } else {
        DoubledGrows(base, m - 1, n - 1);
      }
    }
  }

  method ComputeRetryDelay(c: Config, attempt: nat) returns (delay: real)
    requires c.Valid()
    ensures delay == RetryDelay(c, attempt)
  {
    var rounds := if attempt == 0 then 0 else attempt - 1;
    delay := c.retryBase;
    for i := 0 to rounds
      invariant delay == Min(Doubled(c.retryBase, i), c.retryMax)
    {
      if delay >= c.retryMax {
        DoubledGrows(c.retryBase, i, rounds);
        return c.retryMax;
      }
      delay := Min(delay * 2.0, c.retryMax);
    }
  }

  /** Back-off starts at the base, never shrinks from one failure to the next, and never passes the maximum. */
  lemma RetryDelayIsBounded(c: Config, attempt: nat)
    requires c.Valid()
    ensures c.retryBase <= RetryDelay(c, attempt) <= RetryDelay(c, attempt + 1) <= c.retryMax
    ensures RetryDelay(c, attempt + 1) == Min(2.0 * RetryDelay(c, attempt), c.retryMax) || attempt == 0
  {
    var n := if attempt == 0 then 0 else attempt - 1;
    DoubledGrows(c.retryBase, 0, n);
    DoubledGrows(c.retryBase, n, attempt);
  }

  // ----- the three operations -----

  function Acquire(c: Config, rows: Rows, key: CacheKey, now: Time, token: Token): (Rows, Acquired) {
    var until := now + c.leaseSeconds;
    if key !in rows then
      (rows[key := Row(Generating, 1, until, Some(token), None, None, None)], Leased(Lease(key, token, 1, until)))
    else
      var row := rows[key];
      if row.status == Ready then (rows, if row.artifact.Some? then AlreadyReady(row.artifact.value) else Corrupt)
      else if row.availableAt > now then
        (rows, if row.status == Generating then Busy(row.availableAt) else Backoff(row.availableAt))
      else
        (rows[key := row.(status := Generating, attempts := row.attempts + 1, availableAt := until,
                          token := Some(token), errorCode := None)],
         Leased(Lease(key, token, row.attempts + 1, until)))
  }

  /** The fence: the row is being generated under exactly this attempt and token. */
  predicate Holds(rows: Rows, lease: Lease) {
    && lease.key in rows
    && rows[lease.key].status == Generating
    && rows[lease.key].attempts == lease.attempt
    && rows[lease.key].token == Some(lease.token)
  }

  function Complete(rows: Rows, lease: Lease, artifact: Artifact, now: Time): (Rows, Option<Artifact>) {
    if !Holds(rows, lease) then (rows, None)
    else
      var row := rows[lease.key];
      (rows[lease.key := row.(status := Ready, artifact := Some(artifact), availableAt := now, token := None,
                              errorCode := None, readyAt := Some(now))],
       Some(artifact))
  }

  function Fail(c: Config, rows: Rows, lease: Lease, code: string, now: Time): (Rows, Option<Time>) {
    if !Holds(rows, lease) then (rows, None)
    else
      var row := rows[lease.key];
      var retryAt := now + RetryDelay(c, row.attempts);
      (rows[lease.key := row.(status := Retry, availableAt := retryAt, token := None, errorCode := Some(code))],
       Some(retryAt))
  }

  function GetReady(rows: Rows, key: CacheKey): Option<Artifact> {
    if key in rows && rows[key].status == Ready then rows[key].artifact else None
  }

  /** The repository object: every method is one transaction on the row map. */
  class Repository {
    const config: Config
    var rows: Rows

    constructor (config: Config)
      requires config.Valid()
      ensures this.config == config && rows == map[]
    {
      this.config := config;
      rows := map[];
    }

    method AcquireLease(key: CacheKey, now: Time, token: Token) returns (r: Acquired)
      modifies this
      ensures (rows, r) == Acquire(config, old(rows), key, now, token)
    {
      var until := now + config.leaseSeconds;
      if key !in rows {
        rows := rows[key := Row(Generating, 1, until, Some(token), None, None, None)];
        return Leased(Lease(key, token, 1, until));
      }
      var row := rows[key];
      if row.status == Ready {
        if row.artifact.None? {
          return Corrupt;
        }
        return AlreadyReady(row.artifact.value);
      }
      if row.availableAt > now {
        if row.status == Generating {
          return Busy(row.availableAt);
        }
        return Backoff(row.availableAt);
      }
      row := row.(status := Generating);
      row := row.(attempts := row.attempts + 1);
      row := row.(availableAt := until);
      row := row.(token := Some(token));
      row := row.(errorCode := None);
      rows := rows[key := row];
      r := Leased(Lease(key, token, row.attempts, row.availableAt));
    }

    method CompleteLease(lease: Lease, artifact: Artifact, now: Time) returns (r: Option<Artifact>)
      modifies this
      ensures (rows, r) == Complete(old(rows), lease, artifact, now)
    {
      if || lease.key !in rows || rows[lease.key].status != Generating
         || rows[lease.key].attempts != lease.attempt || rows[lease.key].token != Some(lease.token) {
        return None;
      }
      var row := rows[lease.key];
      row := row.(status := Ready, artifact := Some(artifact));
      row := row.(availableAt := now, token := None, errorCode := None, readyAt := Some(now));
      rows := rows[lease.key := row];
      r := row.artifact;
    }

    method FailLease(lease: Lease, code: string, now: Time) returns (r: Option<Time>)
      requires config.Valid()
      modifies this
      ensures (rows, r) == Fail(config, old(rows), lease, code, now)
    {
      if || lease.key !in rows || rows[lease.key].status != Generating
         || rows[lease.key].attempts != lease.attempt || rows[lease.key].token != Some(lease.token) {
        return None;
      }
      var row := rows[lease.key];
      var delay := ComputeRetryDelay(config, row.attempts);
      row := row.(status := Retry, availableAt := now + delay, token := None, errorCode := Some(code));
      rows := rows[lease.key := row];
      r := Some(now + delay);
    }
  }

  // ----- interleavings -----

  /** One call by some client: leases may be stale, forged or replayed, clocks may run anywhere. */
  datatype Call =
    | CallAcquire(key: CacheKey, now: Time, token: Token)
    | CallComplete(lease: Lease, artifact: Artifact, now: Time)
    | CallFail(lease: Lease, code: string, now: Time)

  /** What a call did to its row, if anything. */
  datatype Event =
    | Granted(key: CacheKey, attempt: nat, token: Token, at: Time, until: Time)
    | Completed(key: CacheKey, attempt: nat, token: Token, artifact: Artifact)
    | Failed(key: CacheKey, attempt: nat, token: Token, at: Time, retryAt: Time)

  datatype World = World(rows: Rows, log: seq<Event>)

  function Step(c: Config, w: World, call: Call): World {
    match call
    case CallAcquire(key, now, token) =>
      var (rows, r) := Acquire(c, w.rows, key, now, token);
      World(rows, if r.Leased? then w.log + [Granted(key, r.lease.attempt, token, now, r.lease.expiresAt)] else w.log)
    case CallComplete(lease, artifact, now) =>
      var (rows, r) := Complete(w.rows, lease, artifact, now);
      World(rows, if r.Some? then w.log + [Completed(lease.key, lease.attempt, lease.token, artifact)] else w.log)
    case CallFail(lease, code, now) =>
      var (rows, r) := Fail(c, w.rows, lease, code, now);
      World(rows, if r.Some? then w.log + [Failed(lease.key, lease.attempt, lease.token, now, r.value)] else w.log)
  }

  function Execute(c: Config, w: World, calls: seq<Call>): World {
    if calls == [] then w else Step(c, Execute(c, w, calls[..|calls| - 1]), calls[|calls| - 1])
  }

  const EMPTY := World(map[], [])

  /** The last thing that happened to a key. */
  function Last(log: seq<Event>, key: CacheKey): Option<Event> {
    if log == [] then None
    else if log[|log| - 1].key == key then Some(log[|log| - 1])
    else Last(log[..|log| - 1], key)
  }

  /** Leases granted for a key. */
  function Grants(log: seq<Event>, key: CacheKey): nat {
    if log == [] then 0
    else Grants(log[..|log| - 1], key) + if log[|log| - 1].Granted? && log[|log| - 1].key == key then 1 else 0
  }

  /** When an event may follow a history: grants are numbered and wait for the lease or the back-off before them, and
      only the key's current lease, with its own attempt and token, completes or fails it. */
  ghost predicate Lawful(c: Config, log: seq<Event>, e: Event) {
    var last := Last(log, e.key);
    match e
    case Granted(key, attempt, _, at, until) =>
      && attempt == Grants(log, key) + 1
      && until == at + c.leaseSeconds
      && (match last
          case None => attempt == 1
          case Some(Granted(_, _, _, _, expiry)) => at >= expiry
          case Some(Failed(_, _, _, _, retryAt)) => at >= retryAt
          case Some(Completed(_, _, _, _)) => false)
    case Completed(key, attempt, token, _) =>
      last.Some? && last.value.Granted? && last.value.attempt == attempt == Grants(log, key)
        && last.value.token == token
    case Failed(key, attempt, token, at, retryAt) =>
      && last.Some? && last.value.Granted? && last.value.attempt == attempt == Grants(log, key)
           && last.value.token == token
      && retryAt == at + RetryDelay(c, attempt)
  }

  ghost predicate LawfulLog(c: Config, log: seq<Event>) {
    forall p :: 0 <= p < |log| ==> Lawful(c, log[..p], log[p])
  }

  /** Every row is what the last event of its key says, and counts the leases granted. */
  ghost predicate RowFollows(rows: Rows, log: seq<Event>, key: CacheKey) {
    match Last(log, key)
    case None => key !in rows && Grants(log, key) == 0
    case Some(e) =>
      && key in rows
      && rows[key].attempts == Grants(log, key) == e.attempt
      && (match e
          case Granted(_, _, token, _, until) =>
            rows[key].status == Generating && rows[key].token == Some(token) && rows[key].availableAt == until
          case Failed(_, _, _, _, retryAt) => rows[key].status == Retry && rows[key].availableAt == retryAt
          case Completed(_, _, _, artifact) => rows[key].status == Ready && rows[key].artifact == Some(artifact))
  }

  ghost predicate Inv(c: Config, w: World) {
    LawfulLog(c, w.log) && forall key :: RowFollows(w.rows, w.log, key)
  }

  lemma LastSnoc(log: seq<Event>, e: Event, key: CacheKey)
    ensures Last(log + [e], key) == (if e.key == key then Some(e) else Last(log, key))
    ensures Grants(log + [e], key) == Grants(log, key) + (if e.Granted? && e.key == key then 1 else 0)
  {}

  lemma LawfulSnoc(c: Config, log: seq<Event>, e: Event)
    requires LawfulLog(c, log) && Lawful(c, log, e)
    ensures LawfulLog(c, log + [e])
  {
    forall p | 0 <= p < |log + [e]| ensures Lawful(c, (log + [e])[..p], (log + [e])[p]) {
      assert (log + [e])[..p] == log[..p];
      assert p == |log| ==> log[..p] == log;
    }
  }

  lemma {:induction false} LastHasKey(log: seq<Event>, key: CacheKey)
    ensures Last(log, key).Some? ==> Last(log, key).value.key == key
  {
    if log != [] && log[|log| - 1].key != key {
      LastHasKey(log[..|log| - 1], key);
    }
  }

  /** What one call leaves: either nothing changed, or one lawful event and its row. */
  ghost predicate OneEvent(c: Config, w: World, n: World) {
    n == w ||
    exists e :: n.log == w.log + [e] && Lawful(c, w.log, e) && RowFollows(n.rows, n.log, e.key)
                && forall k :: k != e.key ==> (k in n.rows <==> k in w.rows) && (k in w.rows ==> n.rows[k] == w.rows[k])
  }

  lemma OneEventKeepsInv(c: Config, w: World, n: World)
    requires Inv(c, w) && OneEvent(c, w, n)
    ensures Inv(c, n)
  {
    if n != w {
      var e :| n.log == w.log + [e] && Lawful(c, w.log, e) && RowFollows(n.rows, n.log, e.key)
               && forall k :: k != e.key ==> (k in n.rows <==> k in w.rows) && (k in w.rows ==> n.rows[k] == w.rows[k]);
      LawfulSnoc(c, w.log, e);
      hide Lawful, LawfulLog;
      forall k ensures RowFollows(n.rows, n.log, k) {
        LastSnoc(w.log, e, k);
        assert RowFollows(w.rows, w.log, k);
      }
    }
  }

  lemma AcquireIsOneEvent(c: Config, w: World, key: CacheKey, now: Time, token: Token)
    requires RowFollows(w.rows, w.log, key)
    ensures OneEvent(c, w, Step(c, w, CallAcquire(key, now, token)))
  {
    hide RetryDelay;
    var n := Step(c, w, CallAcquire(key, now, token));
    if n.log != w.log {
      var e := n.log[|w.log|];
      LastSnoc(w.log, e, key);
      assert n.log == w.log + [e] && Lawful(c, w.log, e) && RowFollows(n.rows, n.log, e.key);
    }
  }

  lemma CompleteIsOneEvent(c: Config, w: World, lease: Lease, artifact: Artifact, now: Time)
    requires RowFollows(w.rows, w.log, lease.key)
    ensures OneEvent(c, w, Step(c, w, CallComplete(lease, artifact, now)))
  {}

  lemma FailIsOneEvent(c: Config, w: World, lease: Lease, code: string, now: Time)
    requires RowFollows(w.rows, w.log, lease.key)
    ensures OneEvent(c, w, Step(c, w, CallFail(lease, code, now)))
  {}

  lemma StepKeepsInv(c: Config, w: World, call: Call)
    requires Inv(c, w)
    ensures Inv(c, Step(c, w, call))
  {
    hide Step, OneEvent, LawfulLog, RowFollows;
    match call {
      case CallAcquire(key, now, token) =>
        assert RowFollows(w.rows, w.log, key);
        AcquireIsOneEvent(c, w, key, now, token);
      case CallComplete(lease, artifact, now) =>
        assert RowFollows(w.rows, w.log, lease.key);
        CompleteIsOneEvent(c, w, lease, artifact, now);
      case CallFail(lease, code, now) =>
        assert RowFollows(w.rows, w.log, lease.key);
        FailIsOneEvent(c, w, lease, code, now);
    }
    OneEventKeepsInv(c, w, Step(c, w, call));
  }

  /** Under any interleaving, with any clocks and any leases presented, the log stays lawful and the rows follow it. */
  lemma {:induction false} EveryExecutionIsLawful(c: Config, calls: seq<Call>)
    ensures Inv(c, Execute(c, EMPTY, calls))
  {
    if calls != [] {
      EveryExecutionIsLawful(c, calls[..|calls| - 1]);
      StepKeepsInv(c, Execute(c, EMPTY, calls[..|calls| - 1]), calls[|calls| - 1]);
    }
  }

  // ----- what lawfulness means -----

  lemma {:induction false} LastOfPrefix(log: seq<Event>, p: nat, q: nat, key: CacheKey)
    requires p < q <= |log| && log[p].key == key
    ensures Last(log[..q], key).Some?
    ensures exists m :: p <= m < q && Last(log[..q], key) == Some(log[m]) && forall i :: m < i < q ==> log[i].key != key
    decreases q
  {
    assert log[..q][..q - 1] == log[..q - 1];
    if log[q - 1].key != key {
      LastOfPrefix(log, p, q - 1, key);
    }
  }

  lemma {:induction false} GrantsGrow(log: seq<Event>, p: nat, q: nat, key: CacheKey)
    requires p <= q <= |log|
    ensures Grants(log[..p], key) <= Grants(log[..q], key)
    ensures p < q && log[p].Granted? && log[p].key == key ==> Grants(log[..p], key) < Grants(log[..q], key)
    decreases q
  {
    if p < q {
      assert log[..q][..q - 1] == log[..q - 1];
      GrantsGrow(log, p, q - 1, key);
    }
  }

  lemma LawfulAt(c: Config, log: seq<Event>, p: nat)
    requires LawfulLog(c, log) && p < |log|
    ensures Lawful(c, log[..p], log[p])
  {}

  /** After a key is completed nothing happens to it any more. */
  lemma {:induction false} CompletionIsLast(c: Config, log: seq<Event>, p: nat, q: nat)
    requires LawfulLog(c, log) && p < q < |log| && log[p].Completed?
    ensures log[q].key != log[p].key
    decreases q
  {
    var key := log[p].key;
    assert Lawful(c, log[..q], log[q]);
    if log[q].key == key {
      LastOfPrefix(log, p, q, key);
      var m :| p <= m < q && Last(log[..q], key) == Some(log[m]);
      if m > p {
        LastHasKey(log[..q], key);
        CompletionIsLast(c, log, p, m);
      }
    }
  }

  /** Each granted lease has its own number: a (key, attempt) pair is handed out once. */
  lemma GrantsAreNumbered(c: Config, log: seq<Event>, p: nat, q: nat)
    requires LawfulLog(c, log) && p < q < |log| && log[p].Granted? && log[q].Granted? && log[p].key == log[q].key
    ensures log[p].attempt < log[q].attempt
  {
    assert Lawful(c, log[..p], log[p]) && Lawful(c, log[..q], log[q]);
    GrantsGrow(log, p, q, log[p].key);
  }

  /** Only the latest lease of a key can end: when attempt `k` completes or fails, no later lease had been granted. */
  lemma OnlyLatestLeaseEnds(c: Config, log: seq<Event>, p: nat, q: nat)
    requires LawfulLog(c, log) && p < q < |log| && log[p].Granted? && !log[q].Granted? && log[p].key == log[q].key
    ensures log[p].attempt <= log[q].attempt
  {
    assert Lawful(c, log[..p], log[p]) && Lawful(c, log[..q], log[q]);
    GrantsGrow(log, p, q, log[p].key);
  }

  /** A lease ends at most once. */
  lemma OneOutcomePerLease(c: Config, log: seq<Event>, p: nat, q: nat)
    requires LawfulLog(c, log) && p < q < |log| && !log[p].Granted? && !log[q].Granted? && log[p].key == log[q].key
    ensures log[p].attempt < log[q].attempt
  {
    var key := log[p].key;
    assert Lawful(c, log[..p], log[p]) && Lawful(c, log[..q], log[q]);
    LastOfPrefix(log, p, q, key);
    var m :| p <= m < q && Last(log[..q], key) == Some(log[m]);
    LastHasKey(log[..q], key);
    assert Lawful(c, log[..m], log[m]);
    GrantsGrow(log, p, m, key);
  }

  /** Between a lease and the next one of its key no other is granted. */
  lemma NoGrantBetween(c: Config, log: seq<Event>, p: nat, i: nat, q: nat)
    requires LawfulLog(c, log) && p < i < q < |log| && log[p].Granted? && log[q].Granted?
    requires log[p].key == log[i].key == log[q].key && log[q].attempt == log[p].attempt + 1
    ensures !log[i].Granted?
  {
    assert Lawful(c, log[..p], log[p]) && Lawful(c, log[..q], log[q]);
    GrantsGrow(log, p, i, log[p].key);
    GrantsGrow(log, i, q, log[p].key);
  }

  /** Consecutive leases: the next one starts no earlier than the expiry of this one, unless its holder failed it in
      between, and then no earlier than that failure's back-off. */
  lemma LeasesDoNotOverlap(c: Config, log: seq<Event>, p: nat, q: nat)
    requires LawfulLog(c, log) && p < q < |log| && log[p].Granted? && log[q].Granted?
    requires log[p].key == log[q].key && log[q].attempt == log[p].attempt + 1
    ensures || log[q].at >= log[p].until
            || exists m :: p < m < q && log[m].Failed? && log[m].key == log[p].key && log[m].attempt == log[p].attempt
                           && log[m].token == log[p].token && log[q].at >= log[m].at + RetryDelay(c, log[p].attempt)
  {
    hide RetryDelay, Grants, Last, LawfulLog;
    var key := log[p].key;
    LawfulAt(c, log, q);
    LastOfPrefix(log, p, q, key);
    var m :| p <= m < q && Last(log[..q], key) == Some(log[m]);
    LastHasKey(log[..q], key);
    LawfulAt(c, log, m);
    if m > p {
      NoGrantBetween(c, log, p, m, q);
      LastOfPrefix(log, p, m, key);
      var j :| p <= j < m && Last(log[..m], key) == Some(log[j]);
      LastHasKey(log[..m], key);
      if j > p {
        NoGrantBetween(c, log, p, j, q);
      }
    }
  }

  /** A ready row never changes again, whatever is called afterwards. */
  lemma {:induction false} ReadyIsAbsorbing(c: Config, w: World, calls: seq<Call>, key: CacheKey)
    requires key in w.rows && w.rows[key].status == Ready
    ensures key in Execute(c, w, calls).rows && Execute(c, w, calls).rows[key] == w.rows[key]
  {
    if calls != [] {
      ReadyIsAbsorbing(c, w, calls[..|calls| - 1], key);
    }
  }
}
