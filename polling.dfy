/** The long-polling core: admission control over active poll sessions
    (`ConnectionManager`) and the poll loop that re-reads a job until it
    finishes or the time budget runs out (`LongPollingService`).

    Each stateful operation has a pure specification over values
    (`Admit`, `Release`, `Loop`, `Poll`, `PollSession`); the classes update
    their fields in place and are proved to follow those specifications,
    and the lemmas state what the source promises about them. */
module Polling {
  import opened Wrappers
  import opened Jobs

  /** An `HTTPException` as status code and detail text. */
  datatype HttpError = HttpError(status: int, detail: string)

  const LimitExceeded: HttpError := HttpError(429, "Connection limit exceeded")
  const NotFound: HttpError := HttpError(404, "Evaluation job not found")

  // ---------------------------------------------------------------------
  // Admission state

  /** Per-client sets of evaluation ids (`_client_connections`). */
  type Clients = map<string, set<string>>

  /** Both structures of the connection manager, as a value. */
  datatype Admission = Admission(clients: Clients, global: set<(string, string)>)

  /** The two caps: per client and global. */
  datatype Limits = Limits(maxClient: int, globalMax: int)

  const Empty: Admission := Admission(map[], {})

  /** A cap as a bound on a cardinality: a non-positive cap admits nothing. */
  function Cap(n: int): nat {
    if n < 0 then 0 else n
  }

  /** `_client_connections.get(ip, set())`. */
  function ClientSet(m: Clients, ip: string): (r: set<string>)
    ensures ip in m ==> r == m[ip]
    ensures ip !in m ==> r == {}
  {
    if ip in m then m[ip] else {}
  }

  /** Every (client, id) pair the per-client map records. */
  ghost function Pairs(m: Clients): set<(string, string)> {
    set c, e | c in m && e in m[c] :: (c, e)
  }

  /** The representation invariant that holds whatever the caps: the global
      set is exactly the pairs of the per-client map. */
  ghost predicate Coherent(st: Admission) {
    st.global == Pairs(st.clients)
  }

  /** The global set holds `(c, e)` exactly when `e` is in `c`'s set. */
  lemma CoherentMembership(st: Admission, c: string, e: string)
    requires Coherent(st)
    ensures (c, e) in st.global <==> c in st.clients && e in st.clients[c]
  {
    PairsMember(st.clients, c, e);
  }

  /** The invariant under fixed caps: coherence, both counts within their
      caps, and an empty client entry only when the per-client cap is not
      positive (the residue a denial leaves behind, see `Admit`). */
  ghost predicate Inv(st: Admission, lim: Limits) {
    && Coherent(st)
    && |st.global| <= Cap(lim.globalMax)
    && (forall c :: c in st.clients ==> |st.clients[c]| <= Cap(lim.maxClient))
    && (forall c :: c in st.clients && st.clients[c] == {} ==> lim.maxClient <= 0)
  }

  /** Subscripting the `defaultdict`: the entry for `ip` exists afterwards. */
  function Touch(m: Clients, ip: string): (r: Clients)
    ensures ip in r && r[ip] == ClientSet(m, ip)
    ensures forall c :: c != ip ==> (c in r <==> c in m)
    ensures forall c :: c != ip && c in m ==> r[c] == m[c]
  {
    if ip in m then m else m[ip := {}]
  }

  datatype Admitted = Admitted(state: Admission, ok: bool)

  /** `ConnectionManager.connect`: the global cap is checked first, then the
      per-client cap; on success the pair is added to both structures. The
      per-client check subscripts the `defaultdict`, so once the global
      check has passed the client's entry exists even if admission is then
      denied. */
  function Admit(st: Admission, lim: Limits, ip: string, e: string): (r: Admitted)
    ensures |st.global| >= lim.globalMax ==> !r.ok && r.state == st
    ensures |st.global| < lim.globalMax ==> (r.ok <==> |ClientSet(st.clients, ip)| < lim.maxClient)
    ensures r.ok ==> (r.state.global == st.global + {(ip, e)}
                      && r.state.clients == st.clients[ip := ClientSet(st.clients, ip) + {e}])
    ensures !r.ok ==> (r.state.global == st.global
                       && (r.state.clients == st.clients || (ip !in st.clients && r.state.clients == st.clients[ip := {}])))
  {
    if |st.global| >= lim.globalMax then Admitted(st, false)
    else
      var clients := Touch(st.clients, ip);
      if |clients[ip]| >= lim.maxClient then Admitted(Admission(clients, st.global), false)
      else Admitted(Admission(clients[ip := clients[ip] + {e}], st.global + {(ip, e)}), true)
  }

  /** The per-client half of `disconnect`: drop `e` from the client's set
      and the client's entry once it is empty. */
  function Drop(m: Clients, ip: string, e: string): (r: Clients)
    ensures ClientSet(r, ip) == ClientSet(m, ip) - {e}
    ensures ip in r ==> ip in m && (r[ip] != {} || m[ip] == {})
    ensures forall c :: c in r ==> c in m && r[c] <= m[c]
    ensures forall c :: c != ip ==> (c in r <==> c in m)
    ensures forall c :: c != ip && c in m ==> r[c] == m[c]
  {
    if ip in m && e in m[ip] then
      var rest := m[ip] - {e};
      if rest == {} then m - {ip} else m[ip := rest]
    else m
  }

  /** `ConnectionManager.disconnect`: drop the pair from both structures; a
      pair that is not there changes nothing. It cannot fail. */
  function Release(st: Admission, ip: string, e: string): (r: Admission)
    ensures r.global == st.global - {(ip, e)}
    ensures e !in ClientSet(r.clients, ip)
  {
    Admission(Drop(st.clients, ip, e), st.global - {(ip, e)})
  }

  lemma PairsMember(m: Clients, c: string, e: string)
    ensures (c, e) in Pairs(m) <==> c in m && e in m[c]
  {
    if c in m && e in m[c] {
      assert (c, e) in Pairs(m);
    }
  }

  /** Creating an empty entry adds no pair. */
  lemma PairsTouch(m: Clients, ip: string)
    ensures Pairs(Touch(m, ip)) == Pairs(m)
  {
    forall p | p in Pairs(Touch(m, ip)) ensures p in Pairs(m) {
      PairsMember(Touch(m, ip), p.0, p.1);
      PairsMember(m, p.0, p.1);
    }
    forall p | p in Pairs(m) ensures p in Pairs(Touch(m, ip)) {
      PairsMember(Touch(m, ip), p.0, p.1);
      PairsMember(m, p.0, p.1);
    }
  }

  /** Adding an id to a client's set adds exactly that pair. */
  lemma PairsAdd(m: Clients, ip: string, e: string)
    ensures Pairs(m[ip := ClientSet(m, ip) + {e}]) == Pairs(m) + {(ip, e)}
  {
    var m' := m[ip := ClientSet(m, ip) + {e}];
    forall p | p in Pairs(m') ensures p in Pairs(m) + {(ip, e)} {
      PairsMember(m', p.0, p.1);
      PairsMember(m, p.0, p.1);
    }
    forall p | p in Pairs(m) + {(ip, e)} ensures p in Pairs(m') {
      PairsMember(m', p.0, p.1);
      PairsMember(m, p.0, p.1);
    }
  }

  /** Dropping an id removes exactly that pair. */
  lemma PairsDrop(m: Clients, ip: string, e: string)
    ensures Pairs(Drop(m, ip, e)) == Pairs(m) - {(ip, e)}
  {
    var m' := Drop(m, ip, e);
    forall p | p in Pairs(m') ensures p in Pairs(m) - {(ip, e)} {
      PairsMember(m', p.0, p.1);
      PairsMember(m, p.0, p.1);
    }
    forall p | p in Pairs(m) - {(ip, e)} ensures p in Pairs(m') {
      PairsMember(m', p.0, p.1);
      PairsMember(m, p.0, p.1);
      if p.0 == ip {
        assert p.1 in ClientSet(m', ip);
      }
    }
  }

  /** The empty manager satisfies the invariant for any caps. */
  lemma EmptyInv(lim: Limits)
    ensures Inv(Empty, lim)
  {
    assert Pairs(map[]) == {};
  }

  /** `connect` keeps the two structures coherent, whatever the caps. */
  lemma AdmitKeepsCoherent(st: Admission, lim: Limits, ip: string, e: string)
    requires Coherent(st)
    ensures Coherent(Admit(st, lim, ip, e).state)
  {
    if |st.global| < lim.globalMax {
      PairsTouch(st.clients, ip);
      PairsAdd(st.clients, ip, e);
    }
  }

  /** `disconnect` keeps the two structures coherent. */
  lemma ReleaseKeepsCoherent(st: Admission, ip: string, e: string)
    requires Coherent(st)
    ensures Coherent(Release(st, ip, e))
  {
    PairsDrop(st.clients, ip, e);
  }

  /** `connect` keeps the invariant under unchanged caps, so neither count
      exceeds its cap. */
  lemma AdmitKeepsInv(st: Admission, lim: Limits, ip: string, e: string)
    requires Inv(st, lim)
    ensures Inv(Admit(st, lim, ip, e).state, lim)
  {
    var r := Admit(st, lim, ip, e);
    AdmitKeepsCoherent(st, lim, ip, e);
    if |st.global| < lim.globalMax && r.ok {
      assert |st.global + {(ip, e)}| <= |st.global| + 1;
      assert |ClientSet(st.clients, ip) + {e}| <= |ClientSet(st.clients, ip)| + 1;
    }
  }

  /** `disconnect` keeps the invariant. */
  lemma ReleaseKeepsInv(st: Admission, lim: Limits, ip: string, e: string)
    requires Inv(st, lim)
    ensures Inv(Release(st, ip, e), lim)
  {
    ReleaseKeepsCoherent(st, ip, e);
    var r := Drop(st.clients, ip, e);
    forall c | c in r ensures |r[c]| <= Cap(lim.maxClient) {
      SubsetCard(r[c], st.clients[c]);
    }
    assert |st.global - {(ip, e)}| <= |st.global|;
  }

  /** Both of the above, for the class methods: coherence always, the
      invariant when it held before. */
  lemma AdmitKeeps(st: Admission, lim: Limits, ip: string, e: string)
    requires Coherent(st)
    ensures Coherent(Admit(st, lim, ip, e).state)
    ensures Inv(st, lim) ==> Inv(Admit(st, lim, ip, e).state, lim)
  {
    AdmitKeepsCoherent(st, lim, ip, e);
    if Inv(st, lim) {
      AdmitKeepsInv(st, lim, ip, e);
    }
  }

  lemma ReleaseKeeps(st: Admission, lim: Limits, ip: string, e: string)
    requires Coherent(st)
    ensures Coherent(Release(st, ip, e))
    ensures Inv(st, lim) ==> Inv(Release(st, ip, e), lim)
  {
    ReleaseKeepsCoherent(st, ip, e);
    if Inv(st, lim) {
      ReleaseKeepsInv(st, lim, ip, e);
    }
  }

  lemma SubsetCard<T>(a: set<T>, b: set<T>)
    requires a <= b
    ensures |a| <= |b|
  {
    assert b == a + (b - a);
  }

  /** Releasing a pair that is not admitted changes nothing, so releasing
      after a failed `connect` or a second time is harmless. */
  lemma ReleaseAbsentIsNoop(st: Admission, ip: string, e: string)
    requires Coherent(st) && (ip, e) !in st.global
    ensures Release(st, ip, e) == st
  {
    PairsMember(st.clients, ip, e);
  }

  /** Releasing twice is releasing once. */
  lemma ReleaseIdempotent(st: Admission, ip: string, e: string)
    ensures Release(Release(st, ip, e), ip, e) == Release(st, ip, e)
  {
  }

  /** A `connect` of a fresh pair followed by its `disconnect` restores the
      manager exactly, so the freed slot can be taken again. */
  lemma AdmitThenRelease(st: Admission, lim: Limits, ip: string, e: string)
    requires Inv(st, lim) && (ip, e) !in st.global && Admit(st, lim, ip, e).ok
    ensures Release(Admit(st, lim, ip, e).state, ip, e) == st
  {
    PairsMember(st.clients, ip, e);
    DropAdded(st.clients, ip, e);
    assert st.global + {(ip, e)} - {(ip, e)} == st.global;
  }

  /** Dropping an id just added to a non-empty or absent entry undoes the
      addition. */
  lemma DropAdded(m: Clients, ip: string, e: string)
    requires e !in ClientSet(m, ip) && (ip in m ==> m[ip] != {})
    ensures Drop(m[ip := ClientSet(m, ip) + {e}], ip, e) == m
  {
    var s := ClientSet(m, ip);
    assert (s + {e}) - {e} == s;
    if ip in m {
      assert m[ip := s] == m;
    } else {
      assert m[ip := {e}] - {ip} == m;
    }
  }

  /** Connecting a pair that is already admitted grows neither structure
      (it may still be refused if the client is at its cap). */
  lemma AdmitPresentPair(st: Admission, lim: Limits, ip: string, e: string)
    requires Coherent(st) && (ip, e) in st.global
    ensures Admit(st, lim, ip, e).state == st
  {
    PairsMember(st.clients, ip, e);
    assert st.global + {(ip, e)} == st.global;
    assert st.clients[ip] + {e} == st.clients[ip];
    assert st.clients[ip := st.clients[ip]] == st.clients;
  }

  /** The limit scenario of the unit tests, with both caps 1: a first
      connection is admitted; a second one from another client is refused by
      the global cap; after the first disconnects, a new client is admitted
      and its second id is refused. That last refusal also comes from the
      global cap, since one connection already fills it: the per-client
      check is never reached here (see `ClientCapScenario`). */
  lemma EnforceLimitsScenario()
    ensures var lim := Limits(1, 1);
      var a1 := Admit(Empty, lim, "1.1.1.1", "a");
      var a2 := Admit(a1.state, lim, "2.2.2.2", "b");
      var s3 := Release(a2.state, "1.1.1.1", "a");
      var a4 := Admit(s3, lim, "3.3.3.3", "x");
      var a5 := Admit(a4.state, lim, "3.3.3.3", "y");
      a1.ok && !a2.ok && s3 == Empty && a4.ok && !a5.ok
  {
    var lim := Limits(1, 1);
    EmptyInv(lim);
    var a1 := Admit(Empty, lim, "1.1.1.1", "a");
    AdmitThenRelease(Empty, lim, "1.1.1.1", "a");
    var a4 := Admit(Empty, lim, "3.3.3.3", "x");
    assert a4.state.global == {("3.3.3.3", "x")};
  }

  /** The per-client cap on its own: with one connection per client and two
      in all, a client's second id is refused while global capacity
      remains, and another client is still admitted. */
  lemma ClientCapScenario()
    ensures var lim := Limits(1, 2);
      var a1 := Admit(Empty, lim, "3.3.3.3", "x");
      var a2 := Admit(a1.state, lim, "3.3.3.3", "y");
      var a3 := Admit(a2.state, lim, "4.4.4.4", "z");
      && a1.ok && |a1.state.global| < lim.globalMax
      && !a2.ok && a2.state == a1.state
      && a3.ok
  {
    var a1 := Admit(Empty, Limits(1, 2), "3.3.3.3", "x");
    assert a1.state.global == {("3.3.3.3", "x")};
    assert a1.state.clients == map["3.3.3.3" := {"x"}];
  }

  /** The caps are read at every `connect`, and lowering one does not close
      the connections already admitted: after two admissions under a
      per-client cap of 5, lowering it to 1 refuses the client's next id,
      and the client holds more connections than the new cap allows. The
      structures stay coherent. */
  lemma LoweredCapScenario()
    ensures var a1 := Admit(Empty, Limits(5, 1000), "c", "a");
      var a2 := Admit(a1.state, Limits(5, 1000), "c", "b");
      var a3 := Admit(a2.state, Limits(1, 1000), "c", "d");
      && a1.ok && a2.ok && !a3.ok
      && Coherent(a3.state) && |ClientSet(a3.state.clients, "c")| == 2
      && !Inv(a3.state, Limits(1, 1000))
  {
    var a1 := Admit(Empty, Limits(5, 1000), "c", "a");
    var a2 := Admit(a1.state, Limits(5, 1000), "c", "b");
    assert a2.state.clients["c"] == {"a", "b"};
    EmptyInv(Limits(5, 1000));
    AdmitKeepsInv(Empty, Limits(5, 1000), "c", "a");
    AdmitKeepsInv(a1.state, Limits(5, 1000), "c", "b");
    AdmitKeepsCoherent(a2.state, Limits(1, 1000), "c", "d");
  }

  // ---------------------------------------------------------------------
  // The poll loop

  /** Time is counted in milliseconds. */
  const TicksPerSecond: int := 1000
  /** The smallest adaptive sleep, 0.01 s. */
  const FloorTicks: int := 10

  function Min(a: int, b: int): int { if a <= b then a else b }
  function Max(a: int, b: int): int { if a >= b then a else b }

  /** The adaptive sleep `min(interval, max(0.01, remaining / 4))`: the
      configured cadence far from the deadline, a quarter of the remaining
      budget closer to it, never below the floor unless the interval is. An
      interval of zero or less makes every sleep zero or less. */
  function SleepFor(interval: int, remaining: int): (s: int)
    ensures s <= interval
    ensures s == interval || s >= FloorTicks
    ensures interval >= 1 ==> s >= 1
    ensures remaining >= 4 * interval ==> s == interval
    ensures s <= Max(FloorTicks, remaining / 4)
    ensures interval <= 0 ==> s == interval
  {
    Min(interval, Max(FloorTicks, remaining / 4))
  }

  /** How long `asyncio.sleep(s)` pauses: a delay of zero or less returns at
      once. */
  function Pause(s: int): (d: nat)
    ensures d >= s && (s <= 0 ==> d == 0)
  {
    Max(0, s)
  }

  /** The clock moves on between two timeout tests: the interval is at least
      one tick, so every sleep is, or else every lookup takes at least one
      tick. */
  ghost predicate Ticking(interval: int, lag: nat -> nat) {
    interval >= 1 || forall k :: lag(k) >= 1
  }

  /** The inputs of one poll: the job id, the budget and the poll interval in
      ticks, and the environment: `reader(k)` is what the k-th lookup of the
      job returns (0 is the lookup before the loop), `lag(k)` the wall-clock
      time that passes after lookup k besides the sleep. */
  datatype PollParams = PollParams(
    evaluationId: string,
    timeout: int,
    interval: int,
    reader: nat -> ReadOutcome,
    lag: nat -> nat)

  /** The body of a successful poll response. */
  datatype PollResponse =
    | TimedOut
    | Finished(id: string, status: JobStatus, results: Option<Payload>,
               errorMessage: Option<string>, completedAt: Option<string>)

  /** The details returned for a finished job. */
  function Finish(job: Job): (r: PollResponse)
    ensures r != TimedOut && r.id == job.id && r.status == job.status
    ensures r.results == job.results && r.errorMessage == job.errorMessage && r.completedAt == job.completedAt
  {
    Finished(job.id, job.status, job.results, job.errorMessage, job.completedAt)
  }

  /** The loop's timeout test: the budget counted from the job's creation is
      spent, or the loop itself has run longer than the budget. */
  predicate Expired(timeout: int, createdAt: int, start: int, now: int)
    ensures createdAt <= start ==> (Expired(timeout, createdAt, start, now) <==> now - createdAt >= timeout)
    ensures createdAt > start ==> (Expired(timeout, createdAt, start, now) <==> now - start > timeout || now - createdAt >= timeout)
  {
    timeout - (now - createdAt) <= 0 || now - start > timeout
  }

  /** How a poll ended: the response, the number of lookups made, and the
      clock reading of the last timeout test. */
  datatype LoopOutcome = LoopOutcome(response: Result<PollResponse, HttpError>, lookups: nat, endTime: int)

  /** The `while True` loop from clock reading `now`, next lookup `k`. */
  function Loop(p: PollParams, createdAt: int, start: int, now: int, k: nat): (o: LoopOutcome)
    requires Ticking(p.interval, p.lag)
    ensures o.lookups >= k && o.endTime >= now
    decreases start + p.timeout - now + 1
  {
    if Expired(p.timeout, createdAt, start, now) then LoopOutcome(Ok(TimedOut), k, now)
    else match p.reader(k)
      case ReadError => LoopOutcome(Ok(TimedOut), k + 1, now)
      case Missing => LoopOutcome(Err(NotFound), k + 1, now)
      case Found(job) =>
        if IsTerminal(job.status) then LoopOutcome(Ok(Finish(job)), k + 1, now)
        else
          var remaining := p.timeout - (now - createdAt);
          Loop(p, createdAt, start, now + Pause(SleepFor(p.interval, remaining)) + p.lag(k), k + 1)
  }

  /** One iteration that sees an unfinished job sleeps and goes round again. */
  lemma LoopStep(p: PollParams, createdAt: int, start: int, now: int, next: int, k: nat)
    requires Ticking(p.interval, p.lag) && !Expired(p.timeout, createdAt, start, now)
    requires p.reader(k).Found? && !IsTerminal(p.reader(k).job.status)
    requires next == now + Pause(SleepFor(p.interval, p.timeout - (now - createdAt))) + p.lag(k)
    ensures Loop(p, createdAt, start, now, k) == Loop(p, createdAt, start, next, k + 1)
  {
  }

  /** An iteration before the deadline that does not go round again. */
  lemma LoopExit(p: PollParams, createdAt: int, start: int, now: int, k: nat)
    requires Ticking(p.interval, p.lag)
    ensures Expired(p.timeout, createdAt, start, now) ==> Loop(p, createdAt, start, now, k) == LoopOutcome(Ok(TimedOut), k, now)
    ensures !Expired(p.timeout, createdAt, start, now) ==> LoopStops(p, createdAt, start, now, k)
  {
  }

  predicate LoopStops(p: PollParams, createdAt: int, start: int, now: int, k: nat)
    requires Ticking(p.interval, p.lag) && !Expired(p.timeout, createdAt, start, now)
  {
    && (p.reader(k).ReadError? ==> Loop(p, createdAt, start, now, k) == LoopOutcome(Ok(TimedOut), k + 1, now))
    && (p.reader(k).Missing? ==> Loop(p, createdAt, start, now, k) == LoopOutcome(Err(NotFound), k + 1, now))
    && (p.reader(k).Found? && IsTerminal(p.reader(k).job.status) ==>
          Loop(p, createdAt, start, now, k) == LoopOutcome(Ok(Finish(p.reader(k).job)), k + 1, now))
  }

  /** What the loop does, lookup by lookup: every lookup before the last one
      saw an unfinished job; a 404 means the last lookup found no job; a
      finished response carries the fields of the job the last lookup saw,
      which is finished; a timeout means the budget was spent, or the last
      lookup failed. No other error is possible. */
  lemma {:induction false} LoopTrace(p: PollParams, createdAt: int, start: int, now: int, k: nat)
    requires Ticking(p.interval, p.lag)
    ensures var o := Loop(p, createdAt, start, now, k);
      && (forall j :: k <= j < o.lookups - 1 ==> p.reader(j).Found? && !IsTerminal(p.reader(j).job.status))
      && (o.response.Err? ==> o.response.error == NotFound && o.lookups > k && p.reader(o.lookups - 1).Missing?)
      && (o.response.Ok? && o.response.value.Finished? ==>
            o.lookups > k && p.reader(o.lookups - 1).Found? && IsTerminal(p.reader(o.lookups - 1).job.status)
            && o.response.value == Finish(p.reader(o.lookups - 1).job))
      && (o.response == Ok(TimedOut) ==>
            Expired(p.timeout, createdAt, start, o.endTime)
            || (o.lookups > k && p.reader(o.lookups - 1).ReadError?))
      && (Expired(p.timeout, createdAt, start, o.endTime) ==>
            o.response == Ok(TimedOut)
            && (forall j :: k <= j < o.lookups ==> p.reader(j).Found? && !IsTerminal(p.reader(j).job.status)))
    decreases start + p.timeout - now + 1
  {
    if !Expired(p.timeout, createdAt, start, now) {
      match p.reader(k)
      case ReadError =>
      case Missing =>
      case Found(job) =>
        if !IsTerminal(job.status) {
          var remaining := p.timeout - (now - createdAt);
          LoopTrace(p, createdAt, start, now + Pause(SleepFor(p.interval, remaining)) + p.lag(k), k + 1);
        }
    }
  }

  /** A job that is never seen finished, with no failed lookup and no
      vanishing, ends in a timeout once the budget is spent. */
  lemma {:induction false} NeverFinishedTimesOut(p: PollParams, createdAt: int, start: int, now: int, k: nat)
    requires Ticking(p.interval, p.lag)
    requires forall j :: j >= k ==> p.reader(j).Found? && !IsTerminal(p.reader(j).job.status)
    ensures var o := Loop(p, createdAt, start, now, k);
      o.response == Ok(TimedOut) && Expired(p.timeout, createdAt, start, o.endTime)
  {
    LoopTrace(p, createdAt, start, now, k);
  }

  /** The loop ends no later than one poll interval, plus the time one
      lookup may take, after the budget counted from its start. */
  lemma {:induction false} LoopEndsByDeadline(p: PollParams, createdAt: int, start: int, now: int, k: nat, maxLag: nat)
    requires Ticking(p.interval, p.lag)
    requires forall j :: p.lag(j) <= maxLag
    requires now - start <= Cap(p.timeout) + Pause(p.interval) + maxLag
    ensures Loop(p, createdAt, start, now, k).endTime - start <= Cap(p.timeout) + Pause(p.interval) + maxLag
    decreases start + p.timeout - now + 1
  {
    if !Expired(p.timeout, createdAt, start, now) {
      match p.reader(k)
      case ReadError =>
      case Missing =>
      case Found(job) =>
        if !IsTerminal(job.status) {
          var remaining := p.timeout - (now - createdAt);
          LoopEndsByDeadline(p, createdAt, start, now + Pause(SleepFor(p.interval, remaining)) + p.lag(k), k + 1, maxLag);
        }
    }
  }

  /** `poll_for_results` after admission: one lookup; no job, or a failed
      lookup, is a 404; otherwise the loop runs from clock reading `t0`, with
      `t0` also standing in for a missing creation time. */
  function Poll(p: PollParams, t0: int): (o: LoopOutcome)
    requires Ticking(p.interval, p.lag)
    ensures o.lookups >= 1
    ensures !p.reader(0).Found? ==> o.response == Err(NotFound) && o.lookups == 1
  {
    match p.reader(0)
    case Found(job) => Loop(p, job.createdAt.GetOr(t0), t0, t0, 1)
    case _ => LoopOutcome(Err(NotFound), 1, t0)
  }

  /** The calls a poll session makes, in order. */
  datatype Event = ConnectCall | ReadCall(index: nat) | DisconnectCall

  /** Lookups 0 to n - 1. */
  function Reads(n: nat): (es: seq<Event>)
    ensures |es| == n
  {
    seq(n, i requires 0 <= i < n => ReadCall(i))
  }

  /** The number of occurrences of `ev` in `es`. */
  function Occurrences(es: seq<Event>, ev: Event): nat {
    if es == [] then 0 else Occurrences(es[..|es| - 1], ev) + (if es[|es| - 1] == ev then 1 else 0)
  }

  datatype Session = Session(response: Result<PollResponse, HttpError>, state: Admission, events: seq<Event>)

  /** A whole `poll_for_results` call against the manager state `st`:
      connect; on refusal, fail with 429 straight away; otherwise poll and
      always disconnect. */
  function PollSession(st: Admission, lim: Limits, ip: string, p: PollParams, t0: int): (s: Session)
    requires Ticking(p.interval, p.lag)
    ensures |s.events| >= 1 && s.events[0] == ConnectCall
    ensures var a := Admit(st, lim, ip, p.evaluationId);
      && (!a.ok ==> s.response == Err(LimitExceeded) && s.state == a.state && s.events == [ConnectCall])
      && (a.ok ==> s.state.global == st.global - {(ip, p.evaluationId)} && s.events[|s.events| - 1] == DisconnectCall)
  {
    var a := Admit(st, lim, ip, p.evaluationId);
    if !a.ok then Session(Err(LimitExceeded), a.state, [ConnectCall])
    else
      var o := Poll(p, t0);
      Session(o.response, Release(a.state, ip, p.evaluationId), [ConnectCall] + Reads(o.lookups) + [DisconnectCall])
  }

  lemma {:induction false} OccurrencesAppend(a: seq<Event>, b: seq<Event>, ev: Event)
    ensures Occurrences(a + b, ev) == Occurrences(a, ev) + Occurrences(b, ev)
    decreases |b|
  {
    if b == [] {
      assert a + b == a;
    } else {
      assert (a + b)[..|a + b| - 1] == a + b[..|b| - 1];
      OccurrencesAppend(a, b[..|b| - 1], ev);
    }
  }

  lemma {:induction false} NoDisconnectInReads(n: nat)
    ensures Occurrences(Reads(n), DisconnectCall) == 0
  {
    if n > 0 {
      assert Reads(n)[..n - 1] == Reads(n - 1);
      NoDisconnectInReads(n - 1);
    }
  }

  /** Admission comes first and release last: a refused session makes no
      lookup and no disconnect; an admitted one disconnects exactly once,
      after all its lookups, whatever its outcome. */
  lemma SessionCalls(st: Admission, lim: Limits, ip: string, p: PollParams, t0: int)
    requires Ticking(p.interval, p.lag)
    ensures var s := PollSession(st, lim, ip, p, t0);
      var admitted := Admit(st, lim, ip, p.evaluationId).ok;
      && s.events[0] == ConnectCall
      && Occurrences(s.events, ConnectCall) == 1
      && Occurrences(s.events, DisconnectCall) == (if admitted then 1 else 0)
      && (!admitted ==> s.events == [ConnectCall] && s.response == Err(LimitExceeded))
      && (admitted ==> s.events[|s.events| - 1] == DisconnectCall && |s.events| >= 3)
  {
    var s := PollSession(st, lim, ip, p, t0);
    assert Occurrences([ConnectCall], ConnectCall) == 1 by {
      assert [ConnectCall][..0] == [];
    }
    assert Occurrences([ConnectCall], DisconnectCall) == 0 by {
      assert [ConnectCall][..0] == [];
    }
    if Admit(st, lim, ip, p.evaluationId).ok {
      var n := Poll(p, t0).lookups;
      OccurrencesAppend([ConnectCall] + Reads(n), [DisconnectCall], DisconnectCall);
      OccurrencesAppend([ConnectCall], Reads(n), DisconnectCall);
      NoDisconnectInReads(n);
      OccurrencesAppend([ConnectCall] + Reads(n), [DisconnectCall], ConnectCall);
      OccurrencesAppend([ConnectCall], Reads(n), ConnectCall);
      NoConnectInReads(n);
      assert Occurrences([DisconnectCall], DisconnectCall) == 1 by {
        assert [DisconnectCall][..0] == [];
      }
      assert Occurrences([DisconnectCall], ConnectCall) == 0 by {
        assert [DisconnectCall][..0] == [];
      }
    }
  }

  lemma {:induction false} NoConnectInReads(n: nat)
    ensures Occurrences(Reads(n), ConnectCall) == 0
  {
    if n > 0 {
      assert Reads(n)[..n - 1] == Reads(n - 1);
      NoConnectInReads(n - 1);
    }
  }

  /** A session keeps the invariant, and an admitted session of a fresh pair
      leaves the manager exactly as it found it: no slot leaks on any path. */
  lemma SessionNoLeak(st: Admission, lim: Limits, ip: string, p: PollParams, t0: int)
    requires Ticking(p.interval, p.lag) && Inv(st, lim)
    ensures Inv(PollSession(st, lim, ip, p, t0).state, lim)
    ensures (ip, p.evaluationId) !in st.global && Admit(st, lim, ip, p.evaluationId).ok ==>
              PollSession(st, lim, ip, p, t0).state == st
  {
    AdmitKeepsInv(st, lim, ip, p.evaluationId);
    var a := Admit(st, lim, ip, p.evaluationId);
    if a.ok {
      ReleaseKeepsInv(a.state, lim, ip, p.evaluationId);
      if (ip, p.evaluationId) !in st.global {
        AdmitThenRelease(st, lim, ip, p.evaluationId);
      }
    }
  }

  /** The only errors a poll can end in are 429 (refused admission) and 404
      (no such job); lookup failures inside the loop become timeouts. */
  lemma SessionErrors(st: Admission, lim: Limits, ip: string, p: PollParams, t0: int)
    requires Ticking(p.interval, p.lag)
    ensures var s := PollSession(st, lim, ip, p, t0);
      s.response.Err? ==> s.response.error == LimitExceeded || s.response.error == NotFound
  {
    if Admit(st, lim, ip, p.evaluationId).ok && p.reader(0).Found? {
      LoopTrace(p, p.reader(0).job.createdAt.GetOr(t0), t0, t0, 1);
    }
  }

  // ---------------------------------------------------------------------
  // Scenarios of the unit tests (one second is 1000 ticks)

  /** A job already completed, created one second ago, polled with a ten
      second budget: its details come back after the first loop lookup. */
  lemma CompletedJobReturnsAtOnce(job: Job, t0: int, interval: int, lag: nat -> nat)
    requires Ticking(interval, lag)
    requires job.status == Completed && job.createdAt == Some(t0 - 1000)
    ensures var p := PollParams(job.id, 10 * TicksPerSecond, interval, _ => Found(job), lag);
      Poll(p, t0) == LoopOutcome(Ok(Finish(job)), 2, t0)
  {
  }

  /** A pending job created 100 seconds ago, polled with a five second
      budget: a timeout without any lookup inside the loop. */
  lemma OldJobTimesOut(job: Job, t0: int, interval: int, lag: nat -> nat)
    requires Ticking(interval, lag)
    requires job.status == Pending && job.createdAt == Some(t0 - 100 * TicksPerSecond)
    ensures var p := PollParams(job.id, 5 * TicksPerSecond, interval, _ => Found(job), lag);
      Poll(p, t0) == LoopOutcome(Ok(TimedOut), 1, t0)
  {
  }

  /** A job seen pending on the first two lookups and completed on the third,
      polled with a ten second budget and a 10 ms interval: the completed
      details come back after one sleep. */
  lemma PollsUntilCompletion(pending: Job, done: Job, t0: int)
    requires pending.status == Pending && pending.createdAt == Some(t0)
    requires done.status == Completed
    ensures var p := PollParams("j", 10 * TicksPerSecond, 10,
                                k => if k < 2 then Found(pending) else Found(done), _ => 0);
      Poll(p, t0) == LoopOutcome(Ok(Finish(done)), 3, t0 + 10)
  {
    var p := PollParams("j", 10 * TicksPerSecond, 10,
                        k => if k < 2 then Found(pending) else Found(done), _ => 0);
    assert SleepFor(10, 10 * TicksPerSecond) == 10;
    assert Loop(p, t0, t0, t0, 1) == Loop(p, t0, t0, t0 + 10, 2);
  }

  /** With `LONG_POLLING_POLL_INTERVAL` at zero the 0.01 s floor does not
      apply: every sleep is zero, so a job that stays unfinished, created
      when the poll starts, is looked up again as soon as each lookup
      returns. When each lookup takes one tick, a budget of `t` ticks makes
      `t` lookups inside the loop, one per tick, where any interval of at
      least the floor would sleep 10 ticks or more between them. */
  lemma ZeroIntervalBusyPolls(job: Job, t0: int, t: nat)
    requires !IsTerminal(job.status) && job.createdAt.GetOr(t0) == t0
    ensures var p := PollParams(job.id, t, 0, _ => Found(job), _ => 1);
      Poll(p, t0) == LoopOutcome(Ok(TimedOut), t + 1, t0 + t)
    ensures forall interval, remaining :: interval >= FloorTicks ==> SleepFor(interval, remaining) >= FloorTicks
  {
    var p := PollParams(job.id, t, 0, _ => Found(job), _ => 1);
    BusyPollsFrom(p, job, t0, t, 0);
  }

  lemma {:induction false} BusyPollsFrom(p: PollParams, job: Job, t0: int, t: nat, j: nat)
    requires p == PollParams(job.id, t, 0, _ => Found(job), _ => 1)
    requires !IsTerminal(job.status) && j <= t
    ensures Loop(p, t0, t0, t0 + j, j + 1) == LoopOutcome(Ok(TimedOut), t + 1, t0 + t)
    decreases t - j
  {
    if j < t {
      assert SleepFor(0, t - j) == 0;
      BusyPollsFrom(p, job, t0, t, j + 1);
    }
  }

  /** The `while True` loop of `poll_for_results`, started on clock reading
      `start` after the initial lookup: polls until the job is finished,
      gone, unreadable or the budget is spent; returns the response and the
      number of lookups made, counting the initial one. */
  method RunLoop(p: PollParams, createdAt: int, start: int) returns (r: Result<PollResponse, HttpError>, lookups: nat)
    requires Ticking(p.interval, p.lag)
    ensures r == Loop(p, createdAt, start, start, 1).response
    ensures lookups == Loop(p, createdAt, start, start, 1).lookups
  {
    var now := start;
    var k: nat := 1;
    ghost var target := Loop(p, createdAt, start, now, k);
    while true
      invariant k >= 1 && Loop(p, createdAt, start, now, k) == target
      decreases start + p.timeout - now + 1
    {
      var remaining := p.timeout - (now - createdAt);
      LoopExit(p, createdAt, start, now, k);
      if remaining <= 0 || now - start > p.timeout {
        r := Ok(TimedOut);
        break;
      }
      // A fresh lookup on every iteration.
      var read := p.reader(k);
      if !read.Found? || IsTerminal(read.job.status) {
        r := match read
          case ReadError => Ok(TimedOut)
          case Missing => Err(NotFound)
          case Found(job) => Ok(Finish(job));
        k := k + 1;
        break;
      }
      ghost var prev := now;
      now := now + Pause(SleepFor(p.interval, remaining)) + p.lag(k);
      LoopStep(p, createdAt, start, prev, now, k);
      k := k + 1;
    }
    lookups := k;
  }

  // ---------------------------------------------------------------------
  // The classes

  /** The long-polling fields of the shared `Config` object. The manager and
      the service keep a reference to it and read it on every call, so a
      change made after they are built (as the tests make) takes effect on
      the next call. */
  class PollingConfig {
    var defaultTimeout: int
    /** `LONG_POLLING_POLL_INTERVAL`, in ticks. */
    var pollInterval: int
    var maxClientConnections: int
    var globalMaxConnections: int

    constructor (defaultTimeout: int, pollInterval: int, maxClientConnections: int, globalMaxConnections: int)
      ensures this.defaultTimeout == defaultTimeout && this.pollInterval == pollInterval
      ensures this.maxClientConnections == maxClientConnections
      ensures this.globalMaxConnections == globalMaxConnections
    {
      this.defaultTimeout := defaultTimeout;
      this.pollInterval := pollInterval;
      this.maxClientConnections := maxClientConnections;
      this.globalMaxConnections := globalMaxConnections;
    }

    /** The two caps as they stand now. */
    function Caps(): Limits
      reads this
    {
      Limits(maxClientConnections, globalMaxConnections)
    }
  }

  /** Admission control: each client's set of evaluation ids and the global
      set of (client, id) pairs, each held under a cap read from the shared
      configuration at every `Connect`. */
  class ConnectionManager {
    const config: PollingConfig
    var clientConnections: Clients
    var globalConnections: set<(string, string)>

    /** Both fields as one value. */
    function State(): Admission
      reads this
    {
      Admission(clientConnections, globalConnections)
    }

    /** The structures agree; the caps are not part of it, since they can
        change between calls. */
    ghost predicate Valid()
      reads this
    {
      Coherent(State())
    }

    constructor (config: PollingConfig)
      ensures Valid() && this.config == config && State() == Empty
    {
      this.config := config;
      clientConnections := map[];
      globalConnections := {};
      new;
      EmptyInv(config.Caps());
    }

    /** Admit `(clientIp, evaluationId)` under the caps configured now, or
        refuse it with 429. As long as the caps stay the same, the counts
        stay within them. */
    method Connect(clientIp: string, evaluationId: string) returns (r: Outcome<HttpError>)
      requires Valid()
      modifies this
      ensures Valid()
      ensures var a := Admit(old(State()), config.Caps(), clientIp, evaluationId);
              State() == a.state && r == (if a.ok then Pass else Fail(LimitExceeded))
      ensures Inv(old(State()), config.Caps()) ==> Inv(State(), config.Caps())
    {
      AdmitKeeps(State(), config.Caps(), clientIp, evaluationId);
      if |globalConnections| >= config.globalMaxConnections {
        return Fail(LimitExceeded);
      }
      // Looking the client up in the defaultdict creates its entry.
      if clientIp !in clientConnections {
        clientConnections := clientConnections[clientIp := {}];
      }
      if |clientConnections[clientIp]| >= config.maxClientConnections {
        return Fail(LimitExceeded);
      }
      globalConnections := globalConnections + {(clientIp, evaluationId)};
      clientConnections := clientConnections[clientIp := clientConnections[clientIp] + {evaluationId}];
      r := Pass;
    }

    /** Release `(clientIp, evaluationId)`; never fails. */
    method Disconnect(clientIp: string, evaluationId: string)
      requires Valid()
      modifies this
      ensures Valid()
      ensures State() == Release(old(State()), clientIp, evaluationId)
      ensures Inv(old(State()), config.Caps()) ==> Inv(State(), config.Caps())
    {
      ReleaseKeeps(State(), config.Caps(), clientIp, evaluationId);
      ghost var dropped := Drop(clientConnections, clientIp, evaluationId);
      if (clientIp, evaluationId) in globalConnections {
        globalConnections := globalConnections - {(clientIp, evaluationId)};
      }
      if clientIp in clientConnections && evaluationId in clientConnections[clientIp] {
        var rest := clientConnections[clientIp] - {evaluationId};
        if rest == {} {
          // The client's last id is gone: its entry goes too.
          clientConnections := clientConnections - {clientIp};
        } else {
          clientConnections := clientConnections[clientIp := rest];
        }
      }
      assert clientConnections == dropped;
    }
  }

  /** Long polling for evaluation job results under admission control. */
  class LongPollingService {
    const config: PollingConfig
    const manager: ConnectionManager

    ghost predicate Valid()
      reads this, manager
    {
      manager.Valid()
    }

    constructor (config: PollingConfig, manager: ConnectionManager)
      requires manager.Valid()
      ensures Valid() && this.config == config && this.manager == manager
    {
      this.config := config;
      this.manager := manager;
    }

    /** The inputs of one poll as the configuration stands now. */
    function Params(evaluationId: string, timeoutSeconds: int, reader: nat -> ReadOutcome, lag: nat -> nat): PollParams
      reads config
    {
      PollParams(evaluationId, timeoutSeconds * TicksPerSecond, config.pollInterval, reader, lag)
    }

    /** `poll_for_results`: the clock starts at `t0`; `reader` and `lag`
        stand for the database and the passing of time. The ghost `events`
        records the calls made. The manager keeps its invariant under caps
        that do not change during the call. */
    method PollForResults(evaluationId: string, timeoutSeconds: int, clientIp: string,
                          t0: int, reader: nat -> ReadOutcome, lag: nat -> nat)
      returns (r: Result<PollResponse, HttpError>, ghost events: seq<Event>)
      requires Valid() && Ticking(config.pollInterval, lag)
      modifies manager
      ensures Valid()
      ensures var s := PollSession(old(manager.State()), manager.config.Caps(), clientIp,
                                   Params(evaluationId, timeoutSeconds, reader, lag), t0);
              r == s.response && manager.State() == s.state && events == s.events
      ensures Inv(old(manager.State()), manager.config.Caps()) ==> Inv(manager.State(), manager.config.Caps())
    {
      var p := Params(evaluationId, timeoutSeconds, reader, lag);
      var admitted := manager.Connect(clientIp, evaluationId);
      events := [ConnectCall];
      if admitted.Fail? {
        r := Err(admitted.error);
        return;
      }
      var outcome: Result<PollResponse, HttpError>;
      // Initial lookup.
      var initial := reader(0);
      if !initial.Found? {
        outcome := Err(NotFound);
        events := events + Reads(1);
      } else {
        var createdAt := initial.job.createdAt.GetOr(t0);
        var lookups;
        outcome, lookups := RunLoop(p, createdAt, t0);
        events := events + Reads(lookups);
      }
      // Always disconnect.
      manager.Disconnect(clientIp, evaluationId);
      events := events + [DisconnectCall];
      r := outcome;
    }
  }
}
