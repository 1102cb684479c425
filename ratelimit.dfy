/**
 * The in-memory fixed-window rate limiter: per client key, a count of the
 * calls admitted in the current window and the instant the window started,
 * plus a periodic sweep that forgets keys idle for more than a minute.
 * The clock is a parameter (`now`, in milliseconds).
 */
module RateLimit {
  /** Default policy of `rateLimit(ip)`: 5 calls per 10 000 ms window. */
  const DefaultLimit: int := 5
  const DefaultWindowMs: int := 10000
  /** The sweep drops a key whose window started more than this long ago. */
  const StaleAfterMs: int := 60000

  datatype Record = Record(count: int, lastReset: int)

  /** The answer to one call and the table it leaves behind. */
  datatype Step = Step(success: bool, records: map<string, Record>)

  /** One call of `rateLimit(ip, limit, windowMs)` at time `now`. */
  function Admit(records: map<string, Record>, ip: string, limit: int, windowMs: int, now: int): Step
  {
    if ip !in records then
      Step(true, records[ip := Record(1, now)])
    else if now - records[ip].lastReset > windowMs then
      Step(true, records[ip := Record(1, now)])
    else if records[ip].count >= limit then
      Step(false, records)
    else
      Step(true, records[ip := records[ip].(count := records[ip].count + 1)])
  }

  /** Is the record old enough for the sweep to drop it? */
  predicate Stale(r: Record, now: int)
  {
    now - r.lastReset > StaleAfterMs
  }

  /** The table the sweep leaves at time `now`. */
  function Swept(records: map<string, Record>, now: int): map<string, Record>
  {
    map k | k in records && !Stale(records[k], now) :: records[k]
  }

  /** Every stored count lies in 1..limit. */
  ghost predicate CountsWithin(records: map<string, Record>, limit: int)
  {
    forall k :: k in records ==> 1 <= records[k].count <= limit
  }

  // ---------------------------------------------------------------------------
  // One call

  /** A key seen for the first time is admitted with a fresh window. */
  lemma FirstCallAdmitted(records: map<string, Record>, ip: string, limit: int, windowMs: int, now: int)
    requires ip !in records
    ensures var s := Admit(records, ip, limit, windowMs, now);
      s.success && s.records[ip] == Record(1, now)
  {
  }

  /**
   * The window restarts only when strictly more than `windowMs` has elapsed:
   * then the call is admitted with count 1; at exactly `windowMs` the old
   * window still applies.
   */
  lemma WindowResetIsStrict(records: map<string, Record>, ip: string, limit: int, windowMs: int, now: int)
    requires ip in records
    ensures var s := Admit(records, ip, limit, windowMs, now);
      (now - records[ip].lastReset > windowMs ==> s.success && s.records[ip] == Record(1, now))
    ensures var s := Admit(records, ip, limit, windowMs, now);
      (now - records[ip].lastReset == windowMs ==>
         s.success == (records[ip].count < limit) && s.records[ip].lastReset == records[ip].lastReset)
  {
  }

  /** Inside the window, a key at its limit is refused and nothing changes. */
  lemma RejectionChangesNothing(records: map<string, Record>, ip: string, limit: int, windowMs: int, now: int)
    requires ip in records && now - records[ip].lastReset <= windowMs && records[ip].count >= limit
    ensures Admit(records, ip, limit, windowMs, now) == Step(false, records)
  {
  }

  /** A refused call never changes the table, whatever the reason. */
  lemma RefusedCallLeavesTable(records: map<string, Record>, ip: string, limit: int, windowMs: int, now: int)
    ensures var s := Admit(records, ip, limit, windowMs, now);
      !s.success ==> s.records == records
  {
  }

  /** Inside the window and under the limit, the count grows by exactly one. */
  lemma AdmissionIncrements(records: map<string, Record>, ip: string, limit: int, windowMs: int, now: int)
    requires ip in records && now - records[ip].lastReset <= windowMs && records[ip].count < limit
    ensures var s := Admit(records, ip, limit, windowMs, now);
      s.success && s.records[ip] == Record(records[ip].count + 1, records[ip].lastReset)
  {
  }

  /** A call reads and writes its own key only. */
  lemma OtherKeysUntouched(records: map<string, Record>, ip: string, limit: int, windowMs: int, now: int)
    ensures var s := Admit(records, ip, limit, windowMs, now);
      && ip in s.records
      && (forall k :: k != ip ==> (k in s.records <==> k in records))
      && (forall k :: k != ip && k in records ==> s.records[k] == records[k])
  {
  }

  /** With a limit of at least one, every stored count stays within 1..limit. */
  lemma AdmitKeepsCountsWithin(records: map<string, Record>, ip: string, limit: int, windowMs: int, now: int)
    requires limit >= 1 && CountsWithin(records, limit)
    ensures CountsWithin(Admit(records, ip, limit, windowMs, now).records, limit)
  {
  }

  // ---------------------------------------------------------------------------
  // Many calls

  /** What successive calls for one key see, and the table they leave. */
  datatype Trace = Trace(admitted: seq<bool>, records: map<string, Record>)

  /** Calls for key `ip` at the instants `times`, in order. */
  function Run(records: map<string, Record>, ip: string, limit: int, windowMs: int, times: seq<int>): (t: Trace)
    ensures |t.admitted| == |times|
    ensures ip in t.records || (times == [] && ip !in records)
    decreases |times|
  {
    if times == [] then Trace([], records)
    else
      var s := Admit(records, ip, limit, windowMs, times[0]);
      var rest := Run(s.records, ip, limit, windowMs, times[1..]);
      Trace([s.success] + rest.admitted, rest.records)
  }

  function Min(a: int, b: int): int
  {
    if a <= b then a else b
  }

  /**
   * Inside one window that started at `start` with `count` calls admitted,
   * call number i (from 0) is admitted exactly when count + i < limit, and the
   * count ends at the limit or below it, never past it.
   */
  lemma {:induction false} RunInsideWindow(records: map<string, Record>, ip: string, limit: int, windowMs: int,
                                           times: seq<int>, count: int, start: int)
    requires ip in records && records[ip] == Record(count, start)
    requires forall i :: 0 <= i < |times| ==> times[i] - start <= windowMs
    ensures var t := Run(records, ip, limit, windowMs, times);
      && (forall i :: 0 <= i < |times| ==> t.admitted[i] == (count + i < limit))
      && t.records[ip] == Record(if count >= limit then count else Min(count + |times|, limit), start)
    decreases |times|
  {
    if times != [] {
      var s := Admit(records, ip, limit, windowMs, times[0]);
      var next := if count >= limit then count else count + 1;
      assert s.records[ip] == Record(next, start);
      RunInsideWindow(s.records, ip, limit, windowMs, times[1..], next, start);
      var t := Run(records, ip, limit, windowMs, times);
      var rest := Run(s.records, ip, limit, windowMs, times[1..]);
      assert t.admitted == [s.success] + rest.admitted;
      forall i | 0 <= i < |times|
        ensures t.admitted[i] == (count + i < limit)
      {
        if i > 0 {
          assert t.admitted[i] == rest.admitted[i - 1];
        }
      }
    }
  }

  /**
   * From a key never seen before, with limit >= 1, the first `limit` calls
   * of one window are admitted and every later one in it is refused; the
   * stored count ends at min(calls, limit).
   */
  lemma FreshKeyBurst(records: map<string, Record>, ip: string, limit: int, windowMs: int, times: seq<int>)
    requires ip !in records && limit >= 1 && times != []
    requires forall i :: 0 <= i < |times| ==> times[i] - times[0] <= windowMs
    ensures var t := Run(records, ip, limit, windowMs, times);
      && (forall i :: 0 <= i < |times| ==> t.admitted[i] == (i < limit))
      && t.records[ip] == Record(Min(|times|, limit), times[0])
  {
    var s := Admit(records, ip, limit, windowMs, times[0]);
    var rest := times[1..];
    assert forall i :: 0 <= i < |rest| ==> rest[i] - times[0] <= windowMs by {
      forall i | 0 <= i < |rest| ensures rest[i] - times[0] <= windowMs {
        assert rest[i] == times[i + 1];
      }
    }
    RunInsideWindow(s.records, ip, limit, windowMs, rest, 1, times[0]);
    var t := Run(records, ip, limit, windowMs, times);
    var r := Run(s.records, ip, limit, windowMs, rest);
    assert t.admitted == [true] + r.admitted;
    forall i | 0 <= i < |times|
      ensures t.admitted[i] == (i < limit)
    {
      if i > 0 {
        assert t.admitted[i] == r.admitted[i - 1];
      }
    }
  }

  /** Under the default policy, six calls at one instant: five admitted, the sixth refused. */
  lemma DefaultPolicySixthCallRefused(records: map<string, Record>, ip: string, now: int)
    requires ip !in records
    ensures Run(records, ip, DefaultLimit, DefaultWindowMs, [now, now, now, now, now, now]).admitted
         == [true, true, true, true, true, false]
  {
    var times := [now, now, now, now, now, now];
    FreshKeyBurst(records, ip, DefaultLimit, DefaultWindowMs, times);
    var a := Run(records, ip, DefaultLimit, DefaultWindowMs, times).admitted;
    assert a[0] && a[1] && a[2] && a[3] && a[4] && !a[5];
  }

  // ---------------------------------------------------------------------------
  // The sweep

  /** The sweep drops exactly the stale keys and leaves every other record as it was. */
  lemma SweptKeys(records: map<string, Record>, now: int)
    ensures forall k :: k in Swept(records, now) <==> k in records && !Stale(records[k], now)
    ensures forall k :: k in Swept(records, now) ==> Swept(records, now)[k] == records[k]
  {
  }

  /** The sweep only removes records, so it keeps the count bounds. */
  lemma SweepKeepsCountsWithin(records: map<string, Record>, now: int, limit: int)
    requires CountsWithin(records, limit)
    ensures CountsWithin(Swept(records, now), limit)
  {
  }

  /**
   * For any window of at most a minute, the sweep cannot be observed: a later
   * call gets the same answer and leaves the same record for its key whether
   * or not the sweep ran in between.
   */
  lemma SweepUnobservable(records: map<string, Record>, now: int, later: int,
                          ip: string, limit: int, windowMs: int)
    requires now <= later && windowMs <= StaleAfterMs
    ensures var before := Admit(records, ip, limit, windowMs, later);
            var after := Admit(Swept(records, now), ip, limit, windowMs, later);
      after.success == before.success && after.records[ip] == before.records[ip]
  {
  }

  // ---------------------------------------------------------------------------
  // The limiter object

  class Limiter {
    /** The per-key table; the source's module-level Map. */
    var records: map<string, Record>

    constructor ()
      ensures records == map[]
    {
      records := map[];
    }

    /** `rateLimit(ip, limit, windowMs)` with `Date.now()` passed as `now`. */
    method RateLimit(ip: string, limit: int, windowMs: int, now: int) returns (success: bool)
      modifies this
      ensures success == Admit(old(records), ip, limit, windowMs, now).success
      ensures records == Admit(old(records), ip, limit, windowMs, now).records
    {
      if ip !in records {
        records := records[ip := Record(1, now)];
        return true;
      }
      var record := records[ip];
      if now - record.lastReset > windowMs {
        records := records[ip := Record(1, now)];
        return true;
      }
      if record.count >= limit {
        return false;
      }
      records := records[ip := record.(count := record.count + 1)];
      return true;
    }

    /** One tick of the cleanup interval, deleting entries while iterating over them. */
    method Sweep(now: int)
      modifies this
      ensures records == Swept(old(records), now)
    {
      var pending := records.Keys;
      while pending != {}
        invariant pending <= old(records).Keys
        invariant forall k :: k in records <==> k in old(records) && (k in pending || !Stale(old(records)[k], now))
        invariant forall k :: k in records ==> records[k] == old(records)[k]
        decreases pending
      {
        var key :| key in pending;
        if now - records[key].lastReset > StaleAfterMs {
          records := records - {key};
        }
        pending := pending - {key};
      }
    }
  }
}
