/** The fallback router: every operation goes to the primary client through
    the breaker, and is re-issued unchanged to the secondary client whenever
    that path returns an error. */
module Fallback {
  import opened Outcomes
  import opened Breaker

  newtype uint64 = x: int | 0 <= x < 0x1_0000_0000_0000_0000

  const Second: Duration := 1_000_000_000

  /** The breaker name the router gives its breaker. */
  const BreakerName: string := "pd-fallback-client"

  // The values the backends exchange. Only their identity matters here.
  type Key = seq<bv8>
  datatype Context = Context(id: nat)
  datatype GetRegionOption = WithBuckets
  datatype GetStoreOption = WithExcludeTombstone
  datatype Region = Region(id: uint64, startKey: Key, endKey: Key, leaderStoreId: uint64)
  datatype Store = Store(id: uint64, address: string)

  /** The operation set that the primary and the secondary client share,
      each as a function of its arguments. */
  datatype Operations = Operations(
    getRegion: (Context, Key, seq<GetRegionOption>) -> Outcome<Region>,
    getPrevRegion: (Context, Key, seq<GetRegionOption>) -> Outcome<Region>,
    getRegionByID: (Context, uint64, seq<GetRegionOption>) -> Outcome<Region>,
    scanRegions: (Context, Key, Key, int, seq<GetRegionOption>) -> Outcome<seq<Region>>,
    getStore: (Context, uint64) -> Outcome<Store>,
    getAllStores: (Context, seq<GetStoreOption>) -> Outcome<seq<Store>>)

  /** A metadata client handle: its operations and whether it was closed. */
  class PdClient {
    const ops: Operations
    var closed: bool

    constructor (ops: Operations)
      ensures this.ops == ops && !closed
    {
      this.ops := ops;
      closed := false;
    }

    method Close()
      modifies this
      ensures closed
    {
      closed := true;
    }
  }

  /** CBOptions: the caller's breaker options. */
  datatype CBOptions = CBOptions(
    interval: Duration,
    timeout: Duration,
    probeInterval: Duration,
    readyToTrip: Counts -> bool)

  /** ifMostFailures: at least five requests, and at least two failures in
      every five requests. Equal to the exact comparison of the failure ratio
      with 0.4. */
  function IfMostFailures(counts: Counts): (trip: bool)
    ensures counts.requests < 5 ==> !trip
    ensures trip <==> counts.requests >= 5 &&
                      (counts.totalFailures as real) / (counts.requests as real) >= 0.4
  {
    if counts.requests >= 5 then
      RatioAtLeastTwoFifths(counts.totalFailures as int, counts.requests as int);
      5 * counts.totalFailures as int >= 2 * counts.requests as int
    else
      false
  }

  /** For a positive `r`, `f / r >= 0.4` exactly when `5 * f >= 2 * r`. */
  lemma RatioAtLeastTwoFifths(f: int, r: int)
    requires r > 0
    ensures (f as real) / (r as real) >= 0.4 <==> 5 * f >= 2 * r
  {
  }

  /** The policy on small windows: five requests with two failures trip it,
      five with one do not, and four requests never do. */
  lemma IfMostFailuresExamples()
    ensures IfMostFailures(Counts(5, 3, 2, 0, 0))
    ensures !IfMostFailures(Counts(5, 4, 1, 0, 0))
    ensures !IfMostFailures(Counts(4, 0, 4, 0, 4))
  {
  }

  /** defaultCBOptions. */
  function DefaultCBOptions(): (o: CBOptions)
    ensures o.interval == 5 * Second && o.timeout == Second && o.probeInterval == Second
    ensures forall c :: o.readyToTrip(c) == IfMostFailures(c)
  {
    CBOptions(5 * Second, 1 * Second, 1 * Second, IfMostFailures)
  }

  /** The dispatch rule, once for every operation: run `primary(args)`
      through the breaker; a nil error returns its result, any error
      re-issues the call with the same arguments to `secondary` and returns
      that outcome as it is. */
  function Dispatch<A, R>(b: AsyncBreaker, gate: Gate, primary: A -> Outcome<R>,
                          secondary: A -> Outcome<R>, args: A): (r: Outcome<R>)
    reads b
    ensures (r.Ok? && r == primary(args)) || r == secondary(args)
    ensures gate.Reject? || b.state == Open ==> r == secondary(args)
    ensures gate.Admit? && b.state == Closed ==>
      r == (if primary(args).Ok? then primary(args) else secondary(args))
  {
    var resp := b.Execute(gate, () => primary(args));
    if resp.Ok? then resp else secondary(args)
  }

  /** When the breaker-wrapped primary call succeeds, the secondary is not
      consulted: any other secondary gives the same result. */
  lemma SecondaryUntouchedOnSuccess<A, R>(b: AsyncBreaker, gate: Gate, primary: A -> Outcome<R>,
                                         secondary: A -> Outcome<R>, other: A -> Outcome<R>, args: A)
    requires b.Execute(gate, () => primary(args)).Ok?
    ensures Dispatch(b, gate, primary, secondary, args) == Dispatch(b, gate, primary, other, args)
    ensures Dispatch(b, gate, primary, secondary, args) == primary(args)
  {
  }

  /** While the flag is open, the primary is not consulted: any other
      primary gives the same result, the secondary's. */
  lemma PrimaryUntouchedWhileOpen<A, R>(b: AsyncBreaker, gate: Gate, primary: A -> Outcome<R>,
                                       other: A -> Outcome<R>, secondary: A -> Outcome<R>, args: A)
    requires b.state == Open
    ensures Dispatch(b, gate, primary, secondary, args) == Dispatch(b, gate, other, secondary, args)
    ensures Dispatch(b, gate, primary, secondary, args) == secondary(args)
  {
  }

  /** ClientWithFallback: the caller's primary client, the secondary client
      it owns, and the breaker bound to the primary. */
  class ClientWithFallback {
    const primary: PdClient
    const cse: PdClient
    const breaker: AsyncBreaker

    ghost predicate Valid()
      reads this, breaker
    {
      primary != cse && breaker.Valid()
    }

    constructor Init(primary: PdClient, cse: PdClient, breaker: AsyncBreaker)
      ensures this.primary == primary && this.cse == cse && this.breaker == breaker
    {
      this.primary := primary;
      this.cse := cse;
      this.breaker := breaker;
    }

    /** NewClientWithFallback. `newClient` is the outcome of building the
        secondary client; a nil `cbOpt` is replaced by the defaults. */
    static method NewClientWithFallback(client: PdClient, newClient: Outcome<PdClient>, cbOpt: Option<CBOptions>)
      returns (f: ClientWithFallback?, err: Option<Error>)
      requires newClient.Ok? ==> newClient.value != client
      ensures newClient.Err? ==> f == null && err == Some(newClient.error)
      ensures newClient.Ok? ==> f != null && err == None && fresh(f) && fresh(f.breaker) && f.Valid()
      ensures newClient.Ok? ==> f.primary == client && f.cse == newClient.value
      ensures newClient.Ok? ==> f.breaker.state == Closed && !f.breaker.onceDone && f.breaker.liveProbeLoops == 0
      ensures newClient.Ok? ==> f.breaker.settings.name == BreakerName && f.breaker.settings.maxRequests == 0
      ensures newClient.Ok? && cbOpt.Some? ==>
        var s, o := f.breaker.settings, cbOpt.value;
        s.interval == o.interval && s.timeout == o.timeout && s.probeInterval == o.probeInterval &&
        s.readyToTrip == o.readyToTrip
      ensures newClient.Ok? && cbOpt.None? ==>
        var s := f.breaker.settings;
        s.interval == 5 * Second && s.timeout == Second && s.probeInterval == Second &&
        forall c :: s.readyToTrip(c) == IfMostFailures(c)
    {
      var opt := cbOpt;
      if opt.None? {
        opt := Some(DefaultCBOptions());
      }
      if newClient.Err? {
        return null, Some(newClient.error);
      }
      var o := opt.value;
      var s := Settings(BreakerName, 0, o.interval, o.timeout, o.probeInterval, o.readyToTrip);
      var breaker := new AsyncBreaker(s);
      f := new ClientWithFallback.Init(client, newClient.value, breaker);
      err := None;
    }

    function GetRegion(ctx: Context, key: Key, opts: seq<GetRegionOption>, gate: Gate): (r: Outcome<Region>)
      reads breaker
      ensures r == Dispatch(breaker, gate, (a: (Context, Key, seq<GetRegionOption>)) => primary.ops.getRegion(a.0, a.1, a.2),
                            (a: (Context, Key, seq<GetRegionOption>)) => cse.ops.getRegion(a.0, a.1, a.2), (ctx, key, opts))
    {
      var resp := breaker.Execute(gate, () => primary.ops.getRegion(ctx, key, opts));
      if resp.Ok? then Ok(resp.value) else cse.ops.getRegion(ctx, key, opts)
    }

    function GetPrevRegion(ctx: Context, key: Key, opts: seq<GetRegionOption>, gate: Gate): (r: Outcome<Region>)
      reads breaker
      ensures r == Dispatch(breaker, gate, (a: (Context, Key, seq<GetRegionOption>)) => primary.ops.getPrevRegion(a.0, a.1, a.2),
                            (a: (Context, Key, seq<GetRegionOption>)) => cse.ops.getPrevRegion(a.0, a.1, a.2), (ctx, key, opts))
    {
      var resp := breaker.Execute(gate, () => primary.ops.getPrevRegion(ctx, key, opts));
      if resp.Ok? then Ok(resp.value) else cse.ops.getPrevRegion(ctx, key, opts)
    }

    function GetRegionByID(ctx: Context, regionID: uint64, opts: seq<GetRegionOption>, gate: Gate): (r: Outcome<Region>)
      reads breaker
      ensures r == Dispatch(breaker, gate, (a: (Context, uint64, seq<GetRegionOption>)) => primary.ops.getRegionByID(a.0, a.1, a.2),
                            (a: (Context, uint64, seq<GetRegionOption>)) => cse.ops.getRegionByID(a.0, a.1, a.2), (ctx, regionID, opts))
    {
      var resp := breaker.Execute(gate, () => primary.ops.getRegionByID(ctx, regionID, opts));
      if resp.Ok? then Ok(resp.value) else cse.ops.getRegionByID(ctx, regionID, opts)
    }

    function ScanRegions(ctx: Context, key: Key, endKey: Key, limit: int, opts: seq<GetRegionOption>, gate: Gate)
      : (r: Outcome<seq<Region>>)
      reads breaker
      ensures r == Dispatch(breaker, gate,
                            (a: (Context, Key, Key, int, seq<GetRegionOption>)) => primary.ops.scanRegions(a.0, a.1, a.2, a.3, a.4),
                            (a: (Context, Key, Key, int, seq<GetRegionOption>)) => cse.ops.scanRegions(a.0, a.1, a.2, a.3, a.4),
                            (ctx, key, endKey, limit, opts))
    {
      var resp := breaker.Execute(gate, () => primary.ops.scanRegions(ctx, key, endKey, limit, opts));
      if resp.Ok? then Ok(resp.value) else cse.ops.scanRegions(ctx, key, endKey, limit, opts)
    }

    function GetStore(ctx: Context, storeID: uint64, gate: Gate): (r: Outcome<Store>)
      reads breaker
      ensures r == Dispatch(breaker, gate, (a: (Context, uint64)) => primary.ops.getStore(a.0, a.1),
                            (a: (Context, uint64)) => cse.ops.getStore(a.0, a.1), (ctx, storeID))
    {
      var resp := breaker.Execute(gate, () => primary.ops.getStore(ctx, storeID));
      if resp.Ok? then Ok(resp.value) else cse.ops.getStore(ctx, storeID)
    }

    function GetAllStores(ctx: Context, opts: seq<GetStoreOption>, gate: Gate): (r: Outcome<seq<Store>>)
      reads breaker
      ensures r == Dispatch(breaker, gate, (a: (Context, seq<GetStoreOption>)) => primary.ops.getAllStores(a.0, a.1),
                            (a: (Context, seq<GetStoreOption>)) => cse.ops.getAllStores(a.0, a.1), (ctx, opts))
    {
      var resp := breaker.Execute(gate, () => primary.ops.getAllStores(ctx, opts));
      if resp.Ok? then Ok(resp.value) else cse.ops.getAllStores(ctx, opts)
    }

    /** Close: closes the secondary client and the breaker; the primary
        client belongs to the caller and is left open. */
    method Close()
      requires Valid()
      modifies cse, breaker
      ensures Valid()
      ensures cse.closed && breaker.onceDone && breaker.doneClosed
      ensures primary.closed == old(primary.closed)
      ensures breaker.state == old(breaker.state)
      ensures breaker.liveProbeLoops == old(breaker.liveProbeLoops)
    {
      cse.Close();
      breaker.Close();
    }
  }

  /** A trip and a recovery, end to end: five requests with three failures
      trip the default policy; while gobreaker refuses with its own error the
      next lookup is served by the secondary; the probe loop fails once and
      then succeeds, and the lookup after that, once gobreaker admits it, is
      served by the primary again. Closing twice is harmless. */
  method TripAndRecoverScenario(primaryOps: Operations, cseOps: Operations, ctx: Context, key: Key)
    requires primaryOps.getRegion(ctx, key, []).Ok?
  {
    var client := new PdClient(primaryOps);
    var cse := new PdClient(cseOps);
    var f, err := ClientWithFallback.NewClientWithFallback(client, Ok(cse), None);
    var lookup := f.GetRegion(ctx, key, [], Admit);
    assert lookup == primaryOps.getRegion(ctx, key, []);

    var counts := Counts(5, 2, 3, 0, 1);
    assert f.breaker.settings.readyToTrip(counts);
    f.breaker.OnStateChange(StateClosed, StateOpen);
    assert f.breaker.liveProbeLoops == 1;
    lookup := f.GetRegion(ctx, key, [], Reject(ErrOpenState));
    assert lookup == cseOps.getRegion(ctx, key, []);

    var handled, exit := f.breaker.ProbeLoop([Tick(false), Tick(true)]);
    assert FirstExit([Tick(false), Tick(true)]) == 1;
    assert exit == Recovered && handled == 2;
    lookup := f.GetRegion(ctx, key, [], Admit);
    assert lookup == primaryOps.getRegion(ctx, key, []);

    f.Close();
    f.Close();
    assert f.breaker.closeBodyRuns == 1 && !client.closed && cse.closed;
  }
}
