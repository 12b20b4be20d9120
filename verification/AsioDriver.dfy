/** The state an ASIO driver handle tracks, against the state the SDK is really in. */
module AsioDriver {
  import opened Wrappers

  datatype DriverState = Initialized | Prepared | Running

  /** The SDK has no driver at all before a load and after an exit. */
  datatype SdkState = Unloaded | Loaded | Ready(state: DriverState)

  /** `UnusablePreferredSize` stands for the panic over a preferred size that is not positive. */
  datatype AsioError = SdkError | InvalidBufferSize | NoRate | NoDrivers | UnusablePreferredSize

  datatype Ret = Ok | Err(error: AsioError)

  /** The range of sizes a driver offers, and the one it prefers. */
  datatype BufferSizes = BufferSizes(min: int, max: int, preferred: int)

  datatype Call =
    | LoadCall | InitCall | ExitCall | SizesCall | CreateCall | StartCall | StopCall | DisposeCall
    | SetRateCall | GetRateCall

  /** What goes wrong: anything at any time, nothing, or every call of one kind. */
  datatype Fault = Anything | Nothing | Only(call: Call)

  /** When a driver takes a new rate: at once, or when it is loaded again after its buffers have run, or never. */
  datatype Pace = AtOnce | AfterReload | Never

  /** The SDK and the driver in it. A failed call changes nothing, and what fails is said by `fault`, which
      may change between calls. The calls that are only defined in one state demand it, so that nobody can
      issue them in another. */
  class Sdk {
    const pace: Pace
    const sizes: BufferSizes
    var fault: Fault
    var state: SdkState
    /** The rate the driver runs at, and the one it was last asked for. */
    var rate: real
    var asked: real
    /** Buffers have run since. */
    var ran: bool
    /** Calls of a teardown that were refused. */
    ghost var refusals: nat
    /** Loads and initialisations that failed. */
    ghost var failedLoads: nat
    /** The ids of the buffer callbacks, in order of registration. */
    var callbacks: seq<nat>
    /** Every id ever given to a callback, and how many there are. */
    ghost var ever: set<nat>
    ghost var issued: nat

    constructor (pace: Pace, sizes: BufferSizes, rate: real)
      ensures state == Unloaded && fault.Nothing? && Registered() && callbacks == [] && ever == {}
      ensures this.pace == pace && this.sizes == sizes && this.rate == this.asked == rate
    {
      this.pace, this.sizes, this.rate, this.asked, ran, refusals := pace, sizes, rate, rate, false, 0;
      fault, state, failedLoads, callbacks, ever, issued := Nothing, Unloaded, 0, [], {}, 0;
    }

    predicate Grants(call: Call)
      reads this
    {
      fault.Nothing? || (fault.Only? && fault.call != call)
    }

    predicate Refuses(call: Call)
      reads this
    {
      fault == Only(call)
    }

    method Works(call: Call) returns (b: bool)
      ensures Grants(call) ==> b
      ensures Refuses(call) ==> !b
    {
      b := *;
      b := if fault.Anything? then b else Grants(call);
    }

    /** Ids grow in order of registration, so no two callbacks share one. */
    ghost predicate Registered()
      reads this
    {
      && (forall j, k :: 0 <= j < k < |callbacks| ==> callbacks[j] < callbacks[k])
      && (forall k :: 0 <= k < |callbacks| ==> callbacks[k] < issued)
      && (forall id: nat :: id in ever <==> id < issued)
    }

    /** The new id is shared with no registered callback. It is one that no callback has ever had if and only
        if the latest of all ids is still registered, or there has been none. */
    method AddCallback() returns (id: nat)
      requires Registered()
      modifies this`callbacks, this`ever, this`issued
      ensures Registered() && callbacks == old(callbacks) + [id] && id !in old(callbacks)
      ensures ever == old(ever) + {id} && issued == if id in old(ever) then old(issued) else id + 1
      ensures id !in old(ever) <==> old(ever) == {} || old(issued - 1 in callbacks)
    {
      id := if callbacks == [] then 0 else callbacks[|callbacks| - 1] + 1;
      assert issued > 0 ==> issued - 1 in ever;
      callbacks := callbacks + [id];
      ever := ever + {id};
      issued := if id < issued then issued else id + 1;
    }

    /** Removes the callback with this id, if there is one, and no other. */
    method RemoveCallback(id: nat)
      requires Registered()
      modifies this`callbacks
      ensures Registered() && id !in callbacks
      ensures forall other :: other != id ==> (other in callbacks <==> other in old(callbacks))
    {
      for k := 0 to |callbacks|
        invariant callbacks == old(callbacks) && id !in callbacks[..k]
      {
        if callbacks[k] == id {
          callbacks := callbacks[..k] + callbacks[k + 1..];
          return;
        }
      }
    }

    method ClearCallbacks()
      modifies this`callbacks
      ensures callbacks == []
      ensures old(Registered()) ==> Registered()
    {
      callbacks := [];
    }

    method Load() returns (done: bool)
      requires state == Unloaded
      modifies this`state, this`failedLoads
      ensures state == if done then Loaded else Unloaded
      ensures failedLoads == if done then old(failedLoads) else old(failedLoads) + 1
      ensures Grants(LoadCall) ==> done
      ensures Refuses(LoadCall) ==> !done
    {
      done := Works(LoadCall);
      if done {
        state := Loaded;
      } else {
        failedLoads := failedLoads + 1;
      }
    }

    /** A slow driver takes the rate it was asked for when it is initialised again, if it has run meanwhile. */
    method Init() returns (done: bool)
      requires state == Loaded
      modifies this`state, this`failedLoads, this`rate
      ensures state == if done then Ready(Initialized) else Loaded
      ensures failedLoads == if done then old(failedLoads) else old(failedLoads) + 1
      ensures rate == if done && pace.AfterReload? && ran then asked else old(rate)
      ensures Grants(InitCall) ==> done
    {
      done := Works(InitCall);
      if done {
        state := Ready(Initialized);
        rate := if pace.AfterReload? && ran then asked else rate;
      } else {
        failedLoads := failedLoads + 1;
      }
    }

    predicate Offers(size: int) { sizes.min <= size <= sizes.max }

    method CreateBuffers(size: int) returns (done: bool)
      requires state == Ready(Initialized)
      modifies this`state
      ensures state == if done then Ready(Prepared) else Ready(Initialized)
      ensures done ==> Offers(size)
      ensures Grants(CreateCall) ==> (done <==> Offers(size))
    {
      done := Works(CreateCall);
      done := done && Offers(size);
      if done {
        state := Ready(Prepared);
      }
    }

    /** Refused unless buffers exist. */
    method Start() returns (done: bool)
      requires state.Ready?
      modifies this`state, this`ran
      ensures done ==> old(state) == Ready(Prepared) && state == Ready(Running)
      ensures !done ==> state == old(state)
      ensures ran == (old(ran) || done)
      ensures Grants(StartCall) ==> (done <==> old(state) == Ready(Prepared))
    {
      done := Works(StartCall);
      done := done && state == Ready(Prepared);
      if done {
        state, ran := Ready(Running), true;
      }
    }

    method Stop() returns (done: bool)
      requires state == Ready(Running)
      modifies this`state, this`refusals
      ensures state == if done then Ready(Prepared) else Ready(Running)
      ensures refusals == old(refusals) + if done then 0 else 1
      ensures Grants(StopCall) ==> done
      ensures Refuses(StopCall) ==> !done
    {
      done := Works(StopCall);
      if done {
        state := Ready(Prepared);
      } else {
        refusals := refusals + 1;
      }
    }

    method DisposeBuffers() returns (done: bool)
      requires state == Ready(Prepared)
      modifies this`state, this`refusals
      ensures state == if done then Ready(Initialized) else Ready(Prepared)
      ensures refusals == old(refusals) + if done then 0 else 1
      ensures Grants(DisposeCall) ==> done
      ensures Refuses(DisposeCall) ==> !done
    {
      done := Works(DisposeCall);
      if done {
        state := Ready(Initialized);
      } else {
        refusals := refusals + 1;
      }
    }

    /** A driver that failed to exit is still there until it is removed. */
    method Exit() returns (done: bool)
      requires state == Ready(Initialized)
      modifies this`refusals
      ensures refusals == old(refusals) + if done then 0 else 1
      ensures Grants(ExitCall) ==> done
      ensures Refuses(ExitCall) ==> !done
    {
      done := Works(ExitCall);
      if !done {
        refusals := refusals + 1;
      }
    }

    method RemoveCurrentDriver()
      modifies this`state
      ensures state == Unloaded
    {
      state := Unloaded;
    }

    method GetBufferSizes() returns (r: Option<BufferSizes>)
      requires state.Ready?
      ensures r.Some? ==> r.value == sizes
      ensures Grants(SizesCall) ==> r.Some?
    {
      var done := Works(SizesCall);
      r := if done then Some(sizes) else None;
    }

    method SetSampleRate(wanted: real) returns (done: bool)
      requires state.Ready?
      modifies this`rate, this`asked, this`ran
      ensures asked == if done then wanted else old(asked)
      ensures ran == if done then false else old(ran)
      ensures rate == if done && pace.AtOnce? then wanted else old(rate)
      ensures Grants(SetRateCall) ==> done
    {
      done := Works(SetRateCall);
      if done {
        asked, ran := wanted, false;
        rate := if pace.AtOnce? then wanted else rate;
      }
    }

    /** The rate the driver reports, which need not be the one that was asked for. */
    method GetSampleRate() returns (actual: Option<real>)
      requires state.Ready?
      ensures Grants(GetRateCall) ==> actual == Some(rate)
    {
      actual := *;
      actual := if fault.Anything? then actual else if Grants(GetRateCall) then Some(rate) else None;
    }
  }

  predicate Near(actual: real, wanted: real) { -1.0 < actual - wanted < 1.0 }

  class Driver {
    const sdk: Sdk
    var state: DriverState
    var destroyed: bool
    var currentRate: real

    /** Loads the driver, which is what hands out the first handle. */
    constructor Load(sdk: Sdk)
      requires sdk.state == Ready(Initialized)
      ensures Tracks() && state.Initialized? && !destroyed && this.sdk == sdk
    {
      this.sdk := sdk;
      state, destroyed, currentRate := Initialized, false, 0.0;
    }

    /** The tracked state is the SDK's state. */
    ghost predicate Tracks()
      reads this, sdk
    {
      sdk.state == Ready(state)
    }

    /** `DriverState::stop`. */
    method StopState() returns (r: Ret)
      requires Tracks()
      modifies this`state, sdk`state, sdk`refusals
      ensures Tracks()
      ensures r.Ok? ==> state == if old(state).Running? then Prepared else old(state)
      ensures r.Err? ==> r.error.SdkError? && state == old(state) && state.Running?
      ensures sdk.refusals == old(sdk.refusals) + if r.Ok? then 0 else 1
      ensures sdk.Grants(StopCall) ==> r.Ok?
      ensures sdk.Refuses(StopCall) ==> (r.Err? <==> old(state).Running?)
    {
      if state.Running? {
        var done := sdk.Stop();
        if !done {
          return Err(SdkError);
        }
        state := Prepared;
      }
      return Ok;
    }

    /** `DriverState::dispose_buffers`. */
    method DisposeState() returns (r: Ret)
      requires Tracks()
      modifies this`state, sdk`state, sdk`refusals
      ensures Tracks()
      ensures r.Ok? ==> state.Initialized?
      ensures r.Err? ==> r.error.SdkError? && !state.Initialized? && NoHigher(state, old(state))
      ensures sdk.refusals == old(sdk.refusals) + if r.Ok? then 0 else 1
      ensures sdk.Grants(StopCall) && sdk.Grants(DisposeCall) ==> r.Ok?
      ensures sdk.Refuses(StopCall) ==> (r.Err? <==> old(state).Running?) && (r.Err? ==> state.Running?)
      ensures sdk.Refuses(DisposeCall) ==> (r.Err? <==> !old(state).Initialized?) && (r.Err? ==> state.Prepared?)
    {
      if state.Initialized? {
        return Ok;
      }
      if state.Running? {
        r := StopState();
        if r.Err? {
          return;
        }
      }
      var done := sdk.DisposeBuffers();
      if !done {
        return Err(SdkError);
      }
      state := Initialized;
      return Ok;
    }

    /** `DriverState::destroy`. A failure leaves the driver, with nobody losing track of it, somewhere between
        the state it was in and `Initialized`: just where the call that was refused found it. */
    method DestroyState() returns (r: Ret)
      requires Tracks()
      modifies this`state, sdk`state, sdk`refusals
      ensures r.Ok? ==> sdk.state == Unloaded
      ensures r.Err? ==> r.error.SdkError? && Tracks() && NoHigher(state, old(state))
      ensures sdk.refusals == old(sdk.refusals) + if r.Ok? then 0 else 1
      ensures sdk.fault.Nothing? ==> r.Ok?
      ensures sdk.fault.Only? ==> (r.Err? <==> Blocks(sdk.fault.call, old(state)))
      ensures sdk.fault.Only? && r.Err? ==> state == BlockedAt(sdk.fault.call)
    {
      if state.Running? {
        r := StopState();
        if r.Err? {
          return;
        }
      }
      if state.Prepared? {
        r := DisposeState();
        if r.Err? {
          return;
        }
      }
      var done := sdk.Exit();
      if !done {
        return Err(SdkError);
      }
      sdk.RemoveCurrentDriver();
      return Ok;
    }

    /** The size that a request asks the driver for. */
    function Asked(wanted: Option<int>): int {
      if wanted.Some? then wanted.value else sdk.sizes.preferred
    }

    /** Only the upper end of the range is looked at in time. A size the driver does not offer for another
        reason fails as well, but only after the streams that were running are torn down. */
    method CreateBuffers(wanted: Option<int>) returns (r: Ret, size: int)
      requires Tracks()
      modifies this`state, sdk`state, sdk`refusals
      ensures Tracks()
      ensures r.Ok? ==> state.Prepared? && size == Asked(wanted) && sdk.Offers(size)
      ensures r.Ok? ==> size == match wanted case Some(n) => n case None => sdk.sizes.preferred
      ensures r.Err? ==> NoHigher(state, old(state))
      ensures r.Err? && !r.error.SdkError? ==> state == old(state)
      ensures wanted.Some? && wanted.value > sdk.sizes.max ==> r.Err? && state == old(state)
      ensures r.Err? && r.error.InvalidBufferSize? ==>
                sdk.sizes.preferred > 0 && wanted.Some? && wanted.value > sdk.sizes.max
      ensures r.Err? && r.error.UnusablePreferredSize? ==> sdk.sizes.preferred <= 0
      ensures sdk.fault.Nothing? ==>
                r == if sdk.sizes.preferred <= 0 then Err(UnusablePreferredSize)
                     else if wanted.Some? && wanted.value > sdk.sizes.max then Err(InvalidBufferSize)
                     else if sdk.Offers(Asked(wanted)) then Ok else Err(SdkError)
      ensures sdk.Grants(SizesCall) && sdk.Grants(StopCall) && sdk.Grants(DisposeCall) ==>
                (r.Err? && r.error.SdkError? ==> state.Initialized?)
      ensures sdk.fault.Only? && sdk.fault.call !in {SizesCall, StopCall, DisposeCall, CreateCall} ==>
                (r.Ok? <==> sdk.sizes.preferred > 0 && sdk.Offers(Asked(wanted)))
    {
      size := 0;
      var sizes := sdk.GetBufferSizes();
      if sizes.None? {
        return Err(SdkError), size;
      }
      if sizes.value.preferred <= 0 {
        return Err(UnusablePreferredSize), size;
      }
      if wanted.Some? {
        if wanted.value > sizes.value.max {
          return Err(InvalidBufferSize), size;
        }
        size := wanted.value;
      } else {
        size := sizes.value.preferred;
      }
      if state.Running? {
        r := StopState();
        if r.Err? {
          return;
        }
      }
      if state.Prepared? {
        r := DisposeState();
        if r.Err? {
          return;
        }
      }
      var done := sdk.CreateBuffers(size);
      if !done {
        return Err(SdkError), size;
      }
      state := Prepared;
      return Ok, size;
    }

    method Start() returns (r: Ret)
      requires Tracks()
      modifies this`state, sdk`state, sdk`ran
      ensures sdk.ran == (old(sdk.ran) || (r.Ok? && !old(state).Running?))
      ensures Tracks()
      ensures r.Ok? ==> state.Running? && !old(state).Initialized?
      ensures r.Err? ==> state == old(state)
      ensures sdk.Grants(StartCall) ==> (r.Ok? <==> !old(state).Initialized?)
    {
      if state.Running? {
        return Ok;
      }
      var done := sdk.Start();
      if !done {
        return Err(SdkError);
      }
      state := Running;
      return Ok;
    }

    /** Tears the driver down and loads it again. A failed exit is ignored. */
    method Reload() returns (r: Ret)
      requires Tracks() && state.Initialized?
      modifies this`state, sdk`state, sdk`refusals, sdk`failedLoads, sdk`rate
      ensures r.Ok? <==> sdk.failedLoads == old(sdk.failedLoads)
      ensures r.Ok? ==> Tracks() && state.Initialized?
      ensures r.Ok? ==> sdk.rate == if sdk.pace.AfterReload? && sdk.ran then sdk.asked else old(sdk.rate)
      ensures r.Err? ==> !sdk.state.Ready? && state.Initialized?
      ensures sdk.Grants(LoadCall) && sdk.Grants(InitCall) ==> r.Ok?
      ensures sdk.Refuses(LoadCall) ==> r == Err(NoDrivers)
    {
      var _ := sdk.Exit();
      sdk.RemoveCurrentDriver();
      var done := sdk.Load();
      if !done {
        return Err(NoDrivers);
      }
      done := sdk.Init();
      if !done {
        return Err(SdkError);
      }
      state := Initialized;
      return Ok;
    }

    /** Sets the rate and reads it back; `applied` is whether the driver took it. */
    method TryRate(wanted: real) returns (r: Ret, applied: bool)
      requires sdk.state.Ready?
      modifies this`currentRate, sdk`rate, sdk`asked, sdk`ran
      ensures applied ==> r.Ok? && Near(currentRate, wanted)
      ensures !applied ==> currentRate == old(currentRate)
      ensures sdk.Grants(SetRateCall) && sdk.Grants(GetRateCall) ==>
                && r.Ok? && sdk.asked == wanted
                && sdk.rate == (if sdk.pace.AtOnce? then wanted else old(sdk.rate))
                && (applied <==> Near(sdk.rate, wanted))
                && (applied ==> currentRate == sdk.rate)
    {
      var done := sdk.SetSampleRate(wanted);
      if !done {
        return Err(SdkError), false;
      }
      var actual := sdk.GetSampleRate();
      if actual.None? {
        return Err(SdkError), false;
      }
      applied := Near(actual.value, wanted);
      if applied {
        currentRate := actual.value;
      }
      return Ok, applied;
    }

    /** Whether the driver has to be reloaded for this rate, and can be. */
    predicate NeedsReload(wanted: real)
      reads sdk
    {
      && !sdk.pace.AtOnce? && !(-1.0 < sdk.rate - wanted < 1.0)
      && sdk.sizes.preferred > 0 && sdk.Offers(sdk.sizes.preferred)
    }

    /** A reload that fails is the only way for the tracked state to go wrong: the handle then still says
        `Initialized` while the SDK has no initialised driver. It does go wrong when the driver cannot be
        loaded again. */
    method SetSampleRate(wanted: real) returns (r: Ret)
      requires Tracks()
      modifies this`state, this`currentRate, sdk`state, sdk`refusals, sdk`failedLoads, sdk`rate, sdk`asked, sdk`ran
      ensures Tracks() <==> sdk.failedLoads == old(sdk.failedLoads)
      ensures !Tracks() ==> r.Err? && state.Initialized? && !sdk.state.Ready? && !sdk.fault.Nothing?
      ensures r.Ok? ==> -1.0 < currentRate - wanted < 1.0
      ensures r.Err? ==> currentRate == old(currentRate)
      ensures sdk.fault.Nothing? ==>
                (r.Ok? <==>
                   || sdk.pace.AtOnce? || -1.0 < old(sdk.rate) - wanted < 1.0
                   || (sdk.pace.AfterReload? && old(NeedsReload(wanted))))
      ensures sdk.fault.Nothing? && r.Ok? ==> currentRate == sdk.rate
      ensures sdk.Refuses(LoadCall) && old(NeedsReload(wanted)) ==> r == Err(NoDrivers) && !Tracks()
    {
      var applied: bool;
      r, applied := TryRate(wanted);
      if r.Err? || applied {
        return;
      }
      // Some drivers apply a rate only after a whole life of buffers and a reload.
      var size: int;
      r, size := CreateBuffers(None);
      if r.Err? {
        return;
      }
      r := Start();
      if r.Err? {
        return;
      }
      r := StopState();
      if r.Err? {
        return;
      }
      r := DisposeState();
      if r.Err? {
        return;
      }
      r := Reload();
      if r.Err? {
        return;
      }
      r, applied := TryRate(wanted);
      if r.Ok? && !applied {
        r := Err(NoRate);
      }
    }

    /** `destroy_inner`: a failure leaves the states ready for another attempt. */
    method DestroyInner() returns (r: Ret)
      requires Tracks() && !destroyed
      modifies this`state, this`destroyed, sdk`state, sdk`refusals, sdk`callbacks
      ensures destroyed <==> r.Ok?
      // The callbacks are gone either way.
      ensures sdk.callbacks == []
      ensures r.Ok? ==> sdk.state == Unloaded
      ensures r.Err? ==> Tracks() && NoHigher(state, old(state))
      ensures sdk.refusals == old(sdk.refusals) + if r.Ok? then 0 else 1
      ensures sdk.fault.Nothing? ==> r.Ok?
      ensures sdk.fault.Only? ==> (r.Err? <==> Blocks(sdk.fault.call, old(state)))
      ensures sdk.fault.Only? && r.Err? ==> state == BlockedAt(sdk.fault.call)
    {
      r := DestroyState();
      sdk.ClearCallbacks();
      destroyed := r.Ok?;
    }

    /** Consumes a handle: the last one destroys the driver, and if that fails the drop tries again. */
    method Destroy(last: bool) returns (r: Ret, gone: bool)
      requires Tracks() && !destroyed
      modifies this`state, this`destroyed, sdk`state, sdk`refusals, sdk`callbacks
      ensures sdk.callbacks == if last then [] else old(sdk.callbacks)
      ensures !last ==> r.Ok? && !gone && Tracks() && !destroyed && state == old(state)
      ensures gone ==> last && r.Ok?
      ensures last && r.Ok? ==> gone
      ensures destroyed ==> sdk.state == Unloaded
      ensures !destroyed ==> Tracks() && NoHigher(state, old(state))
      // Two attempts are made, unless one works.
      ensures last ==> sdk.refusals == old(sdk.refusals) + if gone then 0 else if destroyed then 1 else 2
      ensures last && sdk.fault.Nothing? ==> gone && destroyed
      ensures last && sdk.fault.Only? ==> gone == destroyed == !Blocks(sdk.fault.call, old(state))
    {
      if !last {
        return Ok, false;
      }
      r := DestroyInner();
      if r.Err? {
        var _ := DestroyInner();
      }
      gone := r.Ok?;
    }
  }

  /** A teardown goes from `Running` over `Prepared` to `Initialized`, and this far it may have come. */
  predicate NoHigher(reached: DriverState, from: DriverState) {
    reached == from || reached.Initialized? || from.Running?
  }

  /** Whether refusing this call stops a teardown that begins in this state. */
  predicate Blocks(call: Call, from: DriverState) {
    match call
    case StopCall => from.Running?
    case DisposeCall => !from.Initialized?
    case _ => call.ExitCall?
  }

  /** Where it stops. */
  function BlockedAt(call: Call): DriverState {
    match call
    case StopCall => Running
    case DisposeCall => Prepared
    case _ => Initialized
  }

  /** A driver that has just been loaded, at a given rate, and works. */
  method Loaded(pace: Pace, sizes: BufferSizes, rate: real) returns (driver: Driver)
    ensures fresh(driver) && fresh(driver.sdk) && driver.Tracks() && !driver.destroyed && driver.state.Initialized?
    ensures driver.sdk.fault.Nothing? && driver.sdk.pace == pace && driver.sdk.sizes == sizes && driver.sdk.rate == rate
    ensures driver.sdk.Registered() && driver.sdk.callbacks == []
  {
    var sdk := new Sdk(pace, sizes, rate);
    var _ := sdk.Load();
    var _ := sdk.Init();
    driver := new Driver.Load(sdk);
  }

  /** The handle of any driver that has to be reloaded for a rate, and then cannot be loaded, takes itself for
      initialised while there is no driver at all. */
  method FailedReloadLosesTheDriver(pace: Pace, sizes: BufferSizes, rate: real, wanted: real)
    returns (driver: Driver, r: Ret)
    requires !pace.AtOnce? && !Near(rate, wanted) && sizes.preferred > 0 && sizes.min <= sizes.preferred <= sizes.max
    ensures r == Err(NoDrivers) && !driver.Tracks()
    ensures driver.state.Initialized? && !driver.destroyed && !driver.sdk.state.Ready?
  {
    driver := Loaded(pace, sizes, rate);
    driver.sdk.fault := Only(LoadCall);
    r := driver.SetSampleRate(wanted);
  }

  /** A driver is running with a callback when its buffers cannot be disposed of: destroying it fails, leaves it
      without the callback, and stopped. */
  method FailedDestroyLosesTheCallback(sizes: BufferSizes, rate: real)
    returns (driver: Driver, before: seq<nat>, r: Ret)
    requires sizes.preferred > 0 && sizes.min <= sizes.preferred <= sizes.max
    ensures |before| == 1 && driver.sdk.callbacks == []
    ensures r.Err? && !driver.destroyed && driver.Tracks() && driver.state.Prepared?
  {
    driver := Loaded(AtOnce, sizes, rate);
    var size: int;
    r, size := driver.CreateBuffers(None);
    r := driver.Start();
    var _ := driver.sdk.AddCallback();
    before := driver.sdk.callbacks;
    driver.sdk.fault := Only(DisposeCall);
    r := driver.DestroyInner();
  }

  /** Removing the latest callback lets the next one have the id of an earlier one. */
  method RemovedIdComesBack(sdk: Sdk) returns (first: nat, second: nat)
    requires sdk.Registered()
    modifies sdk`callbacks, sdk`ever, sdk`issued
    ensures second in old(sdk.ever) + {first} && second in sdk.callbacks
  {
    first := sdk.AddCallback();
    assert sdk.issued - 1 in sdk.ever && (sdk.issued - 1 == first || sdk.issued - 1 !in sdk.callbacks);
    sdk.RemoveCallback(first);
    second := sdk.AddCallback();
  }

  datatype Op = Create(size: Option<int>) | Start | Stop | Dispose | SetRate(rate: real)

  /** Any sequence of calls, up to the first reload that fails. */
  method AnyCalls(driver: Driver, ops: seq<Op>)
    requires driver.Tracks() && !driver.destroyed
    modifies driver`state, driver`currentRate
    modifies driver.sdk`state, driver.sdk`failedLoads, driver.sdk`rate, driver.sdk`asked, driver.sdk`ran,
             driver.sdk`refusals
    ensures driver.Tracks() <==> driver.sdk.failedLoads == old(driver.sdk.failedLoads)
    ensures (forall op <- ops :: !op.SetRate?) ==> driver.Tracks()
  {
    for k := 0 to |ops|
      invariant driver.Tracks() && driver.sdk.failedLoads == old(driver.sdk.failedLoads)
    {
      var r: Ret;
      match ops[k] {
        case Create(size) =>
          var granted: int;
          r, granted := driver.CreateBuffers(size);
        case Start => r := driver.Start();
        case Stop => r := driver.StopState();
        case Dispose => r := driver.DisposeState();
        case SetRate(rate) =>
          r := driver.SetSampleRate(rate);
          if !driver.sdk.state.Ready? {
            assert ops[k].SetRate?;
            return;
          }
      }
    }
  }
}
