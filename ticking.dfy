/** The secondary tick helper: a component that registers its own callback with the process-wide
    core ticker while its tick is enabled, at a configurable interval. The ticker is shared;
    each component only adds and removes the registrations that call back into itself. */
module Ticking {
  import opened Options

  /** Identity of the callback bound into a component's tick delegate. */
  type CallbackId = nat

  /** One run of the stored callback. */
  datatype Invocation = Invocation(callback: CallbackId, deltaSeconds: real)

  /** A core-ticker entry: the component whose Tick_Implementation it calls, and its interval. */
  datatype Registration = Registration(owner: CommonTickComponent, interval: real)

  /** The handles in `entries` that call back into `owner`. */
  ghost function OwnedBy(entries: map<nat, Registration>, owner: CommonTickComponent): (hs: set<nat>)
    ensures forall h :: h in hs <==> h in entries && entries[h].owner == owner
  {
    set h | h in entries && entries[h].owner == owner
  }

  /** Adding an entry under a fresh handle adds that handle to its owner's registrations
      and leaves every other component's registrations as they were. */
  lemma {:induction false} OwnedAfterAdd(entries: map<nat, Registration>, h: nat, r: Registration,
                                         owner: CommonTickComponent)
    requires h !in entries
    ensures OwnedBy(entries[h := r], owner) ==
            OwnedBy(entries, owner) + (if r.owner == owner then {h} else {})
  {
  }

  /** Removing a handle removes it from its owner's registrations and nothing else. */
  lemma {:induction false} OwnedAfterRemove(entries: map<nat, Registration>, h: nat,
                                            owner: CommonTickComponent)
    ensures OwnedBy(entries - {h}, owner) == OwnedBy(entries, owner) - {h}
  {
  }

  /** Every handle in `entries` was issued before `nextHandle`. */
  ghost predicate Issued(entries: map<nat, Registration>, nextHandle: nat) {
    forall h :: h in entries ==> h < nextHandle
  }

  /** What one component's operation may do to the shared ticker, from `entries`/`nextHandle`
      to `entries'`/`nextHandle'`: handles are only issued, never taken back; every new entry has a
      freshly issued handle and calls back into `actor`; only `actor`'s entries are dropped; and
      every other entry is kept as it was. */
  ghost predicate OwnStep(entries: map<nat, Registration>, nextHandle: nat,
                          entries': map<nat, Registration>, nextHandle': nat,
                          actor: CommonTickComponent)
  {
    && nextHandle <= nextHandle'
    && (forall h :: h in entries' && h !in entries ==> nextHandle <= h && entries'[h].owner == actor)
    && (forall h :: h in entries && h !in entries' ==> entries[h].owner == actor)
    && (forall h :: h in entries && h in entries' ==> entries'[h] == entries[h])
  }

  /** An operation of one component keeps every other component on the same ticker valid:
      the other's registrations, their intervals and the entry its handle names are untouched,
      and no fresh handle can coincide with its own, which was issued earlier. */
  lemma {:induction false} OtherComponentStaysValid(c: CommonTickComponent, actor: CommonTickComponent,
                                                    entries: map<nat, Registration>, nextHandle: nat,
                                                    entries': map<nat, Registration>, nextHandle': nat)
    requires c != actor
    requires c.ValidAt(entries, nextHandle)
    requires Issued(entries', nextHandle')
    requires OwnStep(entries, nextHandle, entries', nextHandle', actor)
    ensures c.ValidAt(entries', nextHandle')
  {
    assert OwnedBy(entries', c) == OwnedBy(entries, c);
  }

  /** FTSTicker::GetCoreTicker(): the registrations it holds, by handle. Handles are handed out
      in increasing order and never reused, so a removed handle never becomes valid again. */
  class CoreTicker {
    var entries: map<nat, Registration>
    var nextHandle: nat

    ghost predicate Valid()
      reads this
    {
      Issued(entries, nextHandle)
    }

    constructor ()
      ensures Valid() && entries == map[]
    {
      entries := map[];
      nextHandle := 0;
    }

    /** AddTicker: register a new entry under a fresh handle. */
    method AddTicker(owner: CommonTickComponent, interval: real) returns (h: nat)
      requires Valid()
      modifies this
      ensures Valid()
      ensures h == old(nextHandle) && h !in old(entries) && nextHandle == h + 1
      ensures entries == old(entries)[h := Registration(owner, interval)]
    {
      h := nextHandle;
      entries := entries[h := Registration(owner, interval)];
      nextHandle := nextHandle + 1;
    }

    /** RemoveTicker: drop the entry of a handle, if it still has one. */
    method RemoveTicker(h: nat)
      requires Valid()
      modifies this
      ensures Valid() && nextHandle == old(nextHandle)
      ensures entries == old(entries) - {h}
    {
      entries := entries - {h};
    }
  }

  class CommonTickComponent {
    /** The core ticker this component registers with. */
    const ticker: CoreTicker

    /** The callback to run each tick; None while no callback is bound. */
    var tickDelegate: Option<CallbackId>
    /** Configuration: start ticking as soon as Tick_Initialize runs. */
    var startWithTickEnabled: bool
    /** Configuration: the interval to start with, in seconds (0 means every frame). */
    var tickInterval: real
    /** The handle of the last registration made; StopTicking does not reset it. */
    var tickHandle: Option<nat>
    var tickEnabled: bool
    var internalTickInterval: real
    /** Every run of the stored callback, in order. */
    ghost var invocations: seq<Invocation>

    /** The ticker's registrations that call back into this component. */
    ghost function Live(): set<nat>
      reads this, ticker
    {
      OwnedBy(ticker.entries, this)
    }

    /** TickHandle.IsValid(): the last handle still names a ticker entry. */
    predicate HandleValid()
      reads this, ticker
    {
      tickHandle.Some? && tickHandle.value in ticker.entries
    }

    /** What holds between the public operations and inside them, for a given state of the
        ticker: the ticker is well formed, the handle was issued by it and, while it names an
        entry, names this component's, and this component has no registration other than the
        one its handle names. */
    ghost predicate WellformedAt(entries: map<nat, Registration>, nextHandle: nat)
      reads this
    {
      && Issued(entries, nextHandle)
      && (tickHandle.Some? ==> tickHandle.value < nextHandle)
      && (tickHandle.Some? && tickHandle.value in entries ==> entries[tickHandle.value].owner == this)
      && (forall h :: h in OwnedBy(entries, this) ==> tickHandle == Some(h))
    }

    /** The component's invariant, for a given state of the ticker: exactly one live
        registration, carrying the current interval, while the tick is enabled, and none while
        it is disabled. */
    ghost predicate ValidAt(entries: map<nat, Registration>, nextHandle: nat)
      reads this
    {
      && WellformedAt(entries, nextHandle)
      && (tickEnabled ==> && tickHandle.Some? && OwnedBy(entries, this) == {tickHandle.value}
                          && entries[tickHandle.value].interval == internalTickInterval)
      && (!tickEnabled ==> OwnedBy(entries, this) == {})
    }

    /** WellformedAt, at the ticker's current state. */
    ghost predicate Wellformed()
      reads this, ticker
    {
      WellformedAt(ticker.entries, ticker.nextHandle)
    }

    /** ValidAt, at the ticker's current state. */
    ghost predicate Valid()
      reads this, ticker
    {
      ValidAt(ticker.entries, ticker.nextHandle)
    }

    /** A fresh component: not ticking, no callback bound, interval 0. */
    constructor (ticker: CoreTicker, startWithTickEnabled: bool, tickInterval: real)
      requires ticker.Valid()
      ensures Valid()
      ensures this.ticker == ticker && this.startWithTickEnabled == startWithTickEnabled
      ensures this.tickInterval == tickInterval
      ensures tickDelegate == None && tickHandle == None && !tickEnabled
      ensures internalTickInterval == 0.0 && invocations == []
    {
      this.ticker := ticker;
      this.startWithTickEnabled := startWithTickEnabled;
      this.tickInterval := tickInterval;
      tickDelegate := None;
      tickHandle := None;
      tickEnabled := false;
      internalTickInterval := 0.0;
      invocations := [];
      new;
      assert forall h :: h in ticker.entries ==> ticker.entries[h].owner != this;
    }

    /** StartTicking: register with the core ticker at the current interval. The source's
        fatal check demands that no registration is live. */
    method StartTicking()
      requires Wellformed() && !HandleValid()
      modifies this`tickHandle, this`tickEnabled, ticker
      ensures Wellformed() && HandleValid() && tickEnabled
      ensures tickHandle == Some(old(ticker.nextHandle)) && tickHandle.value !in old(ticker.entries)
      ensures ticker.nextHandle == old(ticker.nextHandle) + 1
      ensures ticker.entries ==
              old(ticker.entries)[tickHandle.value := Registration(this, internalTickInterval)]
      ensures Live() == {tickHandle.value}
      ensures OwnStep(old(ticker.entries), old(ticker.nextHandle), ticker.entries, ticker.nextHandle, this)
    {
      var h := ticker.AddTicker(this, internalTickInterval);
      OwnedAfterAdd(old(ticker.entries), h, Registration(this, internalTickInterval), this);
      tickHandle := Some(h);
      tickEnabled := true;
    }

    /** StopTicking: remove the registration. The source's fatal check demands that it is live;
        the handle itself is left as it was. */
    method StopTicking()
      requires Wellformed() && HandleValid()
      modifies this`tickEnabled, ticker
      ensures Wellformed() && !HandleValid() && !tickEnabled
      ensures tickHandle == old(tickHandle) && ticker.nextHandle == old(ticker.nextHandle)
      ensures ticker.entries == old(ticker.entries) - {tickHandle.value}
      ensures Live() == {}
      ensures OwnStep(old(ticker.entries), old(ticker.nextHandle), ticker.entries, ticker.nextHandle, this)
    {
      ticker.RemoveTicker(tickHandle.value);
      OwnedAfterRemove(old(ticker.entries), tickHandle.value, this);
      tickEnabled := false;
    }

    /** Tick_Initialize: store the callback, take the configured enabled flag and interval, and
        register when enabled. Starting requires that the component is not ticking yet. If it
        is ticking and is configured to start disabled, its registration stays while the flag
        drops, and the invariant is lost. */
    method TickInitialize(callback: CallbackId)
      requires Valid()
      requires startWithTickEnabled ==> !tickEnabled
      modifies this`tickDelegate, this`tickEnabled, this`internalTickInterval, this`tickHandle, ticker
      ensures tickDelegate == Some(callback)
      ensures tickEnabled == startWithTickEnabled && internalTickInterval == tickInterval
      ensures !old(tickEnabled) ==> Valid()
      ensures startWithTickEnabled ==>
        && tickHandle == Some(old(ticker.nextHandle)) && ticker.nextHandle == old(ticker.nextHandle) + 1
        && ticker.entries == old(ticker.entries)[tickHandle.value := Registration(this, tickInterval)]
      ensures !startWithTickEnabled ==>
        && ticker.entries == old(ticker.entries) && ticker.nextHandle == old(ticker.nextHandle)
        && tickHandle == old(tickHandle)
      ensures OwnStep(old(ticker.entries), old(ticker.nextHandle), ticker.entries, ticker.nextHandle, this)
    {
      tickDelegate := Some(callback);
      tickEnabled := startWithTickEnabled;
      internalTickInterval := tickInterval;
      if tickEnabled {
        StartTicking();
      }
    }

    /** Tick_Deinitialize: stop ticking if enabled; a no-op otherwise, so it may run twice. */
    method TickDeinitialize()
      requires Valid()
      modifies this`tickEnabled, ticker
      ensures Valid() && !tickEnabled && Live() == {}
      ensures ticker.entries == old(ticker.entries) - old(Live())
      ensures tickHandle == old(tickHandle) && internalTickInterval == old(internalTickInterval)
      ensures ticker.nextHandle == old(ticker.nextHandle)
      ensures OwnStep(old(ticker.entries), old(ticker.nextHandle), ticker.entries, ticker.nextHandle, this)
    {
      if tickEnabled {
        StopTicking();
      }
    }

    /** The destructor: Tick_Deinitialize once more; safe after an explicit one. */
    method Destroy()
      requires Valid()
      modifies this`tickEnabled, ticker
      ensures Valid() && !tickEnabled && Live() == {}
      ensures ticker.entries == old(ticker.entries) - old(Live())
      ensures tickHandle == old(tickHandle) && ticker.nextHandle == old(ticker.nextHandle)
      ensures OwnStep(old(ticker.entries), old(ticker.nextHandle), ticker.entries, ticker.nextHandle, this)
    {
      TickDeinitialize();
    }

    /** EnableTick: nothing changes when the tick is already in the requested state; otherwise
        register or unregister. The interval is kept. */
    method EnableTick(enable: bool)
      requires Valid()
      modifies this`tickEnabled, this`tickHandle, ticker
      ensures Valid() && tickEnabled == enable
      ensures |Live()| == if enable then 1 else 0
      ensures internalTickInterval == old(internalTickInterval)
      ensures old(tickEnabled) == enable ==>
        && ticker.entries == old(ticker.entries) && tickHandle == old(tickHandle)
        && ticker.nextHandle == old(ticker.nextHandle)
      ensures old(tickEnabled) != enable && enable ==>
        && tickHandle == Some(old(ticker.nextHandle)) && ticker.nextHandle == old(ticker.nextHandle) + 1
        && ticker.entries == old(ticker.entries)[tickHandle.value := Registration(this, internalTickInterval)]
      ensures old(tickEnabled) != enable && !enable ==>
        && ticker.entries == old(ticker.entries) - old(Live())
        && tickHandle == old(tickHandle) && ticker.nextHandle == old(ticker.nextHandle)
      ensures OwnStep(old(ticker.entries), old(ticker.nextHandle), ticker.entries, ticker.nextHandle, this)
    {
      if tickEnabled == enable {
        return;
      }
      if enable {
        StartTicking();
      } else {
        StopTicking();
      }
    }

    /** SetTickIntervalTime: a negative interval is ignored; otherwise it is stored and, while
        ticking, the registration is replaced by one at the new interval. */
    method SetTickIntervalTime(interval: real)
      requires Valid()
      modifies this`tickEnabled, this`tickHandle, this`internalTickInterval, ticker
      ensures Valid() && tickEnabled == old(tickEnabled)
      ensures interval < 0.0 ==> internalTickInterval == old(internalTickInterval)
      ensures interval >= 0.0 ==> internalTickInterval == interval
      ensures interval < 0.0 || !tickEnabled ==>
        && ticker.entries == old(ticker.entries) && ticker.nextHandle == old(ticker.nextHandle)
        && tickHandle == old(tickHandle)
      ensures interval >= 0.0 && tickEnabled ==>
        && tickHandle == Some(old(ticker.nextHandle)) && ticker.nextHandle == old(ticker.nextHandle) + 1
        && ticker.entries == (old(ticker.entries) - old(Live()))[tickHandle.value := Registration(this, interval)]
      ensures OwnStep(old(ticker.entries), old(ticker.nextHandle), ticker.entries, ticker.nextHandle, this)
    {
      if interval < 0.0 {
        return;
      }
      internalTickInterval := interval;
      if tickEnabled {
        StopTicking();
        StartTicking();
      }
    }

    /** IsTickEnabled: the flag, which is also whether the component has a live registration. */
    method IsTickEnabled() returns (enabled: bool)
      requires Valid()
      ensures enabled == tickEnabled
      ensures enabled <==> Live() != {}
    {
      enabled := tickEnabled;
    }

    /** GetTickIntervalTime: the current interval, which is the live registration's while ticking. */
    method GetTickIntervalTime() returns (interval: real)
      requires Valid()
      ensures interval == internalTickInterval
      ensures tickEnabled ==> ticker.entries[tickHandle.value].interval == interval
    {
      interval := internalTickInterval;
    }

    /** Tick_Implementation: run the stored callback once with the given delta and ask the
        ticker to keep the registration. An unbound delegate is a fatal error in the source. */
    method TickImplementation(deltaSeconds: real) returns (keepTicking: bool)
      requires tickDelegate.Some?
      modifies this`invocations
      ensures keepTicking
      ensures invocations == old(invocations) + [Invocation(tickDelegate.value, deltaSeconds)]
    {
      invocations := invocations + [Invocation(tickDelegate.value, deltaSeconds)];
      keepTicking := true;
    }
  }

  /** Enabling twice leaves exactly one registration, the one the first call made. */
  method EnableTickTwice(c: CommonTickComponent)
    requires c.Valid()
    modifies c, c.ticker
    ensures c.Valid() && c.tickEnabled && |c.Live()| == 1
  {
    c.EnableTick(true);
    ghost var afterFirst := c.ticker.entries;
    c.EnableTick(true);
    assert c.ticker.entries == afterFirst;
  }

  /** Operations on one component keep another component on the same ticker valid: each
      operation's step on the shared ticker is one that OtherComponentStaysValid covers. */
  method OperationsKeepOthersValid(a: CommonTickComponent, b: CommonTickComponent,
                                   enable: bool, interval: real)
    requires a != b && a.ticker == b.ticker
    requires a.Valid() && b.Valid()
    modifies a, a.ticker
    ensures a.Valid() && b.Valid()
  {
    ghost var entries, nextHandle := a.ticker.entries, a.ticker.nextHandle;
    a.EnableTick(enable);
    OtherComponentStaysValid(b, a, entries, nextHandle, a.ticker.entries, a.ticker.nextHandle);
    entries, nextHandle := a.ticker.entries, a.ticker.nextHandle;
    a.SetTickIntervalTime(interval);
    OtherComponentStaysValid(b, a, entries, nextHandle, a.ticker.entries, a.ticker.nextHandle);
    entries, nextHandle := a.ticker.entries, a.ticker.nextHandle;
    a.TickDeinitialize();
    OtherComponentStaysValid(b, a, entries, nextHandle, a.ticker.entries, a.ticker.nextHandle);
  }
}
