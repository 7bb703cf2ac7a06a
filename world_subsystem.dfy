/** The world subsystem object: the creation settings it carries as fields, the helpers that
    edit its role mask in place, and the one-shot hook that runs once its world has finished
    initialising. The creation decision itself is in module Eligibility, over Settings(). */
module WorldSubsystem {
  import opened Options
  import opened NetModes
  import opened Eligibility

  /** Identity of a world object; the subsystem compares worlds by identity. */
  type WorldId = nat

  class CommonWorldSubsystem {
    /** Whether this is an editor build (the WITH_EDITOR switch). */
    const withEditor: bool
    /** The world this subsystem belongs to, None when it is missing or no longer valid. */
    var world: Option<WorldId>

    var levelAllowlist: seq<string>
    var levelBlocklist: seq<string>
    var initializationNetModeMask: bv8
    var enableInUntitledLevel: bool
    var enableInTransitionLevel: bool

    /** Whether the post-world-init hook has run. */
    var hasPostWorldInitialized: bool
    /** Whether the subsystem is subscribed to the engine's post-load-map notification. */
    var postInitWorldSubscribed: bool
    /** Whether the subsystem is subscribed to the editor's post-PIE-start notification. */
    var postInitPieWorldSubscribed: bool
    /** How many times OnWorldInitialized has run. */
    ghost var worldInitializedCalls: nat

    /** The hook has run once if the flag is set and never otherwise; only editor builds
        subscribe to the PIE notification. */
    ghost predicate Valid()
      reads this
    {
      && worldInitializedCalls == (if hasPostWorldInitialized then 1 else 0)
      && (!withEditor ==> !postInitPieWorldSubscribed)
    }

    /** The creation settings as one value, for the filter in module Eligibility. */
    function Settings(): (s: Eligibility.Settings)
      reads this
      ensures s.netModeMask == initializationNetModeMask
      ensures s.levelAllowlist == levelAllowlist && s.levelBlocklist == levelBlocklist
    {
      Eligibility.Settings(levelAllowlist, levelBlocklist, initializationNetModeMask,
                           enableInUntitledLevel, enableInTransitionLevel)
    }

    /** The constructor: the field defaults, then "L_Entry" and "L_MainMenu" blocklisted,
        both opt-ins off, and the mask cleared and given the four roles one by one. */
    constructor (withEditor: bool, world: Option<WorldId>)
      ensures Valid()
      ensures Settings() == DefaultSettings()
      ensures initializationNetModeMask == 0x0F
      ensures this.withEditor == withEditor && this.world == world
      ensures !hasPostWorldInitialized && !postInitWorldSubscribed && !postInitPieWorldSubscribed
    {
      this.withEditor := withEditor;
      this.world := world;
      levelAllowlist := [];
      levelBlocklist := [];
      initializationNetModeMask := 0;
      enableInUntitledLevel := false;
      enableInTransitionLevel := false;
      hasPostWorldInitialized := false;
      postInitWorldSubscribed := false;
      postInitPieWorldSubscribed := false;
      worldInitializedCalls := 0;
      new;
      levelBlocklist := levelBlocklist + ["L_Entry"];
      levelBlocklist := levelBlocklist + ["L_MainMenu"];
      enableInUntitledLevel := false;
      enableInTransitionLevel := false;
      ClearSupportedNetMode();
      AddSupportedNetMode(Standalone);
      AddSupportedNetMode(DedicatedServer);
      AddSupportedNetMode(ListenServer);
      AddSupportedNetMode(Client);
    }

    /** AddSupportedNetMode: set the role's bit, nothing else. */
    method AddSupportedNetMode(m: NetMode)
      modifies this`initializationNetModeMask
      ensures initializationNetModeMask == WithMode(old(initializationNetModeMask), m)
      ensures Supports(initializationNetModeMask, m)
    {
      initializationNetModeMask := initializationNetModeMask | Bit(m);
    }

    /** RemoveSupportedNetMode as written: toggle the role's bit, which sets it if it was clear. */
    method RemoveSupportedNetMode(m: NetMode)
      modifies this`initializationNetModeMask
      ensures initializationNetModeMask == ToggledMode(old(initializationNetModeMask), m)
      ensures Supports(initializationNetModeMask, m) <==> !Supports(old(initializationNetModeMask), m)
    {
      initializationNetModeMask := initializationNetModeMask ^ Bit(m);
    }

    /** ClearSupportedNetMode: no role is supported any more. */
    method ClearSupportedNetMode()
      modifies this`initializationNetModeMask
      ensures initializationNetModeMask == 0
      ensures forall m :: !Supports(initializationNetModeMask, m)
    {
      initializationNetModeMask := 0;
    }

    /** Initialize, as far as this class goes: subscribe to the post-load-map notification
        and, in editor builds, to the post-PIE-start one. */
    method Initialize()
      requires Valid()
      modifies this`postInitWorldSubscribed, this`postInitPieWorldSubscribed
      ensures Valid()
      ensures postInitWorldSubscribed && postInitPieWorldSubscribed == withEditor
    {
      postInitWorldSubscribed := true;
      if withEditor {
        postInitPieWorldSubscribed := true;
      }
    }

    /** PostInitWorldInternal: the first notification about this subsystem's own valid world
        runs the hook, sets the flag and drops both subscriptions; any other call changes nothing. */
    method PostInitWorldInternal(newWorld: Option<WorldId>)
      requires Valid()
      modifies this`hasPostWorldInitialized, this`postInitWorldSubscribed,
               this`postInitPieWorldSubscribed, this`worldInitializedCalls
      ensures Valid()
      ensures var fires := world.Some? && world == newWorld && !old(hasPostWorldInitialized);
        if fires then
          && hasPostWorldInitialized && !postInitWorldSubscribed && !postInitPieWorldSubscribed
          && worldInitializedCalls == old(worldInitializedCalls) + 1
        else
          && hasPostWorldInitialized == old(hasPostWorldInitialized)
          && postInitWorldSubscribed == old(postInitWorldSubscribed)
          && postInitPieWorldSubscribed == old(postInitPieWorldSubscribed)
          && worldInitializedCalls == old(worldInitializedCalls)
      ensures worldInitializedCalls <= 1
    {
      if world.Some? && world == newWorld && !hasPostWorldInitialized {
        hasPostWorldInitialized := true;
        postInitWorldSubscribed := false;
        if withEditor {
          postInitPieWorldSubscribed := false;
        }
        OnWorldInitialized();
      }
    }

    /** OnWorldInitialized: the overridable hook; the model only counts its runs. */
    method OnWorldInitialized()
      modifies this`worldInitializedCalls
      ensures worldInitializedCalls == old(worldInitializedCalls) + 1
    {
      worldInitializedCalls := worldInitializedCalls + 1;
    }

    /** PostInitPieWorldInternal: the same hook, for the subsystem's own world. It exists only
        in editor builds. */
    method PostInitPieWorldInternal(simulating: bool)
      requires withEditor && Valid()
      modifies this`hasPostWorldInitialized, this`postInitWorldSubscribed,
               this`postInitPieWorldSubscribed, this`worldInitializedCalls
      ensures Valid()
      ensures var fires := world.Some? && !old(hasPostWorldInitialized);
        if fires then
          && hasPostWorldInitialized && !postInitWorldSubscribed && !postInitPieWorldSubscribed
          && worldInitializedCalls == 1
        else
          && hasPostWorldInitialized == old(hasPostWorldInitialized)
          && postInitWorldSubscribed == old(postInitWorldSubscribed)
          && postInitPieWorldSubscribed == old(postInitPieWorldSubscribed)
          && worldInitializedCalls == old(worldInitializedCalls)
    {
      PostInitWorldInternal(world);
    }
  }

  /** In an editor build, both notifications arriving for the same world run the hook exactly once. */
  method BothNotificationsRunHookOnce(withEditor: bool, id: WorldId, simulating: bool)
    returns (s: CommonWorldSubsystem)
    requires withEditor
    ensures s.Valid() && s.worldInitializedCalls == 1 && s.hasPostWorldInitialized
    ensures !s.postInitWorldSubscribed && !s.postInitPieWorldSubscribed
  {
    s := new CommonWorldSubsystem(withEditor, Some(id));
    s.Initialize();
    s.PostInitWorldInternal(Some(id));
    s.PostInitPieWorldInternal(simulating);
    s.PostInitWorldInternal(Some(id));
  }
}
