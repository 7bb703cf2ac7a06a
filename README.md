# CommonSubsystems: creation filter, net-mode mask, post-init hook and tick helper

A Dafny model of the logic inside the CommonSubsystems plugin for Unreal Engine. The plugin has
base classes for engine, game-instance, world and local-player subsystems. The model covers the
three parts with real logic:

- **World-subsystem creation eligibility** (`UCommonWorldSubsystem`). The supported-role mask is
  an 8-bit field. Add sets a role's bit with OR, Remove toggles it with XOR, and Clear zeroes the
  mask. `GetSafeNetMode` resolves a world's role, with a special path for play-in-editor (PIE)
  worlds. `CheckNetMode` and `CheckLevelName` do the two checks. `ShouldCreateSubsystem` chains
  the checks and the first one that fails decides.
- **One-shot post-world-init hook** (`PostInitWorldInternal`). It runs `OnWorldInitialized` at
  most once, and only for the subsystem's own valid world. When it runs it drops both
  notification subscriptions.
- **Secondary tick component** (`FCommonTickComponent`). It has an enabled flag, an interval and a
  registration with the process-wide core ticker. Its invariant: while the tick is enabled, the
  ticker holds exactly one registration for the component, at the current interval; while it is
  disabled, the ticker holds none. `EnableTick`, `SetTickIntervalTime`, `Tick_Deinitialize` and
  the destructor keep it, and `Tick_Initialize` keeps it when the component was not ticking. The
  source's fatal `check`s in `StartTicking` and `StopTicking` become those methods'
  preconditions. The invariant lets `EnableTick`, `SetTickIntervalTime` and `Tick_Deinitialize`
  meet them. `Tick_Initialize` does not get this from the invariant and carries its own
  precondition (see Left out). Every component shares the one core ticker. Each operation
  changes only the acting component's registrations and issues only fresh handles, so every
  other component on the ticker stays valid.

Modules:
- `NetModes` (`net_modes.dfy`): the role enumeration, the role bits and the mask operations.
- `Eligibility` (`eligibility.dfy`): the world record and the creation settings as values, plus
  the creation filter as pure functions and lemmas.
- `WorldSubsystem` (`world_subsystem.dfy`): the subsystem class. Its fields are the settings,
  and its methods edit the mask in place and run the one-shot hook.
- `Ticking` (`ticking.dfy`): the core ticker as a class that maps handles to registrations, and
  the tick component as a class.
- `Options` (`options.dfy`): an optional value.

The engine is replaced by plain inputs:
- A world is a record. It holds the game-world flag, the PIE flag and the PIE instance id of its
  package. It also holds the role the world reports, the editor's PIE context (pending net game,
  net driver role, run-as-dedicated), the map name and the streaming prefix.
- The project's transition map is an optional asset name.
- The base class's own `ShouldCreateSubsystem` answer is a boolean.
- The `WITH_EDITOR` build switch is a flag.
- A world object is a number that is compared by identity.
- The tick callback is an identifier. Each time it runs, one entry is appended to a ghost log.

Where the code's own comments and its code disagree, the model follows the code:
- The header documents `RemoveSupportedNetMode` as removing the role from the supported list
  (CommonWorldSubsystem.h:137-140). The code toggles the role's bit, and the model does the
  same. The corrected removal is modelled beside it (see Findings). The model takes the mask to
  mean this: a role is supported iff it was added and not removed, and the mask not cleared,
  since. Only the corrected removal keeps that meaning.
- The header documents `IsNetModeSupported` as true iff the role is supported
  (CommonWorldSubsystem.h:102-108). The code ORs the mask with the role's bit, and the model
  does the same. The AND that `CheckNetMode` uses is the corrected form (see Findings).
- The constructor's comment (CommonWorldSubsystem.cpp:24) says that the 'Entry' and 'MainMenu'
  levels are skipped by default. With the default settings, the level check also rejects
  "Untitled" levels and the transition map, because both opt-ins start off.
  `Eligibility.DefaultSettingsDecision` gives the exact set of accepted levels.

## Model

| member | source | states |
|---|---|---|
| `NetModes.Ordinal` | Source/CommonSubsystems/Public/Subsystems/CommonWorldSubsystem.h:52-70 | The four roles have ordinals 0 to 3; only the end marker MAX has ordinal 4. |
| `NetModes.OrdinalInjective` | Source/CommonSubsystems/Public/Subsystems/CommonWorldSubsystem.h:52-70 | Two roles have the same ordinal iff they are the same role. |
| `NetModes.Bit` | Source/CommonSubsystems/Private/Subsystems/CommonWorldSubsystem.cpp:16-20 | A role's mask is nonzero, and exactly one bit is set in it: the bit at the role's ordinal. |
| `NetModes.AndBitIsSupports` | Source/CommonSubsystems/Private/Subsystems/CommonWorldSubsystem.cpp:201-204 | `mask & Bit(m)` is nonzero exactly when bit `ordinal(m)` of the mask is set. |
| `NetModes.SupportsNetMode` | Source/CommonSubsystems/Private/Subsystems/CommonWorldSubsystem.cpp:201-204 | The corrected role test (AND, then compare with zero) is true exactly when the role's bit is set. |
| `NetModes.WithMode` | Source/CommonSubsystems/Private/Subsystems/CommonWorldSubsystem.cpp:181-184 | After adding a role, each bit is set iff it was already set or it is the role's bit. |
| `NetModes.ToggledMode` | Source/CommonSubsystems/Private/Subsystems/CommonWorldSubsystem.cpp:186-189 | Removal as written flips the role's bit and keeps every other bit. |
| `NetModes.WithoutMode` | Source/CommonSubsystems/Private/Subsystems/CommonWorldSubsystem.cpp:186-189 | The corrected removal clears the role's bit and keeps every other bit. |
| `NetModes.IsNetModeSupported` | Source/CommonSubsystems/Private/Subsystems/CommonWorldSubsystem.cpp:121-125 | As written, the answer is true for every mask and every role. |
| `NetModes.DefaultMask` | Source/CommonSubsystems/Private/Subsystems/CommonWorldSubsystem.cpp:32-36 | Clearing the mask and then adding the four roles gives a mask that supports exactly the four roles, with bits 4 to 7 clear. |
| `NetModes.ClearedMaskSupportsNothing` | Source/CommonSubsystems/Private/Subsystems/CommonWorldSubsystem.cpp:191-194 | The cleared mask supports no role. |
| `NetModes.AddSetsOnlyItsRole` | Source/CommonSubsystems/Private/Subsystems/CommonWorldSubsystem.cpp:181-184 | Adding a role makes it supported and leaves every other role as it was. A second add changes nothing. |
| `NetModes.RemoveClearsAddedMode` | Source/CommonSubsystems/Private/Subsystems/CommonWorldSubsystem.cpp:186-189 | Removing a role that was just added leaves it unsupported. |
| `NetModes.RemoveAbsentModeSetsIt` | Source/CommonSubsystems/Private/Subsystems/CommonWorldSubsystem.cpp:186-189 | Removing a role that was absent makes it supported. |
| `NetModes.RemoveKeepsOtherModes` | Source/CommonSubsystems/Private/Subsystems/CommonWorldSubsystem.cpp:186-189 | Removing a role leaves every other role as it was. |
| `NetModes.RemoveTwiceRestores` | Source/CommonSubsystems/Private/Subsystems/CommonWorldSubsystem.cpp:186-189 | Two removals of the same role restore the original mask. |
| `NetModes.WithoutModeClears` | Source/CommonSubsystems/Private/Subsystems/CommonWorldSubsystem.cpp:186-189 | The corrected removal leaves the role unsupported whatever the mask held, and keeps every other role. |
| `NetModes.WithoutModeIdempotent` | Source/CommonSubsystems/Private/Subsystems/CommonWorldSubsystem.cpp:186-189 | Applying the corrected removal twice is the same as applying it once. |
| `NetModes.WithoutModeAgreesWhenPresent` | Source/CommonSubsystems/Private/Subsystems/CommonWorldSubsystem.cpp:186-189 | When the role was supported, the toggle and the corrected removal give the same mask. |
| `NetModes.EditStepSupport` | Source/CommonSubsystems/Private/Subsystems/CommonWorldSubsystem.cpp:181-194 | With the corrected removal, one Add, Remove or Clear changes the support of a role as its name says: Add makes only that role supported, Remove makes only that role unsupported, Clear makes every role unsupported. |
| `NetModes.EditHistoryDecidesSupport` | Source/CommonSubsystems/Private/Subsystems/CommonWorldSubsystem.cpp:181-194 | Start from the cleared mask and apply any sequence of Add, Remove and Clear calls, with the corrected removal. A role is then supported iff some call added it and no later call removed it or cleared the mask. |
| `NetModes.ToggleBreaksEditHistory` | Source/CommonSubsystems/Private/Subsystems/CommonWorldSubsystem.cpp:186-189 | With removal as written, removing Standalone from the cleared mask makes Standalone supported, although it was never added. |
| `NetModes.IsNetModeSupportedIgnoresMask` | Source/CommonSubsystems/Private/Subsystems/CommonWorldSubsystem.cpp:121-125 | On the empty mask, the test as written says every role is supported; the corrected test says none is. |
| `Eligibility.DefaultSettings` | Source/CommonSubsystems/Private/Subsystems/CommonWorldSubsystem.cpp:22-37 | The defaults are: empty allowlist, blocklist exactly ["L_Entry", "L_MainMenu"], both opt-ins off, and exactly the four roles supported. |
| `Eligibility.GetSafeNetMode` | Source/CommonSubsystems/Private/Subsystems/CommonWorldSubsystem.cpp:127-169 | Resolution fails exactly for an editor-build PIE world whose package has no instance id, and then yields MAX. Outside editor PIE worlds it yields the world's own role. It also yields the world's own role when the editor finds no PIE context for the instance. |
| `Eligibility.PieNetModeResolution` | Source/CommonSubsystems/Private/Subsystems/CommonWorldSubsystem.cpp:152-165 | For a PIE world with an id: with no pending net game, the role is DedicatedServer when run-as-dedicated and Standalone otherwise. With a pending net game, it is the net driver's role. With no net driver, it is the world's own role. |
| `Eligibility.PieWithoutPendingGameIsServer` | Source/CommonSubsystems/Private/Subsystems/CommonWorldSubsystem.cpp:157-160 | A PIE world with no pending net game resolves to a server role, never to a client. |
| `Eligibility.CheckNetMode` | Source/CommonSubsystems/Private/Subsystems/CommonWorldSubsystem.cpp:196-208 | True iff the role resolves and the mask has that role's bit set. |
| `Eligibility.StripPrefix` | Source/CommonSubsystems/Private/Subsystems/CommonWorldSubsystem.cpp:215-216 | If the name starts with the prefix, the result is the rest of the name. Otherwise the name is unchanged. |
| `Eligibility.LevelName` | Source/CommonSubsystems/Private/Subsystems/CommonWorldSubsystem.cpp:215-216 | The level name is the map name, minus the streaming prefix when the map name starts with it. |
| `Eligibility.Contains` | Source/CommonSubsystems/Private/Subsystems/CommonWorldSubsystem.cpp:220 | True iff the substring occurs at some index of the string. |
| `Eligibility.CheckLevelName` | Source/CommonSubsystems/Private/Subsystems/CommonWorldSubsystem.cpp:210-247 | A level is accepted iff none of these holds: "Untitled" occurs in its name and that opt-in is off; it is the transition map and that opt-in is off; the allowlist is non-empty and lacks it; the blocklist names it. |
| `Eligibility.ShouldCreateSubsystem` | Source/CommonSubsystems/Private/Subsystems/CommonWorldSubsystem.cpp:63-109 | True iff all of these pass: the parent check, the game-world check, the PIE-instance check (editor builds only), the role check and the level check. |
| `Eligibility.ClearedMaskNeverCreates` | Source/CommonSubsystems/Private/Subsystems/CommonWorldSubsystem.cpp:191-208 | With the mask cleared, no world passes the role check and none gets the subsystem. |
| `Eligibility.UnsupportedNetModeRejects` | Source/CommonSubsystems/Private/Subsystems/CommonWorldSubsystem.cpp:89-98 | An unsupported resolved role rejects, whatever the level lists and opt-ins say. |
| `Eligibility.BlocklistWins` | Source/CommonSubsystems/Private/Subsystems/CommonWorldSubsystem.cpp:236-244 | A blocklisted level is rejected even when the allowlist names it. |
| `Eligibility.AllowlistMissRejects` | Source/CommonSubsystems/Private/Subsystems/CommonWorldSubsystem.cpp:236-239 | A non-empty allowlist that lacks the level rejects it. |
| `Eligibility.OptInLevelsRejected` | Source/CommonSubsystems/Private/Subsystems/CommonWorldSubsystem.cpp:218-234 | When its opt-in is off, a level whose name contains "Untitled" is rejected. When its opt-in is off, the transition map is rejected. |
| `Eligibility.CreatedMeansSupportedRole` | Source/CommonSubsystems/Private/Subsystems/CommonWorldSubsystem.cpp:63-109 | A subsystem is only ever created in a world whose role resolved to a supported one. |
| `Eligibility.DefaultSettingsDecision` | Source/CommonSubsystems/Private/Subsystems/CommonWorldSubsystem.cpp:63-109 | Take the default settings and a game world that resolves to one of the four roles. It gets the subsystem iff its level is not "L_Entry", not "L_MainMenu", not an "Untitled" level and not the transition map. |
| `WorldSubsystem.CommonWorldSubsystem.constructor` | Source/CommonSubsystems/Private/Subsystems/CommonWorldSubsystem.cpp:22-37 | The constructor leaves the default settings: mask 0b1111 and blocklist ["L_Entry", "L_MainMenu"]. It also leaves the hook not yet run and no subscriptions. |
| `WorldSubsystem.CommonWorldSubsystem.AddSupportedNetMode` | Source/CommonSubsystems/Private/Subsystems/CommonWorldSubsystem.cpp:181-184 | The new mask is the old one with the role's bit set, so the role becomes supported. |
| `WorldSubsystem.CommonWorldSubsystem.RemoveSupportedNetMode` | Source/CommonSubsystems/Private/Subsystems/CommonWorldSubsystem.cpp:186-189 | The new mask is the old one with the role's bit toggled, so the role is supported iff it was not before. |
| `WorldSubsystem.CommonWorldSubsystem.ClearSupportedNetMode` | Source/CommonSubsystems/Private/Subsystems/CommonWorldSubsystem.cpp:191-194 | The mask becomes 0 and no role is supported. |
| `WorldSubsystem.CommonWorldSubsystem.Initialize` | Source/CommonSubsystems/Private/Subsystems/CommonWorldSubsystem.cpp:39-54 | Subscribes to the post-load-map notification, and to the post-PIE-start notification in editor builds only. |
| `WorldSubsystem.CommonWorldSubsystem.PostInitWorldInternal` | Source/CommonSubsystems/Private/Subsystems/CommonWorldSubsystem.cpp:249-263 | The hook runs only for the subsystem's own valid world and only if it has not run yet. When it runs, the flag is set and both subscriptions are dropped. Otherwise nothing changes. The hook never runs more than once. |
| `WorldSubsystem.CommonWorldSubsystem.OnWorldInitialized` | Source/CommonSubsystems/Private/Subsystems/CommonWorldSubsystem.cpp:176-179 | Each run of the overridable hook is counted. |
| `WorldSubsystem.CommonWorldSubsystem.PostInitPieWorldInternal` | Source/CommonSubsystems/Private/Subsystems/CommonWorldSubsystem.cpp:265-269 | Exists only in editor builds. The PIE notification runs the same one-shot hook for the subsystem's own world. |
| `WorldSubsystem.BothNotificationsRunHookOnce` | Source/CommonSubsystems/Private/Subsystems/CommonWorldSubsystem.cpp:249-269 | In an editor build, when both the normal and the PIE notification arrive for the same world, the hook runs exactly once and both subscriptions end up dropped. |
| `Ticking.CommonTickComponent.constructor` | Source/CommonSubsystems/Public/Subsystems/Components/CommonTickComponent.h:74-92 | A new component is not ticking, has no callback and no handle, has interval 0 and has no registration. |
| `Ticking.CommonTickComponent.StartTicking` | Source/CommonSubsystems/Private/Subsystems/Components/CommonTickComponent.cpp:79-91 | Requires that no registration is live. Adds one registration at the current interval under the ticker's next handle, which it issues, and sets the flag. Its step on the shared ticker is an own step. |
| `Ticking.CommonTickComponent.StopTicking` | Source/CommonSubsystems/Private/Subsystems/Components/CommonTickComponent.cpp:93-102 | Requires a live registration. Removes it and clears the flag. The handle field and the ticker's next handle stay as they were. Its step on the shared ticker is an own step. |
| `Ticking.CommonTickComponent.TickInitialize` | Source/CommonSubsystems/Private/Subsystems/Components/CommonTickComponent.cpp:10-21 | Stores the callback and takes the configured flag and interval. If the flag is on, it registers exactly once at that interval, under the ticker's next handle. Otherwise it leaves the ticker and the handle unchanged. Its step on the shared ticker is an own step. |
| `Ticking.CommonTickComponent.TickDeinitialize` | Source/CommonSubsystems/Private/Subsystems/Components/CommonTickComponent.cpp:23-29 | Leaves the component disabled, with its registration removed and nothing else changed. The handle and the ticker's next handle stay as they were. It is a no-op when the component is already disabled. Its step on the shared ticker is an own step. |
| `Ticking.CommonTickComponent.Destroy` | Source/CommonSubsystems/Private/Subsystems/Components/CommonTickComponent.cpp:5-8 | Deinitialises once more, with the same effect on the ticker as `TickDeinitialize`. Running it after an explicit deinitialise is safe. |
| `Ticking.CommonTickComponent.EnableTick` | Source/CommonSubsystems/Private/Subsystems/Components/CommonTickComponent.cpp:31-46 | If the tick is already in the requested state, nothing changes, including the ticker's next handle. Enabling adds one registration under the ticker's next handle. Disabling removes the component's registration and keeps the handle. The invariant and the interval are kept, and its step on the shared ticker is an own step. |
| `Ticking.CommonTickComponent.SetTickIntervalTime` | Source/CommonSubsystems/Private/Subsystems/Components/CommonTickComponent.cpp:48-61 | A negative interval changes nothing. Any other interval is stored and the flag is kept. While ticking, the single registration is replaced by one at the new interval, under the ticker's next handle. Otherwise the ticker and the handle are unchanged. Its step on the shared ticker is an own step. |
| `Ticking.CommonTickComponent.IsTickEnabled` | Source/CommonSubsystems/Private/Subsystems/Components/CommonTickComponent.cpp:63-66 | Returns the flag, which is true iff the component has a live registration. |
| `Ticking.CommonTickComponent.GetTickIntervalTime` | Source/CommonSubsystems/Private/Subsystems/Components/CommonTickComponent.cpp:68-71 | Returns the current interval. While ticking, this is the interval of the live registration. |
| `Ticking.CommonTickComponent.TickImplementation` | Source/CommonSubsystems/Private/Subsystems/Components/CommonTickComponent.cpp:73-77 | Runs the stored callback exactly once with the given delta and returns true, which keeps the registration. |
| `Ticking.OtherComponentStaysValid` | Source/CommonSubsystems/Private/Subsystems/Components/CommonTickComponent.cpp:79-102 | All components register with the one core ticker (lines 87 and 98). Suppose one component makes an own step: it issues only fresh handles, adds and drops only its own entries, and keeps every other entry. Then every other component that was valid stays valid. |
| `Ticking.OperationsKeepOthersValid` | Source/CommonSubsystems/Private/Subsystems/Components/CommonTickComponent.cpp:23-61 | Two distinct valid components share a ticker. After `EnableTick`, `SetTickIntervalTime` and `Tick_Deinitialize` on one of them, both are still valid. |
| `Ticking.EnableTickTwice` | Source/CommonSubsystems/Private/Subsystems/Components/CommonTickComponent.cpp:31-36 | After enabling twice in a row, the component has exactly one live registration. |

## Left out

- The `HasInstance`/`Get` accessor macros of the four subsystem headers are not modelled. They are chains of null checks over the engine's subsystem registry and the global engine object.
- `GetLocalPlayerIndex`, `GetTimerManager`, the utility component header and the build file are not modelled. Each is a single delegating call into the engine, or build configuration.
- The `UE_LOG` lines that `ShouldCreateSubsystem` writes when it rejects are not modelled. The model returns only the boolean.
- Strings are compared exactly. The engine's `RemoveFromStart`, `Contains` and `==` on strings ignore case by default, so names that differ only in case are treated as different here.
- Intervals and deltas are `real`, not 32-bit floats. The code only stores them, compares them with zero and passes them on.
- The engine is abstracted away. The world, the editor's PIE-context lookup and the project's transition-map setting are inputs. `GetSafeNetMode`'s default argument (the subsystem's own world) is replaced by an explicit world.
- The `CastChecked` calls in `ShouldCreateSubsystem` and `GetSafeNetMode` are not modelled. The model assumes the outer object is a world, the world's outer is a package and the engine is the editor engine.
- The non-fatal `ensure`/`ensureAlways` diagnostics are not modelled. Where one fails, the model follows the code: it goes on and keeps the role the world reports.
- The core ticker's scheduling and timing are not modelled. The ticker is only a map from handles to registrations, and `TickImplementation` is what it would call.
- `UCommonWorldSubsystem::Initialize` calls `Tick_Initialize`, and `Deinitialize` calls `Tick_Deinitialize`. The tick component is modelled as a class of its own, so this composition is not modelled.
- `DoesSupportWorldType` and the empty `Tick` of the world subsystem are not modelled. Both only defer to the engine or do nothing.
- `Ticking.CommonTickComponent.TickInitialize` restores the invariant only when the component was not ticking before the call. The source allows a second call while ticking when the component is configured to start disabled. That call keeps the registration but clears the flag, and the model states exactly this. A second call while ticking, on a component configured to start enabled, reaches `StartTicking` while the handle is still valid. That is the fatal `check` at CommonTickComponent.cpp:82. The model turns it into the precondition that such a component is not ticking, so it does not model that crash.
- StartTicking, SetTickIntervalTime and EnableTick rest on an assumption about the engine: removing a registration from the core ticker makes its handle invalid at once. `TickHandle.IsValid()` is modelled as "the last handle still names a ticker entry", and handles are never reused. `StopTicking` never resets the handle field. So `SetTickIntervalTime` (stop, then start), and `EnableTick(false)` followed by `EnableTick(true)`, pass the `check(!TickHandle.IsValid())` at CommonTickComponent.cpp:82 only under that assumption. A ticker that released removed entries later, for example after a tick in progress, is not modelled.
- TickImplementation requires a bound callback. The component's invariant does not tie a live registration to a bound callback. `EnableTick(true)` before `Tick_Initialize` leaves a registration whose tick would call the unbound delegate (CommonTickComponent.cpp:75). The model does not show that fatal call. It only states that the ticker may not tick the component until a callback is bound.

## Findings

| source | as written | input that shows it | evidently intended | confidence | as-written member | corrected member |
|---|---|---|---|---|---|---|
| Source/CommonSubsystems/Private/Subsystems/CommonWorldSubsystem.cpp:121-125 | the bitwise OR of the mask and `Bit(m)`, converted to bool | mask 0 with any role: the answer is true | `mask & Bit(m) != 0`, as `CheckNetMode` tests it | high; not executed | `NetModes.IsNetModeSupportedIgnoresMask` | `NetModes.SupportsNetMode` |
| Source/CommonSubsystems/Private/Subsystems/CommonWorldSubsystem.cpp:186-189 | `mask ^= Bit(m)` | the cleared mask, remove Standalone: the result is 0b0001 and Standalone is now supported, though it was never added | clear the role's bit (`mask & ~Bit(m)`) | high; not executed | `NetModes.ToggleBreaksEditHistory` | `NetModes.EditHistoryDecidesSupport` |
