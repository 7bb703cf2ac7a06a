/** The creation filter of a world subsystem: the engine asks it, once per candidate world,
    whether the subsystem should be created there. It resolves the world's network role,
    checks it against the supported-role mask, then checks the level name against the
    opt-ins, the allowlist and the blocklist. All of it only reads its inputs. */
module Eligibility {
  import opened Options
  import opened NetModes

  /** INDEX_NONE: the PIE instance id of a package that belongs to no play-in-editor instance. */
  const IndexNone: int := -1

  /** Marker of the intermediate levels the engine creates for transient worlds. */
  const UntitledMarker: string := "Untitled"

  /** A pending connection of a PIE instance; its net driver may be missing. */
  datatype PendingNetGame = PendingNetGame(netDriverMode: Option<NetMode>)

  /** The editor's context for one PIE instance, as found from the instance id. */
  datatype PieWorldContext = PieWorldContext(pendingNetGame: Option<PendingNetGame>, runAsDedicated: bool)

  /** What the filter reads of a candidate world. `pieInstanceId` is the id of the world's
      package (IndexNone when it has none); `netMode` is what the world itself reports;
      `pieContext` is what the editor's lookup by that id returns. */
  datatype World = World(
    isGameWorld: bool,
    isPlayInEditor: bool,
    pieInstanceId: int,
    netMode: NetMode,
    pieContext: Option<PieWorldContext>,
    mapName: string,
    streamingLevelsPrefix: string)

  /** The subsystem's creation settings. */
  datatype Settings = Settings(
    levelAllowlist: seq<string>,
    levelBlocklist: seq<string>,
    netModeMask: bv8,
    enableInUntitledLevel: bool,
    enableInTransitionLevel: bool)

  /** GetSafeNetMode's boolean result together with its out-parameter. */
  datatype SafeNetMode = SafeNetMode(found: bool, netMode: NetMode)

  /** The settings every subsystem starts with: both level lists as the constructor leaves
      them, every role supported, both opt-ins off. */
  function DefaultSettings(): (s: Settings)
    ensures s.levelAllowlist == [] && s.levelBlocklist == ["L_Entry", "L_MainMenu"]
    ensures !s.enableInUntitledLevel && !s.enableInTransitionLevel
    ensures forall m :: Supports(s.netModeMask, m) <==> IsRole(m)
  {
    Settings([], [] + ["L_Entry"] + ["L_MainMenu"], DefaultMask(), false, false)
  }

  /** True when a world is a play-in-editor world of an editor build. */
  predicate IsEditorPie(w: World, withEditor: bool) {
    withEditor && w.isPlayInEditor
  }

  /** A PIE world of an editor build whose package has no instance id: a temporary world
      of a remote PIE client. */
  predicate IsPieClientWorld(w: World, withEditor: bool) {
    IsEditorPie(w, withEditor) && w.pieInstanceId == IndexNone
  }

  /** GetSafeNetMode: the world's reported role, except for PIE worlds of an editor build,
      whose role is read from the editor's PIE context because the world's own is not set
      yet. A PIE world whose package has no instance id yields no role. */
  function GetSafeNetMode(w: World, withEditor: bool): (r: SafeNetMode)
    ensures !r.found <==> IsPieClientWorld(w, withEditor)
    ensures !r.found ==> r.netMode == Max
    ensures !IsEditorPie(w, withEditor) ==> r.netMode == w.netMode
    ensures IsEditorPie(w, withEditor) && w.pieInstanceId != IndexNone && w.pieContext.None? ==>
      r.found && r.netMode == w.netMode
  {
    if !withEditor || !w.isPlayInEditor then SafeNetMode(true, w.netMode)
    else if w.pieInstanceId == IndexNone then SafeNetMode(false, Max)
    else
      match w.pieContext
      case None => SafeNetMode(true, w.netMode)
      case Some(context) =>
        match context.pendingNetGame
        case None => SafeNetMode(true, if context.runAsDedicated then DedicatedServer else Standalone)
        case Some(pending) =>
          match pending.netDriverMode
          case None => SafeNetMode(true, w.netMode)
          case Some(driverMode) => SafeNetMode(true, driverMode)
  }

  /** CheckNetMode: the role resolves and its bit is in the mask. */
  function CheckNetMode(s: Settings, w: World, withEditor: bool): (r: bool)
    ensures r <==> GetSafeNetMode(w, withEditor).found
                   && Supports(s.netModeMask, GetSafeNetMode(w, withEditor).netMode)
  {
    var resolved := GetSafeNetMode(w, withEditor);
    if resolved.found then SupportsNetMode(s.netModeMask, resolved.netMode) else false
  }

  /** FString::RemoveFromStart: drop `prefix` from the front of `name` when it is there. */
  function StripPrefix(name: string, prefix: string): (r: string)
    ensures prefix <= name ==> prefix + r == name
    ensures !(prefix <= name) ==> r == name
  {
    if prefix <= name then name[|prefix|..] else name
  }

  /** `sub` occurs in `s` starting at index `i`. */
  ghost predicate OccursAt(s: string, sub: string, i: int) {
    0 <= i && i + |sub| <= |s| && s[i..i + |sub|] == sub
  }

  /** FString::Contains: some occurrence of `sub` in `s`. */
  function Contains(s: string, sub: string): (r: bool)
    ensures r <==> exists i :: OccursAt(s, sub, i)
    decreases |s|
  {
    if |sub| > |s| then false
    else if s[..|sub|] == sub then
      assert OccursAt(s, sub, 0);
      true
    else
      var r := Contains(s[1..], sub);
      assert r ==> exists i :: OccursAt(s, sub, i) by {
        if r {
          var j :| OccursAt(s[1..], sub, j);
          assert s[1..][j..j + |sub|] == s[j + 1..j + 1 + |sub|];
          assert OccursAt(s, sub, j + 1);
        }
      }
      assert (exists i :: OccursAt(s, sub, i)) ==> r by {
        if i :| OccursAt(s, sub, i) {
          assert i != 0;
          assert s[1..][i - 1..i - 1 + |sub|] == s[i..i + |sub|];
          assert OccursAt(s[1..], sub, i - 1);
        }
      }
      r
  }

  /** The level name the filter judges: the map name without the world's streaming prefix. */
  function LevelName(w: World): (name: string)
    ensures |name| <= |w.mapName|
    ensures w.streamingLevelsPrefix <= w.mapName ==> w.streamingLevelsPrefix + name == w.mapName
  {
    StripPrefix(w.mapName, w.streamingLevelsPrefix)
  }

  /** CheckLevelName. `transitionMap` is the asset name of the project's transition map,
      None when the project sets none. */
  function CheckLevelName(s: Settings, w: World, transitionMap: Option<string>): (r: bool)
    ensures r <==>
      var name := LevelName(w);
      && (s.enableInUntitledLevel || !exists i :: OccursAt(name, UntitledMarker, i))
      && (s.enableInTransitionLevel || transitionMap != Some(name))
      && (s.levelAllowlist == [] || name in s.levelAllowlist)
      && name !in s.levelBlocklist
  {
    var name := LevelName(w);
    if !s.enableInUntitledLevel && Contains(name, UntitledMarker) then false
    else if !s.enableInTransitionLevel && transitionMap.Some? && transitionMap.value == name then false
    else if |s.levelAllowlist| != 0 && name !in s.levelAllowlist then false
    else if name in s.levelBlocklist then false
    else true
  }

  /** ShouldCreateSubsystem. `parentAllows` is the base class's own answer. The checks run
      in the source's order and the first failing one decides. */
  function ShouldCreateSubsystem(s: Settings, parentAllows: bool, w: World, withEditor: bool,
                                 transitionMap: Option<string>): (r: bool)
    ensures r <==> && parentAllows
                   && w.isGameWorld
                   && !IsPieClientWorld(w, withEditor)
                   && CheckNetMode(s, w, withEditor)
                   && CheckLevelName(s, w, transitionMap)
  {
    if !parentAllows then false
    else if !w.isGameWorld then false
    else if withEditor && w.isPlayInEditor && w.pieInstanceId == IndexNone then false
    else if !CheckNetMode(s, w, withEditor) then false
    else if !CheckLevelName(s, w, transitionMap) then false
    else true
  }

  // ---------------------------------------------------------------------------
  // Properties of the filter

  /** The four ways GetSafeNetMode resolves a PIE world of an editor build that has an id. */
  lemma PieNetModeResolution(w: World, context: PieWorldContext)
    requires w.isPlayInEditor && w.pieInstanceId != IndexNone && w.pieContext == Some(context)
    ensures context.pendingNetGame.None? ==>
      GetSafeNetMode(w, true) == SafeNetMode(true, if context.runAsDedicated then DedicatedServer else Standalone)
    ensures context.pendingNetGame.Some? && context.pendingNetGame.value.netDriverMode.Some? ==>
      GetSafeNetMode(w, true) == SafeNetMode(true, context.pendingNetGame.value.netDriverMode.value)
    ensures context.pendingNetGame.Some? && context.pendingNetGame.value.netDriverMode.None? ==>
      GetSafeNetMode(w, true) == SafeNetMode(true, w.netMode)
  {
  }

  /** A PIE world without a pending connection resolves to a server role, never a client. */
  lemma PieWithoutPendingGameIsServer(w: World, context: PieWorldContext)
    requires w.isPlayInEditor && w.pieInstanceId != IndexNone && w.pieContext == Some(context)
    requires context.pendingNetGame.None?
    ensures GetSafeNetMode(w, true).found
    ensures GetSafeNetMode(w, true).netMode in {Standalone, DedicatedServer}
  {
  }

  /** With the mask cleared no world passes the role check, so none gets the subsystem. */
  lemma ClearedMaskNeverCreates(s: Settings, parentAllows: bool, w: World, withEditor: bool,
                                transitionMap: Option<string>)
    requires s.netModeMask == 0
    ensures !CheckNetMode(s, w, withEditor)
    ensures !ShouldCreateSubsystem(s, parentAllows, w, withEditor, transitionMap)
  {
    ClearedMaskSupportsNothing(GetSafeNetMode(w, withEditor).netMode);
  }

  /** An unsupported role rejects whatever the level lists and opt-ins say. */
  lemma UnsupportedNetModeRejects(s: Settings, parentAllows: bool, w: World, withEditor: bool,
                                  transitionMap: Option<string>, allowlist: seq<string>,
                                  blocklist: seq<string>, untitled: bool, transition: bool)
    requires !Supports(s.netModeMask, GetSafeNetMode(w, withEditor).netMode)
    ensures !ShouldCreateSubsystem(s.(levelAllowlist := allowlist, levelBlocklist := blocklist,
                                      enableInUntitledLevel := untitled,
                                      enableInTransitionLevel := transition),
                                   parentAllows, w, withEditor, transitionMap)
  {
  }

  /** A blocklisted level is rejected even when the allowlist names it too. */
  lemma BlocklistWins(s: Settings, parentAllows: bool, w: World, withEditor: bool,
                      transitionMap: Option<string>)
    requires LevelName(w) in s.levelBlocklist
    ensures !CheckLevelName(s, w, transitionMap)
    ensures !ShouldCreateSubsystem(s, parentAllows, w, withEditor, transitionMap)
  {
  }

  /** A non-empty allowlist that lacks the level rejects it, blocklist or not. */
  lemma AllowlistMissRejects(s: Settings, parentAllows: bool, w: World, withEditor: bool,
                             transitionMap: Option<string>)
    requires s.levelAllowlist != [] && LevelName(w) !in s.levelAllowlist
    ensures !CheckLevelName(s, w, transitionMap)
    ensures !ShouldCreateSubsystem(s, parentAllows, w, withEditor, transitionMap)
  {
  }

  /** A level whose name contains "Untitled" is rejected unless that opt-in is on;
      the transition map likewise unless its opt-in is on. */
  lemma OptInLevelsRejected(s: Settings, w: World, transitionMap: Option<string>, at: nat)
    ensures !s.enableInUntitledLevel && OccursAt(LevelName(w), UntitledMarker, at) ==>
              !CheckLevelName(s, w, transitionMap)
    ensures !s.enableInTransitionLevel && transitionMap == Some(LevelName(w)) ==>
              !CheckLevelName(s, w, transitionMap)
  {
  }

  /** A created subsystem always stands in a world whose role resolved to a supported one. */
  lemma CreatedMeansSupportedRole(s: Settings, parentAllows: bool, w: World, withEditor: bool,
                                  transitionMap: Option<string>)
    requires ShouldCreateSubsystem(s, parentAllows, w, withEditor, transitionMap)
    ensures GetSafeNetMode(w, withEditor).found
    ensures Supports(s.netModeMask, GetSafeNetMode(w, withEditor).netMode)
  {
  }

  /** With the default settings, a game world whose role resolves to one of the four roles
      gets the subsystem exactly when its level is neither "L_Entry" nor "L_MainMenu",
      is not an "Untitled" level and is not the transition map. */
  lemma DefaultSettingsDecision(w: World, withEditor: bool, transitionMap: Option<string>)
    requires w.isGameWorld && !IsPieClientWorld(w, withEditor)
    requires IsRole(GetSafeNetMode(w, withEditor).netMode)
    ensures ShouldCreateSubsystem(DefaultSettings(), true, w, withEditor, transitionMap) <==>
      && LevelName(w) != "L_Entry" && LevelName(w) != "L_MainMenu"
      && !Contains(LevelName(w), UntitledMarker)
      && transitionMap != Some(LevelName(w))
  {
    var s := DefaultSettings();
    assert CheckNetMode(s, w, withEditor);
    assert LevelName(w) in s.levelBlocklist <==> LevelName(w) == "L_Entry" || LevelName(w) == "L_MainMenu";
  }
}
