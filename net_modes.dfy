/** Network roles and the 8-bit mask of supported roles kept by a world subsystem.
    A role's bit is `1 << ordinal`; the mask is an unsigned 8-bit field. */
module NetModes {

  /** The network role a world runs under. The four roles and the end marker share
      their ordinals with the engine's own net-mode enumeration, so one type serves for both. */
  datatype NetMode = Standalone | DedicatedServer | ListenServer | Client | Max

  /** The enumeration's underlying value. */
  function Ordinal(m: NetMode): (k: nat)
    ensures k <= 4
    ensures k == 4 <==> m == Max
  {
    match m
    case Standalone => 0
    case DedicatedServer => 1
    case ListenServer => 2
    case Client => 3
    case Max => 4
  }

  /** Distinct roles have distinct ordinals, so distinct roles have distinct bits. */
  lemma OrdinalInjective(a: NetMode, b: NetMode)
    ensures Ordinal(a) == Ordinal(b) <==> a == b
  {
  }

  /** Bit `k` of `mask`, read by shifting it down. */
  predicate HasBit(mask: bv8, k: nat)
    requires k < 8
  {
    (mask >> k) & 1 == 1
  }

  /** The four roles a subsystem can be restricted to (the end marker is not a role). */
  predicate IsRole(m: NetMode) {
    m != Max
  }

  /** Intended meaning of "the mask supports role m": the role's bit is set. */
  predicate Supports(mask: bv8, m: NetMode) {
    HasBit(mask, Ordinal(m))
  }

  /** GetNetModeInteger: the single-bit mask of a role. */
  function Bit(m: NetMode): (r: bv8)
    ensures r != 0
    ensures forall k :: 0 <= k < 8 ==> (HasBit(r, k) <==> k == Ordinal(m))
  {
    (1 as bv8) << Ordinal(m)
  }

  /** `mask & Bit(m)` is nonzero exactly when the role's bit is set. */
  lemma AndBitIsSupports(mask: bv8, m: NetMode)
    ensures (mask & Bit(m) != 0) <==> Supports(mask, m)
  {
    match m
    case Standalone =>
    case DedicatedServer =>
    case ListenServer =>
    case Client =>
    case Max =>
  }

  /** IsNetModeSupported as evidently intended, and as CheckNetMode tests a role:
      `mask & Bit(m) != 0`, true exactly when the role's bit is set. */
  function SupportsNetMode(mask: bv8, m: NetMode): (r: bool)
    ensures r <==> Supports(mask, m)
  {
    AndBitIsSupports(mask, m);
    mask & Bit(m) != 0
  }

  /** AddSupportedNetMode: `mask |= Bit(m)`. */
  function WithMode(mask: bv8, m: NetMode): (r: bv8)
    ensures forall k :: 0 <= k < 8 ==> (HasBit(r, k) <==> HasBit(mask, k) || k == Ordinal(m))
  {
    mask | Bit(m)
  }

  /** RemoveSupportedNetMode as written: `mask ^= Bit(m)`, which toggles the bit. */
  function ToggledMode(mask: bv8, m: NetMode): (r: bv8)
    ensures forall k :: 0 <= k < 8 ==> (HasBit(r, k) <==> (HasBit(mask, k) != (k == Ordinal(m))))
  {
    mask ^ Bit(m)
  }

  /** What RemoveSupportedNetMode is documented to do: clear the role's bit. */
  function WithoutMode(mask: bv8, m: NetMode): (r: bv8)
    ensures forall k :: 0 <= k < 8 ==> (HasBit(r, k) <==> HasBit(mask, k) && k != Ordinal(m))
  {
    mask & !Bit(m)
  }

  /** IsNetModeSupported as written: `bool(mask | Bit(m))`. Because the role's bit is
      never zero, this answer is true for every mask and every role. */
  function IsNetModeSupported(mask: bv8, m: NetMode): (r: bool)
    ensures r
  {
    mask | Bit(m) != 0
  }

  /** The mask the subsystem constructor builds: cleared, then the four roles added in order. */
  function DefaultMask(): (r: bv8)
    ensures forall m :: Supports(r, m) <==> IsRole(m)
    ensures forall k :: 4 <= k < 8 ==> !HasBit(r, k)
  {
    WithMode(WithMode(WithMode(WithMode(0, Standalone), DedicatedServer), ListenServer), Client)
  }

  /** ClearSupportedNetMode leaves a mask that supports no role at all. */
  lemma ClearedMaskSupportsNothing(m: NetMode)
    ensures !Supports(0, m)
  {
  }

  /** Adding a role sets its bit, keeps every other role, and a second add changes nothing. */
  lemma AddSetsOnlyItsRole(mask: bv8, m: NetMode, other: NetMode)
    ensures Supports(WithMode(mask, m), m)
    ensures other != m ==> (Supports(WithMode(mask, m), other) <==> Supports(mask, other))
    ensures WithMode(WithMode(mask, m), m) == WithMode(mask, m)
  {
  }

  /** RemoveSupportedNetMode after AddSupportedNetMode of the same role clears it. */
  lemma RemoveClearsAddedMode(mask: bv8, m: NetMode)
    ensures !Supports(ToggledMode(WithMode(mask, m), m), m)
  {
  }

  /** The toggle SETS a role that was absent: "removing" an unsupported role adds it. */
  lemma RemoveAbsentModeSetsIt(mask: bv8, m: NetMode)
    requires !Supports(mask, m)
    ensures Supports(ToggledMode(mask, m), m)
  {
  }

  /** The toggle keeps every other role as it was. */
  lemma RemoveKeepsOtherModes(mask: bv8, m: NetMode, other: NetMode)
    requires other != m
    ensures Supports(ToggledMode(mask, m), other) <==> Supports(mask, other)
  {
  }

  /** Two removals of the same role restore the original mask. */
  lemma RemoveTwiceRestores(mask: bv8, m: NetMode)
    ensures ToggledMode(ToggledMode(mask, m), m) == mask
  {
  }

  /** The corrected removal clears the role whatever the mask held and keeps every other role. */
  lemma WithoutModeClears(mask: bv8, m: NetMode, other: NetMode)
    ensures !Supports(WithoutMode(mask, m), m)
    ensures other != m ==> (Supports(WithoutMode(mask, m), other) <==> Supports(mask, other))
  {
  }

  /** The corrected removal is idempotent. */
  lemma WithoutModeIdempotent(mask: bv8, m: NetMode)
    ensures WithoutMode(WithoutMode(mask, m), m) == WithoutMode(mask, m)
  {
  }

  /** Where the role was present, the toggle and the corrected removal agree. */
  lemma WithoutModeAgreesWhenPresent(mask: bv8, m: NetMode)
    requires Supports(mask, m)
    ensures WithoutMode(mask, m) == ToggledMode(mask, m)
  {
    AndBitIsSupports(mask, m);
    var b := Bit(m);
    assert mask & b == b by {
      match m
      case Standalone =>
      case DedicatedServer =>
      case ListenServer =>
      case Client =>
      case Max =>
    }
    assert mask & !b == mask ^ b;
  }

  /** The defect in IsNetModeSupported: for the empty mask it still answers true,
      while no role's bit is set. */
  lemma IsNetModeSupportedIgnoresMask(m: NetMode)
    ensures IsNetModeSupported(0, m) && !SupportsNetMode(0, m)
  {
  }

  // ---------------------------------------------------------------------------
  // Histories of mask edits

  /** One call of the mask helpers on a subsystem. */
  datatype MaskEdit = AddMode(mode: NetMode) | RemoveMode(mode: NetMode) | ClearModes

  /** One edit, with removal as evidently intended. */
  function ApplyEdit(mask: bv8, e: MaskEdit): bv8 {
    match e
    case AddMode(m) => WithMode(mask, m)
    case RemoveMode(m) => WithoutMode(mask, m)
    case ClearModes => 0
  }

  /** One edit, with removal as written (the toggle). */
  function ApplyEditAsWritten(mask: bv8, e: MaskEdit): bv8 {
    match e
    case AddMode(m) => WithMode(mask, m)
    case RemoveMode(m) => ToggledMode(mask, m)
    case ClearModes => 0
  }

  /** The mask after a sequence of edits, in order, with removal as intended. */
  function ApplyEdits(mask: bv8, edits: seq<MaskEdit>): bv8
    decreases |edits|
  {
    if edits == [] then mask
    else ApplyEdit(ApplyEdits(mask, edits[..|edits| - 1]), edits[|edits| - 1])
  }

  /** The mask after a sequence of edits, in order, with removal as written. */
  function ApplyEditsAsWritten(mask: bv8, edits: seq<MaskEdit>): bv8
    decreases |edits|
  {
    if edits == [] then mask
    else ApplyEditAsWritten(ApplyEditsAsWritten(mask, edits[..|edits| - 1]), edits[|edits| - 1])
  }

  /** No edit after position `i` removes role `m` or clears the mask. */
  ghost predicate KeptAfter(edits: seq<MaskEdit>, m: NetMode, i: int) {
    forall j :: 0 <= j < |edits| && i < j ==> edits[j] != RemoveMode(m) && edits[j] != ClearModes
  }

  /** Edit `i` adds role `m`. */
  ghost predicate AddedAt(edits: seq<MaskEdit>, m: NetMode, i: int) {
    0 <= i < |edits| && edits[i] == AddMode(m)
  }

  /** The intended meaning of the mask: role `m` was added and not removed or cleared since. */
  ghost predicate AddedAndKept(edits: seq<MaskEdit>, m: NetMode) {
    exists i :: AddedAt(edits, m, i) && KeptAfter(edits, m, i)
  }

  /** An edit that neither adds nor removes `m` nor clears leaves "added and kept" as it was. */
  lemma UnrelatedEditKeepsHistory(edits: seq<MaskEdit>, m: NetMode)
    requires edits != []
    requires var e := edits[|edits| - 1]; e != AddMode(m) && e != RemoveMode(m) && e != ClearModes
    ensures AddedAndKept(edits, m) <==> AddedAndKept(edits[..|edits| - 1], m)
  {
    var pre := edits[..|edits| - 1];
    if i :| AddedAt(edits, m, i) && KeptAfter(edits, m, i) {
      assert i < |edits| - 1;
      assert AddedAt(pre, m, i) && KeptAfter(pre, m, i);
    }
    if i :| AddedAt(pre, m, i) && KeptAfter(pre, m, i) {
      assert AddedAt(edits, m, i) && KeptAfter(edits, m, i);
    }
  }

  /** What one edit does to the support of role `m`, with removal as intended. */
  lemma EditStepSupport(before: bv8, e: MaskEdit, m: NetMode)
    ensures Supports(ApplyEdit(before, e), m) <==>
      match e
      case AddMode(a) => a == m || Supports(before, m)
      case RemoveMode(x) => x != m && Supports(before, m)
      case ClearModes => false
  {
    match e
    case AddMode(a) =>
      OrdinalInjective(a, m);
    case RemoveMode(x) =>
      OrdinalInjective(x, m);
    case ClearModes =>
      ClearedMaskSupportsNothing(m);
  }

  /** A last edit that adds `m` leaves it added and kept. */
  lemma AddEditKeepsRole(edits: seq<MaskEdit>, m: NetMode)
    requires edits != [] && edits[|edits| - 1] == AddMode(m)
    ensures AddedAndKept(edits, m)
  {
    assert AddedAt(edits, m, |edits| - 1) && KeptAfter(edits, m, |edits| - 1);
  }

  /** A last edit that removes `m` or clears leaves it not added-and-kept. */
  lemma RemovingEditDropsRole(edits: seq<MaskEdit>, m: NetMode)
    requires edits != [] && edits[|edits| - 1] in {RemoveMode(m), ClearModes}
    ensures !AddedAndKept(edits, m)
  {
    if i :| AddedAt(edits, m, i) && KeptAfter(edits, m, i) {
      assert false;
    }
  }

  /** Starting from the cleared mask, with removal as intended, a role is supported exactly
      when it was added and not removed or cleared since. */
  lemma {:induction false} EditHistoryDecidesSupport(edits: seq<MaskEdit>, m: NetMode)
    ensures Supports(ApplyEdits(0, edits), m) <==> AddedAndKept(edits, m)
    decreases |edits|
  {
    if edits == [] {
      ClearedMaskSupportsNothing(m);
    } else {
      var n := |edits| - 1;
      EditHistoryDecidesSupport(edits[..n], m);
      EditStepSupport(ApplyEdits(0, edits[..n]), edits[n], m);
      match edits[n]
      case AddMode(a) =>
        if a == m { AddEditKeepsRole(edits, m); } else { UnrelatedEditKeepsHistory(edits, m); }
      case RemoveMode(x) =>
        if x == m { RemovingEditDropsRole(edits, m); } else { UnrelatedEditKeepsHistory(edits, m); }
      case ClearModes =>
        RemovingEditDropsRole(edits, m);
    }
  }

  /** With removal as written, one removal of a role that was never added makes it supported. */
  lemma ToggleBreaksEditHistory()
    ensures Supports(ApplyEditsAsWritten(0, [RemoveMode(Standalone)]), Standalone)
    ensures !AddedAndKept([RemoveMode(Standalone)], Standalone)
  {
    var edits := [RemoveMode(Standalone)];
    assert edits[..0] == [];
  }
}
