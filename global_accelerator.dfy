/**
 * macOS global hot keys through the Carbon binding: the modifier bitmask that
 * `GlobalAccelerator::new` builds, the registration loop of
 * `register_global_accelerators`, and the `Once` that installs the event
 * handler a single time. The binding's functions are effects recorded on a
 * `CarbonHotKeys` object.
 */
module GlobalAccelerator {
  import opened Wrappers
  import opened NativeInts

  /** The four modifier flags the conversion looks at. */
  datatype ModifiersState = ModifiersState(shiftKey: bool, superKey: bool, altKey: bool, controlKey: bool)

  const NoModifiers: ModifiersState := ModifiersState(false, false, false, false)

  /** Carbon's modifier bits. */
  const SHIFT_MASK: bv32 := 512
  const SUPER_MASK: bv32 := 256
  const ALT_MASK: bv32 := 2048
  const CONTROL_MASK: bv32 := 4096
  /** All four bits together: 512 + 256 + 2048 + 4096. */
  const ALL_MODIFIERS: int := 6912

  /** The encoding: the OR of the bits of exactly the held flags. */
  function ModifierMask(m: ModifiersState): bv32
  {
    (if m.shiftKey then SHIFT_MASK else 0)
    | (if m.superKey then SUPER_MASK else 0)
    | (if m.altKey then ALT_MASK else 0)
    | (if m.controlKey then CONTROL_MASK else 0)
  }

  /** Reading the flags back from a mask. */
  function ModifiersOf(r: bv32): ModifiersState
  {
    ModifiersState(r & SHIFT_MASK != 0, r & SUPER_MASK != 0, r & ALT_MASK != 0, r & CONTROL_MASK != 0)
  }

  /** Each flag sets its own bit and no bit outside the four is set. */
  lemma ModifierMaskBits(m: ModifiersState)
    ensures (ModifierMask(m) & SHIFT_MASK != 0) == m.shiftKey
    ensures (ModifierMask(m) & SUPER_MASK != 0) == m.superKey
    ensures (ModifierMask(m) & ALT_MASK != 0) == m.altKey
    ensures (ModifierMask(m) & CONTROL_MASK != 0) == m.controlKey
    ensures ModifierMask(m) & !(SHIFT_MASK | SUPER_MASK | ALT_MASK | CONTROL_MASK) == 0
  {
  }

  /** The bits are distinct, so each flag is recovered from the mask. */
  lemma ModifiersRoundTrip(m: ModifiersState)
    ensures ModifiersOf(ModifierMask(m)) == m
  {
    ModifierMaskBits(m);
  }

  /** The encoding is injective. */
  lemma ModifierMaskInjective(a: ModifiersState, b: ModifiersState)
    ensures ModifierMask(a) == ModifierMask(b) <==> a == b
  {
    if ModifierMask(a) == ModifierMask(b) {
      ModifiersRoundTrip(a);
      ModifiersRoundTrip(b);
    }
  }

  /** The mask, as the integer passed to `register_hotkey`, is the sum of the
      held flags' values; so it lies in 0 .. 6912 and is 0 exactly when no
      modifier is held. */
  lemma ModifierMaskValue(m: ModifiersState)
    ensures ModifierMask(m) as int ==
      (if m.shiftKey then 512 else 0) + (if m.superKey then 256 else 0)
      + (if m.altKey then 2048 else 0) + (if m.controlKey then 4096 else 0)
    ensures 0 <= ModifierMask(m) as int <= ALL_MODIFIERS
    ensures ModifierMask(m) == 0 <==> m == NoModifiers
  {
  }

  /** `converted_modifiers` as the source builds it, one `|=` per held flag. */
  method ConvertModifiers(m: ModifiersState) returns (converted: bv32)
    ensures converted == ModifierMask(m)
  {
    converted := 0;
    if m.shiftKey {
      converted := converted | SHIFT_MASK;
    }
    if m.superKey {
      converted := converted | SUPER_MASK;
    }
    if m.altKey {
      converted := converted | ALT_MASK;
    }
    if m.controlKey {
      converted := converted | CONTROL_MASK;
    }
  }

  /** A logical key of a hot key, and the platform key codes it maps to. */
  type Key = nat
  type KeyCode = nat

  datatype HotKey = HotKey(mods: ModifiersState, key: Key)

  /** One `register_hotkey(id, modifier, key)` call. */
  datatype Registration = Registration(id: int, modifier: int, scanCode: int)

  /** The value `GlobalAccelerator::new` returns: the Carbon hot-key reference,
      here the position of its registration. */
  datatype Accelerator = Accelerator(carbonRef: nat)

  /** Every hot-key registration uses this id (the source has no unique ids yet). */
  const HOTKEY_ID: int := 1

  /** The registration `GlobalAccelerator::new(mods, key)` makes. */
  function RegistrationFor(mods: ModifiersState, key: KeyCode, scanCodes: map<KeyCode, u32>): (r: Registration)
    requires key in scanCodes
    ensures r.id == HOTKEY_ID && r.modifier == ModifierMask(mods) as int
    ensures -0x8000_0000 <= r.scanCode < 0x8000_0000
    ensures (r.scanCode - scanCodes[key]) % 0x1_0000_0000 == 0
    ensures scanCodes[key] < 0x8000_0000 ==> r.scanCode == scanCodes[key]
  {
    Registration(HOTKEY_ID, ModifierMask(mods) as int, WrapI32(scanCodes[key]))
  }

  /** `to_scancode().expect(..)` panics on a key code without a scan code; the
      precondition rules that out for every key code the loop reaches. */
  ghost predicate HotKeyScannable(h: HotKey, keycodes: map<Key, seq<KeyCode>>, scanCodes: map<KeyCode, u32>)
  {
    h.key in keycodes ==> forall k :: k in keycodes[h.key] ==> k in scanCodes
  }

  ghost predicate Scannable(all: seq<HotKey>, keycodes: map<Key, seq<KeyCode>>, scanCodes: map<KeyCode, u32>)
  {
    forall h :: h in all ==> HotKeyScannable(h, keycodes, scanCodes)
  }

  /** The registrations for one hot key's key codes, in key-code order. */
  function KeyRegistrations(mods: ModifiersState, kcs: seq<KeyCode>, scanCodes: map<KeyCode, u32>): (rs: seq<Registration>)
    requires forall k :: k in kcs ==> k in scanCodes
    ensures |rs| == |kcs|
    ensures forall r :: r in rs ==> r.id == HOTKEY_ID && r.modifier == ModifierMask(mods) as int
  {
    if kcs == [] then [] else [RegistrationFor(mods, kcs[0], scanCodes)] + KeyRegistrations(mods, kcs[1..], scanCodes)
  }

  /** The registrations for one hot key: none when its key has no key codes. */
  function HotKeyRegistrations(h: HotKey, keycodes: map<Key, seq<KeyCode>>, scanCodes: map<KeyCode, u32>): (rs: seq<Registration>)
    requires HotKeyScannable(h, keycodes, scanCodes)
    ensures |rs| == if h.key in keycodes then |keycodes[h.key]| else 0
    ensures forall r :: r in rs ==> r.modifier == ModifierMask(h.mods) as int
  {
    if h.key in keycodes then KeyRegistrations(h.mods, keycodes[h.key], scanCodes) else []
  }

  /** All registrations of the loop: hot keys in input order, each expanded to
      its key codes. */
  function Registrations(all: seq<HotKey>, keycodes: map<Key, seq<KeyCode>>, scanCodes: map<KeyCode, u32>): (rs: seq<Registration>)
    requires Scannable(all, keycodes, scanCodes)
    ensures forall r :: r in rs ==> r.id == HOTKEY_ID
  {
    if all == [] then []
    else
      assert HotKeyScannable(all[0], keycodes, scanCodes);
      HotKeyRegistrations(all[0], keycodes, scanCodes) + Registrations(all[1..], keycodes, scanCodes)
  }

  /** How many key codes the hot keys map to. */
  function KeyCodeCount(all: seq<HotKey>, keycodes: map<Key, seq<KeyCode>>): nat
  {
    if all == [] then 0
    else (if all[0].key in keycodes then |keycodes[all[0].key]| else 0) + KeyCodeCount(all[1..], keycodes)
  }

  /** Exactly one registration per key code, each with id 1 and a modifier
      mask within 0 .. 6912. */
  lemma {:induction false} RegistrationsShape(all: seq<HotKey>, keycodes: map<Key, seq<KeyCode>>, scanCodes: map<KeyCode, u32>)
    requires Scannable(all, keycodes, scanCodes)
    ensures |Registrations(all, keycodes, scanCodes)| == KeyCodeCount(all, keycodes)
    ensures forall r :: r in Registrations(all, keycodes, scanCodes) ==>
      r.id == HOTKEY_ID && 0 <= r.modifier <= ALL_MODIFIERS
  {
    if all != [] {
      RegistrationsShape(all[1..], keycodes, scanCodes);
      ModifierMaskValue(all[0].mods);
    }
  }

  /** Registering a list in two parts registers the parts one after the other. */
  lemma {:induction false} RegistrationsAppend(a: seq<HotKey>, b: seq<HotKey>, keycodes: map<Key, seq<KeyCode>>, scanCodes: map<KeyCode, u32>)
    requires Scannable(a + b, keycodes, scanCodes)
    ensures Scannable(a, keycodes, scanCodes) && Scannable(b, keycodes, scanCodes)
    ensures Registrations(a + b, keycodes, scanCodes)
         == Registrations(a, keycodes, scanCodes) + Registrations(b, keycodes, scanCodes)
  {
    if a == [] {
      assert a + b == b;
    } else {
      assert (a + b)[0] == a[0];
      assert (a + b)[1..] == a[1..] + b;
      RegistrationsAppend(a[1..], b, keycodes, scanCodes);
    }
  }

  /** The loop's step: one more hot key appends its registrations. */
  lemma RegistrationsSnoc(all: seq<HotKey>, i: nat, keycodes: map<Key, seq<KeyCode>>, scanCodes: map<KeyCode, u32>)
    requires Scannable(all, keycodes, scanCodes)
    requires i < |all|
    ensures Scannable(all[..i], keycodes, scanCodes) && Scannable(all[..i + 1], keycodes, scanCodes)
    ensures HotKeyScannable(all[i], keycodes, scanCodes)
    ensures Registrations(all[..i + 1], keycodes, scanCodes)
         == Registrations(all[..i], keycodes, scanCodes) + HotKeyRegistrations(all[i], keycodes, scanCodes)
  {
    assert all[i] in all;
    assert all[..i + 1] == all[..i] + [all[i]];
    assert Scannable(all[..i + 1], keycodes, scanCodes) by {
      forall h | h in all[..i + 1] ensures HotKeyScannable(h, keycodes, scanCodes) {
        assert h in all;
      }
    }
    RegistrationsAppend(all[..i], [all[i]], keycodes, scanCodes);
    assert [all[i]][1..] == [];
  }

  /** A hot key whose key maps to no key codes is skipped. */
  lemma SkippedWithoutKeyCodes(h: HotKey, keycodes: map<Key, seq<KeyCode>>, scanCodes: map<KeyCode, u32>)
    requires h.key !in keycodes
    ensures Scannable([h], keycodes, scanCodes)
    ensures Registrations([h], keycodes, scanCodes) == []
  {
  }

  lemma {:induction false} KeyRegistrationsSnoc(mods: ModifiersState, kcs: seq<KeyCode>, k: KeyCode, scanCodes: map<KeyCode, u32>)
    requires forall x :: x in kcs + [k] ==> x in scanCodes
    ensures KeyRegistrations(mods, kcs + [k], scanCodes)
         == KeyRegistrations(mods, kcs, scanCodes) + [RegistrationFor(mods, k, scanCodes)]
  {
    if kcs != [] {
      assert (kcs + [k])[1..] == kcs[1..] + [k];
      KeyRegistrationsSnoc(mods, kcs[1..], k, scanCodes);
    }
  }

  /** The Carbon side: the hot keys registered so far and the handler
      installations, with the `Once` of `make_accelerator_callback`. */
  class CarbonHotKeys {
    var registered: seq<Registration>
    var handlerInstalls: nat
    var initDone: bool

    /** The `Once` guarantees at most one installation, made when it fired. */
    ghost predicate Valid()
      reads this
    {
      handlerInstalls == if initDone then 1 else 0
    }

    constructor ()
      ensures Valid() && registered == [] && !initDone
    {
      registered := [];
      handlerInstalls := 0;
      initDone := false;
    }

    /** `make_accelerator_callback`: `INIT.call_once(install_event_handler)`. */
    method MakeAcceleratorCallback()
      requires Valid()
      modifies this`handlerInstalls, this`initDone
      ensures Valid() && initDone && handlerInstalls == 1
    {
      if !initDone {
        handlerInstalls := handlerInstalls + 1;
        initDone := true;
      }
    }

    /** `GlobalAccelerator::new`: one registration with id 1, then the
        once-guarded handler installation. */
    method NewAccelerator(mods: ModifiersState, key: KeyCode, scanCodes: map<KeyCode, u32>) returns (acc: Accelerator)
      requires Valid()
      requires key in scanCodes
      modifies this
      ensures Valid() && initDone
      ensures registered == old(registered) + [RegistrationFor(mods, key, scanCodes)]
      ensures acc.carbonRef == |old(registered)|
    {
      var converted := ConvertModifiers(mods);
      var code := scanCodes[key];
      acc := Accelerator(|registered|);
      registered := registered + [Registration(HOTKEY_ID, converted as int, WrapI32(code))];
      MakeAcceleratorCallback();
    }

    /** The inner loop of `register_global_accelerators`: one accelerator per
        key code of a hot key, in key-code order. */
    method RegisterKeyCodes(mods: ModifiersState, kcs: seq<KeyCode>, scanCodes: map<KeyCode, u32>)
      requires Valid()
      requires forall k :: k in kcs ==> k in scanCodes
      modifies this
      ensures Valid()
      ensures registered == old(registered) + KeyRegistrations(mods, kcs, scanCodes)
      ensures initDone == (old(initDone) || kcs != [])
    {
      var j := 0;
      while j < |kcs|
        invariant 0 <= j <= |kcs|
        invariant Valid()
        invariant registered == old(registered) + KeyRegistrations(mods, kcs[..j], scanCodes)
        invariant initDone == (old(initDone) || j > 0)
      {
        assert kcs[..j + 1] == kcs[..j] + [kcs[j]];
        KeyRegistrationsSnoc(mods, kcs[..j], kcs[j], scanCodes);
        var _ := NewAccelerator(mods, kcs[j], scanCodes);
        j := j + 1;
      }
      assert kcs[..j] == kcs;
    }

    /** One pass of the outer loop: a hot key whose key has key codes gets one
        accelerator per key code; one without is skipped. */
    method RegisterHotKey(hotkey: HotKey, keycodes: map<Key, seq<KeyCode>>, scanCodes: map<KeyCode, u32>)
      requires Valid()
      requires HotKeyScannable(hotkey, keycodes, scanCodes)
      modifies this
      ensures Valid()
      ensures registered == old(registered) + HotKeyRegistrations(hotkey, keycodes, scanCodes)
      ensures initDone == (old(initDone) || |registered| > |old(registered)|)
    {
      if hotkey.key in keycodes {
        RegisterKeyCodes(hotkey.mods, keycodes[hotkey.key], scanCodes);
      }
    }

    /** `register_global_accelerators`: for each hot key with key codes, one
        accelerator per key code. */
    method RegisterGlobalAccelerators(all: seq<HotKey>, keycodes: map<Key, seq<KeyCode>>, scanCodes: map<KeyCode, u32>)
      requires Valid()
      requires Scannable(all, keycodes, scanCodes)
      modifies this
      ensures Valid()
      ensures registered == old(registered) + Registrations(all, keycodes, scanCodes)
      ensures initDone == (old(initDone) || KeyCodeCount(all, keycodes) > 0)
    {
      var i := 0;
      assert all[..0] == [];
      while i < |all|
        invariant 0 <= i <= |all|
        invariant Valid()
        invariant Scannable(all[..i], keycodes, scanCodes)
        invariant registered == old(registered) + Registrations(all[..i], keycodes, scanCodes)
        invariant initDone == (old(initDone) || |registered| > |old(registered)|)
      {
        RegistrationsSnoc(all, i, keycodes, scanCodes);
        RegisterHotKey(all[i], keycodes, scanCodes);
        i := i + 1;
      }
      assert all[..i] == all;
      RegistrationsShape(all, keycodes, scanCodes);
    }
  }
}
