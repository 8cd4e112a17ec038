/**
 The two-slot configuration store (preferences_config_store.h) and the transaction over it
 (config_transaction.h), on a non-volatile store that may lose power between any two operations.
 A write may leave anything in its slot and report anything; a read that succeeds is faithful; the one-octet
 flag is written or it is not.
 */
module ConfigStore {
  import opened Common
  import opened DeviceConfigs
  import opened DeviceConfigWire
  import opened DeviceConfigTheorems

  datatype Nvs = Nvs(slot0: Option<Text>, slot1: Option<Text>, active: Option<byte>)

  /** The store object, the flash behind it, and how many more operations the power lasts. */
  datatype Device = Device(
    nvs: Nvs, operations: nat, activeSlot: byte, pendingSlot: byte, pending: Text,
    last: Option<DeviceConfig>)        // the configuration whose active flag was written last

  /** What the flash does during one apply. */
  datatype Flash = Flash(
    left: Option<Text>, reported: nat,       // what the write leaves in the slot and says it wrote
    readable: bool, flagged: bool,               // whether the read-back and the flag write succeed
    discarded: Option<Text>)                 // what discarding leaves in the slot

  datatype ApplyResult =
    | Applied
    | InvalidConfig
    | WriteFailed
    | ReadbackMismatch
    | ActivationFailed

  function SlotOf(n: Nvs, slot: byte): Option<Text> {
    if slot == 0 then n.slot0 else n.slot1
  }

  function WithSlot(n: Nvs, slot: byte, contents: Option<Text>): Nvs {
    if slot == 0 then n.(slot0 := contents) else n.(slot1 := contents)
  }

  /** getBytesLength and getBytes: a missing key has length 0. */
  function Contents(n: Nvs, slot: byte): Text {
    match SlotOf(n, slot)
    case Some(bytes) => bytes
    case None => []
  }

  function Other(slot: byte): byte {
    if slot == 0 then 1 else 0
  }

  /** A change of the flash, if there is power for it. */
  function Change(d: Device, n: Nvs): Device {
    if d.operations == 0 then d else d.(operations := d.operations - 1, nvs := n)
  }

  function BootSlot(n: Nvs): byte {
    match n.active
    case Some(slot) => if slot <= 1 then slot else 0
    case None => 0
  }

  /** Reset and begin(): the slots come from the flag; the power lasts for another while. */
  function Begin(d: Device, operations: nat): Device {
    d.(operations := operations, activeSlot := BootSlot(d.nvs), pendingSlot := Other(BootSlot(d.nvs)), pending := [])
  }

  function WritePending(d: Device, c: DeviceConfig, flash: Flash): (r: (Device, bool)) {
    var w := d.(pending := Encode(c));
    (Change(w, WithSlot(w.nvs, w.pendingSlot, flash.left)), flash.reported == |w.pending|)
  }

  predicate PendingMatches(d: Device, flash: Flash) {
    |Contents(d.nvs, d.pendingSlot)| == |d.pending| && flash.readable && Contents(d.nvs, d.pendingSlot) == d.pending
  }

  function ActivatePending(d: Device, c: DeviceConfig, flash: Flash): (r: (Device, bool)) {
    if !flash.flagged || d.operations == 0 then (Change(d, d.nvs), false)
    else
      (Change(d, d.nvs.(active := Some(d.pendingSlot))).(
         activeSlot := d.pendingSlot, pendingSlot := Other(d.pendingSlot), pending := [], last := Some(c)), true)
  }

  function DiscardPending(d: Device, flash: Flash): Device {
    Change(d, WithSlot(d.nvs, d.pendingSlot, flash.discarded)).(pending := [])
  }

  /** applyDeviceConfig. */
  function Apply(d: Device, c: DeviceConfig, flash: Flash): (r: (Device, ApplyResult)) {
    if !Valid(c) then (d, ApplyResult.InvalidConfig)
    else
      var (w, written) := WritePending(d, c, flash);
      if !written then (DiscardPending(w, flash), WriteFailed)
      else if !PendingMatches(w, flash) then (DiscardPending(w, flash), ReadbackMismatch)
      else
        var (a, activated) := ActivatePending(w, c, flash);
        if !activated then (DiscardPending(a, flash), ActivationFailed) else (a, Applied)
  }

  /** activeConfig(), when the flash can be read. */
  function ActiveConfig(d: Device): Option<DeviceConfig> {
    var stored := Contents(d.nvs, d.activeSlot);
    if stored == [] || |stored| > MAXIMUM_BYTES then None
    else
      match Decode(stored)
      case Ok(c) => Some(c)
      case Error(_) => None
  }

  // ---------- whole runs ----------

  datatype Action =
    | Reboot(operations: nat)
    | ApplyConfig(config: DeviceConfig, flash: Flash)

  const FACTORY: Device := Device(Nvs(None, None, None), 0, 0, 1, [], None)

  function Step(d: Device, a: Action): Device {
    match a
    case Reboot(operations) => Begin(d, operations)
    case ApplyConfig(c, flash) => Apply(d, c, flash).0
  }

  function Run(actions: seq<Action>): Device {
    if actions == [] then FACTORY else Step(Run(actions[..|actions| - 1]), actions[|actions| - 1])
  }

  /** What a configuration that was stored reads back as. */
  function Reloaded(last: Option<DeviceConfig>): Option<DeviceConfig> {
    match last
    case None => None
    case Some(c) => if |Encode(c)| <= 8192 then Some(c) else None
  }

  /** The slots follow the flag, and the active slot holds the last activated configuration. */
  ghost predicate Inv(d: Device) {
    && d.activeSlot == BootSlot(d.nvs) && d.pendingSlot == Other(d.activeSlot)
    && match d.last
       case None => Contents(d.nvs, d.activeSlot) == []
       case Some(c) => Valid(c) && Contents(d.nvs, d.activeSlot) == Encode(c)
  }

  lemma {:induction false} ApplyKeepsInv(d: Device, c: DeviceConfig, flash: Flash)
    requires Inv(d)
    ensures Inv(Apply(d, c, flash).0)
  {
    hide Valid, Encode;
  }

  lemma {:induction false} RunKeepsInv(actions: seq<Action>)
    ensures Inv(Run(actions))
    decreases |actions|
  {
    hide Valid, Encode, Apply;
    if actions != [] {
      var before, a := actions[..|actions| - 1], actions[|actions| - 1];
      RunKeepsInv(before);
      if a.ApplyConfig? {
        ApplyKeepsInv(Run(before), a.config, a.flash);
      }
    }
  }

  lemma {:induction false} EncodeNotEmpty(c: DeviceConfig)
    ensures |Encode(c)| >= 6
  {
  }

  lemma {:induction false} InvReloads(d: Device)
    requires Inv(d)
    ensures ActiveConfig(d) == Reloaded(d.last)
  {
    hide Valid, Encode, Decode;
    if d.last.Some? {
      EncodeNotEmpty(d.last.value);
      RoundTrip(d.last.value);
    }
  }

  /**
   Whatever happened before, with power lost anywhere, a reset finds the configuration whose active flag
   was written last - all of it, or nothing when its encoding is over the 8192 bytes activeConfig() reads.
   */
  lemma {:induction false} CrashSafety(actions: seq<Action>, operations: nat)
    ensures var d := Begin(Run(actions), operations);
      ActiveConfig(d) == Reloaded(Run(actions).last) && ActiveConfig(Run(actions)) == ActiveConfig(d)
  {
    hide Valid, Encode, Decode;
    RunKeepsInv(actions);
    InvReloads(Run(actions));
    InvReloads(Begin(Run(actions), operations));
  }

  /** What the pending slot holds once the write was made, or was not for want of power. */
  function Written(d: Device, flash: Flash): Text {
    if d.operations == 0 then Contents(d.nvs, d.pendingSlot) else if flash.left.Some? then flash.left.value else []
  }

  /** Each report has its own reason, the first that holds, and every failure but the first discards the slot. */
  lemma {:induction false} ApplyReports(d: Device, c: DeviceConfig, flash: Flash)
    requires d.pendingSlot == 0 || d.pendingSlot == 1
    ensures var (t, result) := Apply(d, c, flash);
      && result == (if !Valid(c) then ApplyResult.InvalidConfig
                    else if flash.reported != |Encode(c)| then WriteFailed
                    else if !flash.readable || Written(d, flash) != Encode(c) then ReadbackMismatch
                    else if !flash.flagged || d.operations <= 1 then ActivationFailed
                    else Applied)
      && (result == ApplyResult.InvalidConfig ==> t == d)
      && (result == Applied ==> t.nvs.active == Some(d.pendingSlot) && t.activeSlot == d.pendingSlot)
      && (result !in {ApplyResult.InvalidConfig, Applied} ==>
            t.pending == [] && (t.operations > 0 ==> SlotOf(t.nvs, d.pendingSlot) == flash.discarded))
  {
    hide Valid, Encode;
  }

  /** An apply that reports failure, or loses power first, changes nothing; one that succeeds is the last. */
  lemma {:induction false} ApplyOutcome(actions: seq<Action>, c: DeviceConfig, flash: Flash, operations: nat)
    ensures var (d, result) := Apply(Run(actions), c, flash);
      && (result == Applied <==> d.nvs.active != Run(actions).nvs.active)
      && (result == Applied ==> d.last == Some(c))
      && (result != Applied ==> d.last == Run(actions).last && d.nvs.active == Run(actions).nvs.active
                                && ActiveConfig(Begin(d, operations)) == ActiveConfig(Run(actions)))
      && (result == Applied ==> Valid(c) && ActiveConfig(Begin(d, operations)) == Reloaded(Some(c)))
  {
    hide Valid, Encode, Decode;
    RunKeepsInv(actions);
    ApplyKeepsInv(Run(actions), c, flash);
    var (d, result) := Apply(Run(actions), c, flash);
    InvReloads(Run(actions));
    InvReloads(Begin(d, operations));
  }

  /** An apply succeeds exactly when its write took, could be read back, and there was power for the flag. */
  lemma {:induction false} AppliesExactly(d: Device, c: DeviceConfig, flash: Flash)
    requires Inv(d)
    ensures Apply(d, c, flash).1 == Applied <==>
      && Valid(c) && d.operations >= 2
      && flash.left == Some(Encode(c)) && flash.reported == |Encode(c)| && flash.readable && flash.flagged
  {
    hide Valid, Encode;
    EncodeNotEmpty(c);
  }

  /** A provisioned configuration - one that was decoded - is always the one a reset finds once applied. */
  lemma {:induction false} ProvisionedSurvives(actions: seq<Action>, payload: Text, flash: Flash, operations: nat)
    requires Decode(payload).Ok? && Apply(Run(actions), Decode(payload).value, flash).1 == Applied
    ensures ActiveConfig(Begin(Apply(Run(actions), Decode(payload).value, flash).0, operations))
         == Some(Decode(payload).value)
  {
    hide Valid, Encode, Decode, Apply;
    ReencodeNoLonger(payload);
    ApplyOutcome(actions, Decode(payload).value, flash, operations);
  }

  /** What an apply comes to from any state of a run. */
  lemma {:induction false} ApplyMeans(d: Device, c: DeviceConfig, flash: Flash)
    requires Inv(d)
    ensures var (t, result) := Apply(d, c, flash);
      && Inv(t)
      && (result == Applied ==> t.last == Some(c) && ActiveConfig(t) == Reloaded(Some(c)))
      && (result != Applied ==> t.last == d.last && ActiveConfig(t) == ActiveConfig(d))
  {
    hide Valid, Encode, Decode, ActiveConfig;
    ApplyKeepsInv(d, c, flash);
    InvReloads(d);
    InvReloads(Apply(d, c, flash).0);
  }

  // ---------- the code ----------

  class PreferencesConfigStore {
    var nvs: Nvs
    var operations: nat
    var activeSlot: byte
    var pendingSlot: byte
    var pending: Text
    ghost var last: Option<DeviceConfig>

    ghost function State(): Device
      reads this
    {
      Device(nvs, operations, activeSlot, pendingSlot, pending, last)
    }

    /** The active slot holds the configuration activated last, and the slots follow the flag. */
    ghost predicate Consistent()
      reads this
    {
      Inv(State())
    }

    constructor ()
      ensures Consistent() && State() == FACTORY
    {
      nvs, operations, activeSlot, pendingSlot, pending, last := Nvs(None, None, None), 0, 0, 1, [], None;
    }

    /** One change of the flash; without power it does not happen. */
    method ChangeFlash(n: Nvs)
      modifies this`nvs, this`operations
      ensures State() == Change(old(State()), n)
    {
      if operations > 0 {
        nvs, operations := n, operations - 1;
      }
    }

    method BeginStore(power: nat)
      modifies this
      ensures State() == Begin(old(State()), power)
      ensures old(Consistent()) ==> Consistent() && last == old(last) && ActiveConfig(State()) == Reloaded(last)
    {
      hide Valid, Encode, ActiveConfig;
      if Consistent() {
        InvReloads(Begin(State(), power));
      }
      operations, pending := power, [];
      var active := if nvs.active.Some? then nvs.active.value else 0;
      activeSlot := if active <= 1 then active else 0;
      pendingSlot := if activeSlot == 0 then 1 else 0;
    }

    method WriteToPending(c: DeviceConfig, flash: Flash) returns (ok: bool)
      modifies this
      ensures (State(), ok) == WritePending(old(State()), c, flash)
    {
      pending := EncodeDeviceConfigWire(c);
      ChangeFlash(WithSlot(nvs, pendingSlot, flash.left));
      return flash.reported == |pending|;
    }

    method PendingReadsBack(flash: Flash) returns (ok: bool)
      ensures ok == PendingMatches(State(), flash)
    {
      var stored := Contents(nvs, pendingSlot);
      if |stored| != |pending| {
        return false;
      }
      return flash.readable && stored == pending;
    }

    method Activate(flash: Flash, ghost c: DeviceConfig) returns (ok: bool)
      modifies this
      ensures (State(), ok) == ActivatePending(old(State()), c, flash)
    {
      if operations == 0 || !flash.flagged {
        ChangeFlash(nvs);
        return false;
      }
      ChangeFlash(nvs.(active := Some(pendingSlot)));
      last := Some(c);
      activeSlot := pendingSlot;
      pendingSlot := if activeSlot == 0 then 1 else 0;
      pending := [];
      return true;
    }

    method Discard(flash: Flash)
      modifies this
      ensures State() == DiscardPending(old(State()), flash)
    {
      ChangeFlash(WithSlot(nvs, pendingSlot, flash.discarded));
      pending := [];
    }

    method ReadActiveConfig() returns (r: Option<DeviceConfig>)
      ensures r == ActiveConfig(State())
    {
      var stored := Contents(nvs, activeSlot);
      if |stored| == 0 || |stored| > MAXIMUM_BYTES {
        return None;
      }
      var decoded := DecodeDeviceConfigWire(stored);
      return if decoded.Ok? then Some(decoded.value) else None;
    }
  }

  method ApplyDeviceConfig(c: DeviceConfig, store: PreferencesConfigStore, flash: Flash) returns (result: ApplyResult)
    modifies store
    ensures (store.State(), result) == Apply(old(store.State()), c, flash)
    ensures old(store.Consistent()) ==>
      && store.Consistent()
      && (result == Applied <==>
            && Valid(c) && old(store.operations) >= 2
            && flash.left == Some(Encode(c)) && flash.reported == |Encode(c)| && flash.readable && flash.flagged)
      && ActiveConfig(store.State())
         == if result == Applied then Reloaded(Some(c)) else old(ActiveConfig(store.State()))
  {
    hide Valid, Encode, Contents, PendingMatches, ActiveConfig, Inv, Reloaded;
    if store.Consistent() {
      ApplyMeans(store.State(), c, flash);
      AppliesExactly(store.State(), c, flash);
    }
    if !Valid(c) {
      return ApplyResult.InvalidConfig;
    }
    var written := store.WriteToPending(c, flash);
    if !written {
      store.Discard(flash);
      return WriteFailed;
    }
    var matches := store.PendingReadsBack(flash);
    if !matches {
      store.Discard(flash);
      return ReadbackMismatch;
    }
    var activated := store.Activate(flash, c);
    if !activated {
      store.Discard(flash);
      return ActivationFailed;
    }
    return Applied;
  }
}
