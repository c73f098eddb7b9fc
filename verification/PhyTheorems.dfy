/** What the driver promises over whole runs, with any accesses failing and the link coming and going. */
module PhyTheorems {
  import opened PhyBits
  import opened PhyDevice
  import opened PhyDriver
  import opened Wrappers

  datatype Call =
    | InitDevice(hardware: bool)
    | DeInitDevice(hardware: bool)
    | DisablePowerDown
    | EnablePowerDown
    | StartAutoNego
    | EnableLoopback
    | DisableLoopback
    | SetLinkMode(mode: int)
    | GetLink
    | EnableIT(interrupt: Word)
    | DisableIT(interrupt: Word)

  datatype System = System(device: Device, handle: Handle)

  /** One call: the system after it, and the status it returns. */
  function Perform(w: World, s: System, call: Call): (System, int) {
    match call
    case InitDevice(hardware) => var (d, h, status) := Init(w, s.device, s.handle, hardware); (System(d, h), status)
    case DeInitDevice(hardware) => var (d, h, status) := DeInit(w, s.device, s.handle, hardware); (System(d, h), status)
    case GetLink => Kept(s, GetLinkState(w, s.device, s.handle.address))
    case SetLinkMode(mode) => Kept(s, SetLinkState(w, s.device, s.handle.address, mode))
    case EnableIT(i) => Kept(s, Modify(w, s.device, s.handle.address, IMR, Enable(i)))
    case DisableIT(i) => Kept(s, Modify(w, s.device, s.handle.address, IMR, Disable(i)))
    case _ => Kept(s, Modify(w, s.device, s.handle.address, BCR, Change(call)))
  }

  function Kept(s: System, r: (Device, int)): (System, int) {
    (s.(device := r.0), r.1)
  }

  /** What a call that succeeds does to the control register. */
  function Change(call: Call): Word -> Word {
    match call
    case DisablePowerDown => ClearPowerDown
    case EnablePowerDown => SetPowerDown
    case StartAutoNego => SetAutoNego
    case EnableLoopback => SetLoopback
    case DisableLoopback => ClearLoopback
    case SetLinkMode(mode) => ForceTo(mode)
    case _ => (v: Word) => v
  }

  /** What a call that succeeds does to the settings. */
  function Effect(call: Call, s: Settings): Settings {
    match call
    case DisablePowerDown => s.(powerDown := false)
    case EnablePowerDown => s.(powerDown := true)
    case StartAutoNego => s.(autoNego := true)
    case EnableLoopback => s.(loopback := true)
    case DisableLoopback => s.(loopback := false)
    case SetLinkMode(mode) =>
      s.(autoNego := false, fast := mode == FULL_100 || mode == HALF_100, fullDuplex := mode == FULL_100 || mode == FULL_10)
    case _ => s
  }

  // ---------------------------------------------------------------- the control register

  lemma ChangeMeans(call: Call, v: Word)
    requires call.SetLinkMode? ==> Settable(call.mode)
    ensures Decode(Change(call)(v)) == Effect(call, Decode(v)) && SameOthers(v, Change(call)(v))
  {
    hide Decode, Others, SameOthers, SetLoopback, ClearLoopback, SetPowerDown, ClearPowerDown, SetAutoNego, ForceLink;
    match call
    case EnableLoopback => SetLoopbackMeans(v);
    case DisableLoopback => ClearLoopbackMeans(v);
    case EnablePowerDown => SetPowerDownMeans(v);
    case DisablePowerDown => ClearPowerDownMeans(v);
    case StartAutoNego => SetAutoNegoMeans(v);
    case SetLinkMode(mode) => ForceLinkMeans(v, mode);
    case _ => SameOthersAsItself(v);
  }

  lemma ForceLinkMeans(v: Word, mode: int)
    requires Settable(mode)
    ensures Decode(ForceLink(v, mode)) == Effect(SetLinkMode(mode), Decode(v)) && SameOthers(v, ForceLink(v, mode))
  {
    ClearLinkMeans(v);
    SetFastAndFullDuplexMeans(ClearLink(v));
    SetFastMeans(ClearLink(v));
    SetFullDuplexMeans(ClearLink(v));
    hide Decode, Others, ClearLink, SetFast, SetFullDuplex, SetFastAndFullDuplex;
  }

  /** What a call did to the register `register` of the device at `address`: a call that succeeds makes
      its change if that is the register it is for, and nothing else happens to it. */
  ghost predicate Touches(s: System, call: Call, status: int, address: nat, register: nat, v: Word, v': Word) {
    if status == OK && s.handle.address == address && register == BCR then v' == Change(call)(v)
    else if status == OK && s.handle.address == address && register == IMR && call.EnableIT? then v' == Enable(call.interrupt)(v)
    else if status == OK && s.handle.address == address && register == IMR && call.DisableIT? then v' == Disable(call.interrupt)(v)
    else v' == v
  }

  lemma ModifyTouches(w: World, d: Device, address: nat, register: nat, f: Word -> Word, a: nat, r: nat)
    ensures var (d', status) := Modify(w, d, address, register, f);
            && At(d', a, r) == (if status == OK && a == address && r == register then f(At(d, a, r)) else At(d, a, r))
    requires register != BSR
  {
  }

  lemma {:induction false} ScanTouchesNothing(w: World, d: Device, a: nat)
    requires a <= MAX_DEV_ADDR + 1
    ensures Scan(w, d, a).0.registers == d.registers
    decreases MAX_DEV_ADDR + 1 - a
  {
    if a <= MAX_DEV_ADDR {
      ScanTouchesNothing(w, Read(w, d, a, SMR).0, a + 1);
    }
  }

  lemma ReadTouchesNothing(w: World, d: Device, address: nat, register: nat)
    ensures Read(w, d, address, register).0.registers == d.registers
  {
  }

  lemma GetLinkTouchesNothing(w: World, d: Device, address: nat)
    ensures GetLinkState(w, d, address).0.registers == d.registers
  {
    var d1 := Read(w, d, address, BSR).0;
    var d2 := Read(w, d1, address, BSR).0;
    var d3 := Read(w, d2, address, BCR).0;
    ReadTouchesNothing(w, d, address, BSR);
    ReadTouchesNothing(w, d1, address, BSR);
    ReadTouchesNothing(w, d2, address, BCR);
    ReadTouchesNothing(w, d3, address, PHYSCSR);
    hide Read;
  }

  lemma SetLinkTouches(w: World, s: System, mode: int, a: nat, r: nat)
    ensures var (d', status) := SetLinkState(w, s.device, s.handle.address, mode);
            Touches(s, SetLinkMode(mode), status, a, r, At(s.device, a, r), At(d', a, r))
  {
    ModifyTouches(w, s.device, s.handle.address, BCR, ForceTo(mode), a, r);
    ReadTouchesNothing(w, s.device, s.handle.address, BCR);
    hide Read, Modify;
  }

  lemma HandleCallTouchesNothing(w: World, s: System, call: Call)
    requires call.InitDevice? || call.DeInitDevice?
    ensures Perform(w, s, call).0.device.registers == s.device.registers
  {
    ScanTouchesNothing(w, Started(w, s.device, true), 0);
    ScanTouchesNothing(w, Started(w, s.device, false), 0);
    hide Scan;
  }

  /** A call that changes no register. */
  lemma QuietCallTouches(s: System, call: Call, status: int, d': Device, a: nat, r: nat)
    requires d'.registers == s.device.registers && (call.InitDevice? || call.DeInitDevice? || call.GetLink?)
    ensures Touches(s, call, status, a, r, At(s.device, a, r), At(d', a, r))
  {
  }

  /** A call that changes the control register. */
  lemma SettingTouches(w: World, s: System, call: Call, a: nat, r: nat)
    requires call.DisablePowerDown? || call.EnablePowerDown? || call.StartAutoNego? || call.EnableLoopback? || call.DisableLoopback?
    ensures var (d', status) := Modify(w, s.device, s.handle.address, BCR, Change(call));
            Touches(s, call, status, a, r, At(s.device, a, r), At(d', a, r))
  {
    ModifyTouches(w, s.device, s.handle.address, BCR, Change(call), a, r);
    hide Modify, Change;
  }

  lemma EnableBits(v: Word, interrupt: Word)
    ensures Enable(interrupt)(v) == v | interrupt && Disable(interrupt)(v) == v & !interrupt
  {
  }

  lemma EnableTouches(w: World, s: System, i: Word, a: nat, r: nat)
    ensures var (d', status) := Modify(w, s.device, s.handle.address, IMR, Enable(i));
            Touches(s, EnableIT(i), status, a, r, At(s.device, a, r), At(d', a, r))
  {
    ModifyTouches(w, s.device, s.handle.address, IMR, Enable(i), a, r);
    hide Modify, At, Enable, Disable;
  }

  lemma DisableTouches(w: World, s: System, i: Word, a: nat, r: nat)
    ensures var (d', status) := Modify(w, s.device, s.handle.address, IMR, Disable(i));
            Touches(s, DisableIT(i), status, a, r, At(s.device, a, r), At(d', a, r))
  {
    ModifyTouches(w, s.device, s.handle.address, IMR, Disable(i), a, r);
    hide Modify, At, Enable, Disable;
  }

  lemma CallTouches(w: World, s: System, call: Call, a: nat, r: nat)
    ensures var (s', status) := Perform(w, s, call);
            Touches(s, call, status, a, r, At(s.device, a, r), At(s'.device, a, r))
  {
    hide Modify, GetLinkState, SetLinkState, Init, DeInit, Touches, At, Change, Enable, Disable;
    var (s', status) := Perform(w, s, call);
    match call
    case InitDevice(_) =>
      HandleCallTouchesNothing(w, s, call);
      QuietCallTouches(s, call, status, s'.device, a, r);
    case DeInitDevice(_) =>
      HandleCallTouchesNothing(w, s, call);
      QuietCallTouches(s, call, status, s'.device, a, r);
    case GetLink =>
      GetLinkTouchesNothing(w, s.device, s.handle.address);
      QuietCallTouches(s, call, status, s'.device, a, r);
    case SetLinkMode(mode) => SetLinkTouches(w, s, mode, a, r);
    case EnableIT(i) => EnableTouches(w, s, i, a, r);
    case DisableIT(i) => DisableTouches(w, s, i, a, r);
    case _ => SettingTouches(w, s, call, a, r);
  }

  // ---------------------------------------------------------------- runs

  /** The system after some calls. */
  function After(w: World, s: System, calls: seq<Call>): System
    decreases |calls|
  {
    if calls == [] then s else After(w, Perform(w, s, calls[0]).0, calls[1..])
  }

  /** The settings of the device at `address` as the calls that succeeded on it leave them. */
  function Abstract(w: World, s: System, calls: seq<Call>, address: nat, settings: Settings): Settings
    decreases |calls|
  {
    if calls == [] then settings
    else
      var (s', status) := Perform(w, s, calls[0]);
      Abstract(w, s', calls[1..], address,
               if status == OK && s.handle.address == address then Effect(calls[0], settings) else settings)
  }

  lemma OnlySettableSucceeds(w: World, s: System, call: Call)
    ensures Perform(w, s, call).1 == OK && call.SetLinkMode? ==> Settable(call.mode)
  {
  }

  lemma CallRefines(w: World, s: System, call: Call, address: nat)
    ensures var (s', status) := Perform(w, s, call);
            var v, v' := At(s.device, address, BCR), At(s'.device, address, BCR);
            && Decode(v') == (if status == OK && s.handle.address == address then Effect(call, Decode(v)) else Decode(v))
            && SameOthers(v, v')
  {
    CallTouches(w, s, call, address, BCR);
    OnlySettableSucceeds(w, s, call);
    var v := At(s.device, address, BCR);
    if Perform(w, s, call).1 == OK && s.handle.address == address {
      ChangeMeans(call, v);
    }
    hide Perform, Change, Effect, At, Decode, Others;
  }

  /** For every sequence of calls and every pattern of failing accesses, the control register of every
      device holds what the successful calls on it ask for, one after another: a call that fails changes
      nothing, one that succeeds changes its own settings only, and the other bits never change. */
  lemma {:induction false} ControlRegisterRefines(w: World, s: System, calls: seq<Call>, address: nat)
    ensures var v, v' := At(s.device, address, BCR), At(After(w, s, calls).device, address, BCR);
            && Decode(v') == Abstract(w, s, calls, address, Decode(v))
            && SameOthers(v, v')
    decreases |calls|
  {
    if calls != [] {
      CallRefines(w, s, calls[0], address);
      ControlRegisterRefines(w, Perform(w, s, calls[0]).0, calls[1..], address);
      hide Perform, Decode, Others, At;
    }
  }

  /** The driver writes to no register but the control register and the interrupt mask. */
  lemma {:induction false} OtherRegistersStay(w: World, s: System, calls: seq<Call>, address: nat, register: nat)
    requires register != BCR && register != IMR
    ensures At(After(w, s, calls).device, address, register) == At(s.device, address, register)
    decreases |calls|
  {
    if calls != [] {
      CallTouches(w, s, calls[0], address, register);
      OtherRegistersStay(w, Perform(w, s, calls[0]).0, calls[1..], address, register);
    }
  }

  // ---------------------------------------------------------------- the address

  /** At the `a`th access from now, the device at address `a` is readable and the low five bits of its mode
      register are that address. */
  predicate Answers(w: World, d: Device, a: nat) {
    !w.fails(d.tick + a) && At(d, a, 0x12) as int % 32 == a
  }

  lemma AnswersByItsMode(w: World, d: Device, a: nat)
    ensures Answers(w, d, a) <==> !w.fails(d.tick + a) && Echoes(At(d, a, SMR), a)
  {
    var v := At(d, a, 0x12);
    assert At(d, a, SMR) == v;
    hide At;
    EchoesMeans(v, a);
    hide Echoes;
  }

  /** The next read of the scan tells whether the device there answers. */
  lemma ScanReads(w: World, d: Device, d0: Device, a: nat)
    requires d.registers == d0.registers && d.tick == d0.tick + a
    ensures var (d1, v) := Read(w, d, a, SMR);
            && d1.registers == d0.registers && d1.tick == d0.tick + a + 1
            && (Answers(w, d0, a) <==> v.Some? && Echoes(v.value, a))
  {
    AnswersByItsMode(w, d0, a);
    hide Answers, Echoes, PhyBits.Status;
  }

  /** From address `a` on, the scan ends at the first address that answers, or beyond the last one. */
  lemma {:induction false} ScanFindsLeast(w: World, d: Device, d0: Device, a: nat)
    requires a <= MAX_DEV_ADDR + 1 && d.registers == d0.registers && d.tick == d0.tick + a
    ensures a <= Scan(w, d, a).1 <= MAX_DEV_ADDR + 1
    ensures Scan(w, d, a).1 <= MAX_DEV_ADDR ==> Answers(w, d0, Scan(w, d, a).1)
    ensures forall b :: a <= b < Scan(w, d, a).1 ==> !Answers(w, d0, b)
    decreases MAX_DEV_ADDR + 1 - a
  {
    hide Answers, Echoes, Read;
    if a <= MAX_DEV_ADDR {
      ScanReads(w, d, d0, a);
      if !Answers(w, d0, a) {
        ScanFindsLeast(w, Read(w, d, a, SMR).0, d0, a + 1);
      }
    }
  }

  /** What initialization is for, from an uninitialized driver: it selects the least address that answers, and
      succeeds, if there is one. Otherwise it reports an address error, whatever failed, and the driver stays
      uninitialized. No register changes. */
  ghost predicate Selects(w: World, d: Device, d': Device, h': Handle, status: int) {
    && d'.registers == d.registers
    && (status == 0 <==> exists a: nat :: a <= 31 && Answers(w, d, a))
    && (status == 0 ==>
          && h'.initialized && h'.address <= 31 && Answers(w, d, h'.address)
          && forall a: nat :: a < h'.address ==> !Answers(w, d, a))
    && (status != 0 ==> status == -3 && h' == Handle(32, false))
  }

  lemma InitSelects(w: World, d: Device, h: Handle, hardware: bool)
    requires !h.initialized
    ensures var (d', h', status) := Init(w, d, h, hardware);
            Selects(w, Started(w, d, hardware), d', h', status)
  {
    var d0 := Started(w, d, hardware);
    ScanFindsLeast(w, d0, d0, 0);
    ScanTouchesNothing(w, d0, 0);
    hide Scan, Answers;
  }

  /** Starting the hardware takes an access, whose outcome is not looked at, and changes no register. */
  lemma StartedMeans(w: World, d: Device, hardware: bool)
    ensures Started(w, d, hardware).registers == d.registers
    ensures Started(w, d, hardware).tick == d.tick + if hardware then 1 else 0
  {
  }

  /** An initialized driver holds an address of at most 31, and the low five bits of the mode register there
      are that address. */
  predicate Found(s: System) {
    s.handle.initialized ==> s.handle.address <= 31 && At(s.device, s.handle.address, 0x12) as int % 32 == s.handle.address
  }

  lemma CallFinds(w: World, s: System, call: Call)
    requires Found(s)
    ensures Found(Perform(w, s, call).0)
  {
    var s' := Perform(w, s, call).0;
    CallTouches(w, s, call, s'.handle.address, SMR);
    if call.InitDevice? && !s.handle.initialized {
      InitSelects(w, s.device, s.handle, call.hardware);
    }
    hide Scan, Modify, GetLinkState, SetLinkState;
  }

  /** From an uninitialized driver on, whatever is called and whatever fails. */
  lemma {:induction false} InitializedMeansFound(w: World, s: System, calls: seq<Call>)
    requires Found(s)
    ensures Found(After(w, s, calls))
    decreases |calls|
  {
    if calls != [] {
      CallFinds(w, s, calls[0]);
      InitializedMeansFound(w, Perform(w, s, calls[0]).0, calls[1..]);
    }
  }

  /** De-initialization fails exactly if the driver was initialized, has hardware to shut down, and that
      fails; then the driver stays as it was. Otherwise the driver is uninitialized afterwards, at the address it
      had. No register changes. */
  lemma DeInitMeans(w: World, s: System, hardware: bool)
    ensures var (s', status) := Perform(w, s, DeInitDevice(hardware));
            && s'.device.registers == s.device.registers
            && (status == -1 <==> s.handle.initialized && hardware && w.fails(s.device.tick))
            && (status == -1 ==> s'.handle == s.handle)
            && (status != -1 ==> status == 0 && s'.handle == Handle(s.handle.address, false))
  {
  }

  /** After a successful de-initialization, initialization scans again. */
  lemma ReinitSelects(w: World, s: System, shutdown: bool, startup: bool)
    requires Perform(w, s, DeInitDevice(shutdown)).1 == 0
    ensures var s1 := Perform(w, s, DeInitDevice(shutdown)).0;
            var (s2, status) := Perform(w, s1, InitDevice(startup));
            Selects(w, Started(w, s1.device, startup), s2.device, s2.handle, status)
  {
    DeInitMeans(w, s, shutdown);
    var s1 := Perform(w, s, DeInitDevice(shutdown)).0;
    InitSelects(w, s1.device, s1.handle, startup);
    hide Init, DeInit, Selects;
  }

  /** An initialized driver is left alone by another initialization, and so are the devices. */
  lemma InitTwice(w: World, s: System, startup: bool)
    requires s.handle.initialized
    ensures Perform(w, s, InitDevice(startup)) == (s, 0)
  {
  }

  // ---------------------------------------------------------------- single calls, bit by bit

  /** A read-modify-write of `register`, at the driver's address: it reports which of its two accesses failed,
      and stores `value` if neither did. */
  ghost predicate Stores(w: World, s: System, call: Call, register: nat, value: Word) {
    var (s', status) := Perform(w, s, call);
    && status == (if w.fails(s.device.tick) then -5 else if w.fails(s.device.tick + 1) then -4 else 0)
    && s'.handle == s.handle
    && s'.device.registers ==
       if status == 0 then s.device.registers[(s.handle.address, register) := value] else s.device.registers
  }

  lemma ModifyStores(w: World, s: System, call: Call, register: nat, f: Word -> Word)
    requires register != BSR
    requires Perform(w, s, call) == Kept(s, Modify(w, s.device, s.handle.address, register, f))
    ensures Stores(w, s, call, register, f(At(s.device, s.handle.address, register)))
  {
    hide Perform, At;
  }

  lemma ChangeStores(w: World, s: System, call: Call)
    requires call.DisablePowerDown? || call.EnablePowerDown? || call.StartAutoNego? || call.EnableLoopback? || call.DisableLoopback?
    ensures Stores(w, s, call, 0x00, Change(call)(At(s.device, s.handle.address, 0x00)))
  {
    hide Modify, Stores, At, Change;
    ModifyStores(w, s, call, BCR, Change(call));
  }

  lemma DisablePowerDownStores(w: World, s: System, v: Word)
    requires v == At(s.device, s.handle.address, 0x00)
    ensures Stores(w, s, DisablePowerDown, 0x00, v & 0xF7FF)
  {
    hide Stores, At, ClearPowerDown;
    ClearPowerDownBits(v);
    ChangeStores(w, s, DisablePowerDown);
  }

  lemma EnablePowerDownStores(w: World, s: System, v: Word)
    requires v == At(s.device, s.handle.address, 0x00)
    ensures Stores(w, s, EnablePowerDown, 0x00, v | 0x0800)
  {
    hide Stores, At, SetPowerDown;
    SetPowerDownBits(v);
    ChangeStores(w, s, EnablePowerDown);
  }

  lemma StartAutoNegoStores(w: World, s: System, v: Word)
    requires v == At(s.device, s.handle.address, 0x00)
    ensures Stores(w, s, StartAutoNego, 0x00, v | 0x1000)
  {
    hide Stores, At, SetAutoNego;
    SetAutoNegoBits(v);
    ChangeStores(w, s, StartAutoNego);
  }

  lemma EnableLoopbackStores(w: World, s: System, v: Word)
    requires v == At(s.device, s.handle.address, 0x00)
    ensures Stores(w, s, EnableLoopback, 0x00, v | 0x4000)
  {
    hide Stores, At, SetLoopback;
    SetLoopbackBits(v);
    ChangeStores(w, s, EnableLoopback);
  }

  lemma DisableLoopbackStores(w: World, s: System, v: Word)
    requires v == At(s.device, s.handle.address, 0x00)
    ensures Stores(w, s, DisableLoopback, 0x00, v & 0xBFFF)
  {
    hide Stores, At, ClearLoopback;
    ClearLoopbackBits(v);
    ChangeStores(w, s, DisableLoopback);
  }

  lemma InterruptStores(w: World, s: System, interrupt: Word)
    ensures var v := At(s.device, s.handle.address, 0x1E);
            && Stores(w, s, EnableIT(interrupt), 0x1E, v | interrupt)
            && Stores(w, s, DisableIT(interrupt), 0x1E, v & !interrupt)
  {
    hide Modify, Stores, At, Enable, Disable;
    EnableBits(At(s.device, s.handle.address, 0x1E), interrupt);
    ModifyStores(w, s, EnableIT(interrupt), IMR, Enable(interrupt));
    ModifyStores(w, s, DisableIT(interrupt), IMR, Disable(interrupt));
  }

  lemma Full100Bits(v: Word)
    ensures ForceLink(v, 2) == (v & 0xCEFF) | 0x2100
  {
    ClearLinkBits(v);
    SetFastAndFullDuplexBits(ClearLink(v));
    hide ClearLink, SetFastAndFullDuplex;
  }

  /** Setting the mode Full100: negotiation, speed and duplex are cleared, and what the mode needs is set. */
  lemma Full100Stores(w: World, s: System, v: Word)
    requires v == At(s.device, s.handle.address, 0x00)
    ensures Stores(w, s, SetLinkMode(2), 0x00, (v & 0xCEFF) | 0x2100)
  {
    hide Modify, Stores, At, ForceLink;
    Full100Bits(v);
    ModifyStores(w, s, SetLinkMode(2), BCR, ForceTo(2));
  }

  lemma Half100Bits(v: Word)
    ensures ForceLink(v, 3) == (v & 0xCEFF) | 0x2000
  {
    ClearLinkBits(v);
    SetFastBits(ClearLink(v));
    hide ClearLink, SetFast;
  }

  /** Setting the mode Half100: negotiation, speed and duplex are cleared, and what the mode needs is set. */
  lemma Half100Stores(w: World, s: System, v: Word)
    requires v == At(s.device, s.handle.address, 0x00)
    ensures Stores(w, s, SetLinkMode(3), 0x00, (v & 0xCEFF) | 0x2000)
  {
    hide Modify, Stores, At, ForceLink;
    Half100Bits(v);
    ModifyStores(w, s, SetLinkMode(3), BCR, ForceTo(3));
  }

  lemma Full10Bits(v: Word)
    ensures ForceLink(v, 4) == (v & 0xCEFF) | 0x0100
  {
    ClearLinkBits(v);
    SetFullDuplexBits(ClearLink(v));
    hide ClearLink, SetFullDuplex;
  }

  /** Setting the mode Full10: negotiation, speed and duplex are cleared, and what the mode needs is set. */
  lemma Full10Stores(w: World, s: System, v: Word)
    requires v == At(s.device, s.handle.address, 0x00)
    ensures Stores(w, s, SetLinkMode(4), 0x00, (v & 0xCEFF) | 0x0100)
  {
    hide Modify, Stores, At, ForceLink;
    Full10Bits(v);
    ModifyStores(w, s, SetLinkMode(4), BCR, ForceTo(4));
  }

  /** Any mode but full and half duplex at 100 and full duplex at 10 Mbit/s is an error, once the control register
      has been read, and nothing is written. */
  lemma SetLinkRejects(w: World, s: System, mode: int)
    requires mode != 2 && mode != 3 && mode != 4
    ensures var (s', status) := Perform(w, s, SetLinkMode(mode));
            && status == (if w.fails(s.device.tick) then -5 else -1)
            && s'.handle == s.handle && s'.device.registers == s.device.registers
  {
  }

  // ---------------------------------------------------------------- the link

  /** From the access at `tick` to the next one, the link was up without a break. */
  predicate UpThrough(w: World, address: nat, tick: nat) {
    w.linkUp(address, tick) && !w.dropped(address, tick + 1) && w.linkUp(address, tick + 1)
  }

  /** The first `n` accesses from now succeed. */
  predicate Works(w: World, d: Device, n: nat) {
    forall i :: d.tick <= i < d.tick + n ==> !w.fails(i)
  }

  /** Reading the status twice: whatever the link did before the call, the link reads as down exactly
      when it was down at some moment between the two reads. */
  lemma DoubleReadIsCurrent(w: World, d: Device, address: nat)
    requires Works(w, d, 2)
    ensures GetLinkState(w, d, address).1 == LINK_DOWN <==> !UpThrough(w, address, d.tick)
  {
  }

  /** What the call would report with one read of the status. */
  lemma SingleReadIsStale(w: World, d: Device, address: nat)
    requires Works(w, d, 1)
    ensures StatusState(w, d, address).1 == LINK_DOWN <==> Down(w, d, address)
  {
  }

  /** With the link up and no failing access, the reported mode is the one that was forced, or the one
      that negotiation arrived at. A forced mode takes one access less to find out. */
  lemma LinkUpReportsMode(w: World, d: Device, address: nat)
    requires Works(w, d, if Decode(At(d, address, BCR)).autoNego then 4 else 3) && UpThrough(w, address, d.tick)
    ensures GetLinkState(w, d, address).1 ==
      if Decode(At(d, address, BCR)).autoNego then Negotiated(At(d, address, PHYSCSR)) else Forced(Decode(At(d, address, BCR)))
  {
    var d1 := Read(w, d, address, BSR).0;
    var d2 := Read(w, d1, address, BSR).0;
    hide Decode, Forced, Negotiated;
    assert d2.tick == d.tick + 2 && d2.registers == d.registers;
    assert GetLinkState(w, d, address) == ModeState(w, d2, address);
  }

  /** The mode a control register forces. */
  lemma ForcedMeans(bcr: Word)
    ensures Decode(bcr).autoNego <==> bcr & 0x1000 != 0
    ensures Forced(Decode(bcr)) ==
      if bcr & 0x2000 != 0 then (if bcr & 0x0100 != 0 then 2 else 3) else (if bcr & 0x0100 != 0 then 4 else 5)
  {
  }

  /** The mode a special status register reports. */
  lemma NegotiatedIs(v: Word)
    ensures Negotiated(v) ==
      if v & 0x1000 == 0 then 6
      else if v & 0x001C == 0x0018 then 2
      else if v & 0x001C == 0x0008 then 3
      else if v & 0x001C == 0x0014 then 4
      else 5
  {
  }

  /** What a link query returns, case by case: a read error if an access it needs fails; link down if the link was
      down between the two status reads; otherwise, by the bits of the control register, the mode that is
      forced, or, by those of the special status register, negotiation not done or the mode it arrived at. It
      changes no register. */
  lemma GetLinkMeans(w: World, d: Device, address: nat)
    ensures GetLinkState(w, d, address).0.registers == d.registers
    ensures var t, bcr, scsr := d.tick, At(d, address, 0x00), At(d, address, 0x1F);
            GetLinkState(w, d, address).1 ==
            if w.fails(t) || w.fails(t + 1) then -5
            else if !UpThrough(w, address, t) then 1
            else if w.fails(t + 2) then -5
            else if bcr & 0x1000 == 0 then
              (if bcr & 0x2000 != 0 then (if bcr & 0x0100 != 0 then 2 else 3) else (if bcr & 0x0100 != 0 then 4 else 5))
            else if w.fails(t + 3) then -5
            else if scsr & 0x1000 == 0 then 6
            else if scsr & 0x001C == 0x0018 then 2
            else if scsr & 0x001C == 0x0008 then 3
            else if scsr & 0x001C == 0x0014 then 4
            else 5
  {
    GetLinkTouchesNothing(w, d, address);
    ForcedMeans(At(d, address, 0x00));
    NegotiatedIs(At(d, address, 0x1F));
    var d1 := Read(w, d, address, BSR).0;
    var d2 := Read(w, d1, address, BSR).0;
    hide Decode, Forced, Negotiated;
    assert d2.tick == d.tick + 2 && d2.registers == d.registers;
    if !w.fails(d.tick) && !w.fails(d.tick + 1) && UpThrough(w, address, d.tick) {
      assert GetLinkState(w, d, address) == ModeState(w, d2, address);
    }
  }

  /** What the speed indication of a finished negotiation means: one of its bits stands for 100 and one
      for 10 Mbit/s, and the third for full duplex. */
  lemma NegotiatedMeans(v: Word)
    requires v & PHYSCSR_AUTONEGO_DONE != 0
    requires (v & 0x0008 == 0) != (v & 0x0004 == 0)
    ensures Negotiated(v) == FULL_100 || Negotiated(v) == HALF_100 <==> v & 0x0008 != 0
    ensures Negotiated(v) == FULL_100 || Negotiated(v) == FULL_10 <==> v & 0x0010 != 0
  {
  }

  /** The settings that make up a link mode. */
  function LinkOf(s: Settings): (bool, bool, bool) {
    (s.autoNego, s.fast, s.fullDuplex)
  }

  /** A mode that was set is the mode that is read back, whatever was called in between and whatever failed,
      if the driver still talks to the same device, that device's control register has the link settings it
      had right after the mode was set, and the link is up. */
  lemma SetThenGet(w: World, s: System, mode: int, calls: seq<Call>)
    requires Perform(w, s, SetLinkMode(mode)).1 == OK
    requires var s1 := Perform(w, s, SetLinkMode(mode)).0;
             var late := After(w, s1, calls);
             && late.handle.address == s.handle.address
             && LinkOf(Decode(At(late.device, s.handle.address, BCR))) == LinkOf(Decode(At(s1.device, s.handle.address, BCR)))
             && Works(w, late.device, 3) && UpThrough(w, s.handle.address, late.device.tick)
    ensures Perform(w, After(w, Perform(w, s, SetLinkMode(mode)).0, calls), GetLink).1 == mode
  {
    var s1 := Perform(w, s, SetLinkMode(mode)).0;
    CallRefines(w, s, SetLinkMode(mode), s.handle.address);
    OnlySettableSucceeds(w, s, SetLinkMode(mode));
    LinkUpReportsMode(w, After(w, s1, calls).device, s.handle.address);
    hide GetLinkState, SetLinkState, Modify, Decode, After;
  }

  /** A call that changes no link setting of the device at `address`: it fails, or is meant for another
      device, or is neither a start of negotiation nor a new mode; and the driver's address stays. */
  predicate LeavesLink(w: World, s: System, call: Call, address: nat) {
    && (Perform(w, s, call).1 == OK && s.handle.address == address ==> !call.StartAutoNego? && !call.SetLinkMode?)
    && Perform(w, s, call).0.handle.address == s.handle.address
  }

  predicate AllLeaveLink(w: World, s: System, calls: seq<Call>, address: nat)
    decreases |calls|
  {
    calls == [] || (LeavesLink(w, s, calls[0], address) && AllLeaveLink(w, Perform(w, s, calls[0]).0, calls[1..], address))
  }

  lemma CallLeavesLink(w: World, s: System, call: Call, address: nat)
    requires LeavesLink(w, s, call, address)
    ensures LinkOf(Decode(At(Perform(w, s, call).0.device, address, BCR))) == LinkOf(Decode(At(s.device, address, BCR)))
  {
    CallRefines(w, s, call, address);
    hide Perform, Decode, At;
  }

  /** Calls that fail, power-down and loopback calls, interrupt masks, link queries and repeated
      initializations leave a mode set. */
  lemma {:induction false} LinkStaysSet(w: World, s: System, calls: seq<Call>, address: nat)
    requires AllLeaveLink(w, s, calls, address)
    ensures After(w, s, calls).handle.address == s.handle.address
    ensures LinkOf(Decode(At(After(w, s, calls).device, address, BCR))) == LinkOf(Decode(At(s.device, address, BCR)))
    decreases |calls|
  {
    hide Perform, Decode, At;
    if calls != [] {
      CallLeavesLink(w, s, calls[0], address);
      LinkStaysSet(w, Perform(w, s, calls[0]).0, calls[1..], address);
    }
  }
}
