/** The LAN8742 driver: what each of its functions does to the devices on the bus and to the driver's
    own two fields. */
module PhyDriver {
  import opened PhyBits
  import opened PhyDevice
  import opened Wrappers

  const READ_ERROR: int := -5
  const WRITE_ERROR: int := -4
  const ADDRESS_ERROR: int := -3
  const ERROR: int := -1
  const OK: int := 0
  const LINK_DOWN: int := 1
  const FULL_100: int := 2
  const HALF_100: int := 3
  const FULL_10: int := 4
  const HALF_10: int := 5
  const AUTONEGO_NOTDONE: int := 6

  const MAX_DEV_ADDR: nat := 31

  // ---------------------------------------------------------------- what the functions do

  /** Read a register, change it, and write it back. */
  function Modify(w: World, d: Device, address: nat, register: nat, f: Word -> Word): (Device, int) {
    match Read(w, d, address, register)
    case (d1, None) => (d1, READ_ERROR)
    case (d1, Some(v)) =>
      var (d2, ok) := Write(w, d1, address, register, f(v));
      (d2, if ok then OK else WRITE_ERROR)
  }

  function Enable(interrupt: Word): Word -> Word {
    v => v | interrupt
  }

  function Disable(interrupt: Word): Word -> Word {
    v => v & !interrupt
  }

  /** The modes that can be set. Half duplex at 10 Mbit/s is not one of them. */
  predicate Settable(mode: int) {
    mode == FULL_100 || mode == HALF_100 || mode == FULL_10
  }

  function ForceLink(v: Word, mode: int): Word {
    var cleared := ClearLink(v);
    if mode == FULL_100 then SetFastAndFullDuplex(cleared)
    else if mode == HALF_100 then SetFast(cleared)
    else SetFullDuplex(cleared)
  }

  function ForceTo(mode: int): Word -> Word {
    v => ForceLink(v, mode)
  }

  /** SetLinkState reads the control register before it looks at the mode. */
  function SetLinkState(w: World, d: Device, address: nat, mode: int): (Device, int) {
    if Settable(mode) then Modify(w, d, address, BCR, ForceTo(mode))
    else
      match Read(w, d, address, BCR)
      case (d1, None) => (d1, READ_ERROR)
      case (d1, Some(_)) => (d1, ERROR)
  }

  /** The link mode of a control register that does not negotiate. */
  function Forced(s: Settings): int {
    if s.fast && s.fullDuplex then FULL_100 else if s.fast then HALF_100 else if s.fullDuplex then FULL_10 else HALF_10
  }

  /** The link mode that negotiation arrived at. */
  function Negotiated(v: Word): int {
    if v & PHYSCSR_AUTONEGO_DONE == 0 then AUTONEGO_NOTDONE
    else if v & PHYSCSR_HCDSPEEDMASK == PHYSCSR_100BTX_FD then FULL_100
    else if v & PHYSCSR_HCDSPEEDMASK == PHYSCSR_100BTX_HD then HALF_100
    else if v & PHYSCSR_HCDSPEEDMASK == PHYSCSR_10BT_FD then FULL_10
    else HALF_10
  }

  function NegotiatedState(w: World, d: Device, address: nat): (Device, int) {
    match Read(w, d, address, PHYSCSR)
    case (d1, None) => (d1, READ_ERROR)
    case (d1, Some(v)) => (d1, Negotiated(v))
  }

  function ModeState(w: World, d: Device, address: nat): (Device, int) {
    match Read(w, d, address, BCR)
    case (d1, None) => (d1, READ_ERROR)
    case (d1, Some(v)) => if Decode(v).autoNego then NegotiatedState(w, d1, address) else (d1, Forced(Decode(v)))
  }

  /** What one read of the status register makes of the link. */
  function StatusState(w: World, d: Device, address: nat): (Device, int) {
    match Read(w, d, address, BSR)
    case (d1, None) => (d1, READ_ERROR)
    case (d1, Some(v)) => if v & BSR_LINK_STATUS == 0 then (d1, LINK_DOWN) else ModeState(w, d1, address)
  }

  /** GetLinkState reads the status register twice, and looks at the second value. */
  function GetLinkState(w: World, d: Device, address: nat): (Device, int) {
    match Read(w, d, address, BSR)
    case (d1, None) => (d1, READ_ERROR)
    case (d1, Some(_)) => StatusState(w, d1, address)
  }

  /** The scan for the device's address, from `a` on. */
  function Scan(w: World, d: Device, a: nat): (Device, nat)
    requires a <= MAX_DEV_ADDR + 1
    decreases MAX_DEV_ADDR + 1 - a
  {
    if a > MAX_DEV_ADDR then (d, a)
    else
      match Read(w, d, a, SMR)
      case (d1, None) => Scan(w, d1, a + 1)
      case (d1, Some(v)) => if Echoes(v, a) then (d1, a) else Scan(w, d1, a + 1)
  }

  /** The driver's own state. */
  datatype Handle = Handle(address: nat, initialized: bool)

  /** Initialization may start the hardware below the bus, and does not ask whether that worked. */
  function Started(w: World, d: Device, hardware: bool): Device {
    if hardware then Passed(w, d, None) else d
  }

  function Init(w: World, d: Device, h: Handle, hardware: bool): (Device, Handle, int) {
    if h.initialized then (d, h, OK)
    else
      var (d', a) := Scan(w, Started(w, d, hardware), 0);
      (d', Handle(a, a <= MAX_DEV_ADDR), if a <= MAX_DEV_ADDR then OK else ADDRESS_ERROR)
  }

  /** De-initialization may need the hardware below the bus, and fails if that does. */
  function DeInit(w: World, d: Device, h: Handle, hardware: bool): (Device, Handle, int) {
    if !h.initialized then (d, h, OK)
    else if !hardware then (d, h.(initialized := false), OK)
    else if w.fails(d.tick) then (Passed(w, d, None), h, ERROR)
    else (Passed(w, d, None), h.(initialized := false), OK)
  }

  // ---------------------------------------------------------------- the driver

  class Lan8742 {
    const bus: Bus
    const startup: bool  // there is hardware to start before the scan
    const hardware: bool // there is hardware to shut down afterwards
    var devAddr: nat
    var isInitialized: bool

    constructor (bus: Bus, startup: bool, hardware: bool)
      ensures this.bus == bus && this.startup == startup && this.hardware == hardware && !isInitialized
    {
      this.bus, this.startup, this.hardware := bus, startup, hardware;
      devAddr, isInitialized := 0, false;
    }

    function State(): Handle
      reads this
    {
      Handle(devAddr, isInitialized)
    }

    method InitDevice() returns (status: int)
      modifies this, bus
      ensures (bus.State(), State(), status) == Init(bus.world, old(bus.State()), old(State()), startup)
    {
      hide Read, Echoes;
      status := OK;
      if !isInitialized {
        if startup {
          var _ := bus.Below();
        }
        ghost var started := Started(bus.world, old(bus.State()), startup);
        devAddr := MAX_DEV_ADDR + 1;
        var addr := 0;
        var found := false;
        while addr <= MAX_DEV_ADDR && !found
          invariant addr <= MAX_DEV_ADDR + 1 && !isInitialized
          invariant found ==> addr <= MAX_DEV_ADDR && devAddr == addr && status == OK
          invariant found ==> (bus.State(), addr) == Scan(bus.world, started, 0)
          invariant !found ==> devAddr == MAX_DEV_ADDR + 1
          invariant !found ==> Scan(bus.world, started, 0) == Scan(bus.world, bus.State(), addr)
          decreases MAX_DEV_ADDR + 1 - addr, !found
        {
          var regvalue := bus.ReadReg(addr, SMR);
          if regvalue.None? {
            status := READ_ERROR;
            addr := addr + 1;
          } else if Echoes(regvalue.value, addr) {
            devAddr := addr;
            status := OK;
            found := true;
          } else {
            addr := addr + 1;
          }
        }
        if devAddr > MAX_DEV_ADDR {
          status := ADDRESS_ERROR;
        }
        if status == OK {
          isInitialized := true;
        }
      }
    }

    method DeInitDevice() returns (status: int)
      modifies this, bus
      ensures (bus.State(), State(), status) == DeInit(bus.world, old(bus.State()), old(State()), hardware)
      ensures status == -1 <==> old(isInitialized) && hardware && bus.world.fails(old(bus.tick))
      ensures if status == -1 then isInitialized else status == 0 && !isInitialized
      ensures devAddr == old(devAddr) && bus.registers == old(bus.registers)
    {
      if isInitialized {
        if hardware {
          var ok := bus.Below();
          if !ok {
            return ERROR;
          }
        }
        isInitialized := false;
      }
      return OK;
    }

    method DisablePowerDownMode() returns (status: int)
      modifies bus
      ensures (bus.State(), status) == Modify(bus.world, old(bus.State()), devAddr, BCR, ClearPowerDown)
    {
      hide Read, Write;
      status := OK;
      var readval := bus.ReadReg(devAddr, BCR);
      if readval.Some? {
        var ok := bus.WriteReg(devAddr, BCR, readval.value & !BCR_POWER_DOWN);
        if !ok {
          status := WRITE_ERROR;
        }
      } else {
        status := READ_ERROR;
      }
    }

    method EnablePowerDownMode() returns (status: int)
      modifies bus
      ensures (bus.State(), status) == Modify(bus.world, old(bus.State()), devAddr, BCR, SetPowerDown)
    {
      hide Read, Write;
      status := OK;
      var readval := bus.ReadReg(devAddr, BCR);
      if readval.Some? {
        var ok := bus.WriteReg(devAddr, BCR, readval.value | BCR_POWER_DOWN);
        if !ok {
          status := WRITE_ERROR;
        }
      } else {
        status := READ_ERROR;
      }
    }

    method StartAutoNego() returns (status: int)
      modifies bus
      ensures (bus.State(), status) == Modify(bus.world, old(bus.State()), devAddr, BCR, SetAutoNego)
    {
      hide Read, Write;
      status := OK;
      var readval := bus.ReadReg(devAddr, BCR);
      if readval.Some? {
        var ok := bus.WriteReg(devAddr, BCR, readval.value | BCR_AUTONEGO_EN);
        if !ok {
          status := WRITE_ERROR;
        }
      } else {
        status := READ_ERROR;
      }
    }

    method EnableLoopbackMode() returns (status: int)
      modifies bus
      ensures (bus.State(), status) == Modify(bus.world, old(bus.State()), devAddr, BCR, SetLoopback)
    {
      hide Read, Write;
      status := OK;
      var readval := bus.ReadReg(devAddr, BCR);
      if readval.Some? {
        var ok := bus.WriteReg(devAddr, BCR, readval.value | BCR_LOOPBACK);
        if !ok {
          status := WRITE_ERROR;
        }
      } else {
        status := READ_ERROR;
      }
    }

    method DisableLoopbackMode() returns (status: int)
      modifies bus
      ensures (bus.State(), status) == Modify(bus.world, old(bus.State()), devAddr, BCR, ClearLoopback)
    {
      hide Read, Write;
      status := OK;
      var readval := bus.ReadReg(devAddr, BCR);
      if readval.Some? {
        var ok := bus.WriteReg(devAddr, BCR, readval.value & !BCR_LOOPBACK);
        if !ok {
          status := WRITE_ERROR;
        }
      } else {
        status := READ_ERROR;
      }
    }

    method EnableIT(interrupt: Word) returns (status: int)
      modifies bus
      ensures (bus.State(), status) == Modify(bus.world, old(bus.State()), devAddr, IMR, Enable(interrupt))
    {
      hide Read, Write;
      status := OK;
      var readval := bus.ReadReg(devAddr, IMR);
      if readval.Some? {
        var ok := bus.WriteReg(devAddr, IMR, readval.value | interrupt);
        if !ok {
          status := WRITE_ERROR;
        }
      } else {
        status := READ_ERROR;
      }
    }

    method DisableIT(interrupt: Word) returns (status: int)
      modifies bus
      ensures (bus.State(), status) == Modify(bus.world, old(bus.State()), devAddr, IMR, Disable(interrupt))
    {
      hide Read, Write;
      status := OK;
      var readval := bus.ReadReg(devAddr, IMR);
      if readval.Some? {
        var ok := bus.WriteReg(devAddr, IMR, readval.value & !interrupt);
        if !ok {
          status := WRITE_ERROR;
        }
      } else {
        status := READ_ERROR;
      }
    }

    method GetLink() returns (status: int)
      modifies bus
      ensures (bus.State(), status) == GetLinkState(bus.world, old(bus.State()), devAddr)
    {
      hide Read, Write;
      var readval := bus.ReadReg(devAddr, BSR);
      if readval.None? {
        return READ_ERROR;
      }
      readval := bus.ReadReg(devAddr, BSR);
      if readval.None? {
        return READ_ERROR;
      }
      if readval.value & BSR_LINK_STATUS == 0 {
        return LINK_DOWN;
      }
      readval := bus.ReadReg(devAddr, BCR);
      if readval.None? {
        return READ_ERROR;
      }
      if readval.value & BCR_AUTONEGO_EN != BCR_AUTONEGO_EN {
        if readval.value & BCR_SPEED_SELECT == BCR_SPEED_SELECT && readval.value & BCR_DUPLEX_MODE == BCR_DUPLEX_MODE {
          return FULL_100;
        } else if readval.value & BCR_SPEED_SELECT == BCR_SPEED_SELECT {
          return HALF_100;
        } else if readval.value & BCR_DUPLEX_MODE == BCR_DUPLEX_MODE {
          return FULL_10;
        } else {
          return HALF_10;
        }
      } else {
        readval := bus.ReadReg(devAddr, PHYSCSR);
        if readval.None? {
          return READ_ERROR;
        }
        if readval.value & PHYSCSR_AUTONEGO_DONE == 0 {
          return AUTONEGO_NOTDONE;
        }
        if readval.value & PHYSCSR_HCDSPEEDMASK == PHYSCSR_100BTX_FD {
          return FULL_100;
        } else if readval.value & PHYSCSR_HCDSPEEDMASK == PHYSCSR_100BTX_HD {
          return HALF_100;
        } else if readval.value & PHYSCSR_HCDSPEEDMASK == PHYSCSR_10BT_FD {
          return FULL_10;
        } else {
          return HALF_10;
        }
      }
    }

    method SetLink(linkState: int) returns (status: int)
      modifies bus
      ensures (bus.State(), status) == SetLinkState(bus.world, old(bus.State()), devAddr, linkState)
    {
      hide Read, Write, ClearLink, SetFastAndFullDuplex, SetFast, SetFullDuplex;
      status := OK;
      var bcrvalue: Word := 0;
      var readval := bus.ReadReg(devAddr, BCR);
      if readval.Some? {
        bcrvalue := ClearLink(readval.value);
        if linkState == FULL_100 {
          bcrvalue := SetFastAndFullDuplex(bcrvalue);
        } else if linkState == HALF_100 {
          bcrvalue := SetFast(bcrvalue);
        } else if linkState == FULL_10 {
          bcrvalue := SetFullDuplex(bcrvalue);
        } else {
          status := ERROR;
        }
      } else {
        status := READ_ERROR;
      }
      if status == OK {
        var ok := bus.WriteReg(devAddr, BCR, bcrvalue);
        if !ok {
          status := WRITE_ERROR;
        }
      }
    }
  }
}
