/** The devices on the management bus, as the driver can see them: registers that keep what is written,
    and a link status bit that latches low until it is read. */
module PhyDevice {
  import opened PhyBits
  import opened Wrappers

  /** What the environment does, access by access, counted by `tick`: whether the access fails, whether
      the link of a device is up at that moment, and whether it dropped since the access before. */
  datatype World = World(
    fails: nat -> bool,
    linkUp: (nat, nat) -> bool,
    dropped: (nat, nat) -> bool)

  /** `registers` are the values by device address and register; a register that was never written and
      that no device has reads as all ones. `latched` are the devices whose link has been down since
      their status register was last read. */
  datatype Device = Device(registers: map<(nat, nat), Word>, latched: nat -> bool, tick: nat)

  function At(d: Device, address: nat, register: nat): Word {
    if (address, register) in d.registers then d.registers[(address, register)] else 0xFFFF
  }

  /** The link of a device has been down at some moment since its status was last read. */
  predicate Down(w: World, d: Device, address: nat) {
    d.latched(address) || w.dropped(address, d.tick) || !w.linkUp(address, d.tick)
  }

  /** An access passes the time. Reading the status register of a device lets go of its latch. */
  function Passed(w: World, d: Device, released: Option<nat>): Device {
    d.(latched := (a: nat) => if released == Some(a) then !w.linkUp(a, d.tick) else Down(w, d, a),
       tick := d.tick + 1)
  }

  /** A read either fails, or yields a value. */
  function Read(w: World, d: Device, address: nat, register: nat): (Device, Option<Word>) {
    if w.fails(d.tick) then (Passed(w, d, None), None)
    else if register == BSR then (Passed(w, d, Some(address)), Some(PhyBits.Status(At(d, address, BSR), !Down(w, d, address))))
    else (Passed(w, d, None), Some(At(d, address, register)))
  }

  /** A write that fails does not reach the device. */
  function Write(w: World, d: Device, address: nat, register: nat, value: Word): (Device, bool) {
    if w.fails(d.tick) then (Passed(w, d, None), false)
    else (Passed(w, d, None).(registers := d.registers[(address, register) := value]), true)
  }

  /** The bus, with its state in place. */
  class Bus {
    const world: World
    var registers: map<(nat, nat), Word>
    var latched: nat -> bool
    var tick: nat

    constructor (world: World, start: Device)
      ensures this.world == world && State() == start
    {
      this.world := world;
      registers, latched, tick := start.registers, start.latched, start.tick;
    }

    function State(): Device
      reads this
    {
      Device(registers, latched, tick)
    }

    method ReadReg(address: nat, register: nat) returns (value: Option<Word>)
      modifies this
      ensures (State(), value) == Read(world, old(State()), address, register)
    {
      var before := State();
      if world.fails(tick) {
        value := None;
        latched := Passed(world, before, None).latched;
      } else if register == BSR {
        value := Some(PhyBits.Status(At(before, address, BSR), !Down(world, before, address)));
        latched := Passed(world, before, Some(address)).latched;
      } else {
        value := Some(At(before, address, register));
        latched := Passed(world, before, None).latched;
      }
      tick := tick + 1;
    }

    method WriteReg(address: nat, register: nat, value: Word) returns (ok: bool)
      modifies this
      ensures (State(), ok) == Write(world, old(State()), address, register, value)
    {
      var before := State();
      ok := !world.fails(tick);
      if ok {
        registers := registers[(address, register) := value];
      }
      latched := Passed(world, before, None).latched;
      tick := tick + 1;
    }

    /** Another access, to the hardware below the bus, which may fail. */
    method Below() returns (ok: bool)
      modifies this
      ensures State() == Passed(world, old(State()), None) && ok == !world.fails(old(tick))
    {
      ok := !world.fails(tick);
      latched := Passed(world, State(), None).latched;
      tick := tick + 1;
    }
  }
}
