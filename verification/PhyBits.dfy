/** The bits of the PHY's registers that the driver uses. */
module PhyBits {
  type Word = bv16

  const BCR: nat := 0x00
  const BSR: nat := 0x01
  const SMR: nat := 0x12
  const IMR: nat := 0x1E
  const PHYSCSR: nat := 0x1F

  const BCR_LOOPBACK: Word := 0x4000
  const BCR_SPEED_SELECT: Word := 0x2000
  const BCR_AUTONEGO_EN: Word := 0x1000
  const BCR_POWER_DOWN: Word := 0x0800
  const BCR_DUPLEX_MODE: Word := 0x0100
  const BSR_LINK_STATUS: Word := 0x0004
  const SMR_PHY_ADDR: Word := 0x001F
  const PHYSCSR_AUTONEGO_DONE: Word := 0x1000
  const PHYSCSR_HCDSPEEDMASK: Word := 0x001C
  const PHYSCSR_10BT_FD: Word := 0x0014
  const PHYSCSR_100BTX_HD: Word := 0x0008
  const PHYSCSR_100BTX_FD: Word := 0x0018

  /** The settings the control register holds. */
  datatype Settings = Settings(loopback: bool, fast: bool, autoNego: bool, powerDown: bool, fullDuplex: bool)

  function Decode(bcr: Word): Settings {
    Settings(bcr & 0x4000 != 0, bcr & 0x2000 != 0, bcr & 0x1000 != 0, bcr & 0x0800 != 0, bcr & 0x0100 != 0)
  }

  /** Everything in the control register but the settings. */
  function Others(bcr: Word): Word {
    bcr & 0x86FF
  }

  /** The value a status register read returns, given whether the link bit reads as set. */
  function Status(bsr: Word, up: bool): (v: Word)
    ensures v & BSR_LINK_STATUS == 0 <==> !up
  {
    if up then bsr | 0x0004 else bsr & 0xFFFB
  }

  /** A mode register that names this address. */
  predicate Echoes(smr: Word, address: nat) {
    (smr & SMR_PHY_ADDR) as int == address
  }

  // ---------------------------------------------------------------- changes to the control register

  function SetLoopback(v: Word): Word {
    v | BCR_LOOPBACK
  }

  function ClearLoopback(v: Word): Word {
    v & !BCR_LOOPBACK
  }

  function SetPowerDown(v: Word): Word {
    v | BCR_POWER_DOWN
  }

  function ClearPowerDown(v: Word): Word {
    v & !BCR_POWER_DOWN
  }

  function SetAutoNego(v: Word): Word {
    v | BCR_AUTONEGO_EN
  }

  function ClearLink(v: Word): Word {
    v & !(BCR_AUTONEGO_EN | BCR_SPEED_SELECT | BCR_DUPLEX_MODE)
  }

  function SetFast(v: Word): Word {
    v | BCR_SPEED_SELECT
  }

  function SetFullDuplex(v: Word): Word {
    v | BCR_DUPLEX_MODE
  }

  function SetFastAndFullDuplex(v: Word): Word {
    v | (BCR_SPEED_SELECT | BCR_DUPLEX_MODE)
  }

  // ---------------------------------------------------------------- what the changes mean

  /** `w` differs from `v` in the settings at most. */
  predicate SameOthers(v: Word, w: Word) {
    Others(w) == Others(v)
  }

  lemma SameOthersAsItself(v: Word)
    ensures SameOthers(v, v)
  {
  }

  lemma SetLoopbackMeans(v: Word)
    ensures Decode(SetLoopback(v)) == Decode(v).(loopback := true) && SameOthers(v, SetLoopback(v))
  {
  }

  lemma ClearLoopbackMeans(v: Word)
    ensures Decode(ClearLoopback(v)) == Decode(v).(loopback := false) && SameOthers(v, ClearLoopback(v))
  {
  }

  lemma SetPowerDownMeans(v: Word)
    ensures Decode(SetPowerDown(v)) == Decode(v).(powerDown := true) && SameOthers(v, SetPowerDown(v))
  {
  }

  lemma ClearPowerDownMeans(v: Word)
    ensures Decode(ClearPowerDown(v)) == Decode(v).(powerDown := false) && SameOthers(v, ClearPowerDown(v))
  {
  }

  lemma SetAutoNegoMeans(v: Word)
    ensures Decode(SetAutoNego(v)) == Decode(v).(autoNego := true) && SameOthers(v, SetAutoNego(v))
  {
  }

  lemma ClearLinkMeans(v: Word)
    ensures Decode(ClearLink(v)) == Decode(v).(autoNego := false, fast := false, fullDuplex := false) && SameOthers(v, ClearLink(v))
  {
  }

  lemma SetFastMeans(v: Word)
    ensures Decode(SetFast(v)) == Decode(v).(fast := true) && SameOthers(v, SetFast(v))
  {
  }

  lemma SetFullDuplexMeans(v: Word)
    ensures Decode(SetFullDuplex(v)) == Decode(v).(fullDuplex := true) && SameOthers(v, SetFullDuplex(v))
  {
  }

  lemma SetFastAndFullDuplexMeans(v: Word)
    ensures Decode(SetFastAndFullDuplex(v)) == Decode(v).(fast := true, fullDuplex := true)
    ensures SameOthers(v, SetFastAndFullDuplex(v))
  {
  }

  // ---------------------------------------------------------------- the changes in numbers

  lemma ClearPowerDownBits(v: Word)
    ensures ClearPowerDown(v) == v & 0xF7FF
  {
  }

  lemma SetPowerDownBits(v: Word)
    ensures SetPowerDown(v) == v | 0x0800
  {
  }

  lemma SetAutoNegoBits(v: Word)
    ensures SetAutoNego(v) == v | 0x1000
  {
  }

  lemma SetLoopbackBits(v: Word)
    ensures SetLoopback(v) == v | 0x4000
  {
  }

  lemma ClearLoopbackBits(v: Word)
    ensures ClearLoopback(v) == v & 0xBFFF
  {
  }

  lemma ClearLinkBits(v: Word)
    ensures ClearLink(v) == v & 0xCEFF
  {
  }

  lemma SetFastAndFullDuplexBits(v: Word)
    ensures SetFastAndFullDuplex(v) == v | 0x2100
  {
  }

  lemma SetFastBits(v: Word)
    ensures SetFast(v) == v | 0x2000
  {
  }

  lemma SetFullDuplexBits(v: Word)
    ensures SetFullDuplex(v) == v | 0x0100
  {
  }

  /** The low five bits of a mode register are what is left over of it by 32. */
  lemma LowFiveBits(v: Word)
    ensures v as int == (v >> 5) as int * 32 + (v & 0x001F) as int && (v & 0x001F) as int < 32
  {
  }

  lemma Remainder(x: int, high: int, low: int)
    requires x == high * 32 + low && 0 <= low < 32
    ensures x % 32 == low
  {
  }

  lemma LowFiveBitsAreLeft(v: Word, low: int)
    requires low == (v & 0x001F) as int
    ensures v as int % 32 == low
  {
    LowFiveBits(v);
    var high := (v >> 5) as int;
    assert 0 <= low;
    Remainder(v as int, high, low);
  }

  lemma EchoesIs(v: Word, address: nat, low: int)
    requires low == (v & 0x001F) as int
    ensures Echoes(v, address) <==> low == address
  {
  }

  lemma EchoesMeans(v: Word, address: nat)
    ensures Echoes(v, address) <==> v as int % 32 == address
  {
    hide Echoes;
    var low := (v & 0x001F) as int;
    LowFiveBitsAreLeft(v, low);
    EchoesIs(v, address, low);
  }
}
