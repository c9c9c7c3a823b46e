/** The firmware capability gate: which register layout a controller of a given firmware
    version offers. */
module Api {
  import Settings

  /** Firmware versions from this one on are treated as extended. */
  const EXTENDED_FROM_VERSION := 2000

  /** `determine_is_extended`: total over every integer version. */
  function IsExtended(version: int): (b: bool)
    ensures b ==> version >= EXTENDED_FROM_VERSION
    ensures !b ==> version < EXTENDED_FROM_VERSION
  {
    version >= EXTENDED_FROM_VERSION
  }

  /** The boundary: 1999 is not extended, 2000 is. */
  lemma IsExtendedBoundary()
    ensures !IsExtended(1999) && IsExtended(2000)
  {
  }

  /** The gate is monotone: a later version of an extended firmware is extended too. */
  lemma {:induction false} IsExtendedMonotone(v1: int, v2: int)
    requires v1 <= v2 && IsExtended(v1)
    ensures IsExtended(v2)
  {
  }

  /** The settings block read for a firmware version: 38 registers from version 2000 on,
      30 before. */
  lemma {:induction false} SettingsSpanByVersion(version: int)
    ensures Settings.ReadAllCount(IsExtended(version)) == if version >= 2000 then 38 else 30
  {
  }
}
