/**
 * The standard access rights of WinNT.h as the flag enumeration StandardRights
 * declares them: five single-bit base rights and five combinations of them.
 */
module StandardRights {
  datatype Right =
    | Delete | ReadPermissions | WritePermissions | TakeOwnership | Synchronize
    | Read | Write | Execute | Required | All

  /** The five rights that each stand for one bit. */
  predicate IsBase(r: Right)
  {
    r.Delete? || r.ReadPermissions? || r.WritePermissions? || r.TakeOwnership? || r.Synchronize?
  }

  /** A value with exactly one bit set. */
  predicate IsSingleBit(v: bv32)
  {
    v != 0 && v & (v - 1) == 0
  }

  /** The numeric value of a right: a base right is one bit between 0x00010000 and 0x00100000. */
  function Value(r: Right): (v: bv32)
    ensures IsBase(r) ==> IsSingleBit(v) && 0x0001_0000 <= v <= 0x0010_0000
    decreases if IsBase(r) then 0 else 1
  {
    match r
    case Delete => 0x0001_0000
    case ReadPermissions => 0x0002_0000
    case WritePermissions => 0x0004_0000
    case TakeOwnership => 0x0008_0000
    case Synchronize => 0x0010_0000
    case Read => Value(ReadPermissions)
    case Write => Value(ReadPermissions)
    case Execute => Value(ReadPermissions)
    case Required => Value(Delete) | Value(ReadPermissions) | Value(WritePermissions) | Value(TakeOwnership)
    case All => Value(Delete) | Value(ReadPermissions) | Value(WritePermissions) | Value(TakeOwnership) | Value(Synchronize)
  }

  /** Every right is non-zero and lies within bits 16 to 20. */
  lemma WithinRightsBits(r: Right)
    ensures Value(r) != 0 && Value(r) & 0xFFE0_FFFF == 0
  {
    match r
    case Required =>
      assert Value(Required) == 0x000F_0000;
    case All =>
      assert Value(All) == 0x001F_0000;
    case _ =>
  }

  /** Two different base rights share no bit. */
  lemma BaseRightsDistinct(a: Right, b: Right)
    requires IsBase(a) && IsBase(b) && a != b
    ensures Value(a) & Value(b) == 0
  {
  }

  /** Read, Write and Execute are all ReadPermissions; in particular Write is not WritePermissions. */
  lemma GenericRightsAreReadPermissions()
    ensures Value(Read) == Value(Write) == Value(Execute) == Value(ReadPermissions)
    ensures Value(Write) != Value(WritePermissions)
  {
  }

  /** Required is 0x000F0000, and All adds Synchronize to it to give 0x001F0000. */
  lemma CombinedRights()
    ensures Value(Required) == 0x000F_0000
    ensures Value(All) == Value(Required) | Value(Synchronize) == 0x001F_0000
    ensures Value(Required) & Value(Synchronize) == 0
  {
  }
}
