/**
 * The file permission constants: the POSIX mode bits S_IRUSR ... S_IXOTH of
 * <sys/stat.h> (IEEE Std 1003.1), built from a read/write/execute triple
 * shifted into the user, group and other classes. Values are `bv32`, the width
 * of the `uint32` permission argument they are passed as.
 */
module FileIO {

  const OsRead: bv32 := 4
  const OsWrite: bv32 := 2
  const OsEx: bv32 := 1
  const OsUserShift: bv32 := 6
  const OsGroupShift: bv32 := 3
  const OsOthShift: bv32 := 0

  const OsUserR: bv32 := OsRead << OsUserShift
  const OsUserW: bv32 := OsWrite << OsUserShift
  const OsUserX: bv32 := OsEx << OsUserShift
  const OsUserRw: bv32 := OsUserR | OsUserW
  const OsUserRwx: bv32 := OsUserRw | OsUserX

  const OsGroupR: bv32 := OsRead << OsGroupShift
  const OsGroupW: bv32 := OsWrite << OsGroupShift
  const OsGroupX: bv32 := OsEx << OsGroupShift
  const OsGroupRw: bv32 := OsGroupR | OsGroupW
  const OsGroupRwx: bv32 := OsGroupRw | OsGroupX

  const OsOthR: bv32 := OsRead << OsOthShift
  const OsOthW: bv32 := OsWrite << OsOthShift
  const OsOthX: bv32 := OsEx << OsOthShift
  const OsOthRw: bv32 := OsOthR | OsOthW
  const OsOthRwx: bv32 := OsOthRw | OsOthX

  const OsAllR: bv32 := OsUserR | OsGroupR | OsOthR
  const OsAllW: bv32 := OsUserW | OsGroupW | OsOthW
  const OsAllX: bv32 := OsUserX | OsGroupX | OsOthX
  const OsAllRw: bv32 := OsAllR | OsAllW
  /** As written: the group-execute bit is ORed in where all three execute bits were meant. */
  const OsAllRwx: bv32 := OsAllRw | OsGroupX

  /** The value meant for `OsAllRwx`: read, write and execute for every class. */
  const OsAllRwxIntended: bv32 := OsAllRw | OsAllX

  /** The mode whose octal digits are `u`, `g` and `o` (user, group, other). */
  function Octal(u: bv32, g: bv32, o: bv32): bv32
    requires u < 8 && g < 8 && o < 8
  {
    u * 64 + g * 8 + o
  }

  /** The nine single-permission bits, user read first and other execute last. */
  const SingleBits: seq<bv32> :=
    [OsUserR, OsUserW, OsUserX, OsGroupR, OsGroupW, OsGroupX, OsOthR, OsOthW, OsOthX]

  predicate IsPowerOfTwo(x: bv32) {
    x != 0 && x & (x - 1) == 0
  }

  /** User 0400/0200/0100, group 040/020/010, other 04/02/01. */
  lemma SingleBitValues()
    ensures OsUserR == Octal(4, 0, 0) && OsUserW == Octal(2, 0, 0) && OsUserX == Octal(1, 0, 0)
    ensures OsGroupR == Octal(0, 4, 0) && OsGroupW == Octal(0, 2, 0) && OsGroupX == Octal(0, 1, 0)
    ensures OsOthR == Octal(0, 0, 4) && OsOthW == Octal(0, 0, 2) && OsOthX == Octal(0, 0, 1)
  {
  }

  /** The nine single permissions are distinct powers of two that share no bit, and together they are 0777. */
  lemma SingleBitsPartitionMode()
    ensures forall i :: 0 <= i < |SingleBits| ==> IsPowerOfTwo(SingleBits[i])
    ensures forall i, j :: 0 <= i < j < |SingleBits| ==> SingleBits[i] & SingleBits[j] == 0
    ensures OsUserR | OsUserW | OsUserX | OsGroupR | OsGroupW | OsGroupX | OsOthR | OsOthW | OsOthX
            == Octal(7, 7, 7)
  {
  }

  /** In each class Rw is R | W and Rwx is Rw | X: 0700, 070 and 07, three masks with no common bit. */
  lemma ClassMasks()
    ensures OsUserRw == Octal(6, 0, 0) && OsUserRwx == Octal(7, 0, 0)
    ensures OsGroupRw == Octal(0, 6, 0) && OsGroupRwx == Octal(0, 7, 0)
    ensures OsOthRw == Octal(0, 0, 6) && OsOthRwx == Octal(0, 0, 7)
    ensures OsUserRwx & OsGroupRwx == 0 && OsUserRwx & OsOthRwx == 0 && OsGroupRwx & OsOthRwx == 0
    ensures OsUserRwx | OsGroupRwx | OsOthRwx == Octal(7, 7, 7)
  {
  }

  /** The all-class masks: 0444, 0222, 0111 and 0666. */
  lemma AllClassMasks()
    ensures OsAllR == Octal(4, 4, 4) && OsAllW == Octal(2, 2, 2)
    ensures OsAllX == Octal(1, 1, 1) && OsAllRw == Octal(6, 6, 6)
  {
  }

  /** `OsAllRwx` is 0676, not 0777: the user-execute and other-execute bits are missing. */
  lemma AllRwxMissesExecute()
    ensures OsAllRwx == Octal(6, 7, 6) && OsAllRwx != Octal(7, 7, 7)
    ensures OsAllRwx & OsUserX == 0 && OsAllRwx & OsOthX == 0 && OsAllRwx & OsGroupX == OsGroupX
    ensures OsAllRwx | OsUserX | OsOthX == Octal(7, 7, 7)
  {
  }

  /** The intended mask is 0777: every single-permission bit, and the union of the three `Rwx` masks. */
  lemma AllRwxIntended()
    ensures OsAllRwxIntended == Octal(7, 7, 7)
    ensures forall i :: 0 <= i < |SingleBits| ==> OsAllRwxIntended & SingleBits[i] == SingleBits[i]
    ensures OsAllRwxIntended == OsUserRwx | OsGroupRwx | OsOthRwx
  {
  }

  /** A mode that uses no bit beyond the nine permission bits: 0 .. 0777. */
  predicate WithinPermissionBits(m: bv32) {
    m <= Octal(7, 7, 7)
  }

  /** Every constant of the block lies in 0 .. 0777. */
  lemma ConstantsWithinPermissionBits()
    ensures WithinPermissionBits(OsUserShift) && WithinPermissionBits(OsGroupShift) && WithinPermissionBits(OsOthShift)
    ensures WithinPermissionBits(OsRead) && WithinPermissionBits(OsWrite) && WithinPermissionBits(OsEx)
    ensures WithinPermissionBits(OsUserR) && WithinPermissionBits(OsUserW) && WithinPermissionBits(OsUserX)
    ensures WithinPermissionBits(OsUserRw) && WithinPermissionBits(OsUserRwx)
    ensures WithinPermissionBits(OsGroupR) && WithinPermissionBits(OsGroupW) && WithinPermissionBits(OsGroupX)
    ensures WithinPermissionBits(OsGroupRw) && WithinPermissionBits(OsGroupRwx)
    ensures WithinPermissionBits(OsOthR) && WithinPermissionBits(OsOthW) && WithinPermissionBits(OsOthX)
    ensures WithinPermissionBits(OsOthRw) && WithinPermissionBits(OsOthRwx)
    ensures WithinPermissionBits(OsAllR) && WithinPermissionBits(OsAllW) && WithinPermissionBits(OsAllX)
    ensures WithinPermissionBits(OsAllRw) && WithinPermissionBits(OsAllRwx)
  {
  }
}
