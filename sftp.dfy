/**
 * The decisions the SFTP helpers make on what the SFTP client hands back: the
 * permission test on a file's mode, the owner and group of a file, and the
 * reading of a glob result as "the file exists". The SFTP client itself is
 * not part of this model: its `Glob` answer and the file's attributes are
 * inputs.
 */
module Sftp {
  import opened Wrappers
  import opened FileIO

  newtype uint32 = x: int | 0 <= x < 0x1_0000_0000

  /** The attributes of a remote file (`sftp.FileStat`) that the helpers read. */
  datatype FileStat = FileStat(Mode: bv32, UID: uint32, GID: uint32)

  /** A bit position in a 32-bit mode. */
  type BitIndex = i: bv32 | i < 32

  predicate BitSet(x: bv32, i: BitIndex) {
    (x >> i) & 1 == 1
  }

  /** Some bit is set both in `x` and in `p`. */
  ghost predicate ShareBit(x: bv32, p: bv32) {
    exists i: BitIndex :: BitSet(x, i) && BitSet(p, i)
  }

  /**
   * The mask test of `HasOsAttrib` on the raw mode word: whether `mode` has any
   * of the bits of `permission` set. The bit-level lemmas are stated on it so
   * that they need not unpack a `FileStat`.
   */
  predicate AnyBitOf(mode: bv32, permission: bv32) {
    mode & permission != 0
  }

  /**
   * `HasOsAttrib`: does the file's mode have ANY of the bits of `permission`?
   * It is not an all-bits test: it holds exactly when some bit is set both in
   * the mode and in the permission.
   */
  predicate HasOsAttrib(info: FileStat, permission: bv32)
    ensures HasOsAttrib(info, permission) <==> ShareBit(info.Mode, permission)
  {
    CommonBit(info.Mode, permission);
    AnyBitOf(info.Mode, permission)
  }

  lemma CommonBit(x: bv32, p: bv32)
    ensures AnyBitOf(x, p) <==> ShareBit(x, p)
  {
    if x & p != 0 {
      SetBitAtOrAbove(x & p, 0);
      var i: BitIndex :| BitSet(x & p, i);
      BitOfAnd(x, p, i);
    } else {
      forall i: BitIndex ensures !(BitSet(x, i) && BitSet(p, i)) {
        BitOfAnd(x, p, i);
      }
    }
  }

  /** A word that is not zero from bit `k` upwards has a set bit at `k` or above. */
  lemma {:induction false} SetBitAtOrAbove(x: bv32, k: BitIndex)
    requires x >> k != 0
    ensures exists i: BitIndex :: k <= i && BitSet(x, i)
    decreases 32 - k
  {
    if !BitSet(x, k) {
      SetBitAtOrAbove(x, k + 1);
    }
  }

  lemma BitOfAnd(x: bv32, p: bv32, i: BitIndex)
    ensures BitSet(x & p, i) <==> BitSet(x, i) && BitSet(p, i)
  {
  }

  /** The empty permission is never held. */
  lemma HasOsAttribNothing(info: FileStat)
    ensures !HasOsAttrib(info, 0)
  {
  }

  /** Testing a union of masks is testing either of them. */
  lemma HasOsAttribUnion(info: FileStat, p: bv32, q: bv32)
    ensures HasOsAttrib(info, p | q) <==> HasOsAttrib(info, p) || HasOsAttrib(info, q)
  {
    AnyBitOfUnion(info.Mode, p, q);
  }

  lemma AnyBitOfUnion(m: bv32, p: bv32, q: bv32)
    ensures AnyBitOf(m, p | q) <==> AnyBitOf(m, p) || AnyBitOf(m, q)
  {
    assert m & (p | q) == (m & p) | (m & q);
  }

  /** A file that is only user-readable passes the test for `OsUserRw`, though it is not user-writable. */
  lemma HasOsAttribIsAnyBit(uid: uint32, gid: uint32)
    ensures HasOsAttrib(FileStat(OsUserR, uid, gid), OsUserRw)
    ensures !HasOsAttrib(FileStat(OsUserR, uid, gid), OsUserW)
  {
  }

  /** For one of the nine single-permission bits, the test reads exactly that bit of the mode. */
  lemma HasOsAttribSingleBit(info: FileStat, i: BitIndex)
    requires i < 9
    ensures HasOsAttrib(info, 1 << i) <==> BitSet(info.Mode, i)
  {
  }

  /** `GetUID`: the owner of the file. */
  function GetUID(info: FileStat): (uid: uint32)
    ensures uid == info.UID
  {
    info.UID
  }

  /** `GetGID`: the group of the file. */
  function GetGID(info: FileStat): (gid: uint32)
    ensures gid == info.GID
  {
    info.GID
  }

  /**
   * Each helper reads only its own field: the permission test ignores owner and
   * group, and the owner and group do not depend on the mode.
   */
  lemma AttributesIndependent(info: FileStat, mode: bv32, uid: uint32, gid: uint32, permission: bv32)
    ensures HasOsAttrib(info.(UID := uid, GID := gid), permission) == HasOsAttrib(info, permission)
    ensures GetUID(info.(Mode := mode, GID := gid)) == GetUID(info)
    ensures GetGID(info.(Mode := mode, UID := uid)) == GetGID(info)
  {
  }

  /**
   * A file that only its owner may execute (mode 0100) has none of the bits of
   * `OsAllRwx` as written, but does have one of the intended 0777.
   */
  lemma AllRwxMissesUserExecutable(uid: uint32, gid: uint32)
    ensures !HasOsAttrib(FileStat(OsUserX, uid, gid), OsAllRwx)
    ensures HasOsAttrib(FileStat(OsUserX, uid, gid), OsAllRwxIntended)
  {
  }

  /**
   * `Exists`, given what `Glob(path)` returned: a failed glob gives false and
   * its error unchanged; otherwise the answer is true exactly when the glob
   * matched `path` itself and nothing else, and the error is nil.
   */
  function Exists(path: string, glob: Result<seq<string>>): (r: (bool, Option<string>))
    ensures glob.Failure? ==> r == (false, Some(glob.error))
    ensures glob.Success? ==> r.1 == None && (r.0 <==> glob.value == [path])
  {
    match glob
    case Failure(e) => (false, Some(e))
    case Success(results) =>
      if |results| == 1 && results[0] == path then (true, None) else (false, None)
  }

  /** No match, several matches, or one match that is another path: not found, and no error. */
  lemma ExistsRejects(path: string, other: string, results: seq<string>)
    requires other != path && |results| >= 2
    ensures Exists(path, Success([])) == (false, None)
    ensures Exists(path, Success(results)) == (false, None)
    ensures Exists(path, Success([other])) == (false, None)
  {
  }
}
