/** The filesystem reserve that a spool write must leave, in unsigned 64-bit arithmetic. */
module SpoolSpace {

  const WORD := 0x1_0000_0000_0000_0000
  const MIB := 1024 * 1024
  const WRITE_SLACK := 64 * 1024

  newtype uint64 = x: int | 0 <= x < WORD

  datatype DiskSpace = DiskSpace(available: uint64, total: uint64, freeInodes: uint64, inodes: uint64)

  function Max(a: uint64, b: uint64): uint64 {
    if a < b then b else a
  }

  function WrappingAdd(a: uint64, b: uint64): uint64 {
    ((a as int + b as int) % WORD) as uint64
  }

  function Reserve(s: DiskSpace): (reserve: uint64)
    ensures reserve as int >= 64 * MIB && reserve as int >= s.total as int / 20
    ensures reserve as int == 64 * MIB || reserve as int == s.total as int / 20
  {
    Max((64 * MIB) as uint64, s.total / 20)
  }

  predicate CanWrite(s: DiskSpace, bytes: uint64) {
    var reserve := Reserve(s);
    var needed := WrappingAdd(bytes, WRITE_SLACK as uint64);
    if s.available <= reserve || needed >= s.available - reserve then false
    else s.inodes == 0 || s.freeInodes > Max(128, s.inodes / 100)
  }

  predicate InodesLeft(s: DiskSpace) {
    s.inodes == 0 || (s.freeInodes > 128 && s.freeInodes > s.inodes / 100)
  }

  /** What the caller wants: the write and its slack leave more than the reserve, and inodes are left. */
  predicate LeavesReserve(s: DiskSpace, bytes: uint64) {
    Reserve(s) as int + bytes as int + WRITE_SLACK < s.available as int && InodesLeft(s)
  }

  /** The admission is right exactly when adding the slack does not wrap, or what is left after wrapping is
      refused too. */
  lemma {:induction false} AdmitsExactly(s: DiskSpace, bytes: uint64)
    ensures CanWrite(s, bytes) == LeavesReserve(s, bytes) <==>
            || bytes as int + WRITE_SLACK < WORD
            || s.available as int <= Reserve(s) as int + (bytes as int + WRITE_SLACK - WORD)
            || !InodesLeft(s)
  {}

  /** The size of a byte slice is below 2^63, so a spool write never wraps. */
  lemma {:induction false} SpoolWritesDoNotWrap(s: DiskSpace, length: int)
    requires 0 <= length < WORD / 2
    ensures CanWrite(s, length as uint64) <==> LeavesReserve(s, length as uint64)
  {
    AdmitsExactly(s, length as uint64);
  }

  /** Beyond that bound the sum wraps and a write larger than the disk is admitted. */
  lemma {:induction false} HugeWriteWraps()
    ensures var s := DiskSpace((128 * MIB) as uint64, (1024 * MIB) as uint64, 0, 0);
            CanWrite(s, (WORD - 1) as uint64) && !LeavesReserve(s, (WORD - 1) as uint64)
  {}
}
