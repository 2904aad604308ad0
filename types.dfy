/** Machine integer widths, the quota record and the result wrappers shared by the model. */
module Types {

  const MaxUint32: int := 0xFFFF_FFFF
  const MaxUint64: int := 0xFFFF_FFFF_FFFF_FFFF

  /** Go's `uint32`. */
  type uint32 = x: int | 0 <= x <= MaxUint32

  /** Go's `uint64` (and C's `__u64`). */
  type uint64 = x: int | 0 <= x <= MaxUint64

  /** An XFS project id. */
  type ProjectId = uint32

  /** The reserved project id: a directory carrying it has no project quota. */
  const NoProject: ProjectId := 0

  /** A pair of hard limits: bytes and inodes. */
  datatype Quota = Quota(size: uint64, inode: uint64)

  datatype Option<T> = None | Some(value: T)

  /** A call that either yields a value or fails; error messages are not modelled. */
  datatype Result<T> = Ok(value: T) | Err
}
