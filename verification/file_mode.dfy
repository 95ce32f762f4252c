/** The bits of Go's `os.FileMode` that symlink creation and resolution use. */
module FileMode {

  /** `os.ModeSymlink`, bit 27 of the 32-bit mode. */
  const ModeSymlink: bv32 := 0x0800_0000

  /** The permission bits `0777`. */
  const ModePerm: bv32 := 0x1FF

  /** Every bit a symlink's mode may carry before the umask is applied. */
  const SymlinkBits: bv32 := ModePerm | ModeSymlink

  predicate IsSymlink(mode: bv32) {
    mode & ModeSymlink != 0
  }

  /**
   * The mode of a new symlink: `(0777 | ModeSymlink) &^ umask`. The three
   * postconditions about bits determine it: it carries no umask bit, no bit
   * outside `SymlinkBits`, and every bit of `SymlinkBits` the umask leaves.
   */
  function SymlinkMode(umask: bv32): (m: bv32)
    ensures m & umask == 0
    ensures m & !SymlinkBits == 0
    ensures (m | umask) & SymlinkBits == SymlinkBits
    ensures IsSymlink(m) <==> !IsSymlink(umask)
    ensures m & ModePerm == ModePerm & !umask
  {
    SymlinkBits & !umask
  }
}
