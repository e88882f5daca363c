/** Constants of the kernel (param.h, fs.h). */
module Params {
  const BSIZE := 512
  const MAXOPBLOCKS := 10
  const LOGSIZE := MAXOPBLOCKS * 3
  /** 32-bit words in a disk block. */
  const WORDS := BSIZE / 4
}
