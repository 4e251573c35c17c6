// Results of the system calls, which the operations take as parameters.
module Syscalls {
  import opened Codec

  datatype Errno = EAGAIN | EPIPE | ECONNRESET | EOther

  // write(2): how many bytes the kernel took, or why it took none.
  datatype WriteResult = Wrote(n: nat) | WriteFailed(errno: Errno)

  // readv(2): an error, or the bytes delivered; no bytes is end of stream.
  datatype ReadResult = ReadFailed(errno: Errno) | ReadBytes(bytes: seq<Byte>)

  predicate KernelMayWrite(w: WriteResult, len: nat) {
    w.Wrote? ==> w.n <= len
  }

  // What write(2) reports when the kernel would take up to w and len is offered.
  function Limited(w: WriteResult, len: nat): (r: WriteResult)
    ensures KernelMayWrite(r, len)
    ensures KernelMayWrite(w, len) ==> r == w
  {
    if w.Wrote? && w.n > len then Wrote(len) else w
  }
}
