/** 32-bit exit codes: how the helper prints one and how its reader gets it back. */
module ExitCodes {
  import opened Base

  const TWO_TO_31 := 0x8000_0000
  const TWO_TO_32 := 0x1_0000_0000

  /** What the kernel answers: an unsigned 32-bit value. */
  type ExitCode = c: int | 0 <= c < TWO_TO_32

  /** The same 32 bits read as a signed integer. */
  function Signed(c: ExitCode): (r: int)
    ensures -TWO_TO_31 <= r < TWO_TO_31
    ensures r == c || r == c - TWO_TO_32
  {
    if c < TWO_TO_31 then c else c - TWO_TO_32
  }

  /** `>>> 0` on any integer: reduce to 32 bits, read them as unsigned. */
  function Unsigned(i: int): ExitCode {
    i % TWO_TO_32
  }

  /** The exit code as the rest of the program reports it; `None` for one no process can have. */
  function UnsignedExitCode(i: int): Option<ExitCode> {
    if i < -TWO_TO_31 || i > TWO_TO_32 - 1 then None else Some(Unsigned(i))
  }

  /** Every code comes back from its signed form; nothing outside 32 bits comes back at all. */
  lemma UnsignedUndoesSigned(c: ExitCode)
    ensures UnsignedExitCode(Signed(c)) == Some(c)
    ensures forall i :: UnsignedExitCode(i) == Some(c) <==> i == c || i == Signed(c)
  {
  }
}
