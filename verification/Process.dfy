/** The process control block shared by kernel, CPU and memory (shared/include/process.h). */
module Process {

  type Byte = b: int | 0 <= b < 0x100

  /** A 32-bit machine word, the width registers have on the wire and in the CPU. */
  type Word = w: int | 0 <= w < WORD_LIMIT

  const WORD_LIMIT := 0x1_0000_0000

  /** A byte that can occur inside a C string. */
  type NonZero = b: int | 0 < b < 0x100 witness 1

  /** A C string, without its terminating NUL. */
  type Name = seq<NonZero>

  datatype ProcessState = New | Ready | Execution | Blocked | Exit

  datatype Pcb = Pcb(
    pid: int,
    programCounter: int,
    quantum: int,
    size: int,
    registers: seq<Word>,
    resources: seq<Name>,
    tablePages: int,
    path: Name,
    state: ProcessState,
    clientSocket: int)

  /** What a process is created with, and keeps. */
  datatype Birth = Birth(path: Name, quantum: int, clientSocket: int)
}
