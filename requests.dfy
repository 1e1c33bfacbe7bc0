/** The request value handed from a process to a scheduler (main.py:17-18, 129-133). */
module Requests {
  /** The two request kinds, the strings READ and WRITE of the source. */
  datatype Operation = Read | Write

  /** An I/O request: issuing process, kind and target block. Immutable; two
      requests are equal when their fields are. */
  datatype IORequest = IORequest(pid: int, operation: Operation, blockNum: int)

  /** The exceptions a scheduling call can raise on an empty queue. */
  datatype Fault =
    | ValueError   // list.remove of a value that is not in the list
    | IndexError   // indexing an empty list
}
