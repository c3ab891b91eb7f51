/**
 * The public constants of the IPC engine: the error codes every operation
 * leaves in the engine, the built-in defaults for a qdoor's queues and the
 * legal range of message priorities.
 */
module IpcEngDefs {

  // Error codes (the engine's last error after each call).
  const ERR_NOERROR: int := 0
  const ERR_QDOORADD: int := -1
  const ERR_QDOORDEL: int := -2
  const ERR_QDOOROPEN: int := -3
  const ERR_QDOORPUSH: int := -4
  const ERR_QDOORPOP: int := -5
  const ERR_SHMADD: int := -6
  const ERR_SHMDEL: int := -7
  const ERR_SHMOPEN: int := -8
  const ERR_SHMREAD: int := -9
  const ERR_SHMWRITE: int := -10
  const ERR_TERM: int := -11

  // Defaults used when a qdoor is added with the "use default" sentinel.
  const DEFAULT_MSGCOUNT: int := 10
  const DEFAULT_MSGSIZE: int := 1024  // bytes
  const PRIO_MIN: int := 0
  const PRIO_MAX: int := 31
  const DEFAULT_PRIO: int := PRIO_MIN
  const DEFAULT_TIMEOUT: int := 3     // seconds

  /** The value a caller passes for the message count or size to get the default. */
  const USE_DEFAULT: int := -1

  /** Every error code, in the order the header declares them. */
  function ErrorCodes(): seq<int>
  {
    [ERR_NOERROR, ERR_QDOORADD, ERR_QDOORDEL, ERR_QDOOROPEN, ERR_QDOORPUSH, ERR_QDOORPOP,
     ERR_SHMADD, ERR_SHMDEL, ERR_SHMOPEN, ERR_SHMREAD, ERR_SHMWRITE, ERR_TERM]
  }

  /** The codes tell the failures apart: no two are equal, success is 0, every failure is negative. */
  lemma ErrorCodesDistinct()
    ensures forall i, j :: 0 <= i < j < |ErrorCodes()| ==> ErrorCodes()[i] != ErrorCodes()[j]
    ensures ErrorCodes()[0] == ERR_NOERROR == 0
    ensures forall i :: 1 <= i < |ErrorCodes()| ==> ErrorCodes()[i] < 0
  {
  }

  /** A priority the engine accepts for a message. */
  predicate PrioInRange(prio: int)
  {
    PRIO_MIN <= prio <= PRIO_MAX
  }

  /** The legal range is 0..31 and the default priority is its minimum. */
  lemma PriorityBounds()
    ensures PRIO_MIN == 0 && PRIO_MAX == 31 && DEFAULT_PRIO == PRIO_MIN
    ensures PrioInRange(DEFAULT_PRIO) && PrioInRange(PRIO_MAX)
    ensures !PrioInRange(PRIO_MIN - 1) && !PrioInRange(PRIO_MAX + 1)
  {
  }

  /** The defaults: 10 messages of at most 1024 bytes, 3 seconds of timeout. */
  lemma Defaults()
    ensures DEFAULT_MSGCOUNT == 10 && DEFAULT_MSGSIZE == 1024 && DEFAULT_TIMEOUT == 3
    ensures DEFAULT_MSGCOUNT != USE_DEFAULT && DEFAULT_MSGSIZE != USE_DEFAULT
  {
  }
}
