/**
 * The in-memory records of a qdoor (a bidirectional channel to one peer):
 * the two directional message-queue wrappers, how their kernel object names
 * are derived from the engine's and the peer's names, their open flags, and
 * the record-level helpers the engine's operations are built from.
 */
module QdoorRecords {
  import opened Wrappers

  /** The open/closed state of one directional queue. */
  datatype MqState = MqOpened | MqClosed

  /** The open flags this library passes to mq_open. */
  datatype OFlag = OCreat | OWrOnly | ORdOnly | ONonBlock

  /** Which side of a qdoor a queue is. */
  datatype Direction = Sending | Receiving

  /** The queue attributes handed to mq_open (struct mq_attr). */
  datatype MqAttr = MqAttr(mqFlags: int, mqMaxMsg: int, mqMsgSize: int, mqCurMsgs: int)

  /** One directional queue of a qdoor (struct mqwrap). */
  datatype MqWrap = MqWrap(name: string, timeout: int, oflags: set<OFlag>, attr: MqAttr, mqd: int, state: MqState)

  /** A qdoor record: the peer's name and the two queues (struct qdoor). */
  datatype Qdoor = Qdoor(name: string, sendq: MqWrap, recvq: MqWrap)

  /** What mq_open returns when it fails ((mqd_t)-1). */
  const MQD_FAILED: int := -1

  // ---------------------------------------------------------------- naming

  /** Name of the queue the engine `local` sends to `peer` on: "/" local "2" peer ".mq". */
  function SendName(local: string, peer: string): (r: string)
    ensures |r| == |local| + |peer| + 5
    ensures r[0] == '/' && r[|local| + 1] == '2' && r[|r| - 3..] == ".mq"
  {
    "/" + local + "2" + peer + ".mq"
  }

  /**
   * Name of the queue the engine `local` receives from `peer` on: "/" peer
   * "2" local ".mq", which is the peer's sending-queue name for `local`.
   */
  function RecvName(local: string, peer: string): (r: string)
    ensures r == SendName(peer, local)
  {
    "/" + peer + "2" + local + ".mq"
  }

  /** The size of the buffer the names are written into: strlen("/2.mq") + both names + the terminator. */
  function MqNamesLen(local: string, peer: string): int
  {
    |"/2.mq"| + |local| + |peer| + 1
  }

  /** Both derived names, with their terminator, fill the name buffer exactly. */
  lemma NamesFitBuffer(local: string, peer: string)
    ensures |SendName(local, peer)| + 1 == MqNamesLen(local, peer)
    ensures |RecvName(local, peer)| + 1 == MqNamesLen(local, peer)
  {
  }

  /** Naming symmetry: one engine's sending queue is its peer's receiving queue, and the other way round. */
  lemma NamingSymmetry(e: string, p: string)
    ensures SendName(e, p) == RecvName(p, e)
    ensures RecvName(e, p) == SendName(p, e)
  {
  }

  /** The peer part of a sending-queue name can be read back once the local name is known. */
  lemma {:induction false} SendNamePeer(local: string, peer: string)
    ensures SendName(local, peer)[|local| + 2..|local| + 2 + |peer|] == peer
  {
    var r := SendName(local, peer);
    assert r == ("/" + local + "2") + (peer + ".mq");
    assert |"/" + local + "2"| == |local| + 2;
    assert (peer + ".mq")[..|peer|] == peer;
  }

  /** Within one engine, two peers with different names get different sending queues. */
  lemma {:induction false} SendNameInjectiveInPeer(local: string, p1: string, p2: string)
    requires SendName(local, p1) == SendName(local, p2)
    ensures p1 == p2
  {
    SendNamePeer(local, p1);
    SendNamePeer(local, p2);
  }

  /** Across engines the naming is not injective: ("a2", "b") and ("a", "2b") share a queue name. */
  lemma NamingNotInjective()
    ensures SendName("a2", "b") == SendName("a", "2b") == "/a22b.mq"
  {
  }

  // ---------------------------------------------------------- open flags

  /** The access mode of a queue: write-only for sending, read-only for receiving. */
  function AccessFlag(d: Direction): OFlag
  {
    match d
    case Sending => OWrOnly
    case Receiving => ORdOnly
  }

  /** The open flags of a queue with the given timeout: non-blocking exactly when the timeout is not positive. */
  function OpenFlags(d: Direction, timeout: int): (r: set<OFlag>)
    ensures OCreat in r && AccessFlag(d) in r
    ensures ONonBlock in r <==> timeout <= 0
    ensures r <= {OCreat, AccessFlag(d), ONonBlock}
  {
    if timeout > 0 then {OCreat, AccessFlag(d)} else {OCreat, AccessFlag(d), ONonBlock}
  }

  // -------------------------------------------------------- record helpers

  /** A freshly opened queue as the add operation fills it in. */
  function NewMqWrap(name: string, d: Direction, timeout: int, maxCount: int, maxSize: int, mqd: int): MqWrap
  {
    MqWrap(name, timeout, OpenFlags(d, timeout), MqAttr(0, maxCount, maxSize, 0), mqd, MqOpened)
  }

  /** The record the add operation appends for peer `peer`. */
  function NewQdoor(local: string, peer: string, maxCount: int, maxSize: int,
                    timeoutSend: int, timeoutRecv: int, sendMqd: int, recvMqd: int): (q: Qdoor)
    ensures q.name == peer && q.sendq.name == SendName(local, peer) && q.recvq.name == RecvName(local, peer)
    ensures q.sendq.timeout == timeoutSend && q.recvq.timeout == timeoutRecv
    ensures q.sendq.state == MqOpened && q.recvq.state == MqOpened
    ensures q.sendq.mqd == sendMqd && q.recvq.mqd == recvMqd
    ensures q.sendq.attr == q.recvq.attr == MqAttr(0, maxCount, maxSize, 0)
  {
    Qdoor(peer,
          NewMqWrap(SendName(local, peer), Sending, timeoutSend, maxCount, maxSize, sendMqd),
          NewMqWrap(RecvName(local, peer), Receiving, timeoutRecv, maxCount, maxSize, recvMqd))
  }

  /** Two queue wrappers agree on everything that configures the queue (all but handle and state). */
  predicate SameConfig(a: MqWrap, b: MqWrap)
  {
    a.name == b.name && a.timeout == b.timeout && a.oflags == b.oflags && a.attr == b.attr
  }

  /** A record as the engine `local` builds it: names derived, flags following the timeouts, shared attributes. */
  ghost predicate WellFormed(local: string, q: Qdoor)
  {
    && q.sendq.name == SendName(local, q.name)
    && q.recvq.name == RecvName(local, q.name)
    && q.sendq.oflags == OpenFlags(Sending, q.sendq.timeout)
    && q.recvq.oflags == OpenFlags(Receiving, q.recvq.timeout)
    && q.sendq.attr == q.recvq.attr
    && q.sendq.attr.mqFlags == 0 && q.sendq.attr.mqCurMsgs == 0
  }

  /** The record a newly added qdoor gets is well formed, and both its queues are open. */
  lemma NewQdoorWellFormed(local: string, peer: string, maxCount: int, maxSize: int,
                           timeoutSend: int, timeoutRecv: int, sendMqd: int, recvMqd: int)
    ensures var q := NewQdoor(local, peer, maxCount, maxSize, timeoutSend, timeoutRecv, sendMqd, recvMqd);
      && WellFormed(local, q) && q.name == peer
      && q.sendq.state == MqOpened && q.recvq.state == MqOpened
      && (ONonBlock in q.sendq.oflags <==> timeoutSend <= 0)
      && (ONonBlock in q.recvq.oflags <==> timeoutRecv <= 0)
      && q.sendq.attr.mqMaxMsg == maxCount && q.sendq.attr.mqMsgSize == maxSize
  {
  }

  /** A record with both of its queues closed (the close-by-entry helper); nothing else changes. */
  function CloseEntry(q: Qdoor): (r: Qdoor)
    ensures r.name == q.name
    ensures r.sendq.state == MqClosed && r.recvq.state == MqClosed
    ensures SameConfig(r.sendq, q.sendq) && SameConfig(r.recvq, q.recvq)
    ensures r.sendq.mqd == q.sendq.mqd && r.recvq.mqd == q.recvq.mqd
  {
    var s := if q.sendq.state != MqClosed then q.sendq.(state := MqClosed) else q.sendq;
    var t := if q.recvq.state != MqClosed then q.recvq.(state := MqClosed) else q.recvq;
    q.(sendq := s, recvq := t)
  }

  /** Closing a record twice is closing it once. */
  lemma CloseEntryIdempotent(q: Qdoor)
    ensures CloseEntry(CloseEntry(q)) == CloseEntry(q)
  {
  }

  /** Every record closed, in the same order (the close-all loop). */
  function CloseAll(qs: seq<Qdoor>): (r: seq<Qdoor>)
    ensures |r| == |qs|
    ensures forall i :: 0 <= i < |qs| ==> r[i] == CloseEntry(qs[i])
  {
    if qs == [] then [] else [CloseEntry(qs[0])] + CloseAll(qs[1..])
  }

  /** Closing every record twice is closing every record once. */
  lemma CloseAllIdempotent(qs: seq<Qdoor>)
    ensures CloseAll(CloseAll(qs)) == CloseAll(qs)
  {
    forall i | 0 <= i < |qs|
      ensures CloseAll(CloseAll(qs))[i] == CloseAll(qs)[i]
    {
      CloseEntryIdempotent(qs[i]);
    }
  }

  /** The position of the first record named `name`, or -1 if none (the list_for_each_entry/strcmp search). */
  function IndexOf(qs: seq<Qdoor>, name: string): (i: int)
    ensures -1 <= i < |qs|
    ensures 0 <= i ==> qs[i].name == name && forall j :: 0 <= j < i ==> qs[j].name != name
    ensures i == -1 <==> forall j :: 0 <= j < |qs| ==> qs[j].name != name
    decreases |qs|
  {
    if qs == [] then -1
    else if qs[0].name == name then 0
    else
      var t := IndexOf(qs[1..], name);
      if t == -1 then -1 else t + 1
  }

  /** No two records share a peer name. */
  ghost predicate UniqueNames(qs: seq<Qdoor>)
  {
    forall i, j :: 0 <= i < j < |qs| ==> qs[i].name != qs[j].name
  }

  /** The list without its entry at position i (list_del). */
  function RemoveAt(qs: seq<Qdoor>, i: int): (r: seq<Qdoor>)
    requires 0 <= i < |qs|
    ensures |r| == |qs| - 1
    ensures forall j :: 0 <= j < i ==> r[j] == qs[j]
    ensures forall j :: i <= j < |r| ==> r[j] == qs[j + 1]
  {
    qs[..i] + qs[i + 1..]
  }

  /** Both kernel queue names of every record. */
  function MqNames(qs: seq<Qdoor>): (r: set<string>)
    ensures forall q :: q in qs ==> q.sendq.name in r && q.recvq.name in r
  {
    if qs == [] then {} else {qs[0].sendq.name, qs[0].recvq.name} + MqNames(qs[1..])
  }

  /** Every name in the set belongs to one of the records: nothing else is unlinked. */
  lemma {:induction false} MqNamesOnly(qs: seq<Qdoor>)
    ensures forall n :: n in MqNames(qs) ==> exists q :: q in qs && (n == q.sendq.name || n == q.recvq.name)
  {
    if qs != [] {
      MqNamesOnly(qs[1..]);
      forall n | n in MqNames(qs)
        ensures exists q :: q in qs && (n == q.sendq.name || n == q.recvq.name)
      {
        if n !in {qs[0].sendq.name, qs[0].recvq.name} {
          assert n in MqNames(qs[1..]);
          var q :| q in qs[1..] && (n == q.sendq.name || n == q.recvq.name);
          assert q in qs;
        }
      }
    }
  }

  /** Appending a record adds exactly its two queue names. */
  lemma {:induction false} MqNamesAppend(qs: seq<Qdoor>, q: Qdoor)
    ensures MqNames(qs + [q]) == MqNames(qs) + {q.sendq.name, q.recvq.name}
  {
    if qs == [] {
      assert qs + [q] == [q];
    } else {
      assert (qs + [q])[1..] == qs[1..] + [q];
      MqNamesAppend(qs[1..], q);
    }
  }

  // ------------------------------------------------------------- messages

  /** The C string length: the number of characters before the first NUL. */
  function StrLen(s: string): (n: nat)
    ensures n <= |s|
    ensures forall i :: 0 <= i < n ==> s[i] != '\0'
    ensures n < |s| ==> s[n] == '\0'
  {
    if s == [] || s[0] == '\0' then 0 else 1 + StrLen(s[1..])
  }

  /**
   * The bytes a push hands to the kernel: strlen(msg) + 1 of them, the
   * characters before the first NUL followed by the terminator.
   */
  function Payload(msg: string): (p: seq<char>)
    ensures |p| == StrLen(msg) + 1
    ensures p[..StrLen(msg)] == msg[..StrLen(msg)] && p[StrLen(msg)] == '\0'
  {
    msg[..StrLen(msg)] + ['\0']
  }

  /** A message without NUL characters travels whole, with one terminator appended. */
  lemma PayloadOfPlainString(msg: string)
    requires forall i :: 0 <= i < |msg| ==> msg[i] != '\0'
    ensures Payload(msg) == msg + ['\0']
  {
  }

  /** A run of NUL characters, as calloc hands out. */
  function Zeros(n: nat): (z: seq<char>)
    ensures |z| == n && forall i :: 0 <= i < n ==> z[i] == '\0'
  {
    if n == 0 then [] else ['\0'] + Zeros(n - 1)
  }

  /**
   * The receive buffer after the kernel has written `data` into a zeroed
   * buffer of `size` bytes: the data, cut at the buffer's end, then zeros.
   */
  function RecvBuffer(size: nat, data: seq<char>): (b: seq<char>)
    ensures |b| == size
    ensures forall i :: 0 <= i < size ==> b[i] == if i < |data| then data[i] else '\0'
  {
    if |data| >= size then data[..size] else data + Zeros(size - |data|)
  }
}
