/**
 * The IPC engine object and the kernel it talks to. The engine keeps its
 * qdoors in a list in insertion order, a count and the last error; every
 * operation searches the list, changes records in place and records its
 * outcome with SetError. Each method is proved to compute the function of
 * RegistrySpec that describes it, and to keep the engine's invariant.
 */
module IpcEngine {
  import opened Wrappers
  import opened IpcEngDefs
  import opened QdoorRecords
  import opened RegistrySpec

  /**
   * The kernel's message-queue namespace: the names of the queues that exist.
   * What each call answers is supplied by the caller; the kernel only keeps
   * track of which names mq_open (with O_CREAT) has created and mq_unlink removed.
   */
  class Kernel {
    var queues: set<string>

    constructor (queues: set<string>)
      ensures this.queues == queues
    {
      this.queues := queues;
    }

    /** mq_open with O_CREAT; `result` is the kernel's answer, -1 for failure. */
    method MqOpen(name: string, result: int) returns (mqd: int)
      modifies this
      ensures mqd == result
      ensures queues == if result == MQD_FAILED then old(queues) else old(queues) + {name}
    {
      mqd := result;
      if mqd != MQD_FAILED {
        queues := queues + {name};
      }
    }

    /** mq_unlink: the name is gone afterwards, whether or not it existed. */
    method MqUnlink(name: string)
      modifies this
      ensures queues == old(queues) - {name}
    {
      queues := queues - {name};
    }
  }

  /** struct ipceng: one engine per logical local name. */
  class Engine {
    const name: string
    var errCode: int
    var errMsg: ErrMsg
    var qdoors: seq<Qdoor>
    var qdoorCount: int
    var terminated: bool

    /** The engine is live and its records satisfy the bookkeeping invariant. */
    ghost predicate Valid()
      reads this
    {
      !terminated && Inv(name, qdoors, qdoorCount)
    }

    /** The engine's qdoor state together with the kernel's queue names. */
    function Snap(k: Kernel): Snapshot
      reads this, k
    {
      Snapshot(qdoors, qdoorCount, errCode, errMsg, k.queues)
    }

    constructor (name: string)
      ensures Valid() && this.name == name
      ensures qdoors == [] && qdoorCount == 0 && errCode == ERR_NOERROR && errMsg == NoError
    {
      this.name := name;
      errCode := ERR_NOERROR;
      errMsg := NoError;
      qdoors := [];
      qdoorCount := 0;
      terminated := false;
    }

    /** ipceng_init: NULL for a NULL name, otherwise a new engine with no qdoors and no error. */
    static method Init(name: Option<string>) returns (e: Engine?)
      ensures name.None? <==> e == null
      ensures e != null ==> && fresh(e) && e.Valid() && e.name == name.value
                            && e.qdoors == [] && e.qdoorCount == 0
                            && e.errCode == ERR_NOERROR && e.errMsg == NoError
    {
      if name.None? {
        return null;
      }
      e := new Engine(name.value);
    }

    /** ipceng_set_error: overwrite the last error code and message. */
    method SetError(code: int, msg: ErrMsg)
      modifies this`errCode, this`errMsg
      ensures errCode == code && errMsg == msg
    {
      errCode := code;
      errMsg := msg;
    }

    /** The list_for_each_entry search with strcmp: the position of the first record with the name, or -1. */
    method Lookup(qdoorName: string) returns (i: int)
      ensures i == IndexOf(qdoors, qdoorName)
    {
      i := 0;
      while i < |qdoors|
        invariant 0 <= i <= |qdoors|
        invariant forall j :: 0 <= j < i ==> qdoors[j].name != qdoorName
      {
        if qdoors[i].name == qdoorName {
          return;
        }
        i := i + 1;
      }
      i := -1;
    }

    /** ipceng_term: close every qdoor; the engine may not be used afterwards. */
    method Term(k: Kernel) returns (rc: int)
      requires Valid()
      modifies this
      ensures terminated && !Valid()
      ensures Outcome(Snap(k), rc) == CloseAllSpec(old(Snap(k)))
    {
      rc := QdoorCloseAll(k);
      terminated := true;
      SetError(ERR_NOERROR, NoError);
    }

    /** ipceng_qdoor_add. */
    method QdoorAdd(k: Kernel, qdoorName: Option<string>, msgMaxCount: int, msgMaxSize: int,
                    timeoutSend: int, timeoutRecv: int, env: AddEnv) returns (rc: int)
      requires Valid()
      modifies this, k
      ensures Valid()
      ensures Outcome(Snap(k), rc)
           == AddSpec(old(Snap(k)), name, qdoorName, msgMaxCount, msgMaxSize, timeoutSend, timeoutRecv, env)
    {
      AddKeepsInv(Snap(k), name, qdoorName, msgMaxCount, msgMaxSize, timeoutSend, timeoutRecv, env);
      if qdoorName.None? {
        SetError(ERR_QDOORADD, AddNameNull);
        return -1;
      }
      var peer := qdoorName.value;
      var found := Lookup(peer);
      if found != -1 {
        SetError(ERR_QDOORADD, AddAlreadyAdded);
        return -1;
      }
      var targetCount := if msgMaxCount == USE_DEFAULT then DEFAULT_MSGCOUNT else msgMaxCount;
      var targetSize := if msgMaxSize == USE_DEFAULT then DEFAULT_MSGSIZE else msgMaxSize;
      if env.msgMax.None? {
        SetError(ERR_QDOORADD, AddMsgMaxUnreadable);
        return -1;
      }
      if targetCount > env.msgMax.value {
        SetError(ERR_QDOORADD, AddMsgCountTooBig);
        return -1;
      }
      if env.msgsizeMax.None? {
        SetError(ERR_QDOORADD, AddMsgSizeMaxUnreadable);
        return -1;
      }
      if targetSize > env.msgsizeMax.value {
        SetError(ERR_QDOORADD, AddMsgSizeTooBig);
        return -1;
      }
      var sendName := SendName(name, peer);
      var sendMqd := k.MqOpen(sendName, env.sendMqd);
      if sendMqd == MQD_FAILED {
        SetError(ERR_QDOORADD, AddSendMqFailed);
        return -1;
      }
      var recvName := RecvName(name, peer);
      var recvMqd := k.MqOpen(recvName, env.recvMqd);
      if recvMqd == MQD_FAILED {
        k.MqUnlink(sendName);
        SetError(ERR_QDOORADD, AddRecvMqFailed);
        return -1;
      }
      var q := NewQdoor(name, peer, targetCount, targetSize, timeoutSend, timeoutRecv, sendMqd, recvMqd);
      qdoors := qdoors + [q];
      qdoorCount := qdoorCount + 1;
      SetError(ERR_NOERROR, NoError);
      rc := 0;
    }

    /** ipceng_qdoor_add_simple: add with the default count and size and 3-second timeouts. */
    method QdoorAddSimple(k: Kernel, qdoorName: Option<string>, env: AddEnv) returns (rc: int)
      requires Valid()
      modifies this, k
      ensures Valid()
      ensures Outcome(Snap(k), rc)
           == AddSpec(old(Snap(k)), name, qdoorName, USE_DEFAULT, USE_DEFAULT, DEFAULT_TIMEOUT, DEFAULT_TIMEOUT, env)
    {
      rc := QdoorAdd(k, qdoorName, USE_DEFAULT, USE_DEFAULT, DEFAULT_TIMEOUT, DEFAULT_TIMEOUT, env);
    }

    /** _ipceng_qdoor_del_by_entry: unlink both queue names and unlink the record from the list. */
    method DelByEntry(k: Kernel, i: int)
      requires 0 <= i < |qdoors|
      modifies this`qdoors, k
      ensures Snap(k) == DelEntry(old(Snap(k)), i)
    {
      var q := qdoors[i];
      k.MqUnlink(q.sendq.name);
      k.MqUnlink(q.recvq.name);
      qdoors := qdoors[..i] + qdoors[i + 1..];
    }

    /** ipceng_qdoor_del. */
    method QdoorDel(k: Kernel, qdoorName: string) returns (rc: int)
      requires Valid()
      modifies this, k
      ensures Valid()
      ensures Outcome(Snap(k), rc) == DelSpec(old(Snap(k)), qdoorName)
    {
      DelKeepsInv(Snap(k), name, qdoorName);
      var i := Lookup(qdoorName);
      if i != -1 {
        DelByEntry(k, i);
      }
      SetError(ERR_NOERROR, NoError);
      rc := 0;
    }

    /** ipceng_qdoor_del_all: the safe iteration deletes the head of the list until it is empty. */
    method QdoorDelAll(k: Kernel) returns (rc: int)
      requires Valid()
      modifies this, k
      ensures Valid()
      ensures Outcome(Snap(k), rc) == DelAllSpec(old(Snap(k)))
    {
      ghost var s := Snap(k);
      ghost var done := 0;
      while |qdoors| > 0
        invariant 0 <= done <= |s.qdoors|
        invariant qdoors == s.qdoors[done..]
        invariant k.queues == s.queues - MqNames(s.qdoors[..done])
        invariant qdoorCount == s.count && errCode == s.errCode && errMsg == s.errMsg && !terminated
        decreases |qdoors|
      {
        ghost var q := qdoors[0];
        assert s.qdoors[..done + 1] == s.qdoors[..done] + [q];
        MqNamesAppend(s.qdoors[..done], q);
        DelByEntry(k, 0);
        done := done + 1;
      }
      assert s.qdoors[..done] == s.qdoors;
      SetError(ERR_NOERROR, NoError);
      rc := 0;
    }

    /** ipceng_qdoor_open. */
    method QdoorOpen(k: Kernel, qdoorName: string, sendMqd: int, recvMqd: int) returns (rc: int)
      requires Valid()
      modifies this, k
      ensures Valid()
      ensures Outcome(Snap(k), rc) == OpenSpec(old(Snap(k)), qdoorName, sendMqd, recvMqd)
    {
      OpenKeepsInv(Snap(k), name, qdoorName, sendMqd, recvMqd);
      var i := Lookup(qdoorName);
      if i == -1 {
        SetError(ERR_QDOOROPEN, OpenNotFound);
        return -1;
      }
      var q := qdoors[i];
      if q.sendq.state != MqOpened {
        var mqd := k.MqOpen(q.sendq.name, sendMqd);
        q := q.(sendq := q.sendq.(mqd := mqd));
        if mqd == MQD_FAILED {
          qdoors := qdoors[i := q];
          SetError(ERR_QDOOROPEN, OpenSendMqFailed);
          return -1;
        }
        q := q.(sendq := q.sendq.(state := MqOpened));
      }
      if q.recvq.state != MqOpened {
        var mqd := k.MqOpen(q.recvq.name, recvMqd);
        q := q.(recvq := q.recvq.(mqd := mqd));
        if mqd == MQD_FAILED {
          // mq_close of the sending queue's handle
          q := q.(sendq := q.sendq.(state := MqClosed));
          qdoors := qdoors[i := q];
          SetError(ERR_QDOOROPEN, OpenRecvMqFailed);
          return -1;
        }
        q := q.(recvq := q.recvq.(state := MqOpened));
      }
      qdoors := qdoors[i := q];
      SetError(ERR_NOERROR, NoError);
      rc := 0;
    }

    /** _ipceng_qdoor_close_by_entry: mq_close each open queue of the record and mark it closed. */
    method CloseByEntry(i: int)
      requires 0 <= i < |qdoors|
      modifies this`qdoors
      ensures qdoors == old(qdoors)[i := CloseEntry(old(qdoors)[i])]
    {
      var q := qdoors[i];
      if q.sendq.state != MqClosed {
        q := q.(sendq := q.sendq.(state := MqClosed));
      }
      if q.recvq.state != MqClosed {
        q := q.(recvq := q.recvq.(state := MqClosed));
      }
      qdoors := qdoors[i := q];
    }

    /** ipceng_qdoor_close. */
    method QdoorClose(k: Kernel, qdoorName: string) returns (rc: int)
      requires Valid()
      modifies this
      ensures Valid()
      ensures Outcome(Snap(k), rc) == CloseSpec(old(Snap(k)), qdoorName)
    {
      CloseKeepsInv(Snap(k), name, qdoorName);
      var i := Lookup(qdoorName);
      if i != -1 {
        CloseByEntry(i);
      }
      SetError(ERR_NOERROR, NoError);
      rc := 0;
    }

    /** ipceng_qdoor_close_all. */
    method QdoorCloseAll(k: Kernel) returns (rc: int)
      requires Valid()
      modifies this
      ensures Valid()
      ensures Outcome(Snap(k), rc) == CloseAllSpec(old(Snap(k)))
    {
      ghost var s := Snap(k);
      CloseAllKeepsInv(s, name);
      var i := 0;
      while i < |qdoors|
        invariant 0 <= i <= |qdoors| == |s.qdoors|
        invariant forall j :: 0 <= j < i ==> qdoors[j] == CloseEntry(s.qdoors[j])
        invariant forall j :: i <= j < |qdoors| ==> qdoors[j] == s.qdoors[j]
        invariant qdoorCount == s.count && errCode == s.errCode && errMsg == s.errMsg && !terminated
      {
        CloseByEntry(i);
        i := i + 1;
      }
      assert qdoors == CloseAll(s.qdoors);
      SetError(ERR_NOERROR, NoError);
      rc := 0;
    }

    /** ipceng_qdoor_push; `sendRet` and `errno` are the kernel's answer to the send. */
    method QdoorPush(k: Kernel, qdoorName: string, msg: string, prio: int, sendRet: int, errno: int)
      returns (rc: int, call: Option<SendCall>)
      requires Valid()
      modifies this
      ensures Valid()
      ensures PushOutcome(Snap(k), rc, call) == PushSpec(old(Snap(k)), qdoorName, msg, prio, sendRet, errno)
    {
      call := None;
      if !(prio >= PRIO_MIN && prio <= PRIO_MAX) {
        SetError(ERR_QDOORPUSH, PushPrioOutOfRange);
        return -1, None;
      }
      var i := Lookup(qdoorName);
      if i == -1 {
        SetError(ERR_QDOORPUSH, PushNotFound);
        return -1, None;
      }
      var q := qdoors[i];
      // mq_timedsend when the sending timeout is positive, mq_send otherwise
      call := Some(SendCall(q.sendq.name, q.sendq.mqd, Payload(msg), prio, q.sendq.timeout > 0));
      if sendRet == 0 {
        SetError(ERR_NOERROR, NoError);
        rc := 0;
      } else {
        SetError(errno, OsError(errno));
        rc := -1;
      }
    }

    /** ipceng_qdoor_send_simple: push with priority 0. */
    method QdoorSendSimple(k: Kernel, qdoorName: string, msg: string, sendRet: int, errno: int)
      returns (rc: int, call: Option<SendCall>)
      requires Valid()
      modifies this
      ensures Valid()
      ensures PushOutcome(Snap(k), rc, call) == PushSpec(old(Snap(k)), qdoorName, msg, 0, sendRet, errno)
    {
      rc, call := QdoorPush(k, qdoorName, msg, 0, sendRet, errno);
    }

    /**
     * ipceng_qdoor_pop; `wantsPrio` is false for a NULL priority pointer, and
     * `recvRet`, `data` and `errno` are the kernel's answer to the receive.
     */
    method QdoorPop(k: Kernel, qdoorName: string, wantsPrio: bool, recvRet: int, data: seq<char>, errno: int)
      returns (rc: int, call: Option<RecvCall>, buff: Option<seq<char>>)
      requires Valid()
      modifies this
      ensures Valid()
      ensures PopOutcome(Snap(k), rc, call, buff) == PopSpec(old(Snap(k)), qdoorName, wantsPrio, recvRet, data, errno)
    {
      var i := Lookup(qdoorName);
      if i == -1 {
        SetError(ERR_QDOORPOP, PopNotFound);
        return -1, None, None;
      }
      var q := qdoors[i];
      var timed := q.recvq.timeout > 0;
      call := Some(RecvCall(q.recvq.name, q.recvq.mqd, q.recvq.attr.mqMsgSize, timed, wantsPrio));
      // calloc(mq_msgsize, 1), then mq_timedreceive or mq_receive into it
      buff := Some(RecvBuffer(BufSize(q.recvq.attr.mqMsgSize), data));
      var accepted := if timed then recvRet > 0 else recvRet == 0;
      if accepted {
        SetError(ERR_NOERROR, NoError);
        rc := 0;
      } else {
        buff := None;  // free_safe
        SetError(errno, OsError(errno));
        rc := -1;
      }
    }

    /** ipceng_qdoor_recv_simple: pop with a NULL priority pointer. */
    method QdoorRecvSimple(k: Kernel, qdoorName: string, recvRet: int, data: seq<char>, errno: int)
      returns (rc: int, call: Option<RecvCall>, buff: Option<seq<char>>)
      requires Valid()
      modifies this
      ensures Valid()
      ensures PopOutcome(Snap(k), rc, call, buff) == PopSpec(old(Snap(k)), qdoorName, false, recvRet, data, errno)
    {
      rc, call, buff := QdoorPop(k, qdoorName, false, recvRet, data, errno);
    }
  }

  /** The queue "eng1" sends "eng2" on, spelled out. */
  lemma HelloQueueName()
    ensures SendName("eng1", "eng2") == RecvName("eng2", "eng1") == "/eng12eng2.mq"
  {
  }

  /** The sending half of the demonstration program: "eng1" registers "eng2" and pushes "hello world!". */
  method SendHello(k: Kernel, env: AddEnv) returns (sent: SendCall)
    requires DefaultAddSucceeds(env)
    modifies k
    ensures sent.queue == "/eng12eng2.mq"
    ensures sent.bytes == "hello world!" + ['\0'] && sent.prio == 0 && sent.timed
  {
    var msg := "hello world!";
    var eng1 := Engine.Init(Some("eng1"));
    ghost var s1 := eng1.Snap(k);
    var rc := eng1.QdoorAddSimple(k, Some("eng2"), env);
    DefaultPushAfterAdd(s1, "eng1", "eng2", env, msg, 0, 0);
    var call;
    rc, call := eng1.QdoorSendSimple(k, "eng2", msg, 0, 0);
    sent := call.value;
    HelloQueueName();
  }

  /**
   * The receiving half: "eng2" registers "eng1" and pops; when the kernel
   * delivers the 13 bytes sent, the 1024-byte buffer starts with them.
   */
  method ReceiveHello(k: Kernel, env: AddEnv) returns (received: RecvCall, buff: seq<char>)
    requires DefaultAddSucceeds(env)
    modifies k
    ensures received.queue == "/eng12eng2.mq"
    ensures received.timed && !received.wantsPrio && received.bufSize == DEFAULT_MSGSIZE
    ensures |buff| == DEFAULT_MSGSIZE && buff[..13] == "hello world!" + ['\0']
  {
    var msg := "hello world!";
    var eng2 := Engine.Init(Some("eng2"));
    ghost var s2 := eng2.Snap(k);
    var rc := eng2.QdoorAddSimple(k, Some("eng1"), env);
    DefaultAddOnEmpty(s2, "eng2", "eng1", env);
    HelloQueueName();
    var rcall, rbuff;
    rc, rcall, rbuff := eng2.QdoorRecvSimple(k, "eng1", |msg| + 1, msg + ['\0'], 0);
    received, buff := rcall.value, rbuff.value;
    assert buff[..13] == msg + ['\0'];
  }

  /**
   * The demonstration program: "eng1" registers "eng2" and sends it
   * "hello world!"; "eng2" registers "eng1" and receives. The send and the
   * receive address the same kernel queue, "/eng12eng2.mq".
   */
  method HelloScenario(k: Kernel, envA: AddEnv, envB: AddEnv) returns (sent: SendCall, received: RecvCall, buff: seq<char>)
    requires DefaultAddSucceeds(envA) && DefaultAddSucceeds(envB)
    modifies k
    ensures sent.queue == received.queue == "/eng12eng2.mq"
    ensures sent.bytes == "hello world!" + ['\0'] && sent.prio == 0 && sent.timed
    ensures received.timed && !received.wantsPrio && received.bufSize == DEFAULT_MSGSIZE
    ensures |buff| == DEFAULT_MSGSIZE && buff[..13] == "hello world!" + ['\0']
  {
    sent := SendHello(k, envA);
    received, buff := ReceiveHello(k, envB);
  }
}
