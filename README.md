# libipceng qdoor registry — a Dafny model

libipceng is a small C library for inter-process messaging over POSIX
message queues. A process creates an *engine* under a logical name
(`ipceng_init`). It then registers *qdoors*: a qdoor is a bidirectional
channel to a peer engine, made of two kernel message queues. The sending
queue is named `"/" local "2" peer ".mq"` and the receiving queue
`"/" peer "2" local ".mq"`. So engine A's sending queue for B is B's
receiving queue for A.

The engine keeps its qdoors in an insertion-ordered list, together with a
count and the last error (code and message). Each operation searches the
list by peer name and changes records in place:

- add, with ceiling checks and rollback;
- delete and delete-all, which unlink both queue names;
- open and close, which move each queue between opened and closed;
- push and pop of messages.

Each operation ends by recording its outcome as the last error.

The model has five files:

- `wrappers.dfy`: `Option` and `Result`.
- `ipceng_defs.dfy`: the header's error codes, defaults and priority range.
- `qdoor_records.dfy`: the record types (`MqWrap`, `Qdoor`), queue naming, open flags, and the per-record helpers. The helpers are close-by-entry, the list search, list removal, and the C string and receive-buffer views of a message.
- `registry_spec.dfy`: one pure function per operation. Each maps a `Snapshot` (records, count, last error and the set of live kernel queue names) plus the answers of the host and the kernel to the resulting `Snapshot` and return code. The lemmas about these functions state what the library promises.
- `engine.dfy`: the imperative model.
  - `Kernel` is a class whose field is the set of existing queue names.
  - `Engine` is a class with the fields of `struct ipceng` that the qdoor code uses. Its methods follow the C functions branch by branch. Each public qdoor operation (add, add_simple, del, del_all, open, close, close_all, push, send_simple, pop, recv_simple) is proved to produce exactly its spec function's outcome and to keep the invariant `Valid()`: unique peer names, well-formed records, and a count never below the list length. `Init` establishes `Valid()`, and `Term` ends it. The helpers `Lookup`, `SetError`, `DelByEntry` and `CloseByEntry` are specified by what they compute or change, not by the invariant.
  - `SendHello`, `ReceiveHello` and `HelloScenario` replay the demonstration program.

The kernel's answers are parameters of the methods: each `mq_open` handle, -1
for failure; the return values of send and receive; `errno`; and the bytes a
receive delivers. The two `/proc` ceilings are also parameters, each either
unreadable (`None`) or a number. For each combination of answers, the model
fixes which branch the C code takes and what state it leaves behind.

The model keeps these behaviours of the code:

- `ipceng_init` rejects only a NULL name; an empty name gives an engine.
- `_ipceng_qdoor_del_by_entry` never decrements `qdoor_count`, so after deletions the count is only an upper bound on the list length (`Inv`, `RegistrySpec.DelDoesNotDecrementCount`).
- A non-timed pop counts as success only when `mq_receive` returns exactly 0 (`RegistrySpec.NonTimedPopRejectsDeliveredMessage`). A timed pop needs a positive return.
- Queue naming is not injective across engines (`QdoorRecords.NamingNotInjective`). For a fixed engine it is injective in the peer (`QdoorRecords.SendNameInjectiveInPeer`).
- When opening the receiving queue fails in `ipceng_qdoor_open`, the sending queue is closed even if it was open before the call.
- When opening the receiving queue fails in `ipceng_qdoor_add`, the sending queue's name is unlinked even if that queue existed before the call.

## Model

| member | source | states |
|---|---|---|
| IpcEngDefs.ErrorCodesDistinct | ipceng.h:14-25 | the twelve error codes are pairwise distinct, success is 0 and every failure code is negative |
| IpcEngDefs.PriorityBounds | ipceng.h:30-32 | priorities run from 0 to 31, the default priority is the minimum, and -1 and 32 are out of range |
| IpcEngDefs.Defaults | ipceng.h:28-33 | default count 10, default size 1024 bytes, default timeout 3 s; neither default collides with the -1 sentinel |
| QdoorRecords.SendName | ipceng.c:178-181 | the sending-queue name has length local + peer + 5, starts with "/", has "2" right after the local name and ends in ".mq" |
| QdoorRecords.RecvName | ipceng.c:197-198 | the receiving-queue name is the peer's sending-queue name for this engine |
| QdoorRecords.NamesFitBuffer | ipceng.c:178-198 | each derived name plus its terminator exactly fills the `mqnames_len` buffer |
| QdoorRecords.NamingSymmetry | ipceng.c:178-198 | E's sending queue for P is P's receiving queue for E, and the other way round |
| QdoorRecords.SendNamePeer | ipceng.c:181 | the peer's name can be read back from a sending-queue name when the local name is known |
| QdoorRecords.SendNameInjectiveInPeer | ipceng.c:181 | within one engine, two different peers never share a sending queue |
| QdoorRecords.NamingNotInjective | ipceng.c:181 | ("a2","b") and ("a","2b") both give "/a22b.mq": naming is not injective across engines |
| QdoorRecords.OpenFlags | ipceng.c:183-200 | the flags hold O_CREAT and the direction's access mode, and hold O_NONBLOCK exactly when the timeout is not positive |
| QdoorRecords.NewQdoor | ipceng.c:175-216 | the record add builds: the peer's name, the two derived queue names, the given timeouts and handles, both queues opened, and shared attributes with flags 0, the given count and size, and no current messages |
| QdoorRecords.NewQdoorWellFormed | ipceng.c:175-216 | a new record has derived names, flags that follow the timeouts, shared attributes with the given count and size, and both queues opened |
| QdoorRecords.CloseEntry | ipceng.c:296-306 | close-by-entry leaves both queues closed and keeps the name, handles and configuration |
| QdoorRecords.CloseEntryIdempotent | ipceng.c:296-306 | closing a record twice is closing it once |
| QdoorRecords.CloseAll | ipceng.c:325-328 | closing every record keeps the length and closes each record in place |
| QdoorRecords.CloseAllIdempotent | ipceng.c:325-328 | closing every record twice is closing every record once |
| QdoorRecords.IndexOf | ipceng.c:134-140 | the search gives the first position holding the name, or -1 exactly when no record has that name |
| QdoorRecords.RemoveAt | ipceng.c:232 | `list_del` removes one entry and keeps the others in order |
| QdoorRecords.MqNames | ipceng.c:227-229 | the set of names to unlink holds both queue names of every record |
| QdoorRecords.MqNamesOnly | ipceng.c:227-229 | every name in that set is a queue name of one of the records |
| QdoorRecords.MqNamesAppend | ipceng.c:251-256 | extending the deleted prefix by one record adds exactly its two queue names |
| QdoorRecords.StrLen | ipceng.c:350 | `strlen` counts the characters before the first NUL |
| QdoorRecords.Payload | ipceng.c:350 | a push hands over strlen(msg)+1 bytes: the characters before the first NUL, then the terminator |
| QdoorRecords.PayloadOfPlainString | ipceng.c:350 | a message without NUL is sent whole, with one terminator |
| QdoorRecords.RecvBuffer | ipceng.c:384-385 | the receive buffer has the queue's message size; it holds the delivered bytes and then calloc's zeros |
| RegistrySpec.SetError | ipceng.c:77-82 | recording an error overwrites the code and message and nothing else |
| RegistrySpec.CheckLimits | ipceng.c:142-172 | the ceilings pass exactly when both are readable and the resolved count and size do not exceed them; the count ceiling is checked first, and each failure (count ceiling unreadable, count too big, size ceiling unreadable, size too big) gives its own error |
| RegistrySpec.DefaultsResolve | ipceng.c:142-143 | the -1 sentinel resolves to 10 messages and 1024 bytes |
| RegistrySpec.AddSpec | ipceng.c:122-223 | add succeeds exactly for a non-NULL, unregistered name with passing ceilings and two good handles; on success it appends at the tail, bumps the count by one and creates both names; on failure the list and count are unchanged and no new name exists |
| RegistrySpec.AddRejectsBadName | ipceng.c:129-140 | a NULL or registered name fails with the add error and changes nothing but the last error |
| RegistrySpec.AddChecksCeilings | ipceng.c:142-172 | an unreadable or exceeded ceiling fails before any queue is opened |
| RegistrySpec.AddRollsBack | ipceng.c:188-214 | a sending-queue failure leaves the kernel alone; a receiving-queue failure unlinks the sending-queue name; neither adds a record or counts one |
| RegistrySpec.AddAppendsOpenQdoor | ipceng.c:182-219 | the appended record is well formed, both queues opened, with the given timeouts and resolved limits, O_NONBLOCK exactly for non-positive timeouts, and the kernel's handles |
| RegistrySpec.AddKeepsInv | ipceng.c:122-223 | add keeps names unique, records well formed and the count at least the list length |
| RegistrySpec.AddTwiceRejected | ipceng.h:118-122 | a second add of the same name fails as already added and changes nothing, so the name keeps exactly one record |
| RegistrySpec.DelEntry | ipceng.c:225-234 | deleting entry i unlinks exactly its two queue names, removes it with the other records kept in order, and leaves the count and the last error alone |
| RegistrySpec.DelSpec | ipceng.c:236-249 | delete always returns 0 with no error; a missing name changes nothing else; a found record's two queue names are unlinked, it is removed with the other records kept in order, and the count stays |
| RegistrySpec.RemoveAtKeepsInv | ipceng.c:225-234 | removing a record keeps the invariant and leaves exactly the records with other names |
| RegistrySpec.DelKeepsInv | ipceng.c:236-249 | delete keeps the invariant and leaves no record with the deleted name |
| RegistrySpec.DelThenOpenFails | ipceng.c:236-293 | once deleted, a qdoor cannot be opened: open reports not found |
| RegistrySpec.DelDoesNotDecrementCount | ipceng.c:219-234 | add followed by delete restores the list but leaves the count one higher |
| RegistrySpec.DelAllSpec | ipceng.c:251-260 | delete-all empties the list, unlinks every record's queue names and no other name, keeps the count and returns 0 with no error |
| RegistrySpec.OpenEntry | ipceng.c:267-286 | reopening keeps names and configuration; it succeeds exactly when every queue that is not open gets a good handle; success leaves both queues opened with the new handles, creates the reopened names, and leaves already-open queues untouched; a sending-queue failure only stores -1 as the sending handle and creates nothing; a receiving-queue failure stores -1 as the receiving handle and leaves the sending queue closed |
| RegistrySpec.OpenSpec | ipceng.c:262-294 | open succeeds exactly when the name is registered and every closed queue of its record gets a good handle; on a missing name it fails with the open error; otherwise only the found record changes, its configuration stays, the count stays, and the only names that can be created are the record's two queue names |
| RegistrySpec.OpenFullyOpenIsNoop | ipceng.c:267-288 | opening a qdoor whose two queues are already open succeeds and changes nothing but the last error |
| RegistrySpec.OpenSuccess | ipceng.c:267-288 | a successful open leaves both queues opened and does not touch a queue that was already open |
| RegistrySpec.OpenRecvFailureClosesSend | ipceng.c:276-283 | when the receiving queue cannot be opened, open fails and the sending queue ends closed even if it was open |
| RegistrySpec.OpenKeepsInv | ipceng.c:262-294 | open keeps the invariant |
| RegistrySpec.CloseSpec | ipceng.c:308-321 | close returns 0 with no error, closes only the named record, and unlinks no name; a missing name is a no-op |
| RegistrySpec.CloseIdempotent | ipceng.c:308-321 | closing a qdoor twice is closing it once |
| RegistrySpec.CloseKeepsInv | ipceng.c:308-321 | close keeps the invariant |
| RegistrySpec.CloseThenOpenRestores | ipceng.c:262-321 | close then a successful open gives back the record, opened with the new handles and its old configuration |
| RegistrySpec.CloseAllSpec | ipceng.c:323-332 | close-all returns 0 with no error and closes every queue of every record, keeping names and configuration and unlinking nothing |
| RegistrySpec.CloseAllTwice | ipceng.c:323-332 | close-all twice is close-all once |
| RegistrySpec.CloseAllKeepsInv | ipceng.c:323-332 | close-all keeps the invariant |
| RegistrySpec.PushSpec | ipceng.c:334-372 | a priority outside 0..31 fails with the push error before any lookup; a missing name fails with the push error; otherwise strlen(msg)+1 bytes go to the sending queue, timed iff its timeout is positive; success iff the send returns 0, with errno recorded otherwise |
| RegistrySpec.PopSpec | ipceng.c:374-410 | a missing name fails with the pop error; otherwise a buffer of the queue's message size is received into, timed iff the timeout is positive; a buffer is returned exactly on success, holding the delivered bytes followed by calloc's zeros, and freed on failure, with errno recorded |
| RegistrySpec.NonTimedPopRejectsDeliveredMessage | ipceng.c:394-403 | a non-timed pop whose receive delivers bytes (a positive return) is reported as a failure |
| RegistrySpec.PeersMeetOnSameQueues | ipceng.c:178-198 | two engines that register each other push and pop on the same kernel queue, and create the same names |
| RegistrySpec.DefaultAddOnEmpty | ipceng.h:153-154 | the first default add of a fresh engine succeeds when the kernel cooperates, with 3 s timeouts and 1024-byte messages |
| RegistrySpec.DefaultPushAfterAdd | ipceng.h:246 | after that add, a simple push of a plain string sends it with its terminator, priority 0, timed, on "/" local "2" peer ".mq" |
| IpcEngine.Kernel.MqOpen | ipceng.c:188 | a successful mq_open creates the name; a failing one changes nothing |
| IpcEngine.Kernel.MqUnlink | ipceng.c:227 | mq_unlink removes the name |
| IpcEngine.Engine.Init | ipceng.c:60-75 | NULL exactly for a NULL name; otherwise a new valid engine with that name, no qdoors, count 0 and no error |
| IpcEngine.Engine.SetError | ipceng.c:77-82 | the last error code and message are overwritten |
| IpcEngine.Engine.Lookup | ipceng.c:134-140 | the list search returns the position of the first record with the name, or -1 |
| IpcEngine.Engine.Term | ipceng.c:84-96 | terminating closes every qdoor as close-all does, and the engine is no longer valid |
| IpcEngine.Engine.QdoorAdd | ipceng.c:122-223 | the add method produces exactly AddSpec's state and return code and keeps the invariant |
| IpcEngine.Engine.QdoorAddSimple | ipceng.h:153-154 | add_simple is add with -1, -1, 3, 3 |
| IpcEngine.Engine.DelByEntry | ipceng.c:225-234 | both queue names are unlinked and the record is removed from the list |
| IpcEngine.Engine.QdoorDel | ipceng.c:236-249 | the delete method produces exactly DelSpec's outcome and keeps the invariant |
| IpcEngine.Engine.QdoorDelAll | ipceng.c:251-260 | deleting the head until the list is empty produces DelAllSpec's outcome |
| IpcEngine.Engine.QdoorOpen | ipceng.c:262-294 | the open method produces exactly OpenSpec's outcome (success exactly when the name is registered and every closed queue reopens) and keeps the invariant |
| IpcEngine.Engine.CloseByEntry | ipceng.c:296-306 | only the given record changes, to its closed form |
| IpcEngine.Engine.QdoorClose | ipceng.c:308-321 | the close method produces exactly CloseSpec's outcome and keeps the invariant |
| IpcEngine.Engine.QdoorCloseAll | ipceng.c:323-332 | closing record by record produces CloseAllSpec's outcome and keeps the invariant |
| IpcEngine.Engine.QdoorPush | ipceng.c:334-372 | the push method produces exactly PushSpec's outcome and send call |
| IpcEngine.Engine.QdoorSendSimple | ipceng.h:246 | send_simple is push with priority 0 |
| IpcEngine.Engine.QdoorPop | ipceng.c:374-410 | the pop method produces exactly PopSpec's outcome, receive call and buffer |
| IpcEngine.Engine.QdoorRecvSimple | ipceng.h:288 | recv_simple is pop without a priority pointer |
| IpcEngine.SendHello | test_ipceng.c:6-16 | eng1 registers eng2 and sends "hello world!" with its terminator, priority 0, timed, on "/eng12eng2.mq" |
| IpcEngine.ReceiveHello | test_ipceng.c:18-30 | eng2 registers eng1 and receives from "/eng12eng2.mq"; when the kernel delivers the 13 bytes "hello world!" and its terminator, the 1024-byte buffer starts with them |
| IpcEngine.HelloScenario | test_ipceng.c:1-37 | in the demonstration program the send and the receive address the same kernel queue |

## Left out

- POSIX message-queue calls (`mq_open`, `mq_send`/`mq_timedsend`, `mq_receive`/`mq_timedreceive`, `mq_close`, `mq_unlink`) are kernel calls. The kernel is a set of live names, and each call's answer is a parameter. Queue contents, blocking, timeouts, `clock_gettime` and the message priority written back by a receive are not modelled.
- `_read_proc_oneline_file` and `atoi` read `/proc` files. Each ceiling is an input that is unreadable or an integer. The way `atoi` parses the file's text is not modelled.
- Memory management (`malloc`, `strdup`, `calloc`, `free_safe`) is not modelled. This covers the leak of the record's name when either queue fails to open in add.
- IpcEngine.Engine.Term: in the code, `free_safe(obj)` sets `obj` to NULL, so the final `ipceng_set_error` writes through a NULL pointer and `ipceng_term` never returns once close-all has run. The model instead returns close-all's 0, records no error and marks the engine terminated, so that no method may be called on it. The failure branch (error `IPCENG_ERR_TERM`) cannot be taken, because close-all always returns 0, and it is not written.
- Logging (`has_logging`, `ipceng_log_enable`, `ipceng_log_disable`) is left out. So are the accessors `ipceng_errno` and `ipceng_errmsg`, which return a field. Error messages are an enumeration with one constructor per message the code writes, plus `OsError(errno)` for `strerror`. The literal texts are not kept.
- `ipceng_get_qdoor_count` is declared in the header but has no implementation, so it is not part of this model.
- The shared-memory API is declared in the header but has no implementation. `shm_list` and `shm_count` are not modelled.
- `ipceng_qdoor_send` and `ipceng_qdoor_recv` are macros that rename push and pop. They are covered by `QdoorPush` and `QdoorPop`.
- C `int` arithmetic is unbounded in the model. A wrap-around of `qdoor_count`, or of the buffer length, is not modelled.
- NULL arguments: three are modelled. They are `ipceng_init`'s name (`Option<string>`, NULL gives no engine), add's `qdoor_name` (`Option<string>`, NULL fails), and pop's priority pointer (`wantsPrio` false, as `recv_simple` passes). A NULL `qdoor_name` passed to del, open, close, push or pop, a NULL `msg` passed to push, and a NULL `buff` passed to pop are not modelled: the model's string parameters cannot be NULL. In the code the names reach `strcmp` and the message `strlen`, which is undefined behaviour when the list is not empty.
- Each Dafny `char` stands for one byte. `StrLen` and `Payload` count characters where `strlen` counts bytes, so a message with multi-byte characters is not modelled.
- Peer names are strings without an end marker. A NUL inside a name, which would cut it short for `strcmp` and `sprintf`, is not modelled.
- IpcEngine.Engine.QdoorPop: a pop on a missing name leaves the caller's buffer pointer as it was. The model returns no buffer.
- RegistrySpec.PopSpec: as a modelling choice, a queue whose stored message size is not positive gets a buffer of size 0 (`BufSize`). In the code, a negative size is converted to a huge `size_t`, `calloc` returns NULL, and the receive is handed a NULL buffer. Such a record can exist, because a negative `msg_maxsize` such as -2 passes the ceiling check and `mq_open` on an existing queue ignores the attributes. Neither the NULL buffer nor what the kernel then does is modelled.
- The intrusive list (`list.h`) is a sequence in insertion order, and a record's position is its index. Aliasing of list nodes is not modelled.
