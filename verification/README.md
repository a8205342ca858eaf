# LaunchMON: daemon trees, handshakes and sessions

This project models the communication core of LaunchMON and proves what its protocols guarantee over every
interleaving of the processes that take part.

**Processes and sockets.** `Network` is a small theory of concurrent processes: each runs a deterministic program of
blocking reads of an exact size, writes, announcements of events, and a return; each ordered pair has a FIFO byte
channel; any process that can move may move next. Independent steps commute (`Network.StepsCommute`), so one schedule
that gets stuck in a final state speaks for all schedules (`Network.EveryRun`): they are bounded, they all lead to that
same state, and what it says about causality holds of every state on the way. Beside the bytes, a state carries what
each process knows to have happened; this turns "nobody can be back from a barrier before everybody has entered it" and
"the launcher is released last" into theorems about all reachable states. The programs of the model are continuation
functions that read like the source, branch by branch; the proofs run them along the bisection of the rank interval
(`TreeRuns`).

**COBO** (`CoboTree`, `CoboTask`, `LocalRun`, `Collectives`, `CollectiveRuns`, `CoboProgram`, `Tracking`, `CoboJob`).
`CoboTask.Task` is the imperative side: the child arrays filled by the bisection loop, the byte loops, and the
collectives working in place on buffers, each proved against the program of its rank run alone. `CoboTree` shows that
the n independent computations give one tree; `CoboProgram` composes any sequence of calls by any number of tasks. The
two sides meet in `LocalRun.RunIsLocal`: in any run of the network a process does what it does alone on the bytes the
run sends it. `CoboJob` draws the conclusion: fed with what any completed run sends it, each of the four imperative
collectives succeeds, leaves the meaning of the call in the caller's buffer, reads its streams to the end and writes
what the run has carried away from it.

**Bring-up** (`HostList`, `BringUp`, `Connect`). The server's host list, the assignment of ranks down the tree over
arbitrary interleavings with several tasks on one host allowed, and the commit protocol of a connection with retries
and timeouts on both sides, first of one parent with one task, and then of any number of parents that dial any number
of tasks at the same time.

**Handshake** (`Handshake`, `Packets`). The rounds of the security handshake as programs of two processes, with end of
file when the peer has returned; `Packets` adds what honest sides seal and compare.

**Sessions** (`Lmonp`, `StringTable`, `HostTable`, `Rpdtab`, `Session`, `SessionRuns`, `SessionSafety`, `SessionEnds`,
`BrokenRuns`, `SessionOutcomes`).
The message header and its payload addresses, the two-pass host name packer, the process table with its readers, and
the whole conversation of the front end with the n daemons, from the security check to the ready message.
`SessionSafety` takes the sessions in which things fail: the key is not recognized, there is no process table, user
data cannot be packed, process control fails on any of the daemons, and end of file brings down whoever waits for those
that have returned. Step by step, the session in which nothing fails can keep up with such a session, with the same
bytes under way and the same announcements (`SessionSafety.StepBeside`), so that the theorem about the one covers what
is announced in the other. `SessionEnds` adds that every session ends: those who had not returned in a state in which
nobody can move would wait for one another for ever in the session in which nothing fails, too, and that one ends.
`SessionOutcomes` says what that end is: a table over the configuration gives what the front end and every daemon
return and whether the launcher is released (`DaemonOutcome`, `FrontEndOutcome`, `ReleaseDue`). For each way to fail one
schedule is run to its end, down to the barrier nobody gets through (`BrokenRuns`), and as there is only one end, it is
that of all schedules.

**Smaller cores** (`RshSpawner`, `Coloc`, `BlueGene`, `BlueGeneQ`).

Where the code does not deliver what its design suggests, the model keeps the code and a lemma states exactly when it
does: a front end with user data but no function to pack them gives up while its daemons succeed and the launcher is
never released (`SessionOutcomes.DaemonsAlone`), a child can lose patience with a connection its parent has committed to
(`Connect.AdoptsUnlessMissed`), a host whose name is `nohost`, is empty or contains a colon is not passed on as it is by
the remote-shell spawner (`RshSpawner.EveryListIsCovered`), a co-located daemon gets an extra empty argument
(`Coloc.WhatArrives`), and the doubling loop that sizes the child arrays is good for up to 2^30 tasks
(`CoboTree.DoublingFitsInt`).

## Model

| member | source | states |
|---|---|---|
| CoboTree.SubtreeIsInterval | tools/cobo/src/cobo.c:742-756 | the tasks below a task are exactly the ranks from its own to the last one its counts give |
| CoboTree.ChildrenMatchParents | tools/cobo/src/cobo.c:746-755 | c stands in the child array p computes just if c is not 0 and computes p as its parent |
| CoboTree.RootHasNoParent | tools/cobo/src/cobo.c:735-756 | rank 0 is the root and its subtree is the whole job |
| CoboTree.ChildEntry | tools/cobo/src/cobo.c:747-752 | every recorded count is the size of the subtree the child computes for itself, and the children's intervals tile the parent's in descending order |
| CoboTree.KidsHalve | tools/cobo/src/cobo.c:745-755 | a task whose subtree has m > 1 ranks, itself included, has the first child m / 2 ranks behind it, which answers for m - m / 2 ranks, and the rest of its array is that of a subtree of m / 2 ranks; for rank 0, m is n |
| CoboTree.ChildInClosedForm | tools/cobo/src/cobo.c:745-755 | with m halved k + 1 times, rounding down, the k-th child's rank is reached, and it answers for what the last halving took away |
| CoboTree.KidsAreFew | tools/cobo/src/cobo.c:726-740 | with room for k children where 2^k covers the job, no child array overflows |
| CoboTree.LogarithmicTree | tools/cobo/src/cobo.c:726-756 | the height of every task in the tree is at most the least k with 2^k at least n |
| CoboTree.DoublingFitsInt | tools/cobo/src/cobo.c:727-732 | the doubling of n stays inside 32 bits just if there are at most 2^30 tasks |
| CoboTask.MaxChildren | tools/cobo/src/cobo.c:726-732 | the doubling loop finds the least k with 2^k at least n, without overflow |
| CoboTask.Task.AddChild | tools/cobo/src/cobo.c:747-752 | one entry is appended and counted |
| CoboTask.Task.Halve | tools/cobo/src/cobo.c:745-755 | one round cuts the interval behind its lower half, rounded down, enters the child or the parent the cut reveals, and keeps the half with the rank in it; what remains to be entered is kept, and there is room for it |
| CoboTask.Task.ComputeChildren | tools/cobo/src/cobo.c:724-759 | the loop ends and leaves the parent and the child arrays that the tree functions define, in arrays of least sufficient size; the arrays are the halving of the task's subtree, which for rank 0 is the whole job |
| CoboTask.Task.ReadFd | tools/cobo/src/cobo.c:299-388 | however the bytes arrive in pieces, exactly size bytes are consumed in order, or end of file is reported |
| CoboTask.Task.WriteFd | tools/cobo/src/cobo.c:251-297 | however the socket takes them, exactly the given bytes are written in order |
| CoboTask.Task.BcastTree | tools/cobo/src/cobo.c:1022-1048 | the in-place broadcast plays the rank's broadcast program, or starves where that program does |
| CoboTask.Task.ReduceLoop | tools/cobo/src/cobo.c:1055-1074 | the children are read last to first and the maximum is what the program computes |
| CoboTask.Task.AllreduceMaxIntTree | tools/cobo/src/cobo.c:1051-1094 | the imperative reduction and broadcast play the rank's allreduce program |
| CoboTask.Task.CollectLoop | tools/cobo/src/cobo.c:1111-1122 | the blocks read from the last child to the first fill the buffer from the front without gap or overlap |
| CoboTask.Task.GatherTree | tools/cobo/src/cobo.c:1097-1136 | the in-place gather plays the rank's gather program and leaves other ranks' receive buffers alone |
| CoboTask.Task.SpreadLoop | tools/cobo/src/cobo.c:1156-1167 | every child is sent its slice from the running offset |
| CoboTask.Task.ScatterTree | tools/cobo/src/cobo.c:1139-1178 | the in-place scatter plays the rank's scatter program |
| LocalRun.RunIsLocal | tools/cobo/src/cobo.c:251-388 | in any run of the network in which a process meets no end of file, it goes through the same programs as alone on the bytes the run sends it; what is left of its streams is what is left on its channels, and what it writes is what the run carries away from it |
| LocalRun.OneEnd | tools/cobo/src/cobo.c:1022-1178 | a process that comes to its end on given streams does not starve on them and has no other end |
| CoboJob.CompletesWithoutEof | tools/cobo/src/cobo.c:1022-1178 | since every failed read exits, a task that returns from a collective has met no end of file in that run |
| CoboJob.TaskInJob | tools/cobo/src/cobo.c:1022-1417 | fed with what any completed run of a job has sent it, a task's part of any of the seven collectives does not starve and ends with exactly the meaning of the call, all its input read and just its part of the traffic written |
| CoboJob.EveryTaskEnds | tools/cobo/src/cobo.c:1022-1417 | for every completed run of a job and every rank there are such streams, and on them the task's part of the call ends with the meaning of the call |
| CoboJob.BcastInJob | tools/cobo/src/cobo.c:1022-1048 | the in-place broadcast succeeds in a job and leaves rank 0's bytes in the buffer |
| CoboJob.AllreduceInJob | tools/cobo/src/cobo.c:1051-1094 | the imperative reduction succeeds in a job and leaves the maximum of all ranks' values |
| CoboJob.GatherInJob | tools/cobo/src/cobo.c:1097-1136 | the in-place gather succeeds in a job and leaves all blocks in rank order at rank 0 |
| CoboJob.ScatterInJob | tools/cobo/src/cobo.c:1139-1178 | the in-place scatter succeeds in a job and leaves slice i of rank 0's buffer at rank i |
| TreeRuns.Up | tools/cobo/src/cobo.c:1097-1136 | on any interval of the bisection: if parent and child messages fit at every joint, the subtree is swept up in one message each, and the root has heard of everybody |
| TreeRuns.Down | tools/cobo/src/cobo.c:1022-1048 | on any interval of the bisection: if messages fit at every joint, everybody below is served and learns what the root knew |
| TreeRuns.Deal | tools/cobo/src/cobo.c:1139-1178 | the same for a sweep in which every subtree is handed a message of its own |
| CollectiveRuns.GatherRuns | tools/cobo/src/cobo.c:1097-1136 | rank 0 ends with all ranks' blocks in rank order, for any n, block size and contents; no byte is left and no read crosses calls |
| CollectiveRuns.BcastRuns | tools/cobo/src/cobo.c:1022-1048 | every rank ends with rank 0's bytes |
| CollectiveRuns.AllreduceRuns | tools/cobo/src/cobo.c:1051-1094 | every rank ends with the maximum and knows all that any rank knew at its start |
| CollectiveRuns.MaxOfIsMax | tools/cobo/src/cobo.c:1070-1073 | the value reduced is one of the ranks' values and none is larger |
| CollectiveRuns.ScatterRuns | tools/cobo/src/cobo.c:1139-1178 | rank i ends with slice i of rank 0's buffer |
| CollectiveRuns.BarrierRuns | tools/cobo/src/cobo.c:1203-1217 | every rank gets through the barrier, knowing all that any rank knew when it entered |
| CollectiveRuns.AllgatherRuns | tools/cobo/src/cobo.c:1307-1322 | every rank ends with all blocks in rank order |
| CollectiveRuns.AllgatherStrRuns | tools/cobo/src/cobo.c:1381-1417 | every rank ends with all strings in slots of the longest string's length |
| CollectiveRuns.BlockAt | tools/cobo/src/cobo.c:1097-1136 | rank i's block lies at offset i times the block size |
| CollectiveRuns.StringAt | tools/cobo/src/cobo.c:1400-1411 | entry i of the returned array is, as a C string, exactly what rank i passed in, for strings of any differing lengths, and a slot is as long as the longest of them with its NUL |
| CoboProgram.ChopConcat | tools/cobo/src/cobo.c:1139-1178 | the slices a buffer is cut into put it together again |
| CoboProgram.ScatterThenGather | tools/cobo/src/cobo.c:1097-1178 | scattering rank 0's buffer and gathering what was received restores it, for all n and slice sizes |
| CoboProgram.CallRuns | tools/cobo/src/cobo.c:1022-1417 | each of the seven collectives delivers its one-line meaning to every rank |
| CoboProgram.EveryInterleaving | tools/cobo/src/cobo.c:1203-1217 | for any n and any sequence of calls with consistent arguments, every interleaving takes the same number of steps to the same complete state, is never stuck before, never reads a byte of another call, and no task is back from a synchronizing call that some task has not entered |
| HostList.ExpandRoundTrip | tools/cobo/src/cobo.c:711-721 | the name found at a rank's offset is that rank's host |
| HostList.TotalSize | tools/cobo/src/cobo.c:1580-1585 | the first loop computes the room all names need |
| HostList.Build | tools/cobo/src/cobo.c:1587-1603 | the server's loop fills the table with exactly the offsets and names |
| BringUp.MeetKeeps | tools/cobo/src/cobo.c:960-972 | connecting to a task on the next child's host keeps the invariant: one contact a rank, one rank a task, each from the parent of the rank |
| BringUp.WriteKeeps | tools/cobo/src/cobo.c:656-701 | forwarding one of the four messages keeps it |
| BringUp.ReadKeeps | tools/cobo/src/cobo.c:914-957 | reading one of them keeps it, and the last makes the task a parent none of whose children has been contacted |
| BringUp.Progress | tools/cobo/src/cobo.c:914-986 | as long as the tree is not open some party can move |
| BringUp.EveryOpening | tools/cobo/src/cobo.c:1565-1634 | in whatever order server and tasks move: a running task always has the rank of its own host, n and the whole list, and no two have one rank; after exactly 9 n moves, and not before, every rank has its task, contacted by the task of its parent rank |
| Connect.ParentActKeeps | tools/cobo/src/cobo.c:564-618 | a step of the connecting side keeps the invariant of all connections ever opened |
| Connect.ChildActKeeps | tools/cobo/src/cobo.c:846-904 | a step of the accepting side keeps it |
| Connect.OnlyCommitted | tools/cobo/src/cobo.c:529-641 | over all timeouts and retries, a child adopts only the connection on which the parent passed its checks and wrote the ack, and then all ids of the two agree |
| Connect.AdoptsUnlessMissed | tools/cobo/src/cobo.c:891-904 | once the parent is connected, the child can still adopt that connection just if it has not given up on it |
| Connect.EachPairRuns | tools/cobo/src/cobo.c:536-611 | with any number of parents and tasks, every run is, for each parent and each task, a run of these two alone |
| Connect.AdoptionsMatch | tools/cobo/src/cobo.c:536-618 | however many parents dial however many tasks at the same time, turning from one to another and trying again, adoptions are a matching: no task adopts from two parents and no two tasks from one, and each adopts the connection on which its parent passed its checks and wrote the ack |
| Connect.CrowdAdoptsUnlessMissed | tools/cobo/src/cobo.c:536-618 | once a parent is connected, a task can still adopt from it just if it is the one the parent is connected to and has not given up on that connection |
| Connect.CanBeMissed | tools/cobo/src/cobo.c:891-900 | a run in which the parent keeps a connection the child has closed |
| Handshake.SharedRoundTrip | tools/handshake/handshake.c:1075-1116 | the shared verdict is read back as it was written |
| Handshake.SwapLengths | tools/handshake/handshake.c:1177-1248 | both sides can write length and packet before either reads |
| Handshake.RoundEnds | tools/handshake/handshake.c:285-408 | whatever the local results, a round ends with both sides returned, both in the next round, or one alone with end of file before it |
| Handshake.EveryHandshake | tools/handshake/handshake.c:234-408 | for all local results every interleaving ends with the return codes that those results determine, and the two sides are never more than one round apart |
| Handshake.RoundRefused | tools/handshake/handshake.c:260-283 | when packets have been exchanged and somebody objects, whoever objects returns its own verdict, whoever accepts returns that it was refused, and whoever wishes for another round returns an internal error, or aborts in the third round |
| Handshake.EveryRefusal | tools/handshake/handshake.c:1075-1116 | over all interleavings, after any rounds that leave both sides undecided: if one side accepts and the other objects, the one ends with a refused connection and the other with its own verdict; two sides that object each end with their own |
| Handshake.OthersDropped | tools/handshake/handshake.c:1151-1175 | whatever four bytes arrive in place of the signature, the connection is dropped at once |
| Handshake.Agreement | tools/handshake/handshake.c:260-283 | the server returns success just if the client does, and neither returns the request for another round |
| Handshake.PatientOutcome | tools/handshake/handshake.c:260-274 | while the local verdicts are accept or again, both succeed in the first of three rounds both accept, or both abort after the third |
| Packets.VerdictIs | tools/handshake/handshake.c:1013-1073 | the verdict on the peer's packet, as a function of expiry and of the difference between the two views |
| Packets.HonestHandshake | tools/handshake/handshake.c:285-408 | over all runs two honest sides both succeed just if they agree on session, user and both ends of the connection and some round's packets open |
| Packets.DifferentViews | tools/handshake/handshake.c:1018-1069 | if the views differ nobody succeeds, and both drop when the sessions differ and both abort otherwise |
| Lmonp.HeaderRoundTrip | launchmon/src/linux/lmon_api/lmon_lmonp_msg.cxx:541-585 | a reader recovers every field of a header whatever follows it |
| Lmonp.HeaderLayout | launchmon/src/lmon_api/lmon_lmonp_msg.h:400-427 | each field of a header stands in a word of its own, in the order of the struct |
| Lmonp.PayloadsFound | launchmon/src/linux/lmon_api/lmon_lmonp_msg.cxx:587-607 | both payloads lie at the addresses computed from the header, and an empty one has none |
| StringTable.Lookup | launchmon/src/linux/lmon_api/lmon_be.cxx:706-720 | a C reader finds every string of a table at its offset |
| StringTable.NoneTwice | launchmon/src/linux/lmon_api/lmon_be.cxx:659-670 | no string stands in the table twice |
| HostTable.Measure | launchmon/src/linux/lmon_api/lmon_be.cxx:658-670 | the first pass gives every distinct name its offset and computes the size of the table |
| HostTable.Pack | launchmon/src/linux/lmon_api/lmon_be.cxx:651-720 | the two-pass packer produces the message and ends exactly at the size computed by the first pass |
| HostTable.HostnameHeaderReads | launchmon/src/linux/lmon_api/lmon_lmonp_msg.cxx:638-647 | the reader's task count and string table address are right on both sides of the threshold for 16-bit counts |
| HostTable.MessageRoundTrip | launchmon/src/linux/lmon_api/lmon_be.cxx:672-720 | the reader recovers the number of daemons and, for every i, host i |
| HostTable.HostLayout | launchmon/src/linux/lmon_api/lmon_be.cxx:672-720 | host i is the C string at the offset that the i-th word behind the header gives, counted from the end of the words |
| Rpdtab.UniquesAreAll | launchmon/src/sdbg_base_launchmon_impl.hxx:473-495 | the counts of executables and hosts put into the header add up to the distinct strings of the table |
| Rpdtab.UniquesCount | launchmon/src/sdbg_base_launchmon_impl.hxx:473-495 | the first count is that of the names that come up as an executable before they come up as a host, the second that of the names that come up as a host before they come up as an executable |
| Rpdtab.HostsAreCounted | launchmon/src/sdbg_base_launchmon_impl.hxx:473-495 | if no host has the name of an executable, the two counts are those of the distinct executables and of the distinct hosts |
| Rpdtab.CountsArrive | launchmon/src/sdbg_base_launchmon_impl.hxx:511-517 | the header of the table message, as shipped and as passed on by the front end, holds the number of executables in the lower and that of hosts in the upper 16 bits, modulo 65536; the latter is the number of daemons the front end takes |
| Rpdtab.TableRoundTrip | launchmon/src/sdbg_base_launchmon_impl.hxx:497-559 | the flat table survives shipping and the front end's relabelling, for any number of tasks |
| Rpdtab.EntryLayout | launchmon/src/sdbg_base_launchmon_impl.hxx:525-559 | the five words of task i stand behind the header and those of the tasks before it, the first two being offsets of strings behind all entries |
| Rpdtab.ParseTable | launchmon/src/linux/lmon_api/lmon_lmonp_msg.cxx:675-734 | the loop builds the order-preserving partition of the flat table by host, or reports what is missing |
| Rpdtab.GetProctable | launchmon/src/linux/lmon_api/lmon_fe.cxx:4061-4103 | the caller's buffer gets the first entries of the flat table, and truncation is reported just if there are more |
| Rpdtab.BackEnd.FillCache | launchmon/src/linux/lmon_api/lmon_be.cxx:1130-1143 | the cached partition is built once and stays the partition of the message |
| Rpdtab.BackEnd.FindSlice | launchmon/src/linux/lmon_api/lmon_be.cxx:1149-1168 | the first alias that has entries decides |
| Rpdtab.BackEnd.GetMyProctabSize | launchmon/src/linux/lmon_api/lmon_be.cxx:1192-1240 | the size is that of the daemon's slice |
| Rpdtab.BackEnd.GetMyProctab | launchmon/src/linux/lmon_api/lmon_be.cxx:1122-1186 | the daemon's buffer gets its slice in table order, and truncation is reported just if it is too small |
| Rpdtab.SlicesConserveTable | launchmon/src/linux/lmon_api/lmon_be.cxx:1136-1180 | if no two daemons answer to one host and every host has its daemon, the slices are disjoint and together are the table |
| SessionRuns.HostsRead | launchmon/src/linux/lmon_api/lmon_fe.cxx:1714-1768 | the front end accepts the host name message and reads exactly its payload |
| SessionRuns.TableRead | launchmon/src/linux/lmon_api/lmon_be.cxx:748-781 | the master accepts the process table message and reads exactly its payload |
| SessionRuns.OrdersRead | launchmon/src/linux/lmon_api/lmon_be.cxx:790-827 | every launch or attach mode the front end sends is understood as that mode, and the resource manager type arrives |
| SessionRuns.UsrRead | launchmon/src/linux/lmon_api/lmon_be.cxx:832-853 | user data present or absent, the master reads exactly what was sent |
| SessionRuns.ReadyRead | launchmon/src/linux/lmon_api/lmon_fe.cxx:961-1013 | the ready message, with or without user data, is accepted and read to its last byte |
| SessionRuns.ShareRun | launchmon/src/linux/lmon_api/lmon_be.cxx:861-907 | mode, resource manager type and the whole process table message reach every daemon |
| SessionRuns.ReleaseRun | launchmon/src/linux/lmon_api/lmon_fe.cxx:1846-1896 | when the front end releases the launcher it knows of every daemon's readiness |
| SessionRuns.EverySession | launchmon/src/linux/lmon_api/lmon_fe.cxx:1645-1912 | for any number of daemons, any mode, user data or none, with a recognized key and process control that works: every interleaving takes the same number of steps to the same end with all daemons successful, the front end with the result of its own callback, no message mismatch and no byte left |
| SessionSafety.StepBeside | launchmon/src/linux/lmon_api/lmon_be.cxx:844-1046 | any step of any session is one the session in which nothing fails can take too, to a state with the same bytes under way and the same announcements, in which all parties that have not given up stand at the same places; or it is one of a bounded number of steps at end of file, by which nothing is written or announced |
| SessionSafety.EveryRelease | launchmon/src/linux/lmon_api/lmon_be.cxx:961-994 | for every well-formed session, whatever the key, the callbacks, the process table and process control on each daemon come to, and whoever meets end of file in consequence: at no reachable state has the launcher been released while some daemon has not initialized process control, nor when one of them has failed to |
| SessionRuns.HealthySession | launchmon/src/linux/lmon_api/lmon_be.cxx:748-781 | with or without a process table, a session in which the rest goes well has one end for all interleavings, in which all have returned |
| SessionEnds.StuckIsOver | launchmon/src/linux/lmon_api/lmon_be.cxx:600-1046 | in no session does anybody wait for ever: when nobody can move, all have returned |
| SessionEnds.EveryEnding | launchmon/src/linux/lmon_api/lmon_fe.cxx:1645-1912 | for every well-formed session, whatever fails: all interleavings take the same number of steps to the same end, in which all have returned, and the launcher is never released early on the way |
| BrokenRuns.BarrierBreaks | tools/cobo/src/cobo.c:1203-1217 | a barrier that some member never enters, because it has returned before, lets nobody through: however the tree lies, all that are in it exit |
| SessionOutcomes.EveryOutcome | launchmon/src/linux/lmon_api/lmon_fe.cxx:1645-1912 | for every well-formed session all interleavings lead to the end in which each party has returned what a table over the configuration says, and the launcher has been released just if the key is recognized, user data could be packed, there is a process table and all daemons have initialized process control |
| SessionOutcomes.Unrecognized | launchmon/src/linux/lmon_api/lmon_fe.cxx:1698-1708 | a front end that does not recognize its master's key, at no time of any run, writes it a single byte or has the launcher released, and returns LMON_ESYS |
| SessionOutcomes.FrontEndFails | launchmon/src/linux/lmon_api/lmon_fe.cxx:774-852 | over all interleavings, with a recognized key: the front end returns LMON_EINVAL if its user data cannot be packed, and LMON_ENCLLB if there is no function to pack them, and the launcher is not released |
| SessionOutcomes.NoOrders | launchmon/src/linux/lmon_api/lmon_be.cxx:748-768 | over all interleavings: if the key is not recognized, user data cannot be packed or there is no process table, the master reports a bad message and the other daemons exit; in the last case a front end whose callbacks work returns LMON_ESYS |
| SessionOutcomes.InitFailure | launchmon/src/linux/lmon_api/lmon_be.cxx:961-970 | over all interleavings: every daemon whose process control cannot be initialized returns its own error, all others exit, and the front end, if it is still there, returns LMON_ESYS |
| SessionOutcomes.SettleFailure | launchmon/src/linux/lmon_api/lmon_be.cxx:996-1001 | over all interleavings: every daemon that fails after the request to release the launcher returns its own error, all others exit, and the front end, if it is still there, has released the launcher and returns LMON_EBDMSG |
| SessionOutcomes.DaemonsAlone | launchmon/src/linux/lmon_api/lmon_fe.cxx:802-817 | over all interleavings: beside a front end with user data but no function to pack them all daemons succeed, and the launcher is not released |
| SessionRuns.DaemonsHaveTable | launchmon/src/linux/lmon_api/lmon_be.cxx:900-907 | the message every daemon ends up with decodes to the table the engine shipped |
| SessionRuns.FrontEndHasHosts | launchmon/src/linux/lmon_api/lmon_be.cxx:636-732 | the front end reads daemon i's host name at index i |
| RshSpawner.ArgumentRoundTrip | launchmon/src/linux/sdbg_rsh_spawner.hxx:104-118 | any joined list is split into itself just if all its names are non-empty, have no delimiter in them and are not the name for none |
| RshSpawner.Spawner.Collect | launchmon/src/linux/sdbg_rsh_spawner.cxx:74-100 | the loops join a part of the host list with delimiters, or write the word for none |
| RshSpawner.Spawner.Spawn | launchmon/src/linux/sdbg_rsh_spawner.cxx:53-127 | the two remote shells and their arguments, for every size of the list: the first host gets the hosts before the middle one, and the middle one those behind it |
| RshSpawner.CommandArrives | launchmon/src/linux/sdbg_rsh_spawner.cxx:102-124 | each of the two is handed a shorter part of the list; it finds that part just if all its names survive, and names that survive the next time in any case |
| RshSpawner.EveryListIsCovered | launchmon/src/linux/sdbg_rsh_spawner.cxx:58-124 | for any list, all spawners together start each host exactly once and in its order just if all names that are passed on survive |
| RshSpawner.NoHostIsLost | launchmon/src/linux/sdbg_rsh_spawner.hxx:104-118 | a list whose third host is called `nohost` is covered without it |
| RshSpawner.ColonSplits | launchmon/src/linux/sdbg_rsh_spawner.hxx:104-118 | a host whose name contains a colon is started as two hosts |
| RshSpawner.LogarithmicDepth | launchmon/src/linux/sdbg_rsh_spawner.cxx:58-124 | a depth of d remote shells needs at least 2^d - 1 hosts if names survive, and in any case 2^(d-1) - 1 names found by one of the spawners started first |
| Coloc.Pack | launchmon/src/linux/lmon_api/lmon_coloc_spawner.cxx:84-109 | path and arguments are written in order, each with its NUL, with a closing NUL behind them |
| Coloc.NextCstr | launchmon/src/linux/lmon_api/lmon_coloc_spawner.cxx:121-129 | the scan stops behind the string, and refuses an empty one |
| Coloc.Parse | launchmon/src/linux/lmon_api/lmon_coloc_spawner.cxx:131-142 | the reader takes the strings up to the first empty one, the closing NUL counting as one |
| Coloc.WhatArrives | launchmon/src/linux/lmon_api/lmon_coloc_spawner.cxx:100-142 | non-empty arguments arrive in order followed by one extra empty argument; they arrive unchanged just if the last and only the last is empty |
| Coloc.ExtraArgument | launchmon/src/linux/lmon_api/lmon_coloc_spawner.cxx:100-142 | a path without arguments arrives with an empty argument |
| BlueGene.Control.InitBg | launchmon/src/linux/lmon_api/lmon_be_sync_mpi_bg.cxx:126-173 | every rank is attached and stopped by one request each, acks consumed; in launch mode the stops stay owed |
| BlueGene.Control.StopBg | launchmon/src/linux/lmon_api/lmon_be_sync_mpi_bg.cxx:175-222 | every stop's ack and notice are consumed and all ranks are stopped |
| BlueGene.Control.StopAllWoNotiReap | launchmon/src/linux/lmon_api/lmon_be_sync_mpi_bg.cxx:93-124 | the stops are requested, no notice is consumed and the flag is untouched |
| BlueGene.Control.ReapStopNoti | launchmon/src/linux/lmon_api/lmon_be_sync_mpi_bg.cxx:66-91 | success just if as many stop notices as ranks come first, whatever else is in the pipe; the flag is set only then |
| BlueGene.Control.RunBg | launchmon/src/linux/lmon_api/lmon_be_sync_mpi_bg.cxx:224-275 | ranks are stopped first if need be, then each is continued once, and the flag is cleared |
| BlueGene.Operate | launchmon/src/linux/lmon_api/lmon_be_sync_mpi_bg.cxx:175-275 | over any sequence of stop and continue calls the requests and the stopped ranks are those the sequence determines, and between any two calls the flag says stopped only if all ranks are, and if there are any ranks, just then |
| BlueGene.Synchronize | launchmon/src/linux/lmon_api/lmon_be_sync_mpi_bg.cxx:126-294 | in either mode, with notices in any order, from the initialization through any later calls every reply is consumed exactly once, the requests are the ones due, and the flag is right in that sense |
| BlueGeneQ.VisitsAreTable | launchmon/src/linux/lmon_api/lmon_be_sync_mpi_bgq.cxx:1829-1839 | the nested loops over nodes and ranks visit each entry of the table exactly once |
| BlueGeneQ.Tool.EachRank | launchmon/src/linux/lmon_api/lmon_be_sync_mpi_bgq.cxx:1375-1540 | one request per rank in order, to take control, to stop or to give control up, each matched by its own ack, and its notice where stops are awaited |
| BlueGeneQ.Tool.EachThread | launchmon/src/linux/lmon_api/lmon_be_sync_mpi_bgq.cxx:991-1105 | for every rank the thread list and one request for each thread |
| BlueGeneQ.Tool.ReapStopNoti | launchmon/src/linux/lmon_api/lmon_be_sync_mpi_bgq.cxx:1316-1373 | every node's notices are consumed, one for each of its ranks |
| BlueGeneQ.Tool.InitBgq | launchmon/src/linux/lmon_api/lmon_be_sync_mpi_bgq.cxx:1796-1919 | every node of the table is attached to once before all else; then, as often as the table lists a rank, control of it is acquired, each of its threads let go, and it is stopped, in this order |
| BlueGeneQ.Tool.InitDoneBgq | launchmon/src/linux/lmon_api/lmon_be_sync_mpi_bgq.cxx:1963-2003 | as often as the table lists a rank, each of its threads is held and control of it given up, in this order; every node is detached from once after all else |
| BlueGeneQ.BothGuard | launchmon/src/linux/lmon_api/lmon_be_sync_mpi_bgq.cxx:1796-2003 | for each rank of the table: its node is attached to before control is acquired, which comes before the stop, which comes before control is given up, which comes before the node is detached from; each thread is let go between acquisition and stop, and held between stop and release |
| BlueGeneQ.Synchronize | launchmon/src/linux/lmon_api/lmon_be_sync_mpi_bgq.cxx:1796-2003 | in either mode all that has been sent is in that order and made as often as the table and the thread lists say, every reply is consumed, and no sequence number is used twice |

## Left out

- Sockets, `poll`, `fork`/`exec`, name lookup, environment variables, clocks and logging: sockets are FIFO byte channels, the rest are parameters or nondeterministic moves.
- Blocking writes: channels are unbounded, so a write never waits for its reader. The model says nothing about runs that need a full socket buffer to make progress.
- I/O failures other than end of file: a write always succeeds, and a read fails only when the peer has returned and too few bytes are left.
- A returned process is taken to have closed its sockets; a front end that reports an error but keeps its session sockets open is not modelled.
- Arithmetic of buffer sizes in the collectives: byte counts are natural numbers, taken to fit an int.
- Roots other than 0, `cobo_alltoall` and the commented-out variants: the code exits or is unsupported there.
- The imperative form of the barrier, allgather and allgather_str: they are modelled as compositions of the programs of the four tree collectives.
- BringUp.EveryOpening: a connection is one move there. What may happen while connections are made, by all parents at the same time, is the subject of `Connect.AdoptionsMatch`; that the whole tree opens is not stated for runs in which a task misses the connection its parent has settled on.
- Connect.EachPairRuns: a task may accept from any parent that has dialed it, in whatever order; that its queue is first-in, first-out over all parents is not used.
- BringUp.EveryOpening: connecting always succeeds in the end; the descriptor returned when the time limit expires is not modelled.
- Connect.OnlyCommitted: the security handshake that precedes the ids on each connection, and connections opened by strangers, are not part of it; ids and ack travel as whole words.
- Handshake.EveryHandshake: what the local steps compute is arbitrary within the codes they can return; munge and libgcrypt are not modelled, `Packets` takes sealing as perfect.
- Session.WellFormed: the session theorems take messages below 2 GB, buffers of their announced lengths and fields that fit their bits.
- Session.FeKeys: a first header that cannot be read leaves an uninitialized one in the code; the model reports a bad message.
- Session.ContKont: the same holds for the header of the ready message.
- SessionSafety.EveryRelease: the engine is only told to continue; what it does then is not modelled.
- Rpdtab.GetProctable: for a message with a payload that is not labelled as a process table the code computes string addresses from a null pointer; the model reports LMON_EDUNAV.
- Rpdtab.Shipped: the engine's packer is given as a function of the table, not as its loop; the table comes in the order in which the engine walks it.
- RshSpawner.Spawner.Spawn: process ids and the command line in front of the option are not modelled, and the two loops share one method.
- CoboTask.Task.ReadFd: poll hang-ups, timeouts and read errors are not modelled; a read fails only at end of file.
- CoboTask.Task.WriteFd: write errors and the result -1 they lead to are not modelled.
- BlueGene.Control.WriteOnFd: the control system answers every request, in order; a notice lost or a request refused is covered only by the error results of the reading methods.
- BlueGene.Control.InitBg: refused requests, wrong replies and the error results they lead to are not modelled.
- BlueGene.Control.StopBg: refused requests, wrong replies and the error results they lead to are not modelled.
- BlueGene.Control.StopAllWoNotiReap: refused requests and the error results they lead to are not modelled.
- BlueGene.Control.RunBg: refused requests, wrong replies and the error results they lead to are not modelled.
- BlueGene.Operate: the same holds, as it is made of the two calls above.
- BlueGene.Synchronize: the same holds; while a call is under way the flag may lag behind the ranks.
- BlueGeneQ.Tool.Exchange: the fields of a message other than its kind, its rank and its sequence number are left out, and sequence numbers do not wrap around.
- BlueGeneQ.Tool.EachRank: error replies and the other message fields are not modelled.
- BlueGeneQ.Tool.EachThread: error replies and the other message fields are not modelled.
- BlueGeneQ.Tool.ReapStopNoti: wrong notices and the error results they lead to are not modelled.
- BlueGeneQ.Tool.InitBgq: error replies and the error results they lead to are not modelled.
- BlueGeneQ.Tool.InitDoneBgq: error replies and the error results they lead to are not modelled.
- BlueGeneQ.Synchronize: error replies are not modelled, and sequence numbers are unbounded.
- The middleware handshake, which repeats the back-end one; the session table and its locks; the ptrace engine; memory fetches on Blue Gene/Q; the printing of launch strings.
