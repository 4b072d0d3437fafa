# Verified models of a bare-metal operating system for the Raspberry Pi 5

Dafny models of the parts of the system whose correctness tests cannot settle, each with
proofs about every input, every run or every reachable state. `dafny verify dfyconfig.toml`
checks everything; there are no axioms and nothing is assumed.

**The on-device C compiler** (`cc/codegen.c`). `Ast` and `Semantics` say what a program of the
C subset means: a fuelled evaluator with stores, frames, call histories and undefined
behaviour. `Arm` and `Cpu` are the machine: instruction words, their decoding, and a step
function. Kernel builtins are uninterpreted: each may depend on bytes of memory and store into
live objects. `Emit` says which symbolic code each construct becomes; `Sim`, `Pieces` and
`Correct` prove that this code does what the source does, `Forever` that it does not end when
the source does not, `Guard` that the runaway guard ends whatever loops are running when its
time is up. `Generator` is the generator
itself as a class over a word buffer, label table and fixup tables; `Compiler` puts the two
together, and `Limits` and `Lost` show where its own capacities break the promise. `Sizes`,
`Buffer`, `Loaded` and `Programs` hold what these share.

**The translator of the actor language** (`cc/abcl2c.c`, `cc/cc.c`, `cc/parse.c`). `Aipl`
prints expressions as C text, `Front` is the C lexer and expression parser and `CText` what it
reads, `AiplRun` the tagged value runtime; together they follow an expression from its text to the machine. `Lists`
is the bump heap of immutable lists.

**Locks** (`system/spinlock.c`). `Bakery` and `Ticket` interleave N cores one shared access at
a time, under sequential consistency.

**The heap** (`mem/memory.c`). `FreeList` is the address-ordered list as a value, `Heap` the
pointer-walking allocator.

**FAT32** (`fs/fat32.c`). `FatDisk` is the volume as sectors, `FatChain` the table as chains,
`FatFile` the bytes of chains, `Fat32` the reader and writer over one scratch sector;
`FatWitness` builds the volumes on which the writer goes wrong.

**The transformer** (`llm/llm.c`). `KvCache` compares cached inference with recomputation;
every floating-point operation is an uninterpreted function.

**Protocols.** `Remote` is the remote-call protocol with its ring of four answers
(`system/aipl_remote.c`), `Tcp` the receiving half of the browser's TCP connection
(`system/browser.c`).

**Smaller cores.** `Paging` is the identity map and the demand-paged window (`system/mmu.c`),
`Prec` the precedence-climbing parser of the script interpreter (`system/js.c`).

Algorithms that the source runs in place are classes and loops here, proved against functions;
what the source promises is proved about those functions and carried back by the methods'
contracts.

## Findings

What one would expect of the code but does not hold, each with a concrete case and the exact
condition under which it does hold:

- Frames above 0xFFF bytes are never allocated: the shifted-register SUB reads register 31 as
  zero (`Limits.FrameAllocated`), and the first value pushed overwrites a local
  (`Limits.TemporaryInFrame`).
- Member offsets above 0xFFF reach another address (`Limits.MemberReached`).
- Fixups beyond the 2048 recorded ones are dropped without an error. A word is right if and
  only if its fixup was recorded or it needed none (`Generator.WordHeldIff`); `Lost` has a
  family of programs that compile without complaint and work exactly while the table has room.
- `continue` in a `while` loop jumps past the runaway guard (`Guard.ContinueSpins`). Where no
  `continue` does, every call ends, or is undefined, once the guard answers 0
  (`Guard.BudgetEnds`, `Compiler.GuardedReturns`).
- The bakery lock admits two cores once a 32-bit number has wrapped: mutual exclusion holds in
  all interleavings that draw at most k numbers if and only if k is below 2^32
  (`Bakery.SafeDraws`).
- `freemem` accepts regions whose end wraps past 2^64, and sizes above 2^64 - 16, which round to
  0 and put a node without bytes on the list: on all lists it decides rightly if and only if
  the end does not wrap or the bounds reject the region all the same (`Heap.RejectsRightly`,
  `Heap.WrapAccepted`, `Heap.EmptyNode`).
- `getmem` rounds sizes above 2^64 - 16 to 0 and hands out the first block, which stays on the
  list; for the 16 sizes below those it hands it out and moves the head of the list 16 bytes
  below it. Up to 2^64 - 32 it is first fit (`Heap.Heap.Getmem`).
- The FAT32 writer takes clusters the table names but the device or the volume does not have:
  it stays below a limit if and only if enough clusters below it are free or none beyond looks
  free (`Fat32.StaysBelow`, `FatWitness.SlackWitness`).
- Overwriting a file is not undone when it fails: the old chain has been freed, and the entry
  still names its first cluster. That leads into the middle of the partly written new chain, or
  nowhere; it leads to a chain if and only if the clusters free below it, once the old chain is
  freed, are wholly on the device, as when the table was simply full
  (`Fat32.Volume.WriteFile`, `Fat32.LeadsIff`, `FatWitness.DanglingWitness`).
- A file of more than 2^20 clusters is written but only partly read back (`Fat32.WriteThenRead`), and
  when it is overwritten the rest of its chain stays allocated.
- A one-shot run of the transformer between two turns of a chat leaves its own keys in the
  shared cache: the session survives if and only if those are the keys it overwrote
  (`KvCache.Llm.Once`, `KvCache.ForeignCache`).
- Request numbers start again after a million: callers get their own requests' answers in all
  histories of at most n requests if and only if n is at most 10^6 (`Remote.SafeCount`).
- The receiver's expected sequence number is not masked to 32 bits: a transfer can be completed
  if and only if its last segment may start below 2^32 (`Tcp.FinishIff`).
- The comment at `system/browser.c:421-422` says that whatever is not in order is answered with the
  last acknowledgement. A FIN without data is not: when the answer to it is lost, the repeated
  FIN is met with silence (`Tcp.FinAgain`).
- A list of zeros is sized by a length cut to 32 bits (`Lists.SpillsWhen`).
- Where comments and code differ the model follows the code: `fs/fat32.c:1` calls the file a
  read-only reader, but it also holds the writer.

## Model

| member | source | states |
|---|---|---|
| `Word.TruncatedUnique` | cc/codegen.c:220-221 | at most one pair of numbers is such a quotient and remainder |
| `Arm.DecodeEncode` | cc/codegen.c:40-92 | every instruction form the generator emits decodes back to itself, negative branch distances included; no two forms collide |
| `Loaded.LoadImmOk` | cc/codegen.c:79-85 | the four words of a constant leave exactly that 64-bit value in the register and change nothing else |
| `Sim.DivOk` | cc/codegen.c:220-221 | `sdiv` followed by `msub`, and the source operators, yield on every pair the q and r with a = q * b + r, r smaller than b and of the sign of a; the one quotient that does not fit wraps, and a divisor of 0 gives 0 and the dividend |
| `Sim.CompareOk` | cc/codegen.c:222-225 | flags and `cset` give the truth of the signed comparison, overflow of the subtraction included |
| `Ast.SlotsDisjoint` | cc/codegen.c:430-439 | two locals never share a byte of the frame, every slot is 8-aligned and inside a 16-aligned frame |
| `Correct.ExprOk` | cc/codegen.c:256-335 | expression compilation preserves meaning: whatever a defined evaluation yields, running the emitted words ends with it in x0, SP and x29 restored, the store represented and nothing else in memory changed, builtins that read and write memory included |
| `Correct.AddrOk` | cc/codegen.c:167-194 | lvalue compilation likewise: x0 is the address the source semantics names |
| `Correct.ArgsOk` | cc/codegen.c:240-241 | arguments evaluated left to right survive, each in its own temporary, everything evaluated after them, calls included |
| `Correct.StmtOk` | cc/codegen.c:337-424 | the flat code of any nest of statements leaves at its end, or at the break, continue or return label, exactly as the structured source does, entered from the start or at any case label |
| `Correct.SwitchOk` | cc/codegen.c:387-408 | comparisons in reverse source order, default and fall-through reach the case the source semantics selects; `continue` passes through |
| `Correct.WhileBodyOk` | cc/codegen.c:360-371 | each round of a while loop: `continue` skips the guard, a spent guard leaves the loop |
| `Correct.ForBodyOk` | cc/codegen.c:372-386 | each round of a for loop: `continue` goes to the increment and then the guard |
| `Correct.CallUserOk` | cc/codegen.c:441-479 | calling a loaded function returns to x30 with its value in x0 and the caller's SP, x29 and memory intact, for recursion of any depth the stack allows |
| `Forever.ExprLasts` | cc/codegen.c:256-335 | an evaluation that uses up its fuel keeps the machine running for as many steps |
| `Forever.StmtLasts` | cc/codegen.c:337-424 | so does a statement, whichever loop or call the fuel runs out in |
| `Forever.CallUserLasts` | cc/codegen.c:441-479 | so does a call, from its entry on |
| `Generator.AssignOffsets` | cc/codegen.c:428-439 | the loop over the locals computes the frame layout the disjointness is proved about |
| `Generator.CodeGen.EmitJump` | cc/codegen.c:119-121 | a branch word and its fixup, recorded while the table has room |
| `Generator.CodeGen.PlaceLabel` | cc/codegen.c:117 | the label's place is the current position |
| `Generator.CodeGen.GenExpr` | cc/codegen.c:256-335 | generation appends exactly the specified items with every label where the proofs need it, and accepts only well-formed expressions |
| `Generator.CodeGen.GenCall` | cc/codegen.c:230-254 | arguments, pops and the call sequence; more than eight arguments or an unknown function is an error |
| `Generator.CodeGen.GenStmt` | cc/codegen.c:337-424 | the same for statements, labels handed out and placed exactly once |
| `Generator.CodeGen.ResolveBranches` | cc/codegen.c:123-134 | after patching, each recorded branch holds the distance to its label and each unrecorded one still holds distance 0 |
| `Generator.CodeGen.GenFunc` | cc/codegen.c:441-479 | one function's words, settled in place, with its own label table |
| `Generator.CodeGen.PatchCalls` | cc/codegen.c:493-497 | every recorded call site loads its function's entry address; all other words are untouched |
| `Generator.CodeGen.Codegen` | cc/codegen.c:481-503 | success exactly on the programs whose bodies are well-formed, whose labels fit the label table and whose code fits the buffer; then every word of the buffer is its item's skeleton, or that with its label or entry filled in when the fixup tables had room |
| `Generator.WordHeldIff` | cc/codegen.c:119-134 | a word of the finished program is right if and only if its fixup was recorded or the right word is the unpatched one |
| `Generator.LaidIff` | cc/codegen.c:119-134 | the program is laid out as the proofs need it if and only if no fixup that mattered was dropped |
| `Compiler.LaidImplements` | cc/codegen.c:481-503 | a program laid out in memory implements its source: every defined call of every function returns its result, and a call that never ends in the source neither faults nor leaves the code |
| `Compiler.Compile` | cc/codegen.c:481-503 | end to end: compiling into a buffer and running the words preserves the meaning of every call, ended or endless, if no error is reported, no fixup that mattered was dropped (none is when the tables suffice) and frames are at most 0xFFF bytes |
| `Compiler.GuardedReturns` | cc/codegen.c:360-386 | on the machine such a call, made from any store and with the guard dying at any point of the run, returns to its caller unless the source leaves it undefined, after at most n rounds of all its loops |
| `Limits.FrameAllocated` | cc/codegen.c:450-455 | SP drops by the frame if and only if the frame is at most 0xFFF bytes: beyond that the shifted-register SUB reads register 31 as zero and allocates nothing |
| `Limits.TemporaryInFrame` | cc/codegen.c:450-455 | so the first value the body pushes lands on a local if and only if the frame is above 0xFFF bytes |
| `Limits.MemberReached` | cc/codegen.c:183-186 | the address of a member is right if and only if its offset is at most 0xFFF: the immediate is cut to 12 bits |
| `Limits.LostBranchSpins` | cc/codegen.c:119-121 | an unconditional branch left unpatched is a branch to itself: the machine never leaves it |
| `Lost.CompileFamily` | cc/codegen.c:119-134 | a function with n early returns compiles without error for every n that fits the buffer, and the result implements it if and only if its n + 3 branches fit the table of 2048 |
| `Lost.NeverAnswers` | cc/codegen.c:119-121 | beyond that no call of it ever returns |
| `Guard.BudgetEnds` | cc/codegen.c:158-164 | a call whose guard starts answering 0 after n calls of it, at whatever point of its loops and nested calls, recursion included, ends or is undefined, provided no `continue` of a `while` skips the guard; it needs no more fuel than what is left of n and the calls the stack has room for |
| `Guard.RoundsBounded` | cc/codegen.c:158-164 | from any history on, all loops together go round at most as often as what is left of the guard's n calls |
| `Guard.FunctionEnds` | cc/codegen.c:158-164 | the case of a guard already dead at entry: fuel is needed for nested calls only, no loop goes round again |
| `Guard.ContinueSpins` | cc/codegen.c:360-371 | `continue` in a `while` never consults the guard: a loop of it ends with no amount of fuel |
| `CText.LexText` | cc/parse.c:77-176 | the lexer reads every sequence of tokens back from its spelling |
| `CText.PrintRead` | cc/parse.c:420-605 | every expression of calls, signs and binary operators, printed with the fewest parentheses, parses back to itself, by an explicit list of levels, and lexes when its names and numbers are proper |
| `Aipl.Printer.Emit` | cc/abcl2c.c:717-843 | the recursive emitter writes exactly the text of the expression, `self` as a wrapped number and other names as values, cut at the buffer's capacity |
| `Aipl.TextMeansTree` | cc/abcl2c.c:744-843 | lexing and parsing the text of any expression gives exactly the intended tree of runtime calls, `>` and `>=` swapped onto `v_lt` and `v_le` and negation as 0 - x included |
| `AiplRun.OpRuns` | cc/cc.c:432-477 | the runtime function of each operator computes it on 63-bit integers and booleans, wrapping and division by zero included; quotients truncate |
| `AiplRun.TreeMeans` | cc/abcl2c.c:744-843 | evaluating the tree as C against the runtime gives the word of the expression's value |
| `AiplRun.OnMachine` | cc/abcl2c.c:744-843 | from text to machine: the text lexes and parses to a tree whose compiled words leave the word of the expression's value in x0 |
| `Lists.ListHeap.ListPush` | cc/cc.c:332-341 | copy and append in place; a full heap counts an overflow and returns the old handle |
| `Lists.ListHeap.ListSet` | cc/cc.c:346-357 | copy with one item changed; out of range or on a full heap the old handle |
| `Lists.ListHeap.ListZeros` | cc/cc.c:360-368 | a list of zeros, when its length is not cut short |
| `Lists.DenExtends` | cc/cc.c:301-316 | nothing allocated later changes what a handle stands for, through nested lists |
| `Lists.RunSame` | cc/cc.c:319-368 | every program over lists computes what it computes on immutable sequences, failed allocations and counts included |
| `Lists.SpillsWhen` | cc/cc.c:360-368 | the allocator grants fewer cells than a list of zeros fills if and only if the length is 2^31 - 1 or more and what 32 bits keep of it still fits |
| `Bakery.MutualExclusion` | system/spinlock.c:67-93 | in every interleaving of N cores, one shared access a step and both double reads split, two cores are never both inside, as long as no 32-bit number wraps |
| `Bakery.StepInv` | system/spinlock.c:67-93 | what every step keeps: a number chosen by a core another is already past comes out above that one's, even if the number it compared is gone when read again |
| `Bakery.NoDeadlock` | system/spinlock.c:76-82 | while any core is inside the protocol, one that is inside it is not waiting, and its next step leaves the critical section or comes closer to it |
| `Bakery.EveryoneEnters` | system/spinlock.c:67-93 | from every state reached, wrapped numbers or not, every core can still get into the critical section, those before it leaving one after the other, and its next step leaves it without a number |
| `Bakery.NotOvertaken` | system/spinlock.c:71-82 | first come, first served: a core past its doorway is not overtaken by one that had not started choosing |
| `Bakery.FewNeverWrap` | system/spinlock.c:71-75 | no number wraps while fewer than 2^32 have been drawn |
| `Bakery.WrapBreaksExclusion` | system/spinlock.c:74 | with any number of cores from two on, two handing the lock to and fro draw 2^32 numbers, the last of which wraps to 0, and both are inside |
| `Bakery.SafeDraws` | system/spinlock.c:67-93 | two or more cores that draw at most k numbers exclude each other in every interleaving if and only if k is below 2^32 |
| `Ticket.Exclusive` | system/spinlock.c:31-61 | two cores never hold the lock at once, tickets wrapping at 2^32 and store-exclusives failing at will |
| `Ticket.Fifo` | system/spinlock.c:45-53 | cores get in in the order they drew tickets |
| `Ticket.Difference` | system/spinlock.c:47-58 | next_ticket minus now_serving, modulo 2^32, is the number of cores waiting or inside |
| `Ticket.SelfTest` | system/spinlock.c:104-128 | when all workers are done the counter is per_core times the number of cores |
| `Ticket.NoDeadlock` | system/spinlock.c:45-53 | while any core has rounds left, one that has is not spinning, across any number of wraps |
| `Ticket.EveryoneFinishes` | system/spinlock.c:31-128 | from every state reached all workers can still finish, and the counter is then per_core times the cores |
| `FreeList.Unique` | mem/memory.c:33-126 | the free list is a canonical form: two sorted, aligned, coalesced lists with the same free bytes are equal |
| `FreeList.TakenFree` | mem/memory.c:48-69 | taking removes exactly the bytes handed out |
| `FreeList.GivenFree` | mem/memory.c:104-121 | returning adds exactly the bytes returned |
| `FreeList.FitFails` | mem/memory.c:47-76 | first fit fails exactly when the size exceeds the largest block |
| `Heap.Heap.Getmem` | mem/memory.c:33-77 | the pointer walk takes the front of the first block large enough, or returns 0; sizes above 2^64 - 32 are described as they are: none is given on an empty list, and a size that rounds to 0 hands out memory that stays on the list |
| `Heap.Heap.Freemem` | mem/memory.c:79-126 | acceptance on the wrapped end, and when nothing wraps the list becomes the coalesced insertion; a rejection changes nothing; on an empty list any region accepted becomes the one node |
| `Heap.Heap.LargestBlock` | mem/memory.c:131-142 | the walk computes the largest free block |
| `Heap.RejectsRightly` | mem/memory.c:81-102 | on every list the region is taken exactly when the caller's bytes, rounded up, lie in the heap and clear of free blocks, if and only if blk plus that size stays below 2^64, or blk is below the heap, or the wrapped end is above it |
| `Heap.WrapAccepted` | mem/memory.c:85-86 | both failing inputs: a region whose end wraps, and a size above 2^64 - 16, which rounds to 0 |
| `Heap.EmptyNode` | mem/memory.c:79-126 | with everything handed out, freemem of 2^64 - 1 bytes succeeds and leaves a free list of one node of length 0 |
| `Heap.TakenGiven` | mem/memory.c:33-126 | returning what was just taken restores the identical list |
| `Heap.HistoryInv` | mem/memory.c:33-126 | in every history live blocks are disjoint and tile the heap together with the free list, and sizes are conserved |
| `Heap.AllReturned` | mem/memory.c:33-126 | when everything has been returned, in any order, the list is the single initial block |
| `Heap.Client` | mem/memory.c:33-126 | a client that calls getmem and freemem is where the history says: no return is refused, and with nothing live the list is the initial block |
| `Fat32.Volume.SetEntry` | fs/fat32.c:155-169 | one table entry changes, in every copy, with every reserved nibble kept |
| `Fat32.Volume.ScanFree` | fs/fat32.c:294-300 | the first free cluster from a position on |
| `Fat32.Volume.Search` | fs/fat32.c:308-323 | the first matching directory slot in chain order, or none in the whole chain |
| `Fat32.IsEntered` | fs/fat32.c:346-368 | byte by byte: the file is entered in the first slot with its name, or else the first whose first byte is 0 or 0xE5; cluster and size fields describe it, a slot that had the name keeps its other bytes, a new one has the archive attribute and zeros, and no other byte changes |
| `Fat32.OthersStay` | fs/fat32.c:346-368 | a lookup of any other name, not one an unused slot could have, finds the same slot with the same bytes, or again none |
| `Fat32.Relookup` | fs/fat32.c:346-368 | looking the name up again finds the slot written, with its first cluster and size |
| `Fat32.OtherFiles` | fs/fat32.c:324-344 | every other file keeps its chain and its bytes, also when the overwritten file's clusters are reused |
| `Fat32.Volume.WriteChain` | fs/fat32.c:328-344 | the lowest free clusters are taken in order, linked and written; it fails exactly because none is free or the device lacks a sector the data needs, and says which clusters were linked by then |
| `Fat32.Volume.WriteFile` | fs/fat32.c:301-370 | the new chain's bytes are the data, its length is minimal, the table is the old one with the old chain's first 2^20 clusters freed and the new one linked, the free count follows, the directory differs in one slot (`Fat32.IsEntered`), every other name is found where it was and as it was, everything else is unchanged; failure means no cluster was free, the device lacked one, or no slot was left, and then an entry overwritten in vain still leads to a chain if and only if the clusters free below its first one, the old chain's included, are wholly on the device |
| `Fat32.Volume.ReadFile` | fs/fat32.c:120-144 | the first min(size, maxlen) bytes of at most 2^20 clusters, cut exactly before the first sector the device lacks |
| `Fat32.WriteThenRead` | fs/fat32.c:301-370 | writing a file and reading it back through its directory entry gives exactly the data if and only if it needs at most 2^20 clusters, and another file reads the same before and after and is still found by its name, whether or not the write succeeded |
| `Fat32.StaysBelow` | fs/fat32.c:294-300 | the clusters written lie below any limit the writer does not look at if and only if enough below it are free, or nothing beyond it looks free |
| `Fat32.LeadsIff` | fs/fat32.c:324-344 | the first cluster of the freed chain leads to a chain exactly when it was taken again, and then into the middle of what was written |
| `FatWitness.SlackWitness` | fs/fat32.c:328-344 | a volume, built sector by sector, whose table names a cluster the device lacks: the writer links it and fails |
| `FatWitness.DanglingWitness` | fs/fat32.c:324-370 | a volume on which a failed overwrite leaves the directory entry as it was and its first cluster free |
| `FatChain.GraphGrown` | fs/fat32.c:328-344 | so does adding one |
| `FatChain.GraphKept` | fs/fat32.c:324-344 | replacing a file keeps all chains of the volume acyclic, ended and pairwise disjoint, even when only part of the old chain was freed |
| `FatChain.FreeInCounts` | fs/fat32.c:324-344 | the free count is the number of table entries that are 0 |
| `FatChain.FreeReplaced` | fs/fat32.c:324-344 | the free-cluster count changes by the clusters freed minus the clusters taken |
| `KvCache.Causal` | llm/llm.c:162-232 | a later token never changes the hidden state of an earlier position |
| `KvCache.Llm.Forward` | llm/llm.c:162-232 | with the cache holding the prefix, one cached step yields the logits of recomputing the whole prefix, and the cache then holds the longer prefix |
| `KvCache.Llm.Chat` | llm/llm.c:374-405 | each turn of a session whose cache holds its history answers what a run from scratch on the whole conversation would, full contexts and empty messages included |
| `KvCache.Llm.Once` | llm/llm.c:311-341 | a run outside a session is right whatever the cache held; a session survives it if and only if the keys and values it wrote are those it overwrote |
| `KvCache.AgreeTokens` | llm/llm.c:311-341 | that is when it fed the session's own tokens, and only then if keys tell tokens apart |
| `KvCache.ForeignCache` | llm/llm.c:374-405 | a chat, a one-shot run and a chat: the second turn answers from the foreign cache |
| `Remote.Answers.Lookup` | system/aipl_remote.c:94-102 | the ring of four answers finds a request exactly when it is among the last four stored |
| `Remote.Handle` | system/aipl_remote.c:341-393 | the request handler over the ring answers and stores what the protocol's server does, broadcasts without an answer included |
| `Remote.SameNumber` | system/aipl_remote.c:461-464 | two requests of one sender with the same number are a million apart, unwrapped sends included |
| `Remote.RunsOnce` | system/aipl_remote.c:341-393 | over any history of loss, duplication and reordering, each request runs at most once if and only if no repeat arrives after four newer answers were stored |
| `Remote.AcceptedIsRun` | system/aipl_remote.c:271-290 | a value a caller accepts is what the method returned in a run under its number, given the runs before it; if nothing that arrives is a million requests old it is the run of its own request, and if repeats are timely the only one |
| `Remote.FaithfulRun` | system/aipl_remote.c:379-392 | in every history what is stored for a run is what its method returned given the runs before it, or `ok` for a broadcast |
| `Remote.Completes` | system/aipl_remote.c:271-393 | wherever a caller waits, delivering its request and then the answer completes the call, with what the method returns unless the number is remembered |
| `Remote.SafeCount` | system/aipl_remote.c:463-464 | callers get their own requests' answers in every history of at most n requests a sender if and only if n is at most a million |
| `Remote.WrapMixes` | system/aipl_remote.c:463-464 | the history of a million and one requests in which a caller accepts the first request's answer for its last |
| `Tcp.Conn.Handle` | system/browser.c:396-449 | one segment's effect on the connection, the page and the acknowledgements sent |
| `Tcp.Delivered` | system/browser.c:396-449 | under any loss, duplication and reordering by an honest peer the page is a prefix of its stream, and `finished` is set only when every byte before the FIN was accepted |
| `Tcp.StepAcks` | system/browser.c:396-449 | exactly the data segments, the FIN in order and the opening SYN|ACK are answered, the last answer acknowledging exactly what has been taken by then |
| `Tcp.Acknowledged` | system/browser.c:396-449 | in every history of an honest peer no acknowledgement covers a byte that was not accepted, and the last one says how far the stream has been |
| `Tcp.FinAgain` | system/browser.c:421-446 | a FIN without data is answered if and only if it is the first and everything before it was taken |
| `Tcp.ResetEnds` | system/browser.c:411 | after a reset nothing is taken or answered any more |
| `Tcp.Receive` | system/browser.c:396-449 | the connection, fed any segments of an honest peer, is where the histories say |
| `Tcp.StartFinishIff` | system/browser.c:405-440 | from the SYN on, some honest history delivers everything if and only if the last segment may start below 2^32 |
| `Tcp.FinishIff` | system/browser.c:416-440 | an established transfer can still be completed if and only if its last segment may start below 2^32, the expected number never being masked |
| `Paging.Mmu.Init` | system/mmu.c:99-123 | the start-up loops build the identity tables |
| `Paging.WalkIdentity` | system/mmu.c:99-123 | the hardware's walk over them is the identity on the low 512 GiB and from 1 TiB on, and a fault elsewhere, outside the window's slot |
| `Paging.WalkWindow` | system/mmu.c:244-253 | inside the slot the leaf of the page decides, and everything past the window faults |
| `Paging.Mmu.Fault` | system/mmu.c:267-286 | a first touch maps the next zeroed frame; distinct present pages have distinct frames, and as many frames are used as leaves are valid |
| `Paging.Mmu.Load` | system/mmu.c:267-286 | a load walks, faults and retries, and yields the window's byte, failing exactly when 512 other pages are mapped |
| `Paging.Mmu.Store` | system/mmu.c:267-286 | a store likewise changes exactly that byte of the window |
| `Paging.History` | system/mmu.c:244-286 | a run of accesses goes through if and only if at most 512 distinct pages are touched, and then reads what a flat array would |
| `Paging.Boot` | system/mmu.c:99-286 | built by the constructor and the two start-up routines, the machine answers any program that touches at most 512 pages as a flat array, and stops at the 513th |
| `Paging.Program` | system/mmu.c:244-286 | with nothing touched yet, the machine with its tables and fault handler answers any program as a zero-initialised flat array |
| `Prec.Parser.ParseBinary` | system/js.c:362-374 | the loop over operators builds in the node table the tree the grammar names, and fails only on bad syntax or a full table |
| `Prec.Climbs` | system/js.c:351-374 | the parser answers a tree and a rest if and only if the rest follows a left-associative derivation of the tree that its next token cannot continue |
| `Prec.Groups` | system/js.c:341-374 | of any two operators the tighter one, and of two of one level the first, takes the operand between them; a sign takes its operand before any |
| `Prec.Unambiguous` | system/js.c:351-374 | no token sequence is written by two trees |
| `Prec.PrintParse` | system/js.c:351-374 | printing a tree with the fewest parentheses and parsing gives it back |

## Left out

- Whole programs' syntax: `cc/parse.c` is modelled for expressions of calls, signs and binary operators; pointers, members, `sizeof`, assignment, literals in quotes, statements, declarations, pointer scaling and struct layout reach the generator as trees with names resolved and types attached. The lexer and parser are functions on values where the source advances a token cursor.
- The translator's own parser, and its strings, floats, objects, sends and statements.
- Bytes of the code buffer: it is an array of words, stores into code are not possible, and cache maintenance does nothing. When the buffer is full the site of a dropped word is its end; the model's buffer has the one word beyond its capacity that patching such a site writes.
- Loops nested more than 64 deep: `cc/codegen.c:108-110` has 64 slots and does not check them; the generator's contract asks for at most 64.
- The case labels of a switch are passed down where the source stores them in the tree.
- Source programs that are undefined: reading unwritten bytes, touching dead objects, misaligned 8-byte accesses and stack exhaustion. The model promises nothing for them.
- Builtins are uninterpreted; they keep SP and the callee-saved registers as section 6.1.1 of AAPCS64 says. Where `main` is found by name is not modelled.
- Weak memory and caches: locks run under sequential consistency. The debug counters of the spin lock, and the 64-bit width of the self test's counter, are left out.
- Ticket.SelfTest: says nothing about whether all workers finish, because store-exclusives may fail for ever and nothing makes the scheduler fair; `Ticket.NoDeadlock` is the progress that holds without fairness.
- `kmalloc`'s headers and counters, interrupt masking, and an empty region at start-up.
- Heap.HistoryInv: requests above 2^64 - 32 bytes are not part of a history, because rounding them wraps; `Heap.Heap.Getmem` says what each does.
- FAT32: device errors other than a sector beyond its end, mounting, name conversion, walking directory trees, and the single-cluster writer.
- Fat32.Volume.WriteFile: the root's clusters must not be those of the file overwritten, and cluster numbers must lie below the end-of-chain marks.
- Floating point, the tokenizer and the text printed while generating.
- Remote calls to several servers, the text of messages, peer tables, timeouts as times (a caller may give up at any point), gathering, and dispatch that is re-entered before its answer is stored.
- TCP: sending, checksums, acknowledgement numbers of the peer, and segments of an earlier connection on the same ports. Streams of 2^32 - 1 bytes and more.
- Paging: translation look-aside buffers, memory attributes, permissions, and accesses that straddle two pages.
- Lists.Zeros: the sum of used cells and a requested count is exact, because the source's 32-bit sum overflows, which C leaves undefined, only for counts above 2^31 - 32769.
- The script parser's calls, members, indices, arrows, conditionals, assignments, literals of objects and functions; tokens come from a sequence, and a node table that is full is the only failure besides bad syntax.
- Mailboxes and timers of the actor runtime, selector matching, the line editor, device drivers and the user interface: they would add easy members or need models of hardware.
