# Verified models of the recommender's loader and of the stone containers

A Dafny model of the parts of this repository that hold complete algorithms, and proofs about it.
`dafny verify dfyconfig.toml` checks everything.

| files | what they model |
|---|---|
| `Element.dfy` | element values, and the atomic container that the lock-free containers are compared with |
| `QueueModel`, `QueueInvariant`, `QueueProof`, `QueueTheorems` | `LockFreeQueue` under every interleaving of any number of threads |
| `QueueProgress`, `QueueFreshMemory`, `QueueDestructor` | when operations end, what `new` may return, and the destructor after concurrent use |
| `QueueWrappedSteps`, `QueueWrappedTags`, `QueueTagRun`, `QueueTagLimit` | the concurrent queue with tags that wrap: two failing runs, and the exact limit |
| `QueueSequential`, `TaggedPointer` | the same queue used by one thread, on the heap and with its real 16-bit tags |
| `StackModel`, `StackInvariant`, `StackProof`, `StackTheorems`, `StackSolo`, `StackBoundedTags`, `StackTagLimit` | `LockFreeStack` under every interleaving, with unbounded tags, its progress, with 32-bit tags, and the exact limit that they set |
| `FreeList`, `FreeListSolo`, `FreeListBoundedTags`, `FreeListTagLimit` | `FreeList` under every interleaving, its progress, with 16-bit tags and the exact limit that they set |
| `SpinRWLock` | the quota lock, with its 32-bit overflow |
| `IntrusiveDList`, `IntrusiveList` | the two intrusive lists as heap structures |
| `Varint` | `VariantInt` |
| `ParseData`, `DataLoader`, `LoaderLimits`, `MiniBatch` | the row printer, the two-pass loader, the exact conditions under which it works, and the mini-batches of the training loop |
| `StringPiece` | its searches and its comparison |
| `Arithmetic` | products and remainders with a variable modulus |

## How the concurrent models work

A state is the shared memory and, for each thread, a program counter with its local variables. One
step is one shared read, one shared write, one compare-exchange or one counter update, taken by any
thread, under sequential consistency. A run is any sequence of such steps from the constructor's state,
so every theorem about runs speaks of every interleaving.

The specification is the atomic container: a call, one atomic effect, a return. A run of a container is
shown to be a run of that machine with the same calls and returns. `ActionOf` reads the effect off the
program state alone, so a wrong order of steps, a wrong branch or a wrong value breaks the refinement.
`Linearizable` speaks of a history's calls and returns alone. The failing runs are taken to a `Pop` that returns
a value more often than it was pushed, which `PushesCover` excludes.

Linearizability says that a return, if it comes, is right. That it comes is a statement of its own: a thread that goes on
alone finishes (`PopEnds`, `PushEnds`, `EndsAlone`), and under interference each operation is delayed only by other
threads' successes (`LockFree`). `Pop` of the queue is the exception: it spins on purpose while the first node is marked
invalid, and `PopEndsExactly` shows that it ends alone in all other reachable states and in no such state.

History variables record which node was linked at each position and where each node is. With unbounded
tags the tag of `mHead` and `mTail` is a position, so a tagged pointer names one moment of one node's
life even after the node has been recycled. That is what makes a delayed write to `mPrev` harmless.

`new Node` leaves `mPrev` uninitialised. The queue theorems assume `FreshMemoryOk`: an `mPrev` that
nobody has written never carries the tag under which its node is linked. `LowGarbageOk` gets this from
what `new` returns alone, and `GarbageExact` is the exact condition: linearizability for all runs holds
if and only if no garbage tag can be 1 or more.

The stack and the free list compare tags only in compare-exchanges, so a bound on how stale a remembered
head may get is enough for wrapping tags. `Stale` counts the changes that a thread has missed, and the
bounds 2^32 and 2^16 are exact, for the state (`TagLimitExact`) and for linearizability (`LinearizableExact`).

The queue also compares tags that rest in memory. `PromptnessIsNotEnough` shows that wrapping tags fail even when
every operation is over within 48 steps of the whole system, however many tags there are. What counts
is the number of moves over the whole run: with m tags all runs in which `mTail` and `mFreeNodeHead` each move fewer
than `limit` times are linearizable if and only if limit is at most m (`TagLimitExact`). Below the limit the
wrapped run follows a run with unbounded tags; the tag m - 1 that the constructor leaves in `mPrev` is harmless because
it stays on the first node until it is rewritten. The cycle of the 65535 valid 16-bit tags (`TagClosedForm`) is the
case m = 65535.

## Where the code does less than it seems to promise

- `LockFreeQueue` believes an uninitialised `mPrev` whose tag happens to match, and `Pop` then returns a value that
  nobody pushed (`UninitialisedPrevBreaksFifo`); `GarbageExact` says which garbage does no harm.
- The 16-bit tags of `LockFreeQueue` come round after 65535 pushes; a `Pop` may then return an element twice
  (`QueueTagRun.LateExchange`) or a value that nobody pushed (`PromptnessIsNotEnough`). `QueueTagLimit.TagLimitExact`
  is the exact limit.
- `LockFreeStack` and `FreeList` fail when a remembered head changes 2^32 or 2^16 times before its exchange
  (`LinearizableExact`).
- `IntrusiveList::push_back` does not clear the element's `next`; `PushBack` states exactly when the list
  stays well formed.
- `StringPiece::compare` returns a length difference cut to an `int`; `CompareExact` and `CompareBound`
  say exactly when its sign is right.
- `SpinRWLock` overflows with 130 outstanding writers; `ExclusionBound` is the exact limit.
- `DataLoader` allocates too little when the number of rows does not divide the number of floats (`BufferFits`),
  and its second pass runs into the next row after a row of one field (`PassesAgreeExact`).
- `run_training` needs at least 100 rows; `WindowsInside` and `TooFewRows`.

## Modelling choices

- Elements are values of an opaque type. In the intrusive lists an element is its embedded node.
- Client code of `FreeList` may hand elements over and reuse their link member, but only of elements it owns.
- In `QueueSequential` a compare-exchange finds the value just read, so its retry loop runs once.
- The file of `DataLoader` is a string with a position; the end of the file reads as byte 0xFF, as it
  does in the `char` that the code compares with EOF. `atof` is an arbitrary function of the field text.
- `rand()` is a parameter: a function from the number of the call to its value.
- A file on which `ReadFloat` would look for a comma for ever has no rows (`None`). `LoadData` is stated
  for the files on which both passes end inside their arrays (`Runs`); `LoadsWellExact` says which they are.
- `char_traits::compare` compares unsigned bytes; `char_traits::find` and `std::search` are taken as specified.

## Model

| member | source | states |
|---|---|---|
| `AtomicContainer.EffectWithinOperation` | apsara/stone/threading/lockfree/lockfree_queue.h:92-153 | In every run of the atomic container an unfinished operation has one call and at most one effect, the effect lies after the call, and a Pop that has seen emptiness saw it in a state with empty contents: what being a run of this machine means for a container |
| `AtomicContainer.ContainedWasPushed` | apsara/stone/threading/lockfree/lockfree_queue.h:92-153 | Whatever a container holds was the argument of an earlier Push call |
| `AtomicContainer.PushesCover` | apsara/stone/threading/lockfree/lockfree_queue.h:92-153 | In every history that is linearizable, judged by its calls and returns alone, a value is returned by Pop at most as often as Push was called with it |
| `QueueProof.InvInitial` | apsara/stone/threading/lockfree/lockfree_queue.h:62-74 | The constructor's state satisfies the queue invariant |
| `QueueProof.InvInductive` | apsara/stone/threading/lockfree/lockfree_queue.h:92-222 | Every atomic step of Push, Pop, FixList, AcquireNode and ReleaseNode by any thread keeps the whole invariant: ends, chain, free list, roles of nodes, hints, values, and what each thread knows |
| `QueueTheorems.RunInvariant` | apsara/stone/threading/lockfree/lockfree_queue.h:62-222 | The invariant holds after every step of every interleaving of any number of threads |
| `QueueTheorems.StepRefines` | apsara/stone/threading/lockfree/lockfree_queue.h:92-153 | Each step is one step of the atomic FIFO: a successful mTail exchange appends the element, a successful mHead exchange removes exactly the front, everything else leaves the contents alone |
| `QueueTheorems.QueueLinearizable` | apsara/stone/threading/lockfree/lockfree_queue.h:92-168 | Every run is a run of the atomic FIFO queue with the same calls and returns; a Pop that returns false saw the queue empty when it read mTail |
| `QueueTheorems.HintsNeverLie` | apsara/stone/threading/lockfree/lockfree_queue.h:107-112 | In every reachable state a live node whose mPrev carries its own tag has an mPrev that points to the next node, despite delayed writes, concurrent repairs and recycled nodes |
| `QueueTheorems.NoWildAccess` | apsara/stone/threading/lockfree/lockfree_queue.h:92-222 | No step of any run reads or writes an address that is not an allocated node |
| `QueueTheorems.NodesConserved` | apsara/stone/threading/lockfree/lockfree_queue.h:142-222 | In every reachable state each allocated node is in exactly one of the chain, the free list and one thread's hands, and there once |
| `QueueTheorems.SizeAccounts` | apsara/stone/threading/lockfree/lockfree_queue.h:115-144 | mSize is, modulo 2^64, the queue length less the updates that threads still owe |
| `QueueTheorems.PushReturnsCount` | apsara/stone/threading/lockfree/lockfree_queue.h:115-115 | The count that Push returns is the queue length less what other threads still owe the counter, modulo 2^64: the very length when no other operation is under way |
| `QueueFreshMemory.PopMatching` | apsara/stone/threading/lockfree/lockfree_queue.h:123-146 | A Pop that finds a matching tag believes the mPrev: the node it names becomes the head and its value is returned, whatever it is |
| `QueueFreshMemory.UninitialisedPrevBreaksFifo` | apsara/stone/threading/lockfree/lockfree_queue.h:192-195 | For every garbage tag k of 1 or more a run in which `new Node` returns only that tag in mPrev, every Push has the same argument, and the last Pop returns another value: no run of the atomic FIFO has these calls and returns |
| `QueueFreshMemory.LowGarbageOk` | apsara/stone/threading/lockfree/lockfree_queue.h:192-195 | When every mPrev that `new` returns has a tag below 1, the hypothesis of the queue theorems holds in every run |
| `QueueFreshMemory.GarbageExact` | apsara/stone/threading/lockfree/lockfree_queue.h:92-222 | All runs whose `new` takes its garbage tags from a set G are linearizable, judged by calls and returns, if and only if G holds no tag of 1 or more |
| `QueueFreshMemory.RemovedWasPushed` | apsara/stone/threading/lockfree/lockfree_queue.h:92-153 | In a linearizable run every value that a Pop removes was pushed before |
| `QueueDestructor.MarksStep` | apsara/stone/threading/lockfree/lockfree_queue.h:92-222 | Every step keeps this: a live node before the tail carries kInvalidTag only while the push behind it has yet to write its mPrev |
| `QueueDestructor.QuietUnmarked` | apsara/stone/threading/lockfree/lockfree_queue.h:131-133 | In a reachable state with all threads at rest no live node before the tail carries kInvalidTag, so no Pop spins |
| `QueueDestructor.PopOne` | apsara/stone/threading/lockfree/lockfree_queue.h:118-168 | From rest, one thread's Pop ends, through FixList when the hint does not match, takes exactly the front and returns its value |
| `QueueDestructor.DestructorDeletesOnce` | apsara/stone/threading/lockfree/lockfree_queue.h:76-90 | From every reachable quiescent state, whatever the concurrent use before, the destructor's pops end with an empty queue, and following the free list and then the head node meets every allocated node exactly once |
| `QueueDestructor.PopFails` | apsara/stone/threading/lockfree/lockfree_queue.h:118-153 | From rest and with an empty queue one thread's Pop ends by returning false |
| `QueueProgress.PushEndsAlone` | apsara/stone/threading/lockfree/lockfree_queue.h:92-116 | From every state a Push that goes on alone returns, in at most eleven steps, whatever memory `new` gives it |
| `QueueProgress.PushLockFree` | apsara/stone/threading/lockfree/lockfree_queue.h:92-116 | In every run a Push takes at most eleven steps of its own and eleven more for every move of mTail or mFreeNodeHead by another thread |
| `QueueProgress.PopEndsAlone` | apsara/stone/threading/lockfree/lockfree_queue.h:118-168 | From every reachable state in which the first node is not marked invalid, wherever all threads stand, a Pop that goes on alone returns, in a number of steps linear in the length of the queue |
| `QueueProgress.NoneLinkingSound` | apsara/stone/threading/lockfree/lockfree_queue.h:107-112 | The first node is not marked invalid while no push is between its exchange of mTail and its write of mPrev |
| `QueueProgress.PopEndsExactly` | apsara/stone/threading/lockfree/lockfree_queue.h:129-137 | A thread at the start of its Pop can end it alone if and only if the first node is not marked invalid; otherwise it spins |
| `QueueWrappedTags.PromptnessIsNotEnough` | apsara/stone/threading/lockfree/lockfree_queue.h:107-112 | With any number of tags from 4 on that wraps, a run in which no operation is under way for more than 48 steps, `new` returns harmless memory and every Push has the same argument, and whose last Pop returns a value that nobody pushed: a delayed mPrev write rests in a recycled node until its tag comes round |
| `QueueTagLimit.StepRel` | apsara/stone/threading/lockfree/lockfree_queue.h:92-222 | As long as no tag has come round, a step with wrapping tags and the same step with unbounded tags lead to states that differ in the wrapped tags only, and do the same action |
| `QueueTagLimit.FewMovesLinearizable` | apsara/stone/threading/lockfree/lockfree_queue.h:92-222 | Every run with m wrapping tags in which mTail and mFreeNodeHead each move fewer than m times is linearizable |
| `QueueTagLimit.FewMovesSound` | apsara/stone/threading/lockfree/lockfree_queue.h:92-222 | In such a run, at every moment: mNext leads from tail to head past the nodes of the contents, every node is in one place, mSize accounts for what is owed, a matching mPrev is true, and no step is about to leave allocated memory |
| `QueueTagRun.LateExchange` | apsara/stone/threading/lockfree/lockfree_queue.h:139-146 | For every m from 3 on a run with m moves of mTail and three of mFreeNodeHead in which the exchange of a delayed Pop succeeds wrongly and an element that was pushed once is returned twice |
| `QueueTagLimit.TagLimitExact` | apsara/stone/threading/lockfree/lockfree_queue.h:92-222 | All runs with m wrapping tags in which mTail and mFreeNodeHead each move fewer than `limit` times are linearizable if and only if limit is at most m; the code has m = 65535 |
| `QueueSequential.LockFreeQueue.constructor` | apsara/stone/threading/lockfree/lockfree_queue.h:62-74 | A new queue is valid, empty and has exact hints |
| `QueueSequential.LockFreeQueue.FixList` | apsara/stone/threading/lockfree/lockfree_queue.h:155-168 | Whatever the mPrev links were, the walk takes exactly as many iterations as the queue has elements, restores every mPrev pointer and 16-bit tag before the tail, and changes neither the mPrev of the tail and of free nodes nor any other field |
| `QueueSequential.LockFreeQueue.AcquireNode` | apsara/stone/threading/lockfree/lockfree_queue.h:182-207 | Takes the top of the free list; when it is empty allocates, or fails if the caller forbids that |
| `QueueSequential.LockFreeQueue.ReleaseNode` | apsara/stone/threading/lockfree/lockfree_queue.h:209-222 | Clears the value, marks mPrev with kInvalidTag and pushes the node on the free list under the next tag, leaving queue and hints as they were |
| `QueueSequential.LockFreeQueue.PushNode` | apsara/stone/threading/lockfree/lockfree_queue.h:97-115 | Linking an acquired node appends the element and keeps exact hints exact, with tags that wrap |
| `QueueSequential.LockFreeQueue.Push` | apsara/stone/threading/lockfree/lockfree_queue.h:92-116 | Appends the element to the FIFO for queues of any length, returns the new size modulo 2^64, and allocates only when the free list is empty |
| `QueueSequential.LockFreeQueue.HeadFacts` | apsara/stone/threading/lockfree/lockfree_queue.h:123-137 | What the three reads of Pop reveal: emptiness iff head equals tail, and that a matching tag names the true successor |
| `QueueSequential.LockFreeQueue.TakeFirst` | apsara/stone/threading/lockfree/lockfree_queue.h:140-144 | The exchange of mHead removes the front, recycles the old head node and lowers the size |
| `QueueSequential.LockFreeQueue.Pop` | apsara/stone/threading/lockfree/lockfree_queue.h:118-153 | Returns and removes the front, or false exactly when empty; with the hints that single-threaded use leaves, the tag test succeeds every time and FixList is never entered; with arbitrary non-lying hints it is entered at most once |
| `QueueSequential.LockFreeQueue.PopAll` | apsara/stone/threading/lockfree/lockfree_queue.h:79-81 | The destructor's first loop empties the queue and keeps every node |
| `QueueSequential.LockFreeQueue.DeletePool` | apsara/stone/threading/lockfree/lockfree_queue.h:83-86 | The second loop deletes each free node once |
| `QueueSequential.LockFreeQueue.Destroy` | apsara/stone/threading/lockfree/lockfree_queue.h:76-90 | A quiescent destructor deletes every allocated node exactly once and nothing else |
| `TaggedPointer.IndexRoundTrip` | apsara/stone/threading/lockfree/lockfree_detail.h:22-37 | Index and 32-bit tag come back from the word they are packed into, which fits 64 bits |
| `TaggedPointer.PointerRoundTrip` | apsara/stone/threading/lockfree/lockfree_detail.h:53-76 | The tag always comes back; the address comes back exactly when it is a canonical 48-bit address |
| `TaggedPointer.NextPrevInverse` | apsara/stone/threading/lockfree/lockfree_detail.h:78-98 | GetNextTag and GetPrevTag are inverse on the valid tags and never give kInvalidTag |
| `TaggedPointer.TagClosedForm` | apsara/stone/threading/lockfree/lockfree_detail.h:78-87 | The n-th tag in closed form: the counter modulo 65535 with kInvalidTag stepped over |
| `TaggedPointer.TagsCollide` | apsara/stone/threading/lockfree/lockfree_detail.h:78-87 | Two moments carry the same tag exactly when they are a multiple of 65535 steps apart |
| `StackModel.Construct` | apsara/stone/threading/lockfree/lockfree_stack.h:53-76 | The constructor, for any shuffle, leaves an empty stack and a free list of all nodes threaded in the shuffled order |
| `StackProof.InvInitial` | apsara/stone/threading/lockfree/lockfree_stack.h:53-76 | The constructed stack satisfies the invariant |
| `StackProof.InvInductive` | apsara/stone/threading/lockfree/lockfree_stack.h:84-188 | Every atomic step of Push, Pop, AcquireNode and ReleaseNode keeps the invariant of both lists and of every thread |
| `StackTheorems.RunInvariant` | apsara/stone/threading/lockfree/lockfree_stack.h:53-188 | The invariant holds after every step of every interleaving |
| `StackTheorems.StepRefines` | apsara/stone/threading/lockfree/lockfree_stack.h:84-125 | Each step is one step of the atomic LIFO; the effects are the successful exchanges of mHead |
| `StackTheorems.StackLinearizable` | apsara/stone/threading/lockfree/lockfree_stack.h:84-125 | Every run is a run of the atomic LIFO stack with the same calls and returns, including the refused pushes and the empty pops |
| `StackTheorems.NodesConserved` | apsara/stone/threading/lockfree/lockfree_stack.h:84-188 | The array indices split into stack, free list and nodes held by threads; both lists are acyclic and end in the null index |
| `StackTheorems.RefusedOnlyWhenFull` | apsara/stone/threading/lockfree/lockfree_stack.h:154-165 | Push fails only at a moment when every node is stacked or in a thread's hands |
| `StackTheorems.SizeAccounts` | apsara/stone/threading/lockfree/lockfree_stack.h:99-123 | mSize is, modulo 2^64, the stack length less the updates that threads still owe |
| `StackSolo.PopEnds` | apsara/stone/threading/lockfree/lockfree_stack.h:101-125 | From every reachable state, wherever the other threads have stopped, an idle thread's Pop ends alone in at most ten steps: with false if and only if the stack is empty, otherwise with the value of the top, which is then gone; for unbounded tags and for the 32-bit tags under the staleness bound |
| `StackSolo.PushEnds` | apsara/stone/threading/lockfree/lockfree_stack.h:84-99 | Likewise a Push ends in at most nine steps: it gives up if and only if every node is stacked or in a thread's hands, and otherwise its element is on top |
| `StackSolo.EndsAlone` | apsara/stone/threading/lockfree/lockfree_stack.h:84-188 | From any state at all, in the midst of any operation, a thread that goes on alone returns in at most eleven steps |
| `StackSolo.LockFree` | apsara/stone/threading/lockfree/lockfree_stack.h:84-188 | In every run an operation takes at most eleven steps of its own and eleven more for every successful exchange of another thread |
| `StackBoundedTags.StepCommutes` | apsara/stone/threading/lockfree/lockfree_stack.h:95-118 | With tags that wrap, a step is the wrapped image of the unbounded step whenever its exchange is not deceived |
| `StackBoundedTags.YoungDistinguished` | apsara/stone/threading/lockfree/lockfree_stack.h:110-118 | A head that has changed fewer times than there are tags is told apart by its wrapped tag |
| `StackBoundedTags.BoundedTagsSimulate` | apsara/stone/threading/lockfree/lockfree_stack.h:95-187 | Every run with m tags whose exchanges come before m changes of the remembered head is the image, state by state and action by action, of a run with unbounded tags |
| `StackBoundedTags.BoundedStackLinearizable` | apsara/stone/threading/lockfree/lockfree_stack.h:84-188 | Linearizability of the stack with its real 32-bit tags, when fewer than 2^32 head changes lie between a read and its exchange |
| `StackBoundedTags.BoundedStackAccounts` | apsara/stone/threading/lockfree/lockfree_stack.h:84-188 | The partition of the nodes and the accounting of mSize with the real 32-bit tags, under the same condition |
| `StackBoundedTags.BoundedRefusedOnlyWhenFull` | apsara/stone/threading/lockfree/lockfree_stack.h:154-165 | A refused Push saw every node stacked or in a thread's hands, with the real 32-bit tags |
| `StackTagLimit.LateExchange` | apsara/stone/threading/lockfree/lockfree_stack.h:110-118 | For every even number m of tags a run in which an exchange comes after exactly m head changes and makes a node the top of the stack that another thread holds |
| `StackTagLimit.TagLimitExact` | apsara/stone/threading/lockfree/lockfree_stack.h:95-118 | The top of the stack is in no thread's hands in every run with fewer than `limit` head changes before an exchange if and only if limit is at most 2^32 |
| `StackTagLimit.LateNotLinearizable` | apsara/stone/threading/lockfree/lockfree_stack.h:101-125 | The same run goes on to a Pop that returns a value nobody pushed: no run of the atomic LIFO has these calls and returns |
| `StackTagLimit.LinearizableExact` | apsara/stone/threading/lockfree/lockfree_stack.h:84-125 | All runs with fewer than `limit` head changes before an exchange are linearizable if and only if limit is at most 2^32 |
| `FreeListProof.InvInductive` | apsara/stone/threading/lockfree/free_list.h:55-91 | Every atomic step of Push and Pop, and every use that clients make of their own elements in between, keeps the invariant |
| `FreeListProof.RunInvariant` | apsara/stone/threading/lockfree/free_list.h:55-91 | In every reachable state the elements not at a client are exactly those on the list, once each, and the list is linked from the head down to the offset-encoded null |
| `FreeListProof.StepRefines` | apsara/stone/threading/lockfree/free_list.h:55-91 | Each step is one step of the atomic LIFO |
| `FreeListProof.FreeListLinearizable` | apsara/stone/threading/lockfree/free_list.h:55-91 | With unbounded tags every run is a run of the atomic LIFO |
| `FreeListProof.SizeAccounts` | apsara/stone/threading/lockfree/free_list.h:55-91 | mSize is, modulo 2^64, the length of the list less the updates that threads still owe |
| `FreeListSolo.PopEnds` | apsara/stone/threading/lockfree/free_list.h:72-91 | From every reachable state, wherever the other threads have stopped, an idle thread's Pop ends alone in at most five steps: with null if and only if the list is empty, otherwise with the element on top, which it then owns; for unbounded and for 16-bit tags |
| `FreeListSolo.PushEnds` | apsara/stone/threading/lockfree/free_list.h:55-68 | Likewise a Push of an element that the thread owns ends in at most five steps with that element on top |
| `FreeListSolo.EndsAlone` | apsara/stone/threading/lockfree/free_list.h:55-91 | From any state at all a thread that goes on alone returns in at most six steps |
| `FreeListSolo.LockFree` | apsara/stone/threading/lockfree/free_list.h:55-91 | In every run an operation takes at most six steps of its own and six more for every successful exchange of another thread |
| `FreeListBoundedTags.StepCommutes` | apsara/stone/threading/lockfree/free_list.h:58-88 | With tags that wrap, a step is the wrapped image of the unbounded step whenever its exchange is not deceived |
| `FreeListBoundedTags.BoundedTagsSimulate` | apsara/stone/threading/lockfree/free_list.h:61-88 | Every run with m tags and timely exchanges is the image of a run with unbounded tags |
| `FreeListBoundedTags.BoundedFreeListLinearizable` | apsara/stone/threading/lockfree/free_list.h:55-91 | Linearizability with the real 16-bit tags, when fewer than 2^16 head changes lie between a read and its exchange |
| `FreeListBoundedTags.BoundedFreeListAccounts` | apsara/stone/threading/lockfree/free_list.h:55-91 | Ownership, links and mSize of the free list with the real 16-bit tags, under the same condition |
| `FreeListTagLimit.LateExchange` | apsara/stone/threading/lockfree/free_list.h:77-88 | For every even number m of tags a run in which an exchange comes after exactly m head changes and puts an element on the list that a client still owns |
| `FreeListTagLimit.TagLimitExact` | apsara/stone/threading/lockfree/free_list.h:61-88 | The list hands out only its own elements in every run with fewer than `limit` head changes before an exchange if and only if limit is at most 2^16 |
| `FreeListTagLimit.LateNotLinearizable` | apsara/stone/threading/lockfree/free_list.h:72-91 | The same run goes on to a Pop that hands an element out a second time: no run of the atomic LIFO has these calls and returns |
| `FreeListTagLimit.LinearizableExact` | apsara/stone/threading/lockfree/free_list.h:55-91 | All runs with fewer than `limit` head changes before an exchange are linearizable if and only if limit is at most 2^16 |
| `SpinRWLock.StepKeeps` | apsara/stone/threading/sync/lock.h:350-375 | Each atomic subtraction or addition keeps the quota exact and writers exclusive while at most 129 operations are outstanding |
| `SpinRWLock.RunKeeps` | apsara/stone/threading/sync/lock.h:333-384 | Over every such run the 32-bit quota never wraps and equals 2^24 less the charges of holders and of failed tries not yet undone, and a writer excludes all others |
| `SpinRWLock.QuotaModulo` | apsara/stone/threading/sync/lock.h:350-375 | In every run, however many operations are outstanding, the quota is 2^24 less the outstanding charges, wrapped to 32 bits |
| `SpinRWLock.QuietQuotaRestored` | apsara/stone/threading/sync/lock.h:350-375 | Once every operation is over the whole quota is back, in every run |
| `SpinRWLock.ReadAdmitted` | apsara/stone/threading/sync/lock.h:350-358 | In every state of every run whose charges the int still holds apart, TryReadLock succeeds if and only if no write holds or is undoing and fewer than 2^24 reads hold or are undoing |
| `SpinRWLock.WriteAdmitted` | apsara/stone/threading/sync/lock.h:359-367 | Likewise TryWriteLock succeeds if and only if every thread is idle |
| `SpinRWLock.FewFit` | apsara/stone/threading/sync/lock.h:350-367 | The charges are held apart whenever at most 129 operations are outstanding, the new one included |
| `SpinRWLock.ReleaseFrees` | apsara/stone/threading/sync/lock.h:368-375 | Unlocking and undoing end the operation and give back exactly its charge; no step touches another thread |
| `SpinRWLock.ReadersShare` | apsara/stone/threading/sync/lock.h:350-358 | While there is no writer another reader joins the readers that hold the lock |
| `SpinRWLock.TwoWriters` | apsara/stone/threading/sync/lock.h:359-367 | A run of 130 write attempts after which two writers hold the lock |
| `SpinRWLock.ExclusionBound` | apsara/stone/threading/sync/lock.h:333-384 | Exclusion holds in all runs with at most k outstanding operations if and only if k is at most 129 |
| `IntrusiveDList.DLinkNode.Unlink` | apsara/stone/containers/intrusive_list.h:172-178 | The neighbours are joined and the node is linked to itself |
| `IntrusiveDList.List.constructor` | apsara/stone/containers/intrusive_list.h:243-243 | A new list is an empty ring through a new root |
| `IntrusiveDList.List.Inverse` | apsara/stone/containers/intrusive_list.h:165-181 | From every node of the ring, next then prev and prev then next come back |
| `IntrusiveDList.List.Insert` | apsara/stone/containers/intrusive_list.h:309-320 | Inserts before the iterator's position, the end included; touches only the new node and its two neighbours |
| `IntrusiveDList.List.PushFront` | apsara/stone/containers/intrusive_list.h:287-290 | Prepends |
| `IntrusiveDList.List.PushBack` | apsara/stone/containers/intrusive_list.h:298-301 | Appends |
| `IntrusiveDList.List.PopFront` | apsara/stone/containers/intrusive_list.h:291-297 | Drops the first element |
| `IntrusiveDList.List.PopBack` | apsara/stone/containers/intrusive_list.h:302-308 | Drops the last element |
| `IntrusiveDList.List.Erase` | apsara/stone/containers/intrusive_list.h:321-335 | Removes exactly the element at the iterator, deletes it if AutoDelete is set, and returns the next position; erasing the end does nothing |
| `IntrusiveDList.List.UnlinkElement` | apsara/stone/containers/intrusive_list.h:349-355 | Unlinking a member removes exactly it |
| `IntrusiveDList.List.Clear` | apsara/stone/containers/intrusive_list.h:341-346 | Leaves an empty list and deletes every element once, in order, if AutoDelete is set |
| `IntrusiveDList.List.Swap` | apsara/stone/containers/intrusive_list.h:336-340 | Exchanges the contents of two lists |
| `IntrusiveList.List.WalkIsContents` | apsara/stone/containers/intrusive_list.h:159-163 | Following next from mHead meets the contents in order, then null, and mTail is the last node met |
| `IntrusiveList.List.PushFront` | apsara/stone/containers/intrusive_list.h:114-122 | Prepends, whatever the element's old next was |
| `IntrusiveList.List.PopFront` | apsara/stone/containers/intrusive_list.h:123-132 | Drops and unlinks the first element |
| `IntrusiveList.List.PushBack` | apsara/stone/containers/intrusive_list.h:133-143 | Appends; the list stays well formed if and only if the element was not linked to anything, because its own next is not cleared |
| `IntrusiveList.List.Swap` | apsara/stone/containers/intrusive_list.h:144-149 | Exchanges the contents of two lists |
| `IntrusiveList.List.Clear` | apsara/stone/containers/intrusive_list.h:150-157 | Removes every element once, in order |
| `Varint.MaskIsRemainder` | apsara/stone/encoding/integer/integer_encoding.h:58-58 | Masking with k ones is the remainder modulo 2^k |
| `Varint.OrIsSum` | apsara/stone/encoding/integer/integer_encoding.h:81-81 | An OR with bits above all of the other operand's is a sum |
| `Varint.Encode` | apsara/stone/encoding/integer/integer_encoding.h:52-63 | The shifting loop writes exactly the base-128 digits, and nothing else in the buffer changes |
| `Varint.GetLength` | apsara/stone/encoding/integer/integer_encoding.h:95-104 | Returns the length of the encoding |
| `Varint.LengthExact` | apsara/stone/encoding/integer/integer_encoding.h:95-104 | n bytes suffice exactly for the values below 2^(7n) |
| `Varint.EncodingFits` | apsara/stone/encoding/integer/integer_encoding.h:106-110 | Every value of an unsigned type fits GetMaxCharsOfEncodedSize bytes |
| `Varint.EncodingFills` | apsara/stone/encoding/integer/integer_encoding.h:106-110 | The bound is attained: the greatest value of each type needs exactly that many bytes |
| `Varint.MaxValues` | apsara/stone/encoding/integer/integer_encoding.h:106-110 | The bound is 2, 3, 5 and 10 bytes for 8, 16, 32 and 64 bits |
| `Varint.MeaningExact` | apsara/stone/encoding/integer/integer_encoding.h:67-92 | On arbitrary bytes decoding succeeds if and only if some byte within the limit that begins inside the type's width is the first below 128; the value is then the sum of the 7-bit groups up to it modulo 2 to the width |
| `Varint.DecodeStep` | apsara/stone/encoding/integer/integer_encoding.h:78-87 | One OR-and-shift iteration adds the next group times its weight, modulo 2^64 |
| `Varint.Decode` | apsara/stone/encoding/integer/integer_encoding.h:67-92 | The loop decodes just so: it succeeds if and only if the first byte below 128 comes within the limit and begins inside the width of the type; value modulo the width, offset one past that byte |
| `Varint.RoundTrip` | apsara/stone/encoding/integer/integer_encoding.h:52-110 | Decoding an encoding followed by any bytes gives the value and its length, and fails exactly when the limit is below the length |
| `Varint.WideRoundTrip` | apsara/stone/encoding/integer/integer_encoding.h:52-92 | A value too wide for the type comes back modulo 2 to the width, or not at all if its encoding is too long |
| `Varint.StreamRoundTrip` | apsara/stone/encoding/integer/integer_encoding.h:52-110 | Any concatenation of encodings decodes back to the list of values |
| `ParseData.PrintRow` | python/dataproc/parse_data.py:10-12 | Writes every field followed by a comma, then a newline |
| `ParseData.PrintFile` | python/dataproc/parse_data.py:6-12 | Prints the columns from the fifth on of every line before the first blank one |
| `ParseData.JoinSplit` | python/dataproc/parse_data.py:10-10 | The fields of any text hold no comma and, joined by commas, make up the text again |
| `ParseData.SplitJoin` | python/dataproc/parse_data.py:10-10 | Splitting undoes joining for any fields without commas, blanks inside included |
| `ParseData.StripParts` | python/dataproc/parse_data.py:8-8 | Stripping any text takes off blanks at both ends only, and all of them |
| `ParseData.StripAround` | python/dataproc/parse_data.py:8-8 | Whatever blanks surround a trimmed text, stripping gives it back |
| `ParseData.TableKept` | python/dataproc/parse_data.py:6-12 | Of lines that hold rows of comma-free fields, blanks inside and any blanks around the line allowed, exactly the columns from the fifth on are kept, none of a row of fewer than five, up to the end or the first blank line |
| `DataLoader.PassesStop` | src/data_loader.cpp:60-94 | Both passes end exactly at the end of the file and at a byte 0xFF, and go on at every other character |
| `DataLoader.SkipExact` | src/data_loader.cpp:71-74 | Between rows exactly the leading spaces, newlines and tabs are skipped |
| `DataLoader.RowsReadBack` | src/data_loader.cpp:60-74 | Rows of comma-free fields, with any gaps between them, are read back exactly, as long as no row begins with a blank or the byte 0xFF and no later field with a newline |
| `DataLoader.PrintedReadBack` | src/data_loader.cpp:60-74 | So is what the printer writes |
| `DataLoader.BufferExact` | src/data_loader.cpp:39-41 | The data buffer is short of the floats that are not labels by the remainder of floats by rows, so exactly as large if and only if the number of rows divides the number of floats |
| `DataLoader.Loader.ReadField` | src/data_loader.cpp:126-138 | Consumes up to and including the next comma and returns that text on request |
| `DataLoader.Loader.SkipBlanks` | src/data_loader.cpp:71-74 | Passes over spaces, newlines and tabs only and stops at the first other character |
| `DataLoader.Loader.RunThroughFile` | src/data_loader.cpp:52-87 | The first pass counts the rows and the fields of the file, modulo 2^32 |
| `DataLoader.Loader.FillRow` | src/data_loader.cpp:103-108 | Stores the values of a row's remaining fields, in order, at consecutive places and changes no other place |
| `DataLoader.Loader.AllocateData` | src/data_loader.cpp:89-124 | The second pass, on every file on which it ends and into arrays with room: labels and data hold what it reads, in order, and the result tells whether its two closing assertions hold |
| `DataLoader.Loader.LoadData` | src/data_loader.cpp:3-50 | Both passes: exact array sizes, contents as the second pass reads them, and whether the assertions hold |
| `DataLoader.WidePairs` | src/data_loader.cpp:60-108 | When every row has at least two fields both passes see the same rows |
| `LoaderLimits.PassesCompare` | src/data_loader.cpp:60-108 | The second pass never reads fewer fields than the first; if it reads as many it makes no more rows, and as many only if every row has at least two fields |
| `LoaderLimits.PassesAgreeExact` | src/data_loader.cpp:121-123 | The second pass ends with both assertions true if and only if every row has at least two fields |
| `LoaderLimits.NarrowExample` | src/data_loader.cpp:94-123 | On the file of the rows 1 and 2,3 it does not |
| `LoaderLimits.BufferFits` | src/data_loader.cpp:39-39 | What the second pass stores fits the data array if and only if the number of rows divides the number of fields |
| `LoaderLimits.ShortBufferExample` | src/data_loader.cpp:39-39 | On the file of the rows 1,2 and 3,4,5 three samples get room for two |
| `LoaderLimits.LoadsWellExact` | src/data_loader.cpp:3-124 | A file whose count stays below 2^32 is loaded inside the arrays and with true assertions if and only if every row has at least two fields and the rows divide the fields |
| `DataLoader.SampleAt` | src/data_loader.cpp:103-108 | In rows of equal width the sample of row i begins at i times that width |
| `DataLoader.TableReadBack` | src/data_loader.cpp:60-82 | The loader sees one row per table line, made of the columns from the fifth on |
| `DataLoader.PrintThenLoad` | src/data_loader.cpp:3-124 | Printing a table of at least six columns of comma-free fields, none of whose kept rows begins with a blank or the byte 0xFF and no later field with a newline, and loading the result gives label i from column 4 and sample j of row i from column 5 + j, in arrays of exactly that size |
| `MiniBatch.PickInside` | src/run_training.cpp:82-84 | With at least 100 rows every random window lies inside both arrays and starts at the same row in both |
| `MiniBatch.WindowsInside` | src/run_training.cpp:82-84 | All windows are inside if and only if there are at least 100 rows |
| `MiniBatch.TooFewRows` | src/run_training.cpp:82-82 | With 99 rows the remainder is taken modulo zero; with fewer the unsigned difference wraps and the raw random number is the offset |
| `MiniBatch.EveryWindow` | src/run_training.cpp:82-82 | Every window that fits can be drawn |
| `MiniBatch.SamplesWindow` | src/run_training.cpp:83-83 | A window of whole rows in the flattened samples is the samples of those rows |
| `MiniBatch.Draw` | src/run_training.cpp:82-86 | The slices handed on are the samples and the labels of the same 100 consecutive rows, at the random row |
| `MiniBatch.Iterate` | src/run_training.cpp:80-108 | Over the whole loop every gradient call gets rows of the training file and every validation call rows of the validation file, and validations come exactly after iterations 0, 500, 1000, ... |
| `MiniBatch.Train` | src/run_training.cpp:25-108 | The same from the two files on, loaded one after the other by one loader: 100200 calls in all |
| `StringPiece.RFind` | apsara/stone/string/string_piece.h:146-159 | The greatest match not above pos, or npos; the index that counts down through zero never escapes |
| `StringPiece.RFindChar` | apsara/stone/string/string_piece.h:160-173 | The greatest position of the character not above pos, or npos |
| `StringPiece.FindLastOf` | apsara/stone/string/string_piece.h:208-223 | The greatest index not above pos with a character of the set, or npos |
| `StringPiece.FindLastNotOf` | apsara/stone/string/string_piece.h:260-275 | The greatest index not above pos with a character outside the set, or npos |
| `StringPiece.Find` | apsara/stone/string/string_piece.h:110-124 | The least match from pos on, or npos |
| `StringPiece.FindFirstOf` | apsara/stone/string/string_piece.h:183-194 | The least index from pos on with a character of the set, or npos |
| `StringPiece.CompareExact` | apsara/stone/string/string_piece.h:320-330 | compare has the sign of the lexicographic order if and only if it is not the case that one piece is a prefix of the other and the low 32 bits of the length difference hide its sign |
| `StringPiece.CompareBound` | apsara/stone/string/string_piece.h:320-330 | compare is right on all pieces of at most n characters if and only if n is below 2^31 |
| `StringPiece.CompareTotalOrder` | apsara/stone/string/string_piece.h:320-330 | Below 2^31 characters compare is antisymmetric, transitive and zero on equals only |

## Left out

- QueueTheorems.QueueLinearizable: uses unbounded tags and FreshMemoryOk; GarbageExact is the exact condition on fresh memory, QueueTagLimit.TagLimitExact the exact limit of wrapping tags, and FewMovesLinearizable and FewMovesSound carry the theorems over below that limit.
- QueueTheorems.StepRefines: uses unbounded tags; the count that Push returns is the subject of PushReturnsCount and no part of the action.
- QueueTheorems.HintsNeverLie: uses unbounded tags and FreshMemoryOk, as above.
- QueueTheorems.RunInvariant: uses unbounded tags and FreshMemoryOk, as above.
- QueueTheorems.NoWildAccess: uses unbounded tags and FreshMemoryOk, as above.
- QueueTheorems.NodesConserved: uses unbounded tags and FreshMemoryOk, as above.
- QueueTheorems.SizeAccounts: uses unbounded tags and FreshMemoryOk, as above.
- QueueProof.InvInductive: uses unbounded tags and FreshMemoryOk, as above.
- QueueTheorems.PushReturnsCount: uses unbounded tags and FreshMemoryOk, as above.
- QueueDestructor.QuietUnmarked: uses unbounded tags and FreshMemoryOk, and so does QueueDestructor.PopOne.
- QueueTagLimit.TagLimitExact: is for `new` returning an mPrev with the invalid tag, so that only the wrapping of tags is at issue.
- QueueDestructor.DestructorDeletesOnce: uses unbounded tags and FreshMemoryOk, as above.
- QueueSequential.LockFreeQueue.Destroy: for queues with 16-bit tags whose hints do not lie, as single-threaded use leaves them; after concurrent use see DestructorDeletesOnce.
- QueueSequential.LockFreeQueue.PopAll: as Destroy.
- StackProof.InvInductive: uses unbounded tags, and so do StackTheorems.RunInvariant, StepRefines, StackLinearizable, NodesConserved, RefusedOnlyWhenFull and SizeAccounts; StackBoundedTags carries them over to 32-bit tags.
- FreeListProof.InvInductive: uses unbounded tags, and so do the other theorems of FreeListProof; FreeListBoundedTags carries them over to 16-bit tags.
- Varint.Encode: non-negative values only; on a negative value the loop ends at once.
- IntrusiveDList.List.Insert: does not model a count beyond 2^31 - 1, which the code's own max_size excludes.
- DataLoader.Loader.LoadData: for counts below 2^32, files with at least one row (on the empty file the code divides by zero) and files on which both passes end inside their arrays; outside these the code does not end or overruns an array.
- Weak memory ordering, fairness, and progress of the queue's Pop under interference.
- QueueProgress.PopEndsAlone: uses unbounded tags and FreshMemoryOk, and so do NoneLinkingSound and PopEndsExactly.
- Reads of Size and Empty, which return mSize.
- The two-argument find_last_not_of of StringPiece, which calls itself with the same arguments.
- FixedInt, a reinterpretation of bytes.
- Console output, opening of files, Caffe calls and the gradient update.
- The pthread locks, condition variables, thread pools, raft, changelog, recordio and the other headers of stone that only declare.
- future.h, RefCounted, Singleton, EntryEx and the boilerplate headers, which would only add easier members.
