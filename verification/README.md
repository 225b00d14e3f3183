# Verified model of ION

ION is a PHP extension for asynchronous programs. This project models the parts of it in which
state changes in many places at once, and proves what they promise.

* **Promises** (`src/ion/ion_promisor.c` and the classes on top of it). Callbacks and generators are
  finite scripts. `Engine`, `Cloning`, `Delivery` and `Operations` say on values what each function
  does to the whole graph of promises; `Promisors` and `Api` are the same functions on objects that
  are updated in place, with re-entrant loops over live handler arrays, and are proved to do just
  that. `Graph`, `References`, `Permanence`, `Firing`, `Runs`, `Handlers` and `Sequences` prove
  invariants over all runs; `Trees` refines delivery to a pure evaluator; `Coroutines`, `Agreement`,
  `Births` and `Schedules` prove that a coroutine, however it is started, cannot tell on which schedule
  its promises settle; `Chases` says when following promises settled with promises ends.
  `Activations`, `Generators`, `Deliveries`, `Passing` and `Effects` say field by field what a program
  sees: which function is called with which value, what settles with what, and that every handler gets
  the outcome of its promise. Apart from the step or the resolution that they are about they name none
  of the functions that compute it.
* **Streams** (`src/classes/ION/Stream.c`, `src/ion/ion_stream.c`). `Tokens` is the resumable search,
  `Streams` the object with its one pending read, `Lines` the claims over whole runs.
* **The deferred queue** (`src/ion/ion_deferred_queue.c`): `Queues`.
* **HTTP messages** (`src/ion/ion_http.c`, `src/classes/ION/HTTP/Message.c`, `src/classes/ION/URI.c`):
  `Headers`, `Uris`, `UriReading`, `Http`, `HttpBuild`, `HttpReading`.

How the promise model is set up:

* A promise is named by its object handle, an index into the records. A handle that names nothing
  reads as null.
* A *good* state (`Operations.Good`) has weights for its prototypes, each larger than the weights of
  the prototypes among its handlers. They say that no prototype contains itself, and they are what
  makes cloning and delivery terminate; `Determined` shows that they have no other
  influence.
* A *run* (`Runs.IsRun`) is any sequence of creating, attaching, removing, naming, settling, invoking,
  cancelling and releasing, each within `Operations.Legal`. Every function of `Api` takes the objects
  one such step further, so that everything proved about runs holds for the objects.
* An invocation whose start callback waits reaches the handlers only when its clone settles. The
  statements about invocations hold for every later time: until the clone settles, each handler keeps
  its slot in the clone, and when it has settled, each handler has fired (`Handlers.RunServes`).
* The past and the future of a coroutine are written as one story. Before its start it is *early*: it has
  not fired, and at most one slot names it (`Births.Early`). From its start on, whatever started it, its
  story is what a pure interpreter makes of its script.

Where the code and its documentation differ, the model follows the code:

* The documentation says that a plain value yielded by a generator is returned to it at once. The
  result type is not reset after a failure, so that after a caught failure the value is thrown
  (`Coroutines.DocumentedExactly`, `Coroutines.CaughtThenPlain`).
* `readLine` promises the next line. `get`, `getLine` and `getAll` may take bytes from under a pending
  `readLine`, and cancelling `read(n)` leaves a watermark behind; both can hide a line
  (`Lines.TakenFromUnder`, `Lines.CancelledCount`). Without them no pending read waits for what is
  there, which `Streams.Stream.Valid` states and every method keeps. `Streams.Stream.Arrive` gives the
  exact condition for one delivery.
* The message builder doubles its array of pieces only once per header. Its writes stay in range if and
  only if the message fits (`HttpBuild.FitsMessage`), which `HttpBuild.Collect` proves by checking each
  of them. A header without values leaves one byte of the text unwritten (`HttpBuild.Build`).

## Model

| member | source | states |
|---|---|---|
| `Schedules.SchedulesAgree` | src/ion/ion_promisor.c:94-253 | Async and sync agree: two runs of one coroutine script that see the same outcomes of the promises it names send and throw the same things into the generator and settle the promise alike, whatever starts it, whatever the schedules and whatever else happens meanwhile |
| `Schedules.CoroutineStory` | src/ion/ion_promisor.c:104-253 | In every run, a coroutine that was started by its own settlement, by the delivery to a handler, by `then` on a settled promise or by an invocation, and that has settled, did exactly what a pure interpreter of its script does with the outcomes of the promises it named |
| `Schedules.StepCarried` | src/ion/ion_promisor.c:75-280 | No operation changes the past or the future of a started coroutine |
| `Schedules.EarlyStep` | src/ion/ion_promisor.c:75-802 | Every operation leaves a promise as it was before its coroutine starts, or starts it, and then its story is that of the script its callback made |
| `Schedules.RunTracked` | src/ion/ion_promisor.c:75-802 | Both phases together carry over every run |
| `Births.EarlyDeliver` | src/ion/ion_promisor.c:260-278 | A delivery starts a coroutine only through one of its own slots, and the coroutine it starts has the story of its script |
| `Births.BirthTold` | src/ion/ion_promisor.c:104-203 | The call that makes the generator, its first run and everything its settlement delivers continue to the story of the script |
| `Agreement.ResolveCarried` | src/ion/ion_promisor.c:255-279 | Resolving another promise keeps the story of a waiting coroutine, and waking it continues that story |
| `Coroutines.WatchTells` | src/ion/ion_promisor.c:172-203 | A yielded value, settled promise or pending promise continues the generator, or suspends it, as the pure interpreter says |
| `Coroutines.FeedTells` | src/ion/ion_promisor.c:205-253 | Send or throw, and the three ways in which a generator goes on, agree with the pure interpreter |
| `Coroutines.BeginFair` | src/ion/ion_promisor.c:205-251 | The pure interpreter, step by step: each send or throw hands back what was yielded before it, the outcome of a promise or the value itself, thrown exactly if the last promise yielded has failed; the story ends with what the generator returns, the outcome of a promise that it returns, or the error that escapes |
| `Coroutines.SoloFair` | src/ion/ion_promisor.c:205-251 | The same for a generator that is resumed |
| `Coroutines.DocumentedExactly` | src/ion/ion_promisor.c:205-251 | The documented law that a yielded plain value comes straight back holds if and only if no plain value is yielded while the last outcome is a failure |
| `Coroutines.CaughtThenPlain` | src/ion/ion_promisor.c:212-251 | A script that catches the failure of an awaited promise and then yields 5 has the 5 thrown into it |
| `Trees.ResolveTree` | src/ion/ion_promisor.c:104-278 | Resolving the root of a tree of handlers, whose calls neither wait nor hand over promises, settles every node with the outcome of a pure function of its parent, makes the calls of the depth-first trace, once each, and touches nothing else |
| `Passing.RunPasses` | src/ion/ion_promisor.c:255-278 | Over any run, whatever settles a promise and whenever: a pending handler that is in one slot and left alone has been given the outcome of its promise when that has settled (its slot for that outcome was called with the value, or passes it on; a waiting one settles or is resumed with it), and is waiting until then |
| `Passing.StepPasses` | src/ion/ion_promisor.c:75-802 | The same for every single operation |
| `Deliveries.DeliverGives` | src/ion/ion_promisor.c:260-278 | The loop over the handlers gives the value to each pending handler that is in no other slot |
| `Deliveries.ResolveGivesCopies` | src/ion/ion_promisor.c:262-270 | When a promise settles, each nested sequence in its slots gives the outcome to a new promise with its callbacks |
| `Deliveries.CloneListed` | src/ion/ion_promisor.c:672-704 | Cloning keeps the number of slots of every promise; a nested clone is in exactly one slot, the clone itself in none |
| `Activations.ResolveGives` | src/ion/ion_promisor.c:84-169 | Resolving gives the promise the value: the slot for DONE, FAILED or CANCELED is called with it once it accepts it, a returned plain value is the result as DONE and a thrown error as FAILED; a slot that is empty or refuses the value passes it on; a waiting promise settles, or its generator gets a send or throw |
| `Activations.ReturnsPromise` | src/ion/ion_promisor.c:183-198 | A callback that returns a promise takes over a settled outcome, and otherwise waits as its last handler |
| `Activations.SettlingLetsGo` | src/ion/ion_promisor.c:54-72 | A promise that settles lets the functions of user code go, keeps internal ones, and is no longer in progress |
| `Generators.GeneratorRuns` | src/ion/ion_promisor.c:144-182 | A generator function is run as a coroutine: the promise settles with the story of its script, or does its first part and waits for a promise that the script names; its own generator is never the result |
| `Generators.GeneratorKept` | src/ion/ion_promisor.c:146-150 | A generator that a plain function returns is the result as DONE, and is not resumed |
| `Runs.Phases` | src/ion/ion_promisor.c:84-278 | In every reachable state a promise is exactly one of settled (with one of DONE and FAILED, no await, no generator, no handlers), waiting for an unsettled promise that lists it as a handler, or pending |
| `Runs.StepGood` | src/ion/ion_promisor.c:75-802 | Every operation leads from a good state to a good state, in which nobody waits for a settled promise |
| `Runs.EmptyGood` | src/ion/ion_promisor.c:75-802 | The state without promises is good, so runs can start there |
| `Runs.RunGood` | src/ion/ion_promisor.c:75-802 | Every state of every run is good |
| `Runs.SettledForever` | src/ion/ion_promisor.c:84-86 | Once settled, a promise keeps result, state and everything else but its count and its name for the rest of the run |
| `Runs.StepSame` | src/ion/ion_promisor.c:84-86 | One operation never changes a settled promise, nor the flags and callbacks of a prototype |
| `Runs.CountsAreExact` | src/ion/ion_promisor.c:90-98 | In every reachable state a reference count is the slots and await links that name the promise plus the references handed to the program and not given back |
| `Runs.StepOutside` | src/ion/ion_promisor.c:260-279 | Each operation changes the references held outside the graph by exactly what it hands over |
| `References.ResolveOutside` | src/ion/ion_promisor.c:90-279 | Resolving gives back every reference it takes |
| `References.DeliverOutside` | src/ion/ion_promisor.c:260-278 | The delivery loop gives up exactly the references of the slots it was handed |
| `References.CloneOutside` | src/ion/ion_promisor.c:672-704 | Cloning accounts for the new object and for every moved await link |
| `Graph.ResolveStuck` | src/ion/ion_promisor.c:255-278 | A resolution leaves nobody waiting for a settled promise who was not before, and not the promise itself |
| `Graph.ClosedStuck` | src/ion/ion_promisor.c:255-259 | Settling a promise leaves stuck exactly waiters that are among its handlers |
| `Graph.DeliverStuck` | src/ion/ion_promisor.c:260-278 | A delivery leaves none of its handlers waiting for a settled promise |
| `Permanence.ResolveKept` | src/ion/ion_promisor.c:84-86 | Resolving changes no settled promise, and no callbacks, flags or prototype handlers of a prototype |
| `Permanence.CloneKept` | src/ion/ion_promisor.c:633-709 | Cloning keeps all prototypes as they are, with their prototype handlers in order |
| `Delivery.ResolveF` | src/ion/ion_promisor.c:75-280 | Resolving terminates for every graph with acyclic prototypes and finite scripts, and the work left never grows |
| `Delivery.DeliverF` | src/ion/ion_promisor.c:260-278 | The loop over the handlers terminates: its work is bounded by what is pending plus the weight of the slots |
| `Cloning.CloneF` | src/ion/ion_promisor.c:633-709 | Cloning terminates, touches only prototypes no heavier than the one cloned, and costs less than its weight |
| `Determined.ResolveSame` | src/ion/ion_promisor.c:75-280 | What a resolution does depends on the state alone, not on the weights that witness its termination |
| `Sequences.CloneShape` | src/ion/ion_promisor.c:633-704 | A clone has the callbacks and flags of the prototype but not its canceler, and a copy of each handler in order; the prototype keeps exactly its prototype handlers, in order |
| `Sequences.InvokeReaches` | src/ion/ion_promisor.c:292-301 | An invocation fires its clone, keeps callbacks and prototype handlers of the sequence, and serves every slot: the copy of that slot in the clone has fired if the clone has settled, and is otherwise still its handler |
| `Sequences.PrototypeFiresEveryTime` | src/ion/ion_promisor.c:672-693 | Over any run, for every slot of an attached prototype handler and every later invocation, until it is forgotten: the copy of that slot has the callbacks of the handler, is new, and has fired at every later time at which the clone has settled, at once or after waiting |
| `Sequences.ExternalFiresOnce` | src/ion/ion_promisor.c:679-687 | Any other handler leaves the sequence at the first invocation for the clone and has fired when the clone has settled, at any later time; one that was waiting for the sequence waits for the clone instead, and no longer when the clone has settled |
| `Sequences.InvokedSlot` | src/ion/ion_promisor.c:672-693 | The same for any slot of the sequence, at any time after the invocation |
| `Sequences.CopiesDiffer` | src/ion/ion_promisor.c:688-692 | Different slots of prototypes have different copies, in order |
| `Sequences.CloneRelinks` | src/ion/ion_promisor.c:681-685 | Whoever waits for the prototype waits for its clone afterwards |
| `Sequences.CloneCleans` | src/ion/ion_promisor.c:693-704 | Cloning runs the autoclean hook once, exactly if it is there, there were handlers and none of them stays |
| `Handlers.RunServes` | src/ion/ion_promisor.c:255-278 | Over any run an ordinary handler keeps its slot until its promise settles, and has fired from then on, unless it is forgotten |
| `Handlers.StepServes` | src/ion/ion_promisor.c:75-802 | The same for every single operation |
| `Handlers.EveryCallbackOnce` | src/ion/ion_promisor.c:104-169 | In every reachable state each promise has run at most one callback, and one that never fired none |
| `Sequences.SlotStays` | src/ion/ion_promisor.c:749-802 | Only forgetting takes a prototype out of a sequence |
| `Firing.DeliverAdvances` | src/ion/ion_promisor.c:260-278 | After a delivery every ordinary handler in its slots has fired, and no callback has run twice; those that were waiting before are woken by `Graph.DeliverStuck` |
| `Chases.SettlingHalts` | src/ion/ion_promisor.c:185-191 | Settling a promise with any value leaves the jump to watch_result finite for all values if and only if the chain from that value does not end at the promise being settled |
| `Chases.RunHalts` | src/ion/ion_promisor.c:185-191 | If every settlement of a run meets that condition, the jump is finite in all its states |
| `Chases.Chase` | src/ion/ion_promisor.c:185-191 | The loop ends at the end of the chain, with the kind of the last promise it passed |
| `Chases.WatchChases` | src/ion/ion_promisor.c:172-203 | The watch_result of the promise model is this loop followed by one inspection of its end |
| `Chases.PlainHalts` | src/ion/ion_promisor.c:185-191 | While nothing has settled with a promise, one jump is enough |
| `Chases.SelfSettled` | src/ion/ion_promisor.c:185-191 | A promise settled with itself is followed for ever |
| `Promisors.World.Select` | src/ion/ion_promisor.c:105-136 | The callback for the signal, or none when it needs more than one argument or its hint refuses the value |
| `Promisors.World.Activate` | src/ion/ion_promisor.c:105-169 | The call, its exception and its returned value lead to the run that the model gives |
| `Promisors.World.Inspect` | src/ion/ion_promisor.c:172-203 | One pass through watch_result on the live objects is one step of the model |
| `Promisors.World.ResumeOnce` | src/ion/ion_promisor.c:205-252 | One pass through resume_generator is one step of the model, and shortens the script |
| `Promisors.World.Spin` | src/ion/ion_promisor.c:172-253 | The two backward jumps end, at the suspension or outcome that the model gives |
| `Promisors.World.Enter` | src/ion/ion_promisor.c:94-105 | A woken promise releases what it awaited; any other is marked as processing |
| `Promisors.World.WaitFor` | src/ion/ion_promisor.c:193-196 | Waiting sets the link, takes a slot and counts both references |
| `Promisors.World.ReleaseCallbacks` | src/ion/ion_promisor.c:54-72 | Exactly the callbacks of user code are freed |
| `Promisors.World.SetOutcome` | src/ion/ion_promisor.c:256-258 | Result, state bits and the processing bit |
| `Promisors.World.Run` | src/ion/ion_promisor.c:84-259 | Up to the delivery, the objects change as the model says |
| `Promisors.World.Resolve` | src/ion/ion_promisor.c:75-280 | The in-place, re-entrant resolution leaves the objects representing what the model computes |
| `Promisors.World.ServeAll` | src/ion/ion_promisor.c:260-278 | The loop over the live handler array, with its slots set to NULL and the array freed, is the model delivery |
| `Promisors.World.DeliverTo` | src/ion/ion_promisor.c:262-270 | One slot: a prototype is cloned and the clone resolved, any other handler is resolved; the reference goes |
| `Promisors.World.Clone` | src/ion/ion_promisor.c:633-709 | The object clone, its loop, its holes and their cleanup represent the model clone |
| `Promisors.World.MoveTo` | src/ion/ion_promisor.c:679-687 | An external handler moves to the clone and its await link follows, with its reference |
| `Promisors.World.NestedSlot` | src/ion/ion_promisor.c:688-692 | A nested prototype is cloned into the next slot of the clone |
| `Promisors.World.Cleanup` | src/ion/ion_promisor.c:749-767 | The holes are squeezed out, the rest keeps its order, and nothing represented changes |
| `Promisors.Squeeze` | src/ion/ion_promisor.c:753-758 | Every write of the copying loop is inside the new array and fills it exactly, in order |
| `Promisors.World.TryClean` | src/ion/ion_promisor.h:208-218 | The autoclean hook runs exactly when its flag is set, no handler is left and a callback is there |
| `Promisors.World.Push` | src/ion/ion_promisor.c:743-747 | A handler takes the next slot |
| `Api.Create` | src/ion/ion_promisor.c:490-528 | A new promise with one reference, as a step of the model |
| `Api.Finish` | src/ion/ion_promisor.c:282-290 | Done and fail of any promise, with the clone of a prototype released, as a step of the model |
| `Api.FinishEx` | src/ion/ion_promisor.c:292-325 | A prototype resolves a clone and returns it; any other promise is resolved itself |
| `Api.UserFinish` | src/classes/ION/ResolvablePromise.c:8-63 | User code settles a promise exactly when it is unsettled, not internal, not waiting and runs no generator |
| `Api.Invoke` | src/classes/ION/Sequence.c:43-67 | Invoking a sequence with one argument, as a step of the model |
| `Api.CancelWith` | src/classes/ION/Deferred.c:39-52 | Cancelling marks and fails an unsettled promise through its canceler, and is refused on a settled one |
| `Api.Then` | src/ion/ion_promisor.c:572-589 | A settled promise answers its new handler at once, any other takes it in its last slot |
| `Api.Append` | src/classes/ION/Promise.c:99-107 | Attaching an existing promise, refused for the promise itself |
| `Api.Remove` | src/ion/ion_promisor.c:769-784 | Exactly the slots of that handler are dropped, their references released, the rest kept in order |
| `Api.RemoveNamed` | src/ion/ion_promisor.c:786-802 | Exactly the slots whose handler has that name are dropped, the rest kept in order |
| `Api.SetName` | src/classes/ION/Promise.c:218-227 | The name changes and nothing else |
| `Effects.FinishGives` | src/ion/ion_promisor.c:282-290 | Done and fail give the promise the value that was passed; a settled promise is left alone |
| `Effects.FinishPlain` | src/ion/ion_promisor.c:256-258 | Without a callback for it, the result is the value passed, with the bit of its kind |
| `Effects.FinishTree` | src/ion/ion_promisor.c:282-290 | Settling the root of a tree of handlers evaluates the tree with the value passed, with the calls of its trace |
| `Effects.FinishRuns` | src/ion/ion_promisor.c:144-182 | A generator function called by done or fail is run as a coroutine |
| `Effects.UserFinishGives` | src/classes/ION/ResolvablePromise.c:8-63 | User code settles exactly a promise that is unsettled, not internal, not waiting and without a generator, with the value passed |
| `Effects.CancelGives` | src/classes/ION/Deferred.c:39-52 | An unsettled deferred is marked as canceled and its canceler is called with the error; without one, or when it declines, it ends FAILED with the error, when it throws FAILED with what it threw |
| `Effects.ThenPending` | src/ion/ion_promisor.c:572-589 | The new handler of an unsettled promise has on_done and on_fail in their places and the last slot; nothing else changes |
| `Effects.ThenSettled` | src/ion/ion_promisor.c:575-578 | The new handler of a settled promise asks on_done or on_fail, as the promise has settled, with its result |
| `Effects.AppendEffect` | src/classes/ION/Promise.c:99-107 | An attached promise takes the last slot and gains two references; nothing else changes |
| `Effects.NewEffect` | src/ion/ion_promisor.c:490-528 | A new promise has its callbacks, its flags and one reference |
| `Effects.ForgetEffect` | src/ion/ion_promisor.c:769-784 | No slot holds the forgotten handler afterwards, every other keeps its number of slots and their order, and the hook of an emptied container runs |
| `Effects.ForgetNamedEffect` | src/ion/ion_promisor.c:786-802 | The same for all handlers with that name |
| `Effects.InvokeGives` | src/classes/ION/Sequence.c:43-67 | The starter of a sequence is called with the argument, without one its clone settles with the argument as DONE; when the clone has settled, each copy of a nested sequence and each other pending handler has been given its outcome, and is a handler of the clone until then |
| `Effects.FinishSequence` | src/ion/ion_promisor.c:282-290 | The same for done and fail of a sequence |
| `Api.GetState` | src/classes/ION/Promise.c:189-205 | The state names what the flags say, and in_progress means waiting for a live promise that lists this one |
| `Runs.FilterIn` | src/ion/ion_promisor.c:772-781 | The handlers that stay are those that do not match |
| `Runs.FilterCount` | src/ion/ion_promisor.c:772-781 | Each handler that stays keeps its number of slots |
| `Runs.RemoveOutside` | src/ion/ion_promisor.c:769-802 | Removing keeps the reference account of every promise |
| `Lines.ReadLines` | src/classes/ION/Stream.c:71-126 | A reader that asks for the next line whenever it gets one receives the split of the whole input at the token, for every way of cutting the input into events |
| `Lines.SplitGrows` | src/classes/ION/Stream.c:71-126 | Bytes that arrive later extend the last, unfinished piece of the split and nothing else |
| `Lines.SplitJoins` | src/classes/ION/Stream.c:317-352 | Lines, tokens and rest put together are the input, and the rest contains no token |
| `Lines.LinesAreFirst` | src/ion/ion_stream.c:102-138 | The first token of a line with its token is the one that ends it |
| `Lines.Play` | src/classes/ION/Stream.c:71-1144 | Over any sequence of input, end, error, cancel and read calls, what was handed out with the tokens dropped, then the buffer, is all that arrived, in order |
| `Lines.TakenFromUnder` | src/classes/ION/Stream.c:917-928 | Taking bytes with getAll from under a pending readLine leads to a token at the front of the buffer that the read does not see |
| `Lines.CancelledCount` | src/classes/ION/Stream.c:1018-1028 | Cancelling a pending read(n) leaves its watermark, so that a later readLine is not told of a line that has come |
| `Tokens.Search` | src/ion/ion_stream.c:102-138 | The search reports the least occurrence from the stored offset up to the limit, and advances offset and limit flag as stated |
| `Tokens.SearchChunks` | src/ion/ion_stream.c:102-138 | Without a limit, searching after each chunk stops at the first chunk that completes an occurrence and reports its least index in all bytes |
| `Tokens.ResumedIsPlain` | src/ion/ion_stream.c:121-136 | From an offset that no occurrence precedes, the resumed search answers like a search of the whole buffer |
| `Tokens.MissesExactly` | src/ion/ion_stream.c:121-136 | A resumed search differs from the plain one if and only if the first occurrence starts before the stored offset |
| `Tokens.LimitedIndex` | src/ion/ion_stream.c:102-127 | A limited search finds the first token if it ends within the limit, and before its last byte when there are more bytes than the limit |
| `Tokens.LimitMoves` | src/ion/ion_stream.c:106-117 | Further on the limit counts from the stored offset |
| `Streams.Stream.Arrive` | src/classes/ION/Stream.c:71-106 | Pending reads are served exactly when their condition holds. A pending line read without a limit gets the first line, or finds none, if and only if there is no token, or the watermark is reached and the stored offset has not passed the first token |
| `Streams.NextExactly` | src/ion/ion_stream.c:121-136 | A line read that looks at the buffer gets the next line if and only if its offset has not passed it |
| `Streams.Stream.ArriveLine` | src/classes/ION/Stream.c:81-96 | A found token delivers its line, an exhausted limit delivers false, and otherwise nothing moves |
| `Streams.Stream.Leave` | src/classes/ION/Stream.c:108-122 | The incoming handler is told exactly when nobody reads, nothing is suspended and data is there |
| `Streams.Stream.Eof` | src/classes/ION/Stream.c:150-169 | At the end a line or count read gets false and readAll gets all bytes |
| `Streams.Stream.Fail` | src/classes/ION/Stream.c:174-187 | An error rejects the pending read and leaves the buffer |
| `Streams.Stream.ReadBytes` | src/classes/ION/Stream.c:295-315 | A prefix of at most the size asked for; reading no bytes of a non-empty buffer fails |
| `Streams.Stream.ReadToken` | src/classes/ION/Stream.c:317-352 | What each of the three modes hands out, drops and leaves |
| `Streams.Stream.Release` | src/classes/ION/Stream.c:974-985 | The end of a read clears it and its token; the count survives |
| `Streams.Stream.Read` | src/classes/ION/Stream.c:988-1029 | An equal pending read is joined, another is refused; read(n) takes exactly the first n bytes when they are there and waits with watermark n when they are not; read(0) on data fails, and a negative count is taken modulo the width of size_t |
| `Streams.Stream.ReadLine` | src/classes/ION/Stream.c:1036-1097 | An equal pending read is joined, another is refused; the first token gives its line, with a limit if it ends in reach of it; otherwise the read waits or an exhausted limit ends it |
| `Streams.Stream.ReadAll` | src/classes/ION/Stream.c:1106-1144 | Everything after the end of the stream, else a read that waits for it |
| `Streams.Stream.Get` | src/classes/ION/Stream.c:889-910 | The first n bytes, or all when there are fewer, are taken, whether or not a read is pending |
| `Streams.Stream.GetAll` | src/classes/ION/Stream.c:917-928 | The whole buffer is taken |
| `Streams.Stream.GetLine` | src/classes/ION/Stream.c:933-966 | The first line, with a limit if its token ends in reach of it, or false; a pending read is not looked at |
| `Queues.Queue.Push` | src/ion/ion_deferred_queue.c:16-37 | The item goes last, holds one reference, the array is 16 or doubled when full, and a wake-up is scheduled |
| `Queues.Queue.Drain` | src/ion/ion_deferred_queue.c:39-60 | Everything queued, and everything that running it queues, has run in the order of the pushes; all references are given back |
| `Queues.Queue.Wake` | src/ion/ion_deferred_queue.c:62-67 | The wake-up runs the whole queue, and leaves a wake-up scheduled if a running item asked for it |
| `Queues.Queue.Clean` | src/ion/ion_deferred_queue.c:69-82 | All references are given back and nothing runs |
| `Queues.FifoRunsAllOnce` | src/ion/ion_deferred_queue.c:43-56 | The drain order contains every item that the queued trees stand for, exactly once |
| `Queues.FifoIsPushOrder` | src/ion/ion_deferred_queue.c:43-56 | The drain order is the queue followed by what the run items push, in their order |
| `Uris.Measure` | src/classes/ION/URI.c:43-77 | The measured length is the length of the text |
| `Uris.Stringify` | src/classes/ION/URI.c:38-126 | The second pass stays inside the measured buffer, fills it exactly, and writes the selected pieces with their delimiters |
| `Uris.PortWidthExact` | src/classes/ION/URI.c:55-68 | The assumed width of the port is its decimal width if and only if the port is below 100000 |
| `Uris.DecimalReads` | src/classes/ION/URI.c:103-105 | The printed port reads back as the port |
| `UriReading.PrintedReads` | src/classes/ION/URI.c:81-121 | A URI whose pieces do not contain the delimiters that end them reads back from its text (compare appendix B of RFC 3986) |
| `UriReading.AllSelected` | src/ion/ion_http.c:232-234 | With all parts selected, the text is that of the whole URI |
| `UriReading.PartsRead` | src/classes/ION/URI.c:81-121 | With any selection of parts, the text of a well-formed URI reads back as exactly the parts whose bits are set |
| `Uris.Authority` | src/classes/ION/URI.c:353-360 | User, password, host and port with their delimiters, and nothing without a host |
| `Headers.Message.WithHeader` | src/classes/ION/HTTP/Message.c:188-197 | The values of a name in any case are replaced, and the header moves to the end |
| `Headers.Message.WithAddedHeader` | src/classes/ION/HTTP/Message.c:220-234 | The values go behind those stored under the name in any case |
| `Headers.Message.WithoutHeader` | src/classes/ION/HTTP/Message.c:258-272 | The name in any case is gone and the others stay |
| `Headers.Message.HeaderValue` | src/ion/ion_http.c:86-112 | A value goes behind those of the last name seen; without a name it is an error |
| `Headers.BodyIsFragments` | src/ion/ion_http.c:41-53 | After any sequence of edits and callbacks the body is the concatenation of its fragments in order, and absent if there was none |
| `Headers.Message.HasHeader` | src/classes/ION/HTTP/Message.c:84-99 | The name is found in any case |
| `Headers.Message.GetHeader` | src/classes/ION/HTTP/Message.c:106-124 | The values in the order of their arrival, or none |
| `Headers.Play` | src/classes/ION/HTTP/Message.c:155-272 | After any sequence of edits and parser callbacks the table agrees with a map from lower-case names to value lists, the pending name with the last one seen, and the body with the fragments |
| `Headers.OtherNamesDoNotMatter` | src/classes/ION/HTTP/Message.c:188-272 | What is stored under a name depends on the edits of that name and the callbacks that follow it alone |
| `HttpBuild.Build` | src/ion/ion_http.c:201-325 | There is a text if and only if the reason is known and the message fits. It is start line, header lines, empty line and body, the format of section 3 of RFC 7230, with every write in range; the buffer is filled but for one byte for each header without values |
| `HttpBuild.Collect` | src/ion/ion_http.c:201-285 | A write falls outside the pipe if and only if the message does not fit; otherwise the pipe holds the pieces in order, and the size is their length plus one for each header without values |
| `HttpBuild.AddHeader` | src/ion/ion_http.c:252-277 | One header: the pipe is doubled at most once, a write falls outside exactly when its pieces do not fit, otherwise they are stored in order and their size is counted |
| `HttpBuild.AddMany` | src/ion/ion_http.c:263-276 | Values and commas are stored and the last entry is overwritten by the line end, or a write falls outside exactly when they do not fit |
| `HttpBuild.Begin` | src/ion/ion_http.c:217-245 | The start line of a response, a request or a bare message, with its measured size |
| `HttpBuild.Write` | src/ion/ion_http.c:287-312 | Every piece is copied inside the buffer, and exactly the pieces after a line end are capitalised |
| `HttpBuild.Capitalise` | src/ion/ion_http.c:294-306 | The in-place transform computes the pure one |
| `HttpBuild.ShortListsFit` | src/ion/ion_http.c:252-267 | With at most 15 values per header every write is inside the pipe, however many headers there are |
| `HttpBuild.SixteenMayNotFit` | src/ion/ion_http.c:264-267 | Behind a full pipe, doubling once makes room for exactly 15 values |
| `HttpBuild.OneHeaderFits` | src/ion/ion_http.c:264-267 | In a message with one header, exactly up to 27 values fit |
| `Http.CaseAt` | src/ion/ion_http.c:292-306 | A letter becomes upper case if and only if no letter precedes it since the start or the last punctuation character |
| `Http.LowerCase` | src/ion/ion_http.c:292-306 | The transform only changes the case of letters |
| `Http.Classes` | src/ion/ion_http.c:5-37 | The classes of the transform table: visible characters other than digits and letters, and lower-case letters with their capitals |
| `Http.WrittenLength` | src/ion/ion_http.c:227-284 | The measured length of pieces is the length of what the writer makes of them |
| `HttpReading.BlockReads` | src/ion/ion_http.c:248-316 | Splitting a built header block at line ends and at the first colon and space gives back its fields and the body |
| `HttpReading.FieldsAre` | src/ion/ion_http.c:248-316 | The fields sent are the stored headers: names but for the case of their letters, and values, which splitting at the commas gives back |
| `HttpReading.ResponseReads` | src/ion/ion_http.c:217-226 | Cutting the text of a response at the first line end and two spaces gives "HTTP/" and the version, digits whose value is the status, and the reason; headers and body follow |
| `HttpReading.RequestReads` | src/ion/ion_http.c:227-245 | The same for a request: the method, a target that is the one given or reads back as the URI given or is a slash, and the version |
| `HttpReading.BareReads` | src/ion/ion_http.c:248-316 | A message that is neither starts with its headers |

## Left out

- Promisors.World.Resolve: the reference that a resolution holds on its own promise while it runs, and the freeing of promises whose count reaches zero with the cascade that follows, are not part of the model; objects are never freed in the model.
- Runs.CountsAreExact: a count that reaches zero frees nothing, so that the account is that of a program in which every released object stays; the releases that freeing an object would cause are not counted.
- Api.Finish: the data is not a promise (nor in `Api.FinishEx`, `Api.UserFinish` and `Api.Invoke`), because the two jumps then need not end; `Chases` gives the exact condition for every settlement and run, but a run of the promise model has no such settlements.
- Api.Then: a callback with more than one required parameter is refused by the source with an exception and a leaked handler; it is not modelled.
- Api.Append: a settled target is not modelled, because the source appends to it without looking and the handler is never told.
- Api.Remove: forgetting a handler that waits for the promise is not modelled; it would wait for ever.
- Api.CancelWith: a promise cancelled while it waits keeps its slot in the promise it waited for; the invariants only state that whoever waits has a slot, not the converse.
- Api.Invoke: calls with several arguments need `ion_promisor_done_args`, which is not part of the repository.
- Promisors.World.Push: the handler count is a 16-bit number in the source and unbounded here.
- Promisors.World.Activate: user code does not call back into the engine while it runs, and an internal callback that returns nothing without an exception is not modelled.
- Schedules.SchedulesAgree: the promises and generators that the script names exist when the account begins, the promises are no prototypes, and the coroutine's promise is then the handler of at most one slot and has not fired. Until it has settled, no operation passes promises or generators as data or brings in callbacks that answer plain data with a generator that already exists, and nobody settles, cancels or attaches the promise from outside once it has fired or while a slot names it (`Schedules.Harmless`). In such a run nothing settles with a generator; what becomes of one that is returned is stated by `Generators.GeneratorRuns` and `Generators.GeneratorKept`.
- Passing.RunPasses: a handler that is in several slots gets the outcome of the promise that settles first; the statement is about handlers in one slot. What a generator or a returned promise makes of the value is stated by `Generators.GeneratorRuns` and `Activations.ReturnsPromise`.
- HttpReading.ResponseReads: a status of five digits is cut to four by the source, and pieces with spaces or line breaks do not read back.
- Lines.ReadLines: the mode that leaves the token in the buffer is not read line by line; it would find the same empty line again.
- Tokens.Search: the limit of a search counts from the moving offset, so with a limit the answer depends on the chunks; it is stated per call only.
- Streams.Stream.Arrive: libevent is a byte sequence with a low watermark; the upper watermark, failures of its calls and encryption are not part of the model.
- Queues.Queue.Drain: items do not throw, and do not run the event loop themselves.
- HttpBuild.Build: without a reason the source follows a null pointer, and a message that does not fit is written past the array; there the model only says that it happens. The unwritten byte that a header without values leaves has no particular value.
- UriReading.PrintedReads: hosts in brackets contain colons and are not read back.
- The HTTP, WebSocket and URL parsers, whose source is elsewhere; only their callbacks that fill a message are modelled.
- The aggregator stubs of promises, timers, processes, signals, files, sockets and listeners: calls into other systems.
- The table of reason phrases is a parameter of the message builder.
