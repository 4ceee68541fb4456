# Verified model of the Fenyun siege-vehicle simulator

A Dafny model of the six parts of the backend that carry properties over all
inputs or all runs, with proofs of those properties. Doubles are reals; library
functions (`pow`, `log`, `exp`, `sqrt`, `cos`, `sin`, `stod`, the text of a
double) are parameters, and each result names the laws it uses of them. Random
draws, clock readings and configuration are inputs with the ranges the code gives
them.

| file | what it models |
|---|---|
| `JsonValue`, `JsonParser` | the JSON printer and the cursor parser |
| `JsonGrammar`, `JsonReads` | JSON texts as RFC 8259 writes them, and that the parser reads each as what it means |
| `JsonRoundTrip`, `JsonUnicode` | how printer and parser invert each other, and what the Unicode escapes give |
| `SpscQueue` | the ring buffer as interleaved atomic steps of one producer and one consumer |
| `TaskPool` | the plasticity task pool: submitters, workers, callers, cleanup and stop as one step machine |
| `JohnsonCook` | the flow stress law and the bisection that inverts it |
| `AhpSums`, `AhpConsistency` | finite sums, power iteration, the consistency ratio |
| `AhpCorrection`, `AhpOptimizer` | the auto-correction step and whole runs of the in-place loop |
| `AhpLimits`, `AhpCapped` | what that loop cannot do: step ratios that raise the ratio, judgements it cannot move |
| `AhpConsensus`, `AhpAggregation`, `AhpGroup` | consensus index, geometric aggregation, expert generation and the group decision |
| `AhpLaws` | what a correction step, the ratio and the index are, without the functions that compute them |
| `VehicleState`, `SessionIds` | the vehicle record and the identifiers both session services share |
| `VehicleDecay`, `VehicleLaws` | what elapsed time, driving and a hit do to the record |
| `VrEngine`, `VrTick`, `VrService` | the VR engine: operations and runs, what a tick throws and leaves, and the class over four maps |
| `UserSession`, `UserStep`, `UserService` | the user-session manager: operations and runs, what a time step throws and leaves, and the class over three maps |
| `Formation`, `FormationLaws`, `FormationOptimizer` | vehicle layouts as cells, as coordinates, and the methods that place them |
| `Collections`, `Reals` | options, map and set helpers; order facts about real products and quotients |

Each stateful part comes twice: functions and lemmas say what an operation does
and what holds over all runs, and a class or an in-place method carries the
operation out with the loops and updates of the source and is proved to do just
that. `dafny verify dfyconfig.toml` verifies the project.

Where the code and its comments differ the model follows the code. Lines 44-45 of
`backend/include/common/lockfree_queue.h` promise safe use by several producers
and consumers; the code has no compare-and-swap, and only one producer and one
consumer are claimed here. Results that are false of the code as one might first
state them are given with an input and their exact condition: the round trip of
doubles (`DoubleReadsBack`, `IntegralDoubleBecomesInt`), UTF-8 out of escapes
(`EscapesUtf8Exact`, `SurrogatesStayApart`), the answer of a simulation
(`AnswerIsOwn`, `CleanupRace`), the sign of the consistency ratio
(`RatioSignExact`), the step ratio that never raises it (`StepRatioExact`),
corrections that get stuck (`StuckExact`, `CappedFails`), what a user-session
reset restores (`ResetLeavesVibration`, `ShakingReset`), and the spacing of
diamonds (`DiamondSeparated`, `DiamondCollides`).

## Model

| member | source | states |
|---|---|---|
| JsonReads.TextReads | backend/include/common/json.h:212-360 | Every JSON text of RFC 8259 - numbers with or without fraction and exponent, strings with every escape, nested arrays and objects, any whitespace before each token - reads as what it means, and the cursor stops right behind its last token. |
| JsonReads.TreeReads | backend/include/common/json.h:220-352 | The inductive core: any value inside a text, followed by bytes that cannot continue a number, is read as its meaning and nothing behind it is touched. |
| JsonReads.NumeralReads | backend/include/common/json.h:326-352 | The number syntax of section 6 of RFC 8259, leading zeros and empty digit runs included: an integer reads as its value or as `Null` outside 64 bits, anything with a fraction or an exponent as what `stod` makes of the whole numeral, and what follows it is left. |
| JsonReads.ScanIsNumeral | backend/include/common/json.h:326-341 | Conversely, on any bytes what the scanner passes over is such a numeral, and it counts as a double exactly when it has a point or an exponent. |
| JsonReads.StringReads | backend/include/common/json.h:270-313 | Section 7 of RFC 8259: a string of raw bytes, short escapes and \\uXXXX escapes in digits of either case reads as its bytes with every escape replaced, and the cursor stops behind the closing quote. |
| JsonReads.OtherEscapeReads | backend/include/common/json.h:276-307 | An escape that RFC 8259 does not know stands for its own byte, wherever it is in a string. |
| JsonReads.CutStringReads | backend/include/common/json.h:270-313 | A string without its closing quote reads as everything there is. |
| JsonReads.ListClosedBy | backend/include/common/json.h:254-268 | An array with items in it is closed by any byte that is neither blank nor comma nor the continuation of a number: no bracket is missed. |
| JsonReads.RecordClosedBy | backend/include/common/json.h:232-252 | The same for an object with members. |
| JsonGrammar.LastNameWins | backend/include/common/json.h:245 | An object holds for every name the last value its text gives to it. |
| JsonGrammar.InsertLookup | backend/include/common/json.h:245 | Assigning one member changes that member and no other. |
| JsonRoundTrip.SpacedRoundTrip | backend/include/common/json.h:155-352 | For every well-formed value whose doubles are shown as numbers that read back, its printed tokens with any whitespace before each of them parse back to the same value with the whole text consumed; strings are arbitrary byte strings. |
| JsonRoundTrip.RoundTrip | backend/include/common/json.h:155-360 | Parsing what `dump` prints gives the value back and leaves nothing unread. |
| JsonRoundTrip.DoubleFreeRoundTrip | backend/include/common/json.h:155-360 | For a value without doubles the round trip holds for any `show` and `stod`. |
| JsonRoundTrip.DumpInjective | backend/include/common/json.h:155-192 | Two different printable values never print the same text. |
| JsonRoundTrip.SpacedReads | backend/include/common/json.h:220-352 | The inductive core: a spaced printing followed by any bytes that cannot continue a number is read back exactly, and reading stops at those bytes. |
| JsonRoundTrip.QuotedReads | backend/include/common/json.h:132-313 | A printed string reads back byte for byte, and the cursor stops right behind its closing quote. |
| JsonRoundTrip.DecimalReads | backend/include/common/json.h:326-352 | A printed 64-bit integer reads back as the same integer, never as a double, before any byte that cannot continue a number. |
| JsonRoundTrip.ReadWellFormed | backend/include/common/json.h:220-352 | Whatever the input bytes, the value read is one the value class can hold: integers in 64 bits, object keys sorted and distinct. |
| JsonRoundTrip.InsertSorted | backend/include/common/json.h:245 | Assigning a member keeps the keys of an object sorted and distinct, whether the key is new or overwritten. |
| JsonRoundTrip.PrintAfterParseStable | backend/include/common/json.h:155-352 | On arbitrary bytes, a parsed value survives another print and parse unchanged if its doubles do. |
| JsonRoundTrip.DoubleReadsBack | backend/include/common/json.h:160-351 | For any text function `show` and any number reader `stod`, a printed double comes back exactly when its text is an optional minus, digits, and a fraction or an exponent, and `stod` reads it as that double. |
| JsonRoundTrip.IntegralDoubleBecomesInt | backend/include/common/json.h:161-347 | Where `show` gives a double the text of an integer it comes back as that integer: the round trip is false for it. |
| JsonUnicode.EscapesUtf8Exact | backend/include/common/json.h:287-305 | If the rest of the string is UTF-8 (the whole syntax of section 4 of RFC 3629), what is read is UTF-8 exactly when no escape is a surrogate. |
| JsonUnicode.Utf8Exact | backend/include/common/json.h:293-301 | That encoding can be decoded back for every code point, and is UTF-8 (section 4 of RFC 3629) exactly when the code point is not a surrogate. |
| JsonUnicode.SurrogatesStayApart | backend/include/common/json.h:287-305 | A surrogate pair is not joined: wherever it stands in a string it reads as six bytes, and the whole string read is not UTF-8. |
| JsonValue.KeyLessTotal | backend/include/common/json.h:17 | The byte order of object keys is total: one of two different keys is first. |
| JsonValue.KeyLessIs | backend/include/common/json.h:17 | And it is the order of `std::string`: the first difference decides, a prefix is smaller. |
| JsonValue.EscapeString | backend/include/common/json.h:132-153 | Appends the quoted, escaped string to the stream and changes nothing already written. |
| JsonValue.DumpImpl | backend/include/common/json.h:155-185 | The recursive printer appends exactly the concatenation of the value's tokens. |
| JsonValue.Dump | backend/include/common/json.h:188-192 | Printing to a fresh stream gives the printed text. |
| JsonParser.Parser.SkipWs | backend/include/common/json.h:212-214 | Advances the cursor past exactly the leading whitespace. |
| JsonParser.Parser.ParseValue | backend/include/common/json.h:220-230 | For every input and cursor: terminates, never moves the cursor back or past the end, and returns what the reading function reads from the rest. |
| JsonParser.Parser.ParseObject | backend/include/common/json.h:232-252 | Same for objects, including a missing colon, a missing comma and repeated keys. |
| JsonParser.Parser.ParseArray | backend/include/common/json.h:254-268 | Same for arrays, including a missing comma or bracket. |
| JsonParser.Parser.ParseString | backend/include/common/json.h:270-313 | Same for strings, including an unterminated one, and a dangling backslash. |
| JsonParser.Parser.ParseEscape | backend/include/common/json.h:276-307 | Same for what follows a backslash, including a truncated or malformed \\u escape. |
| JsonParser.Parser.ParseNumber | backend/include/common/json.h:326-352 | Same for numbers, including the ones that end in `Null` because conversion fails or overflows. |
| JsonParser.ParseText | backend/include/common/json.h:357-360 | Total on arbitrary bytes: terminates with a value and a cursor within the input, as the reading function says. |
| SpscQueue.EveryRun | backend/include/common/lockfree_queue.h:49-90 | From a new queue, after any interleaving of producer and consumer steps: items pushed are items popped followed by the contents, at most the requested capacity is held, the slot being written is not the slot being read, and a refusal happens only at a really full or empty queue. |
| SpscQueue.StepRefines | backend/include/common/lockfree_queue.h:71-90 | Every atomic step is a step of a bounded FIFO: one item in at the end, the oldest out, or nothing. |
| SpscQueue.StepKeeps | backend/include/common/lockfree_queue.h:71-90 | Every step of either side keeps the invariant that ties indices, slots and both sides' local state to the history. |
| SpscQueue.TestsExact | backend/include/common/lockfree_queue.h:74-84 | At the deciding load the full test is true exactly at capacity and the empty test exactly at zero items. |
| SpscQueue.SlotsDisjoint | backend/include/common/lockfree_queue.h:77-87 | A producer past its full test and a consumer past its empty test never use the same slot. |
| SpscQueue.Fifo | backend/include/common/lockfree_queue.h:71-90 | Nothing is lost, duplicated or reordered between the two ends. |
| SpscQueue.ApproxSizeBetween | backend/include/common/lockfree_queue.h:99-104 | With any steps between its two loads, the approximate size is the pushes so far less the earlier pops modulo the ring, equals that difference exactly while it is within capacity, and is exact in a quiet moment. |
| SpscQueue.LockFreeQueue.Push | backend/include/common/lockfree_queue.h:71-80 | Succeeds exactly below capacity and then appends the item; otherwise changes nothing. A pop may be halfway. |
| SpscQueue.LockFreeQueue.Pop | backend/include/common/lockfree_queue.h:82-90 | Succeeds exactly on a non-empty queue and then takes the oldest item; otherwise leaves `out` alone. |
| SpscQueue.LockFreeQueue.ApproxSizeNow | backend/include/common/lockfree_queue.h:99-104 | Without interference it returns the number of items. |
| TaskPool.ExactlyOnePlace | backend/src/impact_simulator/impact_simulator.cpp:60-109 | In every reachable state a submitted task is in exactly one of queued, held by one worker, completed, discarded by a stop; a queued or held one is still in the task table. |
| TaskPool.LeaveInOrder | backend/src/impact_simulator/impact_simulator.cpp:85-109 | Over any run the tasks that left the queue are the next ones in enqueue order, each at most once. |
| TaskPool.AnswerIsOwn | backend/src/impact_simulator/impact_simulator.cpp:214-322 | For every run: what a caller gets is the calculation for the input that was drawn with its id exactly when no cleanup came between the completion of its task and its lookup, and the empty result exactly when one did. |
| TaskPool.AnswerWithoutCleanup | backend/src/impact_simulator/impact_simulator.cpp:214-322 | In runs without cleanup every caller gets the calculation for the input drawn with its id. |
| TaskPool.CleanupRace | backend/src/impact_simulator/impact_simulator.cpp:302-347 | A run in which that happens: one task, one worker, and a cleanup in the gap leaves its caller with the empty result. |
| TaskPool.DiscardedWaits | backend/src/impact_simulator/impact_simulator.cpp:292-322 | A caller whose task a stop discarded never returns, however the run goes on: its task stays in the table and is never completed. |
| TaskPool.OwnInput | backend/src/impact_simulator/impact_simulator.cpp:264-272 | In every run ids count up from 1 and each task holds the input drawn with its id. |
| TaskPool.TableHolds | backend/src/impact_simulator/impact_simulator.cpp:264-352 | After every run the task table holds exactly the submitted tasks that no caller has taken out and no cleanup has found completed; nothing of a caller that is done. |
| TaskPool.StepKeeps | backend/src/impact_simulator/impact_simulator.cpp:52-352 | Every locked region or atomic access of submitter, worker, caller, cleanup and stop keeps the pool invariant. |
| TaskPool.RunKeeps | backend/src/impact_simulator/impact_simulator.cpp:52-352 | So does every run, and the enqueue history only grows. |
| TaskPool.WorkProgress | backend/src/impact_simulator/impact_simulator.cpp:73-109 | Taking a task or finishing one lowers 2 * queued + held by one; a finer measure falls with every worker step. |
| TaskPool.WorkBounded | backend/src/impact_simulator/impact_simulator.cpp:73-109 | Worker steps alone cannot go on for longer than the measure. |
| TaskPool.QuietMeansDone | backend/src/impact_simulator/impact_simulator.cpp:73-109 | While the pool runs, workers have nothing to do only when every submitted task is completed or was discarded. |
| TaskPool.ImpactSimulator.DrawId | backend/src/impact_simulator/impact_simulator.cpp:264 | Draws a fresh id outside the lock. |
| TaskPool.ImpactSimulator.EnqueueTask | backend/src/impact_simulator/impact_simulator.cpp:269-273 | Registers the task and appends its id in one locked step. |
| TaskPool.ImpactSimulator.PopNextTask | backend/src/impact_simulator/impact_simulator.cpp:85-109 | Hands the front id's task to the worker; none exactly on an empty queue. |
| TaskPool.ImpactSimulator.RunTask | backend/src/impact_simulator/impact_simulator.cpp:77-79 | Stores the calculation for the task's own input in the shared task object. |
| TaskPool.ImpactSimulator.CompleteTask | backend/src/impact_simulator/impact_simulator.cpp:80 | Marks the shared task object completed. |
| TaskPool.ImpactSimulator.LookupTask | backend/src/impact_simulator/impact_simulator.cpp:293-304 | For any id, submitted or not: finds the task exactly while it is in the table. |
| TaskPool.ImpactSimulator.TakeResult | backend/src/impact_simulator/impact_simulator.cpp:306-321 | Returns the calculation for the task's own input. |
| TaskPool.ImpactSimulator.CleanupCompletedTasks | backend/src/impact_simulator/impact_simulator.cpp:337-347 | Erases exactly the completed tasks. |
| TaskPool.ImpactSimulator.EraseCompleted | backend/src/impact_simulator/impact_simulator.cpp:340-346 | The erase loop keeps exactly the tasks that are not completed, unchanged. |
| TaskPool.ImpactSimulator.RemoveTask | backend/src/impact_simulator/impact_simulator.cpp:349-352 | Takes one id out of the table and touches nothing else. |
| TaskPool.ImpactSimulator.StartWorkers | backend/src/impact_simulator/impact_simulator.cpp:52-58 | Starts at least one worker, and nothing when already running. |
| TaskPool.ImpactSimulator.StopWorkersFlag | backend/src/impact_simulator/impact_simulator.cpp:60-61 | Lowers the flag once. |
| TaskPool.ImpactSimulator.StopWorkersClear | backend/src/impact_simulator/impact_simulator.cpp:67-70 | With every worker gone, discards what is queued. |
| TaskPool.ImpactSimulator.IsTaskComplete | backend/src/impact_simulator/impact_simulator.cpp:283-290 | True exactly for a completed task still in the table. |
| JohnsonCook.StrainMonotone | backend/src/impact_simulator/impact_simulator.cpp:152-186 | For the same material, rate and temperature a larger stress never yields a smaller strain, for any power and logarithm function. |
| JohnsonCook.YieldsAtA | backend/src/impact_simulator/impact_simulator.cpp:152-170 | At or below the reference temperature and rate the strain is 0 exactly up to the yield stress A. |
| JohnsonCook.StaticFlow | backend/src/impact_simulator/impact_simulator.cpp:135-150 | There the flow stress is the static curve A + B strain^n. |
| JohnsonCook.HotterStrainsMore | backend/src/impact_simulator/impact_simulator.cpp:152-186 | For a pow that grows on [0, 1], a non-negative stress and a factor that stays above the 1e-9 guard, a hotter loading never yields a smaller strain. |
| JohnsonCook.FasterStrainsLess | backend/src/impact_simulator/impact_simulator.cpp:152-186 | For a growing log and C not negative, under the same guard, a faster loading never yields a larger strain. |
| JohnsonCook.LinearSoftening | backend/src/impact_simulator/impact_simulator.cpp:135-150 | With thermal exponent 1 the flow stress falls on a straight line from the reference temperature towards the melting point and stays at a hundredth from 99 percent of the way on. |
| JohnsonCook.RateHardening | backend/src/impact_simulator/impact_simulator.cpp:135-150 | Above the reference rate the flow stress carries the factor 1 + C log(rate / reference rate). |
| JohnsonCook.BisectOrdered | backend/src/impact_simulator/impact_simulator.cpp:176-184 | Two bisections with ordered targets keep the same bracket or one wholly below the other. |
| JohnsonCook.StrainRange | backend/src/impact_simulator/impact_simulator.cpp:164-170 | The strain is 0 exactly for a vanishing factor or a stress at or below the scaled yield; any other answer lies strictly between 1e-6 and 1. |
| JohnsonCook.FlowEncloses | backend/src/impact_simulator/impact_simulator.cpp:135-186 | A stress between the flow stresses at 1e-6 and 1 stays between the flow stresses at the ends of every later bracket. |
| JohnsonCook.FlowStressInverted | backend/src/impact_simulator/impact_simulator.cpp:135-186 | The strain found for the flow stress at a strain is within (1 - 1e-6) / 2^(k+1) of that strain after k iterations, for any increasing power function. |
| JohnsonCook.StrainSaturates | backend/src/impact_simulator/impact_simulator.cpp:172-185 | A stress above the flow stress at strain 1 is answered with the largest strain the search can return. |
| JohnsonCook.BisectWidth | backend/src/impact_simulator/impact_simulator.cpp:176-184 | k rounds leave a bracket of width (1 - 1e-6) / 2^k inside the first one. |
| JohnsonCook.CalcPlasticStrain | backend/src/impact_simulator/impact_simulator.cpp:152-186 | The loop computes the specified strain for every iteration limit, negative ones included. |
| AhpConsistency.RatioNonNegative | backend/src/protection_optimizer/protection_optimizer.cpp:111-137 | For any reciprocal positive matrix and weights above the 1e-12 guard, the principal value is at least n, the ratio is never negative, and it is 0 exactly when every entry is the ratio of its weights (or n <= 2). |
| AhpConsistency.RatioSignExact | backend/src/protection_optimizer/protection_optimizer.cpp:126 | For positive weights and n > 2 the ratio of every reciprocal matrix is non-negative exactly when no weight is caught by the guard. |
| AhpLaws.RatioOfEigenvector | backend/src/protection_optimizer/protection_optimizer.cpp:111-137 | Measured at an eigenvector, the ratio times Saaty's random index times n - 1 is the eigenvalue less n. |
| AhpConsistency.EigenvectorWeights | backend/src/protection_optimizer/protection_optimizer.cpp:77-109 | For entries in [1/9, 9] power iteration ends with total exactly 1 and every weight at least 1/(81 n), so above the 1e-12 guards for every n an int can hold. |
| AhpConsistency.EigenvectorStops | backend/src/protection_optimizer/protection_optimizer.cpp:85-107 | For every square matrix power iteration from equal weights returns the result of some round k of 1 to 100: the first whose weights moved by less than 1e-8 in all, or else the hundredth. |
| AhpConsistency.PowerStepWeights | backend/src/protection_optimizer/protection_optimizer.cpp:88-99 | One iteration from positive weights of total 1 gives weights of total 1 bounded away from 0. |
| AhpConsistency.ConsistentEigenvector | backend/src/protection_optimizer/protection_optimizer.cpp:77-109 | On a matrix of weight ratios power iteration returns exactly those weights, normalised. |
| AhpConsistency.ZeroRatioMeansTransitive | backend/src/protection_optimizer/protection_optimizer.cpp:77-137 | The ratio the optimizer computes with its own weights is 0 exactly for judgements that never contradict each other. |
| AhpCorrection.StepNeverRaises | backend/src/protection_optimizer/protection_optimizer.cpp:201-212 | A correction step with ratio up to 10/9 never raises the consistency ratio measured with that iteration's weights. |
| AhpLimits.StepRatioExact | backend/src/protection_optimizer/protection_optimizer.cpp:178-213 | 10/9 is the exact threshold for the loop's own step: a step from any pairwise matrix, with the weights and the worst entry the loop takes, never raises the ratio if and only if the step ratio is at most 10/9; above it a ring of three judgements is made worse. |
| AhpCorrection.StepLowers | backend/src/protection_optimizer/protection_optimizer.cpp:201-212 | With a step ratio up to 1 a step that changes the matrix strictly lowers that ratio. |
| AhpCorrection.CorrectedReciprocal | backend/src/protection_optimizer/protection_optimizer.cpp:203-212 | For every step ratio, clamping and mirroring keep the matrix reciprocal with unit diagonal, and within [1/9, 9] when it was. |
| AhpCorrection.RatioMoves | backend/src/protection_optimizer/protection_optimizer.cpp:111-137 | Replacing one mirrored pair lowers, keeps or raises the ratio exactly as the sign of one product says. |
| AhpOptimizer.RunDescends | backend/src/protection_optimizer/protection_optimizer.cpp:178-213 | Over whole runs: every matrix stays pairwise, every step leaves its iteration's ratio no higher, and a run stops before its limit only at the target. |
| AhpLaws.NextSteps | backend/src/protection_optimizer/protection_optimizer.cpp:178-213 | An iteration that does not stop moves the judgement with the largest relative distance from the ratio of the weights by the step ratio of its way, cut to [1/9, 9], sets the one across to its inverse and leaves all others; a matrix of which none is off stays. |
| AhpOptimizer.VerdictExact | backend/src/protection_optimizer/protection_optimizer.cpp:170-217 | For n > 2 the result is true exactly when the matrix the run ends with has a ratio of at most 1.5 times the target. |
| AhpLimits.StuckExact | backend/src/protection_optimizer/protection_optimizer.cpp:183-212 | For every positive step ratio a step leaves a pairwise matrix unchanged exactly when its ratio is 0 or its worst entry is 1/9 and the weights ask for less. |
| AhpLimits.StuckForGood | backend/src/protection_optimizer/protection_optimizer.cpp:178-213 | Such a matrix above the target stays as it is for every iteration limit. |
| AhpCapped.CappedFails | backend/src/protection_optimizer/protection_optimizer.cpp:170-217 | Such judgements exist: 9 against two equal alternatives, each 9 against a fourth, and the scale's 9 between the ends. Auto-correction returns them unchanged and reports failure for every target up to 0.1, every step ratio and every limit. |
| AhpCapped.CappedStuck | backend/src/protection_optimizer/protection_optimizer.cpp:77-199 | Their worst entry is the last alternative against the first, stuck at 1/9, and their ratio is above 0.15. |
| AhpCapped.CappedWeights | backend/src/protection_optimizer/protection_optimizer.cpp:77-109 | Power iteration does not stop in its first three rounds on them and ends with weights in a range that no further round leaves. |
| AhpOptimizer.WorstEntry | backend/src/protection_optimizer/protection_optimizer.cpp:183-199 | The entry corrected is the first, in row-major order, of the largest deviations among the considered ones, or (0, 0) when nothing deviates. |
| AhpOptimizer.NoDeviation | backend/src/protection_optimizer/protection_optimizer.cpp:187-199 | With weights above the guard nothing deviates exactly for a matrix of weight ratios. |
| AhpOptimizer.EigenvectorPositive | backend/src/protection_optimizer/protection_optimizer.cpp:77-109 | For any positive matrix, reciprocal or not, all weights are positive. |
| AhpOptimizer.CalcEigenvector | backend/src/protection_optimizer/protection_optimizer.cpp:77-109 | The in-place loops return the result of the specified power iteration: the k-th round from equal weights, k at most 100, the first that moves less than 1e-8 or else the hundredth. |
| AhpOptimizer.CalcConsistencyRatio | backend/src/protection_optimizer/protection_optimizer.cpp:111-137 | The accumulating loops compute the specified ratio for any square matrix and weights. |
| AhpOptimizer.FindWorst | backend/src/protection_optimizer/protection_optimizer.cpp:183-199 | The nested loops with their two skips find the specified worst entry. |
| AhpOptimizer.CorrectEntry | backend/src/protection_optimizer/protection_optimizer.cpp:201-212 | Two entries of the matrix are updated in place as specified, also when both are the same entry. |
| AhpOptimizer.ApplyAutoCorrection | backend/src/protection_optimizer/protection_optimizer.cpp:170-217 | From any positive matrix the in-place loop ends with the matrix and verdict of the specified run, for every target, limit and configured step, one below 0.01 counting as 0.15; n <= 2 is true and untouched. |
| AhpConsensus.ConsensusRange | backend/src/protection_optimizer/protection_optimizer.cpp:139-168 | For any number of positive weight vectors of total 1 the index lies in [1/2, 1] and is 1 exactly when all vectors are equal. |
| AhpLaws.IndexOfPair | backend/src/protection_optimizer/protection_optimizer.cpp:139-168 | For two experts the index is half of one plus the cosine of the angle between their weights. |
| AhpLaws.IndexGrows | backend/src/protection_optimizer/protection_optimizer.cpp:149-168 | For more it is the average over all pairs: one more expert adds its index with each of the others. |
| AhpConsensus.CosineOne | backend/src/protection_optimizer/protection_optimizer.cpp:158-161 | Two weight vectors have cosine 1 exactly when they are equal (Cauchy-Schwarz with its equality case). |
| AhpConsensus.NormAboveGuard | backend/src/protection_optimizer/protection_optimizer.cpp:159 | Weights of total 1 always pass the cosine's 1e-12 guard. |
| AhpConsensus.ExpertsConsensus | backend/src/protection_optimizer/protection_optimizer.cpp:139-168 | Experts with pairwise matrices: the index is in [1/2, 1], and 1 exactly when power iteration gives all the same weights. |
| AhpConsensus.CalcConsensusIndex | backend/src/protection_optimizer/protection_optimizer.cpp:139-168 | The pair-counting loops compute the specified average; fewer than two experts give 1. |
| AhpSums.CauchySchwarz | backend/src/protection_optimizer/protection_optimizer.cpp:153-160 | The dot product squared is at most the product of the squared lengths, for sequences of any length. |
| AhpAggregation.AggregatePairwise | backend/src/protection_optimizer/protection_optimizer.cpp:219-242 | The group matrix of pairwise experts with positive authorities is reciprocal, unit-diagonal and within [1/9, 9], even when the total authority falls under the guard. |
| AhpAggregation.EntryBetween | backend/src/protection_optimizer/protection_optimizer.cpp:225-238 | With a total authority past the guard every group entry lies between the smallest and the largest entry of the experts. |
| AhpAggregation.UnanimousAggregate | backend/src/protection_optimizer/protection_optimizer.cpp:225-238 | Experts who agree are reproduced exactly. |
| AhpAggregation.SplitExpert | backend/src/protection_optimizer/protection_optimizer.cpp:224-236 | Authority is additive: an expert counts as much as two with the same judgements who divide the authority between them. |
| AhpAggregation.ConsistentGroup | backend/src/protection_optimizer/protection_optimizer.cpp:219-242 | Experts who never contradict themselves give a group matrix that does not either, and so a ratio of exactly 0. |
| AhpAggregation.WeightedGeometricAggregation | backend/src/protection_optimizer/protection_optimizer.cpp:219-242 | The nested loops fill a new matrix with the specified entries; no experts give an empty one. |
| AhpGroup.GeneratedPairwise | backend/src/protection_optimizer/protection_optimizer.cpp:271-282 | Any square reference with unit diagonal, whatever its other entries and the drawn factors, is perturbed into a pairwise matrix. |
| AhpGroup.GeneratedEntries | backend/src/protection_optimizer/protection_optimizer.cpp:273-282 | After r rows every entry above the diagonal in them is the reference entry times the factor drawn for it, cut to [1/9, 9], the one across is its inverse, and the diagonal and the later rows are those of the reference; r = n is the whole matrix. |
| AhpGroup.GeneratedPositive | backend/src/protection_optimizer/protection_optimizer.cpp:271-282 | With any positive diagonal the perturbed matrix is positive, so correction is defined for it. |
| AhpGroup.GenerateExpert | backend/src/protection_optimizer/protection_optimizer.cpp:271-292 | A generated expert's matrix is the perturbed reference, corrected when configured, its reported ratio is its own and the verdict is the one the configuration asks for; from a unit diagonal the matrix is pairwise, the ratio non-negative, and the verdict that ratio against its bound. |
| AhpGroup.DecideGroup | backend/src/protection_optimizer/protection_optimizer.cpp:310-333 | The whole group decision from pairwise experts: the group matrix is pairwise, the weights are at least 1/(81 n) with total 1, the ratio is non-negative and the consensus in [1/2, 1], 1 exactly when all experts' weights agree. |
| VehicleState.SameTotalSameDamage | backend/src/vr_assault/vr_assault_engine.cpp:604-618 | Order and splitting of hits do not matter: barrages of the same total damage leave the same health and armour. |
| VehicleState.HitsLedger | backend/src/vr_assault/vr_assault_engine.cpp:604-618 | After any hits, armour is max(0, 100 - 0.8 T) and health max(0, 100 - T + (100 - armour)/2) for the total damage T. |
| VehicleState.DestroyedExactly | backend/src/vr_assault/vr_assault_engine.cpp:612-618 | Armour is gone exactly from T = 125 on, health exactly from T = 150 on. |
| VehicleState.DamageRange | backend/src/vr_assault/vr_assault_engine.cpp:570-602 | Every damage drawn is within 0.3 to 1 times its level's range, so in [0, 50]. |
| VehicleState.ShockTame | backend/src/vr_assault/vr_assault_engine.cpp:406-502 | Every shock has positive amplitude, |roll| <= 12, |pitch| <= 9.6 and yaw = 0.3 roll, whichever side is hit. |
| VehicleState.ApplySteady | backend/src/vr_assault/vr_assault_engine.cpp:620-652 | Amplitude-weighted blending keeps those bounds and the pose in step with the vibration. |
| VehicleState.DecaySteady | backend/src/vr_assault/vr_assault_engine.cpp:697-743 | Decay over a non-negative time, with its zeroing, keeps them too and never raises the amplitude. |
| VehicleDecay.DecayIs | backend/src/vr_assault/vr_assault_engine.cpp:697-743 | A vehicle at rest stays as it is; one whose vibration has outlasted its duration and is down to less than a hundredth loses vibration and pose; all that shakes of any other shrinks by exp(-rate dt). |
| VehicleDecay.DecayAdds | backend/src/vr_assault/vr_assault_engine.cpp:697-743 | With exp(x + y) = exp(x) exp(y), decaying for s and then for t is decaying for s + t, while nothing comes to rest. |
| VehicleDecay.NoTimeNoDecay | backend/src/vr_assault/vr_assault_engine.cpp:697-743 | Decaying for no time changes nothing. |
| VehicleDecay.SharesAddUp | backend/src/vr_assault/vr_assault_engine.cpp:249-258 | n decays of dt / n leave exp(-rate dt) of all that shakes, for every n, while nothing comes to rest in between. |
| VehicleDecay.VolleyAddsUp | backend/src/user_session/user_session_manager.cpp:447-470 | Attacks without a decay between them add up their amplitudes; the slowest decay and the longest duration count. |
| VehicleLaws.Coasts | backend/src/vr_assault/vr_assault_engine.cpp:666-695 | With cos and sin on the unit circle, a vehicle within its limits and without input goes straight on: speed and heading stay, position and distance grow by speed times dt. |
| VehicleLaws.ThrottlesAdd | backend/src/vr_assault/vr_assault_engine.cpp:171-176 | n equal throttles from rest add up, each a tenth of the top speed at most, until the top speed is reached, or half of it backwards. |
| VehicleLaws.SteersAdd | backend/src/vr_assault/vr_assault_engine.cpp:177-181 | n equal steers turn the course by n times ten degrees at most each, in [0, 360). |
| VehicleLaws.SteersBack | backend/src/vr_assault/vr_assault_engine.cpp:179-182 | Thirty-six full steers to one side, or one to each, leave the course as it was. |
| VehicleLaws.OtherActions | backend/src/vr_assault/vr_assault_engine.cpp:183-189 | Braking stops, resetting goes back to the start and keeps the distance, an unknown action does nothing. |
| VehicleLaws.ArmourLaw | backend/src/vr_assault/vr_assault_engine.cpp:596-601 | A roof of t mm lets through 100 of 100 + t / 2 parts of a blow, and three tenths at least. |
| VehicleLaws.ShockSides | backend/src/vr_assault/vr_assault_engine.cpp:480-492 | The roll of a shock is negative exactly for a hit past 0.17 of the roof's width from the middle, 2.8 m when unknown, and positive otherwise; yaw is 0.3 of it. |
| VehicleLaws.ShockOfLevel | backend/src/vr_assault/vr_assault_engine.cpp:406-502 | The shock of each level: amplitude, roll up to its side, pitch within a fifth, frequency, duration, decay, seat and screen; its force grows with the velocity from 7 m/s on. |
| VehicleLaws.BlendExtremes | backend/src/vr_assault/vr_assault_engine.cpp:620-652 | Magnitude, frequency, duration and audio of two blended vibrations are those of the stronger one. |
| VehicleLaws.HitPose | backend/src/vr_assault/vr_assault_engine.cpp:652-658 | Half the force of a shock goes to the throttle, and the force with its roll share to the steering. |
| VehicleState.VolleyKeeps | backend/src/vr_assault/vr_assault_engine.cpp:249-258 | A volley of any length keeps the damage law and the pose law and counts one impact per attack. |
| VehicleState.WrapHeading | backend/src/vr_assault/vr_assault_engine.cpp:685-686 | The two wrapping loops give the one angle in [0, 360) that differs by whole turns. |
| VehicleState.ApplyAttackToState | backend/src/vr_assault/vr_assault_engine.cpp:604-658 | The stepwise update of the record is the specified hit. |
| VehicleState.DecayVibration | backend/src/vr_assault/vr_assault_engine.cpp:697-743 | The stepwise update of the record is the specified decay, whose meaning `DecayIs` gives. |
| VehicleState.MoveVehicle | backend/src/vr_assault/vr_assault_engine.cpp:666-695 | The stepwise update of the record is the specified motion. |
| VehicleState.Steer | backend/src/vr_assault/vr_assault_engine.cpp:174-189 | The stepwise update of the record is the specified action; an unknown action does nothing. |
| VehicleState.GenerateAttack | backend/src/vr_assault/vr_assault_engine.cpp:504-568 | From draws in the ranges of the code the attack's damage lies within 0.3 to 1 times its level's range and its shock within the table, and under the law of the square root its kinetic energy is the square of the multiplier times the energy drawn. |
| VehicleState.BlendConserves | backend/src/vr_assault/vr_assault_engine.cpp:620-652 | Blending adds the amplitudes and conserves the amplitude-weighted moments of roll, pitch, yaw, seat acceleration, screen shake and force. |
| VehicleState.OrderIrrelevant | backend/src/vr_assault/vr_assault_engine.cpp:604-652 | The hits of a barrage may come in any order: health, armour, impacts, amplitude, roll and pitch come out the same. |
| SessionIds.CounterOfId | backend/src/vr_assault/vr_assault_engine.cpp:17-30 | Until the 64-bit counter wraps, the identifier gives the counter back, whatever the random tail. |
| SessionIds.IdsDistinct | backend/src/vr_assault/vr_assault_engine.cpp:17-30 | Two different counters never give the same identifier. |
| SessionIds.HexValue | backend/src/vr_assault/vr_assault_engine.cpp:23-24 | A zero-filled hexadecimal field reads back as its number. |
| VrEngine.ReachableVehicle | backend/src/vr_assault/vr_assault_engine.cpp:32-743 | In every reachable state, live or ended: the damage law with the recorded total, zero health exactly from 150 on, the pose mirroring the vibration (bounce the amplitude, yaw 0.3 roll) within its bounds, and the heading in [0, 360). |
| VrEngine.RunKeeps | backend/src/vr_assault/vr_assault_engine.cpp:32-404 | In every reachable state live sessions and modes have the same keys, contained in the keys of states, which equal those of results; each record satisfies its laws. |
| VrEngine.StepKeeps | backend/src/vr_assault/vr_assault_engine.cpp:32-404 | Every operation keeps that invariant. |
| VrEngine.Isolated | backend/src/vr_assault/vr_assault_engine.cpp:98-404 | An operation leaves every session it does not name exactly as it was, except that cleanup forgets those idle for longer than the timeout. |
| VrEngine.NamedIsActive | backend/src/vr_assault/vr_assault_engine.cpp:98-367 | An operation that names a live session marks it active and touches no other; ending removes it with its mode. |
| VrEngine.StartIsFresh | backend/src/vr_assault/vr_assault_engine.cpp:32-96 | A new session is live, unharmed and at rest 30 m out, with an empty result, the mode asked for and a fresh identifier. |
| VrEngine.EndedForever | backend/src/vr_assault/vr_assault_engine.cpp:98-128 | Once a session has ended its round result and its record never change again. |
| VrEngine.FinalResult | backend/src/vr_assault/vr_assault_engine.cpp:98-128 | What an ended session shows at any later time: the health the damage law gives for its recorded damage, its impacts and waves, their score, and the rank of that score. |
| VrEngine.NeverReissued | backend/src/vr_assault/vr_assault_engine.cpp:32-96 | No two sessions of a run ever get the same identifier while the counter does not wrap. |
| VrEngine.ResetIsFresh | backend/src/vr_assault/vr_assault_engine.cpp:311-367 | A reset gives the session the vehicle record and the round result of a new one: unharmed, at rest, 30 m out, nothing counted. |
| VrEngine.AttackCountNeverFalls | backend/src/vr_assault/vr_assault_engine.cpp:237-242 | In survival mode the attacks per tick are 1 to 5 and never fall between resets. |
| VrEngine.ImpactsMove | backend/src/vr_assault/vr_assault_engine.cpp:249-258 | Impacts grow by exactly the attacks of the ticks and triggers that name the session. |
| VrTick.TickRocks | backend/src/vr_assault/vr_assault_engine.cpp:225-258 | A tick throws 1 rock of half the mass drawn in free drive, 2 of the mass in a challenge, 1 of 0.8 of it in a race, and in survival one more for every five impacts, up to 5, each 15 percent heavier per five impacts; velocities grow with the root, numbers run on. |
| VrTick.TickFades | backend/src/vr_assault/vr_assault_engine.cpp:249-258 | Every rock of a tick adds its shock to what shakes, and a share dt / n of the time leaves exp(-rate dt / n) of it, or nothing, before the next one. |
| VrTick.TickMoves | backend/src/vr_assault/vr_assault_engine.cpp:223 | A tick moves the vehicle once, by the whole of dt and without input. |
| VrTick.TickReports | backend/src/vr_assault/vr_assault_engine.cpp:260-267 | What a tick reports of a session is what its vehicle shows afterwards. |
| VrTick.TriggerRock | backend/src/vr_assault/vr_assault_engine.cpp:276-309 | A triggered rock weighs its multiple of the mass drawn and adds its shock; nothing moves and nothing fades. |
| VrEngine.ImpactsClosedForm | backend/src/vr_assault/vr_assault_engine.cpp:237-242 | From the eleventh tick on the survival recurrence is 21 + 5 (t - 11), one wave per tick. |
| VrEngine.SurvivalRun | backend/src/vr_assault/vr_assault_engine.cpp:200-274 | A survival session that only ticks touch has the impacts and waves of its tick count, among any operations on other sessions. |
| VrEngine.SurvivalPace | backend/src/vr_assault/vr_assault_engine.cpp:237-267 | So after t >= 11 ticks it has 21 + 5 (t - 11) impacts and t - 7 waves. |
| VrService.VRAssaultEngine.StartSession | backend/src/vr_assault/vr_assault_engine.cpp:32-96 | Writes all four maps for a fresh identifier, counts the session and keeps the invariant of reachable states. |
| VrService.VRAssaultEngine.EndSession | backend/src/vr_assault/vr_assault_engine.cpp:98-128 | Closes the result, then removes the session and its mode and nothing else; keeps the invariant. |
| VrService.VRAssaultEngine.ApplyAction | backend/src/vr_assault/vr_assault_engine.cpp:153-198 | Updates one record and its activity time, nothing for an unknown session; the record returned obeys the damage and pose laws. |
| VrService.VRAssaultEngine.Tick | backend/src/vr_assault/vr_assault_engine.cpp:200-274 | Motion, the mode's attacks each followed by its share of decay, damage booked as they land, then the progress report, as `TickRocks` and `TickFades` spell out; keeps the invariant for draws in their ranges. |
| VrService.VRAssaultEngine.TriggerAttack | backend/src/vr_assault/vr_assault_engine.cpp:276-309 | One attack without motion, decay or progress report; keeps the invariant. |
| VrService.VRAssaultEngine.ResetSession | backend/src/vr_assault/vr_assault_engine.cpp:311-367 | Resets record and result, keeps the session and the invariant. |
| VrService.VRAssaultEngine.CleanupExpired | backend/src/vr_assault/vr_assault_engine.cpp:388-404 | The erase loop removes exactly the expired sessions from all four maps, in whatever order it meets them. |
| VrService.VRAssaultEngine.GetRoundResult | backend/src/vr_assault/vr_assault_engine.cpp:379-386 | There is a result exactly for the sessions with a vehicle record, ended ones included; it is the session's own, and its damage is what the record's armour and health show. |
| UserSession.ReachableVehicle | backend/src/user_session/user_session_manager.cpp:376-511 | The same damage and pose laws, bounce and yaw included, in every reachable state, with the damage since creation or the last reset recovered from the run. |
| UserSession.RunHeld | backend/src/user_session/user_session_manager.cpp:46-599 | In every reachable state sessions, records and recent attacks have the same keys and each record satisfies its laws. |
| UserSession.OthersHeld | backend/src/user_session/user_session_manager.cpp:46-599 | An operation that does not name a session leaves its record and recent attacks alone; cleanup drops it exactly when it was idle for longer than the timeout. |
| UserSession.NamedIsActive | backend/src/user_session/user_session_manager.cpp:142-572 | An operation that names a session marks it active and touches no other; destroying removes it. |
| UserSession.CreateIsFresh | backend/src/user_session/user_session_manager.cpp:62-112 | A new session is live, unharmed and at rest 30 m out, with no recent attacks. |
| UserSession.ResetLeavesVibration | backend/src/user_session/user_session_manager.cpp:545-572 | A reset restores health, armour and place and leaves vibration and pose, so the record is as good as new exactly when those were already at rest. |
| UserSession.ShakingReset | backend/src/user_session/user_session_manager.cpp:545-572 | It happens: the run create, trigger, reset leaves a vehicle with full health that still shakes. |
| UserStep.StepRocks | backend/src/user_session/user_session_manager.cpp:454-463 | The rocks of a time step weigh what was drawn, are numbered on and become the recent attacks. |
| UserStep.StepFades | backend/src/user_session/user_session_manager.cpp:433-514 | All shocks of a time step add up first, and then the whole of dt leaves exp(-rate dt) of the sum, at the slowest rate, or nothing. |
| UserStep.StepMoves | backend/src/user_session/user_session_manager.cpp:452 | A time step moves the vehicle once, by the whole of dt and without input. |
| UserStep.TriggerRock | backend/src/user_session/user_session_manager.cpp:516-543 | A triggered rock weighs its multiple of the mass drawn, is the one recent attack and adds its shock; nothing moves and nothing fades. |
| UserService.UserSessionManager.CreateSession | backend/src/user_session/user_session_manager.cpp:62-112 | Writes all three maps for a fresh identifier and returns the session stored; keeps the invariant, with the damage taken set to 0. |
| UserService.UserSessionManager.DestroySession | backend/src/user_session/user_session_manager.cpp:46-51 | Removes one session from all three maps and nothing else. |
| UserService.UserSessionManager.ApplyAction | backend/src/user_session/user_session_manager.cpp:142-179 | Updates one record and its activity time, nothing for an unknown session; the record returned obeys the damage and pose laws for the damage taken so far. |
| UserService.UserSessionManager.ProcessTimeStep | backend/src/user_session/user_session_manager.cpp:433-514 | Motion, one to three attacks, the recent list, then one decay, as `StepRocks` and `StepFades` spell out; the damage taken grows by what the attacks deal and the laws keep holding. |
| UserService.UserSessionManager.TriggerRockAttack | backend/src/user_session/user_session_manager.cpp:516-543 | One attack, stored as the recent list. |
| UserService.UserSessionManager.ResetSession | backend/src/user_session/user_session_manager.cpp:545-572 | Restores motion, health, armour and counters and clears the recent list and the damage taken; vibration stays. |
| UserService.UserSessionManager.CleanupExpiredSessions | backend/src/user_session/user_session_manager.cpp:584-599 | The erase loop removes exactly the expired sessions from all three maps. |
| Formation.RegularSeparated | backend/src/formation_optimizer/formation_optimizer.cpp:75-140 | Line, wedge, echelon, V and column place every two vehicles at least one spacing apart, for any vehicle count. |
| Formation.DiamondSeparated | backend/src/formation_optimizer/formation_optimizer.cpp:141-186 | A diamond keeps the spacing if and only if there are at most two vehicles. |
| Formation.DiamondCollides | backend/src/formation_optimizer/formation_optimizer.cpp:141-186 | Two vehicles of a diamond share a place if and only if there are five; otherwise they are at least half a spacing apart. |
| Formation.OneLead | backend/src/formation_optimizer/formation_optimizer.cpp:57-196 | There is never more than one lead vehicle, and one at all except in a line of an even number. |
| Formation.Symmetric | backend/src/formation_optimizer/formation_optimizer.cpp:75-186 | Every formation is its own mirror image about the axis the lead stands on; lines and echelons when they have a middle. |
| FormationLaws.LayoutInFormation | backend/src/formation_optimizer/formation_optimizer.cpp:57-261 | Where the vehicles stand, in coordinates: a column on x = 0, each one spacing nearer the wall than the one before; a line abreast from left to right; an echelon 0.6 spacings back per place from its middle; wedge pairs, odd left and even right, a spacing nearer and wider per row; V pairs half a spacing further away per pair; diamond rows of one, three, five; the first at the wall distance, ten when unset and one at least; heading, id, type and lead of each. |
| FormationOptimizer.WedgeRow | backend/src/formation_optimizer/formation_optimizer.cpp:90-99 | The row loop equals its closed form (index + 1) / 2. |
| FormationOptimizer.CountLayers | backend/src/formation_optimizer/formation_optimizer.cpp:147-154 | The layer loop with its inner exit equals its closed form. |
| FormationOptimizer.DiamondLayer | backend/src/formation_optimizer/formation_optimizer.cpp:155-171 | The layer search terminates because a layer is never empty, and in the upper half finds the integer square root of the index. |
| FormationOptimizer.CreateVehicleInFormation | backend/src/formation_optimizer/formation_optimizer.cpp:57-196 | Position, lead and type of a vehicle are the specified ones for all six formations. |
| FormationOptimizer.LayoutFormation | backend/src/formation_optimizer/formation_optimizer.cpp:245-261 | One vehicle per index in order, none for a count of zero or less, unknown names as a line, missing types as FENYUN, every one standing as `LayoutInFormation` says. |

## Left out

- HTTP servers, the ClickHouse and MQTT clients, logging, metrics, `main`, the frontend and the Python sensor simulator: input and output around the modelled core.
- The Boost queue and `MPMCLockFreeQueue`, and any claim for more than one producer or consumer of the ring buffer.
- Legacy duplicates (`backend/include/json.h`, `ahp_evaluator.cpp`, `structural_simulation.cpp`, `fenyun_server.cpp`): the same behaviour again.
- ConfigLoader, the comparators, alarms and receivers: field copying and thresholds only.
- Formation terrain penalties, survival probability and candidate generation, and the impact, penetration and deformation formulas: closed formulas without state; the calculation of a task is a parameter of the pool.
- IEEE rounding, overflow to infinity and NaN: doubles are reals. `size_t`, `int` and `uint64_t` counters do not wrap, except that session identifiers use the counter modulo 2^64 and freshness is claimed below that; the matrix size is bounded by an int where the 1e-12 guards are shown not to fire.
- TaskPool.ImpactSimulator.StartWorkers: asks that no stop is still joining its threads; the vector of threads would then be appended to and walked without a lock (impact_simulator.cpp:52-66), for which C++ defines no behaviour.
- JohnsonCook.CalcPlasticStrain: asks for a non-zero reference strain rate, because a zero one divides by zero.
- AhpOptimizer.FindWorst: asks for positive weights, which power iteration returns for every positive matrix; with a zero weight the deviation divides by zero.
- AhpOptimizer.CorrectEntry: asks for positive weights, for the same reason.
- AhpOptimizer.ApplyAutoCorrection: asks for positive entries; with others a weight can be zero and the loop divides by it.
- AhpGroup.GenerateExpert: asks for a positive diagonal of the reference, for the same reason; its other entries are free.
- JsonRoundTrip.DoubleReadsBack: is stated for any `show` and `stod`; which doubles the stream's fifteen digits and the library's reader give back is not modelled.
- JsonRoundTrip.IntegralDoubleBecomesInt: its input exists for a `show` that prints integral doubles without a point, as the stream does.
- C++ weak-memory behaviour below the acquire and release steps, spurious and missed wake-ups of the condition variable, and a start that overlaps a stop still joining its workers.
- `PlasticityTask.cancelled`: nothing in the repository sets it, so the pool has no cancel step. Waiting for a result with a time limit is not modelled; the callers modelled wait without one.
- Division by a zero reference strain rate in the flow stress and by a zero weight in the correction: the result is an infinity or NaN, outside a model over reals.
- `calc_plastic_strain_jc` line 170 (`target <= 0`) and `calc_consistency_ratio` line 129 (`n <= 1`): unreachable behind the tests before them, so the model has no branch for them.
- Stack depth of the recursive parser and printer, and numbers beyond what the parameter for `stod` answers.
- Positions of impacts on the map and the sensor record handed to the simulator: the engines only pass them on; the damage level the simulator answers is an input.
- Callbacks and mutexes of the session services: every public operation is one atomic step, as the lock around it makes it.
- Default-constructed answers for unknown sessions are `None`.
