# Banker's algorithm simulator: a verified model

This project models the algorithmic core of a deadlock-avoidance simulator in Dafny. It covers four pieces of the Python repository:

- The static Banker's algorithm (`count_need`, `is_safe_sequence`).
- Its instrumented twin `run_standard_with_steps`. It logs a snapshot `T{k}` per pass and a `T{k}.exec` step per completion, and counts comparisons and iterations.
- The discrete-time variant `run_dynamic_with_steps`. Before each pass it admits the processes scheduled for that iteration, logging a `T{k}.arrival` step.
- The uninstrumented dynamic loop `dynamic_banker_loop`. It pulls one optional request per iteration from a generator and mutates its caller's lists.
- The text reader `parse_arrival_input`, which turns `t:v,v,v|v,v;t:...` into an arrival schedule.

Modules:

- `Vectors` holds resource vectors, matrices, finish flags and their arithmetic.
- `Banker` is `src/banker.py`.
- `SimulatorCore` is `src/simulator_core.py`.
- `DynamicBanker` is `src/dynamic_banker.py`.
- `ArrivalInput` is `parse_arrival_input` of `src/ui.py`.

Each loop of the source is a Dafny method with a `while` or `for` loop. Each method is proved against a pure function that describes the rest of the computation:

| function | what it describes |
|---|---|
| `Visit`, `PassFrom`, `Fixpoint` | the static search |
| `CountedVisit`, `CountedPass`, `StandardLoop` | the instrumented passes |
| `Admitted`, `DynIteration`, `DynLoop` | the dynamic run |
| `PlainIteration`, `PlainLoop` | the generator loop |
| `Gather`, `Store`, `ParseSpec` | the parser |

The lemmas state what the source promises about those functions:

- **Safety.** A returned sequence is a permutation that replays successfully.
- **Banker's theorem.** With non-negative allocations, the search succeeds exactly when some safe sequence exists.
- **Termination.** The search makes at most M+1 passes and ends at a fixed point.
- **Comparison count.** It is exactly N per checked process.
- **Step logs.** One snapshot per iteration; the exec steps list the safe sequence; `available` and `comparisons_so_far` never drop.
- **Rows.** Rows are only ever appended.
- **Equivalences.**
  - The instrumented standard run agrees with `is_safe_sequence`.
  - The dynamic run without arrivals agrees with it too.
  - The generator loop agrees with the dynamic run on the matching schedule.
- **Parser.** Its skipping rules, last-write-wins, and a write/read round trip.

How the source's entities are represented:

- Python lists held by a function are `seq` values, reassigned as the code appends or updates them. Copies (`_matrix_copy`, `available[:]`) are therefore equal to their source, and a caller's argument is never affected by the callee.
- The caller's lists that `dynamic_banker_loop` mutates are the fields of the class `RowList` (allocation and max) and an `array<int>` (available).
- Its generator is the class `ArrivalSource`: a finite list of optional requests plus a pull counter.
- Step tags `"T{k}"`, `"T{k}.exec"` and `"T{k}.arrival"` are the datatype `Label`.
- The `arrivals` field occurs only on arrival steps; it is `Option` in `StepRecord`.

The inputs must be rectangular, with at least one process, because `count_need` reads `allocation[0]`. The widths of the rows are N = `len(available)`. Schedule vectors and requests have N entries. These conditions are `WellFormed`, `ScheduleFits` and `ItemsFit`. The source checks none of them.

An arrival does not defer the stuck verdict. The `loop_stuck = True` at src/simulator_core.py:133 and the `loopWillStuck = True` at src/dynamic_banker.py:23 are overwritten before they are read. So a run is stuck exactly when an iteration's pass finishes nobody, and `SampleArrivalStuck` shows one such run.

## Model

| member | source | states |
|---|---|---|
| Banker.CountNeed | src/banker.py:1-8 | the result is an M x N matrix (N = len(allocation[0])) with need[i][j] = max[i][j] - allocation[i][j], negative entries allowed |
| Banker.IsSafeSequence | src/banker.py:11-35 | the `while changed` loop over finish/work/safe_seq returns the fixed-point result StaticResult, and a returned sequence is a safe order (a permutation of 0..M-1 whose replay from available succeeds) |
| Banker.AddRow | src/banker.py:26-27 | `work[j] += allocation[i][j]` for all j yields the componentwise sum |
| Banker.PassCounts | src/banker.py:23-30 | a pass only appends to safe_seq and only sets finish flags; each appended process was unfinished, so the number appended equals the drop in unfinished processes |
| Banker.IdlePass | src/banker.py:21-31 | a pass that appends nobody changes nothing, and no unfinished process fits in work |
| Banker.PassAllFinished | src/banker.py:23-24 | a pass over a fully finished system changes nothing |
| Banker.PassAscending | src/banker.py:23-30 | within one pass processes are appended in strictly ascending index order, each at or after the scan position |
| Banker.VisitConsistent | src/banker.py:24-30 | checking one process keeps the search consistent: work = available + allocations of finished processes, the order lists exactly the finished processes once, and its replay succeeds |
| Banker.PassConsistent | src/banker.py:23-30 | a whole pass keeps the search consistent |
| Banker.FixpointConsistent | src/banker.py:20-31 | the repeated passes keep the search consistent |
| Banker.StartConsistent | src/banker.py:16-18 | the start state (work = available, nobody finished, empty order) is consistent |
| Banker.FixpointStable | src/banker.py:20-31 | when the loop stops, no unfinished process has need <= work |
| Banker.PassCountBound | src/banker.py:20-31 | the number of passes is at least 1 and at most the number of unfinished processes plus one |
| Banker.StaticPassBound | src/banker.py:20-31 | is_safe_sequence makes between 1 and M+1 passes |
| Banker.StaticFinalIsFixedPoint | src/banker.py:20-31 | at exit work = available + allocations of the finished processes and no unfinished process fits |
| Banker.ConsistentComplete | src/banker.py:32-33 | a consistent state with every process finished holds a permutation of 0..M-1 whose replay ends at work |
| Banker.StaticResultSafe | src/banker.py:27-35 | a non-None result is a permutation of 0..M-1 that replays successfully and ends with work = available + column totals of allocation |
| Banker.ReplayFrame | src/banker.py:25-27 | a replay reads only the rows of the processes it replays |
| Banker.ReplayMarks | src/banker.py:27 | a successful replay of distinct processes ends at available plus their allocation rows |
| Banker.ReplayPrefix | src/banker.py:25-29 | every prefix of a successful replay succeeds and the next process's need fits in it |
| Banker.SafeOrderStep | src/banker.py:20-31 | against the final state, if the first k processes of a safe order are finished then so is the next one |
| Banker.SafeOrderFinished | src/banker.py:20-31 | against the final state every process of any safe order is finished |
| Banker.StaticDecidesSafety | src/banker.py:11-35 | with non-negative allocations the result is non-None exactly when some safe sequence exists |
| Banker.SampleNeedValue | src/ui.py:62-77 | the need matrix of the dashboard's sample system is [[7,4,3],[1,2,2],[6,0,0],[0,1,1]] |
| Banker.SampleFirstPass | src/banker.py:23-30 | on the sample, the first pass finishes P1 then P3 |
| Banker.SampleSecondPass | src/banker.py:23-30 | on the sample, the second pass finishes P0 then P2 |
| Banker.SampleThirdPass | src/banker.py:23-30 | on the sample, the third pass finishes nobody |
| Banker.SampleFixpoint | src/banker.py:20-31 | on the sample the loop stops after three passes in the final state with work [10,5,5] |
| Banker.SampleSafeSequence | src/banker.py:20-33 | on the sample system is_safe_sequence returns [1, 3, 0, 2] after three passes |
| SimulatorCore.MatrixCopy | src/simulator_core.py:6-7 | the copy, built row by row, equals its source |
| SimulatorCore.RunStandardWithSteps | src/simulator_core.py:9-83 | returns exactly StandardOutcome (steps, comparisons, iterations, result), and its result is what is_safe_sequence returns |
| SimulatorCore.InstrumentedPass | src/simulator_core.py:46-73 | the `for i in range(M)` pass with counted comparisons and exec steps computes CountedPass from process 0, and `changed` is set exactly when somebody ran |
| SimulatorCore.AppendArrivals | src/simulator_core.py:115-118 | each arriving vector appends a zero allocation row, a max row equal to it and an unfinished flag, in order |
| SimulatorCore.CountedPassSched | src/simulator_core.py:46-63 | the instrumented pass moves work, finish and safe_seq exactly as the plain pass does |
| SimulatorCore.CountedPassComparisons | src/simulator_core.py:49-55 | a pass adds exactly N comparisons per unfinished process checked, whatever the outcome |
| SimulatorCore.StandardLoopSched | src/simulator_core.py:32-63 | the instrumented passes reach the same fixed point as the plain ones, and the iteration counter advances by the number of passes |
| SimulatorCore.StandardMatchesStatic | src/simulator_core.py:32-83 | the standard run returns what is_safe_sequence returns and total_iterations equals its number of passes |
| SimulatorCore.LinkedAppend | src/simulator_core.py:36-44 | appending a step linked to the last one keeps the log linked |
| SimulatorCore.AppendQuietStep | src/simulator_core.py:36-44 | appending a snapshot that shows the current available and no execution keeps the log consistent and adds no exec entry |
| SimulatorCore.CountedVisitLogged | src/simulator_core.py:57-73 | checking one process keeps the log consistent; an added step is an exec step of the pass |
| SimulatorCore.CountedPassLogged | src/simulator_core.py:46-73 | a pass keeps the log consistent and adds only exec steps, so the exec values in step order still equal safe_seq |
| SimulatorCore.ExecAddsNoIndex | src/simulator_core.py:65-73 | exec steps add no snapshot and no arrival entry to the log |
| SimulatorCore.LinkedAvailableMonotone | src/simulator_core.py:59-73 | with non-negative allocations, available never decreases along a linked log |
| SimulatorCore.StandardLoopLogged | src/simulator_core.py:32-73 | over the whole loop the log stays consistent and holds one snapshot per pass, T0..T{k-1}, and the last step is the last pass's snapshot |
| SimulatorCore.StandardIterationLogged | src/simulator_core.py:34-73 | one pass adds its snapshot T{k} and keeps the log consistent; a pass that runs nobody adds nothing after the snapshot |
| SimulatorCore.StandardStepLog | src/simulator_core.py:32-77 | one snapshot T{k} per pass, as many as total_iterations (at least 1); the last step is the final pass's snapshot; exec values list safe_seq; comparisons_so_far never drops and each exec step's available is the previous one plus the executed row |
| SimulatorCore.StandardAvailableMonotone | src/simulator_core.py:59-73 | with non-negative allocations available is componentwise non-decreasing along the standard log |
| SimulatorCore.StandardLoopComparisons | src/simulator_core.py:46-55 | over the loop the counter grows by N times the number of processes checked |
| SimulatorCore.StandardComparisons | src/simulator_core.py:49-79 | total_comparisons is N times the number of processes checked over all passes |
| SimulatorCore.PendingStep | src/simulator_core.py:177 | advancing the iteration never adds a reachable schedule key, and passes one that is scheduled |
| SimulatorCore.DynIterationProgress | src/simulator_core.py:111-180 | each iteration passes a scheduled key, or finishes a process, or sets loop_stuck: the loop terminates |
| SimulatorCore.DynamicIteration | src/simulator_core.py:112-177 | one loop body (arrivals, snapshot T{k}, one instrumented pass) computes DynIteration, and loop_stuck ends true exactly when the pass ran nobody |
| SimulatorCore.RunDynamicWithSteps | src/simulator_core.py:86-190 | returns exactly DynamicOutcome: steps, comparisons, iterations, and None exactly when loop_stuck is set |
| SimulatorCore.AdmitArrivals | src/simulator_core.py:113-131 | the arrival block computes Admitted: the scheduled rows appended, need recomputed and one arrival step carrying the arrivals; `arrived` is set exactly when the entry is non-empty |
| SimulatorCore.AdmitConsistent | src/simulator_core.py:115-119 | admitting processes with zero allocation keeps the search consistent |
| SimulatorCore.DynIterationConsistent | src/simulator_core.py:112-177 | one dynamic iteration keeps the search consistent |
| SimulatorCore.DynLoopConsistent | src/simulator_core.py:111-180 | the whole dynamic loop keeps the search consistent |
| SimulatorCore.DynIterationStuck | src/simulator_core.py:146-166 | an iteration that starts with an unfinished process and runs nobody leaves an unfinished process |
| SimulatorCore.DynLoopStuck | src/simulator_core.py:146-180 | at the end loop_stuck is set exactly when some process is unfinished |
| SimulatorCore.DynamicResult | src/simulator_core.py:179-190 | None exactly when some process, original or arrived, is unfinished; a returned sequence is a permutation of 0..M_final-1 that replays from available over the final matrices; final available = initial + allocations of finished processes |
| SimulatorCore.DynIterationRows | src/simulator_core.py:113-120 | one iteration only appends rows: a zero allocation row and the vector per arrival |
| SimulatorCore.DynLoopRows | src/simulator_core.py:111-180 | the loop only appends rows |
| SimulatorCore.DynamicRows | src/simulator_core.py:113-185 | final allocation = initial + a zero row per admitted arrival, final max = initial + the vectors scheduled at iterations 0 .. total_iterations-1, in order; later keys are never admitted |
| SimulatorCore.LinkedExtend | src/simulator_core.py:115-117 | a linked log stays linked when rows are appended to allocation |
| SimulatorCore.AdmittedLogged | src/simulator_core.py:113-131 | the arrival block adds one arrival step tagged T{k}.arrival carrying the arrivals exactly when the schedule entry is non-empty, and nothing otherwise |
| SimulatorCore.ArrivalsLoggedStep | src/simulator_core.py:122-176 | after an iteration's arrival step, snapshot and exec steps, every arrival step is directly followed by its iteration's snapshot |
| SimulatorCore.SnapshotAppended | src/simulator_core.py:136-144 | the snapshot T{k} extends the snapshot indices to 0..k and adds no arrival index |
| SimulatorCore.SnapshotArrivalsLogged | src/simulator_core.py:122-144 | after the arrival block and the snapshot, every arrival step is followed by its snapshot |
| SimulatorCore.SnapshotLogged | src/simulator_core.py:113-144 | after admissions and the snapshot the log is consistent, has snapshots 0..k and arrival steps exactly at the non-empty iterations up to k |
| SimulatorCore.ExecKeepsArrivalsLogged | src/simulator_core.py:168-176 | exec steps after the snapshot keep every arrival step followed by its snapshot |
| SimulatorCore.DynIterationLogged | src/simulator_core.py:112-177 | one iteration keeps the dynamic log consistent, and loop_stuck is set exactly when its last step is its own snapshot |
| SimulatorCore.DynLoopLogged | src/simulator_core.py:111-180 | the whole loop keeps the dynamic log consistent |
| SimulatorCore.DynamicStepLog | src/simulator_core.py:111-190 | one snapshot per iteration, as many as total_iterations (at least 1); an arrival step exactly at each iteration with a non-empty entry, carrying it and followed by that snapshot; exec values list the completion order; the log is linked; None exactly when the last step is the last iteration's snapshot, even after an arrival |
| SimulatorCore.DynamicAvailableMonotone | src/simulator_core.py:161-176 | with non-negative allocations available is componentwise non-decreasing along the dynamic log, arrived processes holding zero rows |
| SimulatorCore.DynLoopNoArrivals | src/simulator_core.py:111-180 | with an empty schedule the loop makes the passes of the static search |
| SimulatorCore.DynamicWithoutArrivals | src/simulator_core.py:86-190 | with an empty schedule the dynamic run returns what is_safe_sequence returns |
| SimulatorCore.StuckAdmitted | src/simulator_core.py:113-131 | on the stuck example iteration 0 admits [2] with a zero row and logs one arrival step |
| SimulatorCore.StuckPass | src/simulator_core.py:149-157 | on the stuck example the pass runs nobody and costs one comparison per process |
| SimulatorCore.SampleArrivalStuck | src/simulator_core.py:133-189 | an arrival at iteration 0 that fits nowhere: the run returns None after one iteration, logging only the arrival step and T0, so the arrival does not defer the stuck verdict |
| DynamicBanker.ArrivalSource.constructor | src/dynamic_banker.py:4 | the generator starts at its first item with no pulls made |
| DynamicBanker.ArrivalSource.Next | src/dynamic_banker.py:15 | `next(gen, None)` yields the next item, None once exhausted, and advances the pull count by one |
| DynamicBanker.RowList.constructor | src/dynamic_banker.py:4 | a caller-owned list holds the given rows |
| DynamicBanker.PlainIterationProgress | src/dynamic_banker.py:13-33 | each iteration consumes an item, or finishes a process, or sets loopWillStuck: the loop terminates on a finite generator |
| DynamicBanker.DynamicBankerLoop | src/dynamic_banker.py:4-38 | returns PlainResult, and leaves the caller's allocation, max, available and generator in the final PlainLoop state |
| DynamicBanker.AppendProcess | src/dynamic_banker.py:16-21 | a request appends a zero allocation row and the request as max row at index M_old, recomputes need and extends finish with False |
| DynamicBanker.PlainPass | src/dynamic_banker.py:25-33 | the in-place pass over the caller's available computes the plain pass, and `ran` is set exactly when somebody ran |
| DynamicBanker.Fits | src/dynamic_banker.py:28 | the short-circuiting `all(need[i][j] <= available[j])` holds exactly when need[i] <= available |
| DynamicBanker.AddRowInPlace | src/dynamic_banker.py:30-31 | `available[j] += allocation[i][j]` in place yields the componentwise sum |
| DynamicBanker.ScheduleOfArrivals | src/dynamic_banker.py:15 | the matching schedule admits at iteration k exactly the request at pull p0+k |
| DynamicBanker.ScheduleOfFits | src/dynamic_banker.py:15 | the matching schedule's vectors have N entries |
| DynamicBanker.PlainIterationSimulates | src/dynamic_banker.py:13-33 | one iteration of the generator loop and of the instrumented dynamic run agree on rows, need, search state and stuck flag |
| DynamicBanker.PlainLoopSimulates | src/dynamic_banker.py:13-33 | the two loops agree to the end |
| DynamicBanker.PlainMatchesInstrumented | src/dynamic_banker.py:4-38 | dynamic_banker_loop returns what run_dynamic_with_steps returns on the matching schedule, with the same final matrices, flags and available, and one pull per iteration |
| DynamicBanker.ArrivedRequests | src/dynamic_banker.py:15-19 | the rows admitted on the matching schedule are the requests pulled, in order |
| DynamicBanker.PlainLoopResult | src/dynamic_banker.py:13-38 | None exactly when some process is unfinished; a returned sequence is a permutation of all processes, original and arrived, that replays from the initial available; the caller's available ends as initial + allocations of finished processes; allocation and max only gained a zero row and the request per request pulled |
| DynamicBanker.PlainWithoutRequests | src/dynamic_banker.py:4-38 | without requests dynamic_banker_loop returns what is_safe_sequence returns |
| ArrivalInput.TrimStart | src/ui.py:28 | the result is the longest suffix not starting with whitespace; everything cut is whitespace |
| ArrivalInput.TrimEnd | src/ui.py:28 | the result is the longest prefix not ending with whitespace; everything cut is whitespace |
| ArrivalInput.Strip | src/ui.py:28 | `strip()` leaves no whitespace at either end, and is empty exactly when the text is all whitespace |
| ArrivalInput.StripTight | src/ui.py:31 | text with no whitespace at either end is its own strip |
| ArrivalInput.Split | src/ui.py:31-47 | `split(sep)` yields at least one separator-free piece, and the pieces joined with sep give the text back |
| ArrivalInput.SplitJoin | src/ui.py:31-47 | splitting a join of separator-free pieces gives the pieces back |
| ArrivalInput.SplitOnce | src/ui.py:35 | `split(":", 1)`: the text is before + ':' + after, with no ':' in before |
| ArrivalInput.ParseInt | src/ui.py:37-47 | `int` succeeds exactly on an optional sign followed by ASCII digits (no digit limit), and unsigned literals give non-negative values |
| ArrivalInput.ParseIntToString | src/ui.py:37-47 | int(str(n)) == n for every integer n, without CPython's 4300-digit limit |
| ArrivalInput.ParseSpec | src/ui.py:28-52 | empty or whitespace-only text yields {}, and every stored key holds at least one vector |
| ArrivalInput.ParseArrivalInput | src/ui.py:22-53 | the parser returns ParseSpec(text) |
| ArrivalInput.StoreParts | src/ui.py:32-52 | the loop over the non-blank parts stores the entries in text order |
| ArrivalInput.ReadEntry | src/ui.py:33-51 | the loop body for one part yields the entry the part stands for, or none |
| ArrivalInput.CollectVectors | src/ui.py:41-50 | the loop over `|`-pieces builds the vectors of the pieces that parse |
| ArrivalInput.EntriesNonEmpty | src/ui.py:51 | every entry that is stored has at least one vector |
| ArrivalInput.StoreNonEmpty | src/ui.py:51-52 | storing entries with vectors stores only non-empty lists |
| ArrivalInput.StoreLastWins | src/ui.py:52 | a key is stored exactly when some entry has it, holding the vectors of the last such entry |
| ArrivalInput.SkippedPart | src/ui.py:33-51 | a part without ':', with a non-integer key or with no surviving vector leaves the result as if it were absent |
| ArrivalInput.DroppedPiece | src/ui.py:43-50 | a blank piece, or one with a bad field, is dropped and the pieces around it kept |
| ArrivalInput.FieldsParse | src/ui.py:46-50 | a piece parses exactly when each of its non-blank fields is an integer literal |
| ArrivalInput.VectorRoundTrip | src/ui.py:42-48 | a written non-empty vector `v,v,v` reads back as itself |
| ArrivalInput.PiecesOfVectors | src/ui.py:41-50 | written vectors joined by `|` read back as the vectors |
| ArrivalInput.EntryRoundTrip | src/ui.py:33-51 | a written entry `t:v,v|v,v` reads back as the entry |
| ArrivalInput.PartsOfEntries | src/ui.py:31-51 | written entries joined by `;` survive the part filter and read back as the entries |
| ArrivalInput.SpecRoundTrip | src/ui.py:22-53 | a schedule written as `t:...;t:...` reads back as the entries stored in order, last write winning |
| ArrivalInput.SampleWritten | src/ui.py:26 | "0:4,3,3;2:2,1,1" is the written form of the entries (0, [[4,3,3]]) and (2, [[2,1,1]]) |
| ArrivalInput.SampleArrivalText | src/ui.py:26 | "0:4,3,3;2:2,1,1" parses to {0: [[4,3,3]], 2: [[2,1,1]]} |

## Left out

- The Streamlit page, file upload, JSON loading, tables and charts of `src/ui.py` (everything but `parse_arrival_input`) are presentation and I/O. `src/cli.py` is not part of this model.
- `elapsed_time` and `time.perf_counter` are wall-clock floats. The metrics keep only `total_comparisons` and `total_iterations`.
- SimulatorCore.RunDynamicWithSteps: requires every vector at a non-negative schedule key to be N wide (`ScheduleFits`), also at keys from `total_iterations` on, which the loop never reads; the source accepts any entry there. Negative keys are unconstrained.
- DynamicBanker.DynamicBankerLoop: requires every item of the generator to be N wide (`ItemsFit`), also the items it never pulls; the source accepts anything there.
- Input validation is absent from the source. Rectangular shape, M >= 1 and N = len(available) are preconditions. Ragged or longer rows, which Python would partly tolerate, are not modelled. Non-negative allocations are assumed only where a property needs them (the Banker's theorem, monotone `available`).
- ArrivalInput.ParseInt: Python `int()` also accepts underscores between digits (`1_000`) and non-ASCII decimal digits; the model accepts only an optional `+` or `-` followed by ASCII digits. Surrounding whitespace does not arise, because the source strips every text it passes to `int`.
- ArrivalInput.ParseInt: CPython (3.10.7 and later) raises ValueError on a decimal literal of more than 4300 digits by default; the model has no digit limit and parses such a literal, where the source drops the entry (src/ui.py:36-39) or the piece (src/ui.py:46-50).
- ArrivalInput.ParseIntToString: holds for every integer in the model; in CPython `str(n)` and `int` refuse numbers of more than 4300 digits, so the source's round trip is bounded by that limit.
- ArrivalInput.ParseArrivalInput: `text` being None is not modelled; the empty string covers `not text`.
- The bare `except:` clauses catch only the `ValueError` of `int`. The model returns None wherever that error arises, except on the 4300-digit limit above; no other exception can arise in the parser.
- ArrivalInput.SpecRoundTrip: covers only schedules without empty vectors, which the format cannot write back. The parser itself keeps an empty vector as the source does: "0:," gives `{0: [[]]}`.
- The request generator of `dynamic_banker_loop` is a finite list of optional requests. An infinite generator is not modelled; termination of the model rests on the list being finite.
- The mutation of the caller's lists by `run_standard_with_steps` and `run_dynamic_with_steps` does not arise: they copy their inputs. Aliasing between the caller's allocation and max lists in `dynamic_banker_loop` is excluded by `allocation != maxMat`.
- Step records are Dafny values, so the `_matrix_copy` calls inside the step dictionaries are modelled as copies equal to the current matrix, not as separate heap objects.
