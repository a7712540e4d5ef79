# detmc: a verified model

detmc makes a Minecraft server replay identically, watches worlds for events with a
generated datapack, and searches over saved worlds. This project models the parts of it
that everything else rests on and proves what they promise. `dafny verify dfyconfig.toml`
checks all of it.

**The seed source** (`Longs`, `SeedMath`, `SeedValues`, `SeedSource`, `SeedLaws`). The
64-bit stream and the derived seeds as a class over its fields, refined to a step function on
states. The mixer and the stream step are bijections and are given in integer arithmetic, every
draw moves the stream by one step, derived and entity seeds never repeat, and a run that is
saved, killed and restarted anywhere is the run that was never interrupted.

**The scheduler** (`ChunkQueue`, `Trampoline`, `TickEnd`, `TickWork`, `ServerTick`). The chunk
queue pops by content, the trampoline runs breadth-first without recursion, and the drain at
the end of a tick runs every task once and comes to the same end whenever outside commands
arrive. The two conditions the latter rests on are shown to be necessary as well.

**The detector compiler** (`Mcfunction`, `Patterns`, `PatternPack`, `PatternCorrectness`,
`PatternMeaning`). The generated commands as a syntax tree with an interpreter over a block
grid and a scoreboard. They mean what the reference matcher means, for exactly the patterns
and grids given.

**The detector runtime** (`DetectorPack`, `DetectorSteps`, `DetectorWatch`,
`DetectorReplica`). The load, tick, gate, check and hit functions of a whole list of
detectors refine a small state machine; over whole runs of that machine every hit time is
characterised exactly, and arming survives the load function that runs late on a resumed
world. Set-up and resume are methods of a server object.

**The progress scores** (`Scores`). What the score commands leave on the scoreboard, what is
derived from it, and when score and detector agree.

**The branching search** (`BranchWorlds`, `BranchBeam`, `BranchSearch`, `BranchResumes`,
`BranchRecovery`). One server leg is an uninterpreted deterministic function. Through waves,
retries, dropped nodes, selection, kills at any point and resumes that adopt matching
records, every record describes the world it was written over, and replaying it rebuilds
that world. When a resume adopts any other record, exactly what goes wrong is proved, and
shown on a run. What a killed search plans again when it is resumed is given exactly.

**The simulator and the readers** (`Masks`, `Enderman`, `Palette`, `Regions`). The enderman
simulation conserves its blocks and digs no pits, its pattern masks mark what the detectors'
reference matcher reports, packed sections decode to what was packed, and two readers of a
saved world look at the same cell.

`Options`, `Sequences`, `Decimals` and `Division` hold what several of these share.

## What the proofs turned up

- A resumed search can adopt a record whose checkpoint is another node's. Records past the
  generation it resumes from are called superseded and stay in the file; their names are
  used again, and a second resume recognises a usable record by its name alone. A search
  killed and resumed twice records a world that no replay of the record rebuilds
  (`AdoptsAnotherWorld`). Records stay true through any number of resumes that adopt only
  records that match the checkpoint under their name (`Search`), and on a server that forgets
  nothing a child is recorded truly only then (`ChildIsTrueExactly`). Until a record is
  superseded a resume never adopts any other (`UnsupersededStand`). A beam that keeps one name
  twice also grows past its width (`Spawn`), and one that keeps and prunes the same name
  deletes the checkpoint of a parent it keeps (`KeptOnDisk`, `PrunesItsParent`).
- The ordinal counter is said to be recoverable exactly, because every node wrote a record.
  It is at the end of a generation; a kill forgets the ordinals of the nodes that were planned
  and not recorded, and those are handed out again (`RecoveredExactly`, `Search`). So a
  resumed search plans the very nodes it had planned exactly if none of them was recorded
  (`KilledAndResumed`), and a search that keeps one node a generation cannot go back to its
  last one (`ResumeAgain`).
- The late load function spares `#armed` but clears every hit, so in a resumed session a
  detector with requirements fires only if its causes are there again (`CauseMustRecur`).
- A pattern whose anchor is not a required cell, or that asks for optional cells it does not
  list, means something else in game than to the reference matcher
  (`FaithfulPatternsExactly`); a block with air above it and blocks higher up looks like a
  column's top (`MarkedIsTop`).
- The gated score and the detector's threshold are the same only for thresholds that are not
  negative, and 0 when a pattern has nothing optional (`GateIsThresholdExactly`).
- With task sync on, the cap of the tick-end drain is out of reach: a round more than there
  were arrivals suffices to find nothing left (`DrainAtTickEnd`).
- The trap counter is described as the `trap1` predicate, but it looks at the neighbours of a
  placed block only; the placed cell can become a trap too (`PlacedCellTrapped`).
- The slice reader takes the first section of a height and the column reader the last; they
  agree whatever the sections hold exactly where there is at most one (`ReadersAgreeExactly`).
- Derived seeds are kept apart within a domain but not between domains
  (`DomainsShareSeeds`).

## Model

| member | source | states |
|---|---|---|
| Longs.SignedRoundTrip | common/src/main/java/dev/detmc/DetRng.java:345-352 | a long is determined by its signed value, and every signed value in range is some long's |
| Longs.ParsePrint | common/src/main/java/dev/detmc/DetRng.java:388-397 | every long survives being printed in decimal and parsed back, negative ones and both extremes included |
| SeedMath.MixIsBijective | common/src/main/java/dev/detmc/DetRng.java:189-193 | the mixer is a bijection on 64 bits: an inverse undoes it from either side |
| SeedMath.DerivedSeedsDistinct | common/src/main/java/dev/detmc/DetRng.java:246-249 | for one master and domain, two ordinals have the same derived seed only if they are the same ordinal |
| SeedMath.DomainsShareSeeds | common/src/main/java/dev/detmc/DetRng.java:246-249 | domains do not keep seeds apart: under one master every ordinal of a domain shares its seed with exactly one ordinal of any other domain |
| SeedMath.FallbackUnreachable | common/src/main/java/dev/detmc/DetRng.java:176-187 | no seed expands to an all-zero state, so the replacement state is never used |
| SeedMath.AdvanceIsBijective | common/src/main/java/dev/detmc/DetRng.java:287-301 | the xoroshiro step can be undone from either side: no two states are followed by the same state |
| SeedMath.AdvanceKeepsNonZero | common/src/main/java/dev/detmc/DetRng.java:287-301 | a state that is not all-zero is never followed by the all-zero state |
| SeedValues.MixValue | common/src/main/java/dev/detmc/DetRng.java:189-193 | the mixer in integers: twice an exclusive or with a quotient and a product modulo 2^64, then one exclusive or more |
| SeedValues.DeriveValue | common/src/main/java/dev/detmc/DetRng.java:246-249 | a derived seed in integers: the mixer, twice, of master XOR domain plus the ordinal times the golden ratio |
| SeedValues.KeyedValue | common/src/main/java/dev/detmc/DetRng.java:176-187 | the words a seed keys, in integers: the mixer of the seed plus one golden ratio and plus two |
| SeedValues.OutputValue | common/src/main/java/dev/detmc/DetRng.java:287-291 | what a draw gives out, in integers: the sum of the words turned left by 17 bits, plus the low word |
| SeedValues.AdvanceValue | common/src/main/java/dev/detmc/DetRng.java:292-294 | the words after a draw, in integers |
| SeedValues.StepMoves | common/src/main/java/dev/detmc/DetRng.java:292-294 | no words but the all-zero ones are followed by themselves |
| SeedSource.DetRng.constructor | common/src/main/java/dev/detmc/DetRng.java:90-94 | the static initialiser leaves the stream keyed by the property seed and nothing bound |
| SeedSource.DetRng.Rekey | common/src/main/java/dev/detmc/DetRng.java:176-187 | rekeying sets master, stream and issue counter as the specification says and leaves the entity ordinal and the binding alone |
| SeedSource.DetRng.BindWorldSeed | common/src/main/java/dev/detmc/DetRng.java:161-174 | the first binding rekeys by property seed XOR world seed; later ones do nothing |
| SeedSource.DetRng.NextSeed | common/src/main/java/dev/detmc/DetRng.java:287-301 | draws what the specified stream draws next, moves it by a step, and counts the draw |
| SeedSource.DetRng.EntitySeed | common/src/main/java/dev/detmc/DetRng.java:229-233 | derives from the live master and the ordinal, and moves only the ordinal |
| SeedSource.DetRng.Reseed | common/src/main/java/dev/detmc/DetRng.java:268-278 | rekeys by the new seed XOR the world seed and keeps the entity ordinal |
| SeedSource.DetRng.RestoreState | common/src/main/java/dev/detmc/DetRng.java:371-424 | adopts a sidecar of this world, and ignores one that is missing, malformed, of another master, or all-zero |
| SeedLaws.BootIsLive | common/src/main/java/dev/detmc/DetRng.java:90-187 | whatever sidecar it finds, a booted server has a bound world seed and a live stream |
| SeedLaws.StreamNeverDies | common/src/main/java/dev/detmc/DetRng.java:268-301 | in no state reachable by boot, draws, entity seeds and reseeds is the stream all-zero |
| SeedLaws.RestartRestores | common/src/main/java/dev/detmc/DetRng.java:336-424 | saving and starting again, whatever was drawn before the binding, comes back to the saved state exactly |
| SeedLaws.CutRunEqualsUncut | common/src/main/java/dev/detmc/DetRng.java:314-424 | a run cut into any number of sessions by saves and restarts, reseeds included, hands out the same seeds and ends in the same state as the run that was never cut |
| SeedLaws.OldSidecarRestores | common/src/main/java/dev/detmc/DetRng.java:389-391 | a sidecar written before reseeds existed restores the server that wrote it, if it was never reseeded |
| SeedLaws.OrdinalAfter | common/src/main/java/dev/detmc/DetRng.java:226-233 | the entity ordinal counts the entity seeds of the whole run, across reseeds |
| SeedLaws.EntitySeedsNeverRepeat | common/src/main/java/dev/detmc/DetRng.java:228-249 | in a run that hands out at most 2^64 entity seeds, any two handed out under one master differ |
| SeedLaws.SameStreamSameSeeds | common/src/main/java/dev/detmc/DetRng.java:251-278 | two servers with the same stream, however they got it, hand out the same shared seeds from then on |
| SeedLaws.ReseedEqualsLaunch | common/src/main/java/dev/detmc/DetRng.java:251-278 | after a reseed the shared stream is that of a server launched with that seed on the same world, and derived seeds agree for equal ordinals |
| SeedLaws.DrawsAreSteps | common/src/main/java/dev/detmc/DetRng.java:287-301 | between two reseeds every draw moves the stream by one step, which that many steps back undo, and is counted; nothing else moves it |
| SeedLaws.DrawMoves | common/src/main/java/dev/detmc/DetRng.java:287-301 | a draw from a live stream leaves other words than it found |
| SeedLaws.DrawIs | common/src/main/java/dev/detmc/DetRng.java:287-301 | each draw of a run is the integer output of the words that many steps before its end |
| SeedLaws.EntitySeedIs | common/src/main/java/dev/detmc/DetRng.java:228-249 | each entity seed of a run is, in integers, that of its number under the master of the moment |
| SeedLaws.ReseedIs | common/src/main/java/dev/detmc/DetRng.java:268-278 | after a reseed: the master in integers, the words it keys, the draws counted from nothing, the entities counted on |
| SeedLaws.LaunchIs | common/src/main/java/dev/detmc/DetRng.java:90-174 | before the binding and after it: the master and the words, in integers, whatever was drawn before |
| SeedLaws.OtherServersIgnored | common/src/main/java/dev/detmc/DetRng.java:376-424 | a sidecar of another property seed or world is as good as none |
| SeedLaws.MalformedIgnored | common/src/main/java/dev/detmc/DetRng.java:376-424 | so is one with a number missing or malformed |
| SeedLaws.BoolIsTrue | common/src/main/java/dev/detmc/DetRng.java:392 | the reseed flag of a sidecar is on exactly for a spelling of true, in small or capital letters |
| ChunkQueue.ChunkTaskPriorityQueue.Pop | common/src/main/java/dev/detmc/mixin/ChunkTaskPriorityQueueMixin.java:68-100 | removes the tasks of the least position of the first non-empty level, and leaves every level below the top index empty |
| ChunkQueue.ChunkTaskPriorityQueue.PopAll | common/src/main/java/dev/detmc/mixin/ChunkTaskPriorityQueueMixin.java:68-100 | popping to the end gives exactly the drain order of the content |
| ChunkQueue.PopEffect | common/src/main/java/dev/detmc/mixin/ChunkTaskPriorityQueueMixin.java:90-97 | a pop takes exactly one key out of the content, the first by level and position when the pop is sorted |
| ChunkQueue.PickedByContentIffSorted | common/src/main/java/dev/detmc/mixin/ChunkTaskPriorityQueueMixin.java:76-88 | the picked position is a function of the set of queued positions exactly when the pop is sorted; in vanilla order insertion history shows |
| ChunkQueue.QueuedByKey | common/src/main/java/dev/detmc/mixin/ChunkTaskPriorityQueueMixin.java:74 | what is queued under a key is the submissions for it in order, whatever was submitted in between |
| ChunkQueue.DrainIgnoresInsertionOrder | common/src/main/java/dev/detmc/mixin/ChunkTaskPriorityQueueMixin.java:63-67 | two insertion histories with equal tasks per key drain in the same order |
| ChunkQueue.DrainBoth | common/src/main/java/dev/detmc/mixin/ChunkTaskPriorityQueueMixin.java:54-100 | two queue objects whose histories give each key the same tasks hand out the same tasks in the same order, sorted, every key once and with all its tasks |
| ChunkQueue.DrainedIsSorted | common/src/main/java/dev/detmc/mixin/ChunkTaskPriorityQueueMixin.java:63-82 | the drain is sorted by level and position and lists every queued key once |
| Trampoline.FifoIsLevelOrder | common/src/main/java/dev/detmc/DetExecutors.java:212-232 | first-in-first-out with children appended is breadth-first order |
| Trampoline.FifoAhead | common/src/main/java/dev/detmc/DetExecutors.java:214-228 | what is queued behind other tasks runs after them and before their descendants |
| Trampoline.SameTasks | common/src/main/java/dev/detmc/DetExecutors.java:163-232 | breadth-first and depth-first order run the same tasks, each as often |
| Trampoline.InPlaceIsPreOrder | common/src/main/java/dev/detmc/DetExecutors.java:163-180 | running in place is pre-order, each task finished before its submitter goes on, when nothing throws |
| Trampoline.ExecutorsRunTheSameTasks | common/src/main/java/dev/detmc/DetExecutors.java:163-232 | both executors run the same tasks exactly when, in the in-place order, nothing is left to run after the first throw |
| Trampoline.SameThreadService.Execute | common/src/main/java/dev/detmc/DetExecutors.java:163-180 | runs the task and everything it submits before it returns, and lets a throw through |
| Trampoline.SameThreadExecutor.RunHere | common/src/main/java/dev/detmc/DetExecutors.java:212-232 | the outermost call runs every task once in submission order at nesting depth one, and leaves the queue empty and the flag clear; a nested call only queues |
| Trampoline.SameThreadExecutor.RunTask | common/src/main/java/dev/detmc/DetExecutors.java:221-228 | a task's submissions are queued in order while it runs, and a throw ends the task only |
| TickEnd.PollArrived | common/src/main/java/dev/detmc/mixin/MinecraftServerMixin.java:183-194 | a poll that has something to do does the same whether further commands already wait or not |
| TickEnd.ArrivalsMoveFirst | common/src/main/java/dev/detmc/mixin/MinecraftServerMixin.java:183-194 | any interleaving of arrivals and polls is some number of polls made after every command has arrived |
| TickEnd.ArrivalTimesDoNotMatter | common/src/main/java/dev/detmc/mixin/MinecraftServerMixin.java:167-194 | the same commands in the same order, arriving at any moments, leave the same world after the same tasks in the same order |
| TickEnd.IndependentIffChunkWorkFirst | common/src/main/java/dev/detmc/mixin/MinecraftServerMixin.java:176-180 | arrival times are irrelevant for all programs that enqueue chunk work only exactly when chunk work is polled first |
| TickEnd.IndependentIffChunkOnly | common/src/main/java/dev/detmc/mixin/MinecraftServerMixin.java:179-194 | on servers with at least one level, with chunk work first and finite task trees, arrival times are irrelevant exactly when tasks enqueue chunk work only |
| TickEnd.PollSize | common/src/main/java/dev/detmc/mixin/MinecraftServerMixin.java:138-154 | every poll that runs something shrinks the tree size of what is queued |
| TickEnd.ServeArrived | common/src/main/java/dev/detmc/mixin/MinecraftServerMixin.java:148-153 | serving, then taking late commands, is serving with the commands in hand |
| TickWork.PollRunsFirst | common/src/main/java/dev/detmc/mixin/MinecraftServerMixin.java:183-194 | a poll with work to do runs the first task that waits, levels before commands; that task leaves its queue, and what it enqueues goes in order where it is meant to |
| TickWork.PollAccounts | common/src/main/java/dev/detmc/mixin/MinecraftServerMixin.java:138-194 | a poll loses nothing: what ran and what is queued after it are what was queued and what the task enqueued, as bags |
| TickWork.AccountsOn | common/src/main/java/dev/detmc/mixin/MinecraftServerMixin.java:138-161 | nothing is lost over two stretches if nothing is lost over either |
| ServerTick.SweepOfQuiet | common/src/main/java/dev/detmc/mixin/MinecraftServerMixin.java:141-145 | a sweep runs one task of every level that has one, in the order of the levels |
| ServerTick.Server.PollTask | common/src/main/java/dev/detmc/mixin/MinecraftServerMixin.java:183-194 | asks every level before the command queue with task sync on, and vanilla's order with it off |
| ServerTick.Server.PollEachLevel | common/src/main/java/dev/detmc/mixin/MinecraftServerMixin.java:143-147 | a sweep polls each level once; commands that arrive meanwhile only wait |
| ServerTick.Server.PollUntilIdle | common/src/main/java/dev/detmc/mixin/MinecraftServerMixin.java:149-153 | polls to a state with every queue empty, the same one whenever the commands arrive |
| ServerTick.Server.DrainAtTickEnd | common/src/main/java/dev/detmc/mixin/MinecraftServerMixin.java:131-161 | ends with every queue empty, within two rounds more than there were arrivals, in a state that depends on which commands arrived and never on when; what it ran is, as a bag, what was queued, what arrived and what the tasks it ran enqueued, each once |
| ServerTick.DueIs | common/src/main/java/dev/detmc/mixin/MinecraftServerMixin.java:326-337 | the due gametimes are the positive multiples of 6000 |
| ServerTick.Autosave.OnTickEnd | common/src/main/java/dev/detmc/mixin/MinecraftServerMixin.java:321-338 | saves exactly when the gametime has moved and is a positive multiple of the interval |
| ServerTick.Autosave.RunTicks | common/src/main/java/dev/detmc/mixin/MinecraftServerMixin.java:321-338 | a run of ticks saves at the gametimes the specification lists |
| ServerTick.FrozenTicksDoNotMoveAutosaves | common/src/main/java/dev/detmc/mixin/MinecraftServerMixin.java:326-337 | replicas frozen for different numbers of ticks autosave at the same gametimes, once each, at exactly the due ones |
| Patterns.Pattern.Forbidden | runner/patterns.py:69-82 | the cells of the window outside the shape, or none if the rest is free |
| Patterns.MatchTops | runner/patterns.py:124-154 | reports exactly the windows of the scan that show the pattern at an allowed level, in scan order |
| Patterns.TopsFromBlocks | runner/patterns.py:157-163 | gives each column the y of its topmost block, for the columns with a block above the sentinel height |
| PatternPack.WindowsMembers | runner/patterns.py:239-241 | the scan covers exactly the windows that fit in the area, at the levels |
| PatternPack.CountFunction | runner/patterns.py:184-225 | generates the specified second stage, its counters cut to 40 characters |
| PatternPack.CheckLines | runner/patterns.py:228-246 | generates one line for every window and level, in order |
| PatternCorrectness.RunSecondStage | runner/patterns.py:184-225 | running the second stage counts afresh and calls the hit function exactly for the windows that pass |
| PatternCorrectness.RunWindowLine | runner/patterns.py:239-245 | one window's line reaches the hit function at its corner exactly when the flag is clear and the window passes, and latches the flag exactly then |
| PatternCorrectness.RunWindowLines | runner/patterns.py:228-246 | the whole scan calls the hit function once, for the first window that passes |
| PatternMeaning.MarkedIsTop | runner/patterns.py:178-181 | the generated block tests recognise a column's top exactly when no gap with blocks above it lies there |
| PatternMeaning.TopsOfBlocks | runner/patterns.py:157-163 | the tops computed from a block list are its grid's tops exactly when every column reaches above the sentinel |
| PatternMeaning.PassesIffShows | runner/patterns.py:124-154 | on a grid without gaps under the window, its commands reach the hit function exactly when the reference matcher reports it |
| PatternMeaning.FaithfulPatternsExactly | runner/patterns.py:184-246 | the patterns for which commands and matcher agree on every grid without gaps are exactly those that compile faithfully |
| PatternMeaning.GapsExactly | runner/patterns.py:178-246 | the grids on which every faithful pattern's scan agrees with the matcher are exactly those without gaps at a scanned level |
| PatternMeaning.DetectorFiresIffMatched | runner/patterns.py:228-246 | a check with its flag clear fires once, at a reported window, if the matcher reports any, and not at all otherwise |
| PatternMeaning.CountersDifferExactly | runner/patterns.py:199-200 | the two counters of a second stage are different holders except when a 40-character counter has another prefix |
| PatternMeaning.GeneratedNamesDiffer | runner/run.py:382-385 | a detector's own counters never clash with each other or with any hit flag |
| PatternMeaning.SmileysCompileFaithfully | runner/patterns.py:85-102 | both shipped patterns compile faithfully |
| DetectorPack.ColumnBody | runner/run.py:362-374 | a line for every column of the area, testing the whole stack |
| DetectorPack.CheckBody | runner/run.py:346-385 | a detector's check lines, and for a pattern its counting function added to the files |
| DetectorPack.HasDuplicates | runner/run.py:335-338 | finds out whether two detectors share a name |
| DetectorPack.PackWatched | runner/run.py:571-602 | refuses the first detector that requires an unknown one, and otherwise generates every function the detectors need |
| DetectorPack.SharedFiles | runner/run.py:603-628 | adds load, tick, check and gate functions and disturbs no detector's own |
| DetectorPack.GeneratePack | runner/run.py:535-633 | reports duplicate names, combined custom detectors and unknown requirements in that order; has no pack when nothing is to be watched; otherwise the pack is complete |
| DetectorSteps.RunHitLines | runner/run.py:597-602 | a hit latches and stamps its detector, and stamps the global hit only if it is the first |
| DetectorSteps.RunBody | runner/run.py:362-385 | a column or pattern check fires exactly when its detector has not fired and what it looks for is there, and changes no other detector score |
| DetectorSteps.RunCheckFn | runner/run.py:592-593 | the same for the check function called by name |
| DetectorSteps.RunGateLine | runner/run.py:585-591 | a detector's line in the check function also waits for everything it requires |
| DetectorSteps.RunChecks | runner/run.py:590-591 | the check function takes the detectors in order, each seeing what the ones before it did |
| DetectorSteps.RunTick | runner/run.py:603-613 | running the tick function is the state machine's tick |
| DetectorSteps.RunLoad | runner/run.py:545-579 | running the load function is the state machine's load: only an `#armed` without a value gets one |
| DetectorWatch.LoadIsFresh | runner/run.py:545-579 | a load on an armed world leaves it armed with no hit recorded |
| DetectorWatch.TicksKeepArmed | runner/run.py:603-613 | no tick changes the arming, or the loaded flag |
| DetectorWatch.ResumedStaysArmed | runner/run.py:549-563 | a world armed while frozen is armed at every tick of the session, the one inside which the load function runs included |
| DetectorWatch.DisarmedIsBlind | runner/run.py:605-613 | while disarmed nothing fires, whatever is there |
| DetectorWatch.ChecksRunOnTime | runner/run.py:603-613 | the counter lets through exactly every n-th tick, from the first on at which it reaches the interval |
| DetectorWatch.SomeCheckTick | runner/run.py:603-613 | among as many ticks in a row as the interval, one reaches the checks |
| DetectorWatch.HitTimesExactly | runner/run.py:573-602 | after any number of ticks each detector has fired at exactly the first check at which its predicate held and all it requires had fired, and not if there was none |
| DetectorWatch.HitsLatch | runner/run.py:594-602 | between two loads a hit, its gametime and the first hit never change |
| DetectorWatch.FirstHitExactly | runner/run.py:594-602 | the global hit time is the earliest of the detectors' own |
| DetectorWatch.RequiredFiresFirst | runner/run.py:580-591 | no detector carries a gametime earlier than one it requires |
| DetectorWatch.HeldIsLatched | runner/run.py:580-613 | a predicate that holds for the interval's number of armed ticks in a row, its requirements fired, is latched during them |
| DetectorWatch.ResumedWatches | runner/run.py:1656-1732 | the same over a resumed session, whose load function runs late |
| DetectorWatch.NewWorldIsSilent | runner/run.py:1352-1354 | on a new world the ticks before arming run no check and record no hit |
| DetectorWatch.DisarmingLoadWatchesNothing | runner/run.py:549-561 | with the load function that cleared `#armed`, a resumed session detects nothing, however long and whatever the world holds |
| DetectorWatch.CauseMustRecur | runner/run.py:573-579 | in a resumed session a detector cannot fire unless what it requires is there again: the late load forgets the parent's hits |
| DetectorReplica.Replica.Tick | runner/run.py:603-613 | one ticked tick: a pending load first, then the tick function, then the world moves on |
| DetectorReplica.Replica.StepUntilLoaded | runner/run.py:1330-1337 | the load function has run after the first step; giving up happens exactly with fewer than two steps allowed |
| DetectorReplica.Replica.AwaitReload | runner/run.py:1339-1364 | a reload costs exactly one tick |
| DetectorReplica.Replica.ResetDetectors | runner/run.py:1461-1481 | clears every detector and leaves arming and counter alone |
| DetectorReplica.Replica.CheckUnarmed | runner/run.py:1513-1536 | names exactly the detectors whose predicate holds on the world as set up, and leaves no hit behind |
| DetectorReplica.Replica.InstallDetector | runner/run.py:1416-1489 | a new world ends up armed with no hit recorded, one tick later, and the false positives are known |
| DetectorReplica.Replica.EnsureLoaded | runner/run.py:1366-1414 | repairs a world without the scores by hand, without a tick and without touching an arming |
| DetectorReplica.Replica.Resume | runner/run.py:1656-1732 | fails exactly on a wrong gametime; otherwise no tick passes and the world is armed |
| DetectorReplica.Replica.RunSegment | runner/branch.py:570-630 | a segment is the state machine's session, and its end is armed exactly when the score says so |
| DetectorReplica.ResumedSegment | runner/branch.py:514-630 | a resumed node passes the armed check at its end, and a detector whose predicate held for the interval, all it requires fired in the session by then, was latched |
| Scores.ProfileLines | runner/run.py:789-801 | generates the resets and, for every column of the area, a line for every height |
| Scores.ProfileCounts | runner/run.py:789-801 | whatever the scoreboard held, the metric leaves the number of columns of at least every height on it |
| Scores.Height | runner/run.py:797-801 | the number of blocks standing on each other from the base up, cut off at the profile's height |
| Scores.CountsAddUpToHeights | runner/run.py:1612-1614 | the counts of all heights add up to the sum of the columns' heights |
| Scores.CountedIffTallest | runner/run.py:1615 | some column is counted for a height exactly when the tallest column reaches it |
| Scores.ReadProfile | runner/run.py:1609-1615 | the derived values are the total of the column heights and the tallest of them |
| Scores.StackFiresIffCounted | runner/run.py:362-374 | a column-stack detector of a height sees something exactly when the profile over the same columns counts at least one |
| Scores.BestMatchFunction | runner/patterns.py:249-280 | generates the specified score function |
| Scores.RunBestLines | runner/patterns.py:249-280 | one window raises the two running maxima as it should, whatever the scratch holders held |
| Scores.PatternBestLines | runner/run.py:802-818 | generates the resets and one call for every window and level |
| Scores.BestMatchScores | runner/run.py:802-818 | the metric leaves the best and the gated best match over all windows on the scoreboard, -1 for no gated window |
| Scores.PatternFiresIffGated | runner/patterns.py:257-263 | after the metric has run over the windows a detector scans, a pattern without a rest condition is there exactly when the gated score on the scoreboard reaches the threshold |
| Scores.GateIsThresholdExactly | runner/patterns.py:276-279 | that equivalence holds on every grid and scan exactly for thresholds that are not negative, and 0 when nothing is optional |
| Masks.Pat | montecarlo/sim.py:247-265 | the mask of a shape, cell by cell in place, is set for exactly the windows that have it |
| Masks.ForbidRest | montecarlo/sim.py:258-264 | clears the windows with another column at the level, and no others |
| Masks.Relaxed | montecarlo/sim.py:277-288 | the mask of required cells and enough optional ones |
| Masks.HolesAreAir | montecarlo/sim.py:254-257 | the holes of a shape hold exactly where none of them has a block at the window's level |
| Masks.StrictMaskMatches | montecarlo/sim.py:247-275 | for any shape, the strict mask is set where the reference matcher reports a window, and nowhere else |
| Masks.RelaxedMaskMatches | montecarlo/sim.py:277-288 | the same for a shape with optional cells |
| Masks.SmileyMasks | montecarlo/sim.py:226-288 | the two smiley masks are set for exactly the windows the reference matcher reports over the whole slab |
| Enderman.World.constructor | montecarlo/sim.py:26-52 | the world starts flat with one placed block on each column of the sample, the walkers where they were drawn |
| Enderman.TakingConserves | montecarlo/sim.py:144-151 | taking the top block of a column above the slab moves one block from the slab to the hand and digs nothing |
| Enderman.LeavingConserves | montecarlo/sim.py:187-190 | leaving the carried block moves it back, and the column is no higher than all loose blocks on one column |
| Enderman.PartWay | montecarlo/sim.py:94-95 | a point between two points of the slab is on the slab |
| Enderman.StepStays | montecarlo/sim.py:94-95 | a step that is no longer than the way to its target stays on the slab |
| Enderman.World.PickTarget | montecarlo/sim.py:80-88 | the first of ten offsets that lies on the slab becomes the target, or none does |
| Enderman.World.Step | montecarlo/sim.py:89-107 | a step is no longer than a block, the way and the time left; it never leads more than one block up, and it stays on the slab |
| Enderman.World.Advance | montecarlo/sim.py:61-107 | the enderman teleports exactly when a draw or a long wait says so; otherwise it walks round by round, a wait and a choice of target or a step each, until its ticks are spent, a wait is too long or ten offsets fail, over cells each at most one block higher than the one before |
| Enderman.FirstStep | montecarlo/sim.py:89-107 | with time left, a way to go and nothing too high on it, a walk moves by a block, or as far as the time or the way goes |
| Enderman.World.AdvanceVillager | montecarlo/sim.py:109-126 | a short wander takes one drawn step every forty ticks unless that is off the slab or too high; a long one is folded back onto the slab |
| Enderman.World.IsClear | montecarlo/sim.py:155-168 | clear exactly when nothing on the sampled ray is higher than the block aimed at |
| Enderman.World.Take | montecarlo/sim.py:144-152 | the effect of a take on heights, placed blocks, holes and counters |
| Enderman.World.TryTake | montecarlo/sim.py:129-153 | takes exactly when the column reached for is on the slab, its top is at the height reached for and the way is clear; then one column higher than the enderman's own falls by one, and the conservation laws hold |
| Enderman.World.CheckTrap | montecarlo/sim.py:194-213 | counts exactly the neighbours of the placed block that are trap cells now, and the villager caught in one |
| Enderman.World.TryLeave | montecarlo/sim.py:170-192 | leaves exactly when the column reached for is on the slab, as high as the height reached for and free of the villager; then one column rises by one, the conservation laws hold, and a byte overflows only with more than 254 loose blocks |
| Enderman.PlacingTraps | montecarlo/sim.py:194-213 | a placed block traps a neighbour only anew, and traps no cell but its neighbours and its own |
| Enderman.PlacedCellTrapped | montecarlo/sim.py:194-213 | the placed cell itself, which the counter leaves out, becomes a trap exactly when its walls were two high |
| Enderman.TrapMask | montecarlo/sim.py:290-297 | the mask marks exactly the trapped inner columns |
| Enderman.Reflect | montecarlo/sim.py:216-222 | reflection folds the line onto the slab back and forth, from any start |
| Enderman.HoleMarkMatches | montecarlo/sim.py:312-332 | the mask of a shape of holes is set where the reference matcher, run over the dug columns, reports the shape and the cells that must be whole are |
| Enderman.RelaxedHolesMatch | montecarlo/sim.py:333-337 | the relaxed smiley of holes is set where the reference matcher reports it |
| Enderman.NoHoles | montecarlo/sim.py:309-346 | on a conserved world no hole or pit mask is set anywhere |
| Enderman.TakeTwice | montecarlo/sim.py:371-374 | of the two chances per turn the first that is drawn and can be taken is, and the conservation laws are kept |
| Enderman.LeaveOnce | montecarlo/sim.py:382 | the block in hand is left exactly if it can be, where the draws say, and the conservation laws are kept |
| Enderman.Turn | montecarlo/sim.py:361-382 | a turn moves both mobs and then takes or leaves as the draws have it, keeps the conservation laws, and fits the bytes with at most 254 loose blocks |
| Enderman.RunOne | montecarlo/sim.py:350-404 | a run is a beginning and turn after turn until its time is up, with a new day's weather after each scan; of any length, it digs no pit, marks no hole, keeps every column at the slab's height or above, and takes as many blocks as it places and carries |
| BranchWorlds.OrdinalRecovered | runner/branch.py:218-223 | a child's ordinal can be read back from its reseed |
| BranchWorlds.OrdinalIs | runner/branch.py:816-818 | read back from any reseed, the ordinal is the last whose seed is not above it |
| BranchWorlds.LegIsRebuilt | runner/branch.py:570-641 | a leg of a node that continues its parent's checkpoint makes the world its schedule describes |
| BranchWorlds.RebuiltTime | runner/branch.py:1053-1072 | the world of a lineage is at the lineage's final gametime |
| BranchWorlds.ChildIsRooted | runner/branch.py:884-893 | a child of a node whose ancestors' checkpoints are kept has its own kept |
| BranchWorlds.CompletionMatchesExactly | runner/branch.py:827-830 | after a node completes, records and checkpoints match exactly when no older record without an error has its name |
| BranchWorlds.AdoptionExactly | runner/branch.py:831-839 | an adopted record stands for its checkpoint's world on every server exactly when the checkpoint's own meta file agrees with it |
| BranchWorlds.ChildIsTrueExactly | runner/branch.py:831-893 | a child of an adopted record is written over the world its own record describes if the parent's record matches the checkpoint it started from, and on a server that forgets nothing only then |
| BranchBeam.LexIsOrder | runner/branch.py:860 | names are in the order of text: a beginning first, then the smaller character where two part |
| BranchBeam.LastUsableGeneration | runner/branch.py:130-152 | the highest generation with two usable records, and all of those |
| BranchBeam.UsableNamesDiffer | runner/branch.py:142-152 | usable records that match their checkpoints have different names |
| BranchBeam.ShareOut | runner/branch.py:878-883 | children are shared out until the width is reached, the shares of two kept parents differing by at most one |
| BranchBeam.SumOfKeys | runner/branch.py:885-886 | counted per kept parent, children are as many as counted per name exactly when no name is kept twice |
| BranchSearch.LegKeepsTrue | runner/branch.py:570-642 | a node that continues its parent's checkpoint keeps every checkpoint what its meta file says and every record over the world it describes, whatever checkpoint it replaces |
| BranchSearch.SpawnIsLawful | runner/branch.py:884-893 | children's reseeds differ from each other and from every one in the lineage, their schedules grow by one, and their gametimes are in order |
| BranchSearch.SelectionKeeps | runner/branch.py:867-893 | selection deletes no ancestor of what is kept, and every child starts from its parent's own checkpoint |
| BranchSearch.KeptOnDisk | runner/branch.py:872-877 | a kept node's checkpoint survives the pruning exactly if no pruned node has its name |
| BranchSearch.GenerationLosesNothing | runner/branch.py:907-911 | over a generation every record that was not superseded, and every new one, keeps its own checkpoint and its ancestors' |
| BranchSearch.Ranked | runner/branch.py:925 | a permutation of the nodes, best rank first, ties by name |
| BranchSearch.BranchRun.Start | runner/branch.py:514-548 | a node starts from its parent's checkpoint at the gametime it expects, or not at all |
| BranchSearch.BranchRun.Advance | runner/branch.py:570-647 | a completed leg writes the checkpoint of the gametime it reached; a torn save leaves none |
| BranchSearch.BranchRun.RunNode | runner/branch.py:397-447 | a node succeeds exactly when it can start, one of two attempts works and its leg completes; it touches no other checkpoint |
| BranchSearch.BranchRun.RunLegs | runner/branch.py:431-447 | the legs of a wave, or of its part before a kill |
| BranchSearch.BranchRun.RecordWave | runner/branch.py:466-472 | appends the records in order, or those before a kill |
| BranchSearch.BranchRun.RunWave | runner/branch.py:397-464 | a wave fares as its luck has it: which nodes fail, where the others end, what is on disk and what is recorded, wherever it is killed |
| BranchSearch.BranchRun.RunGeneration | runner/branch.py:908-911 | a generation is killed exactly if one of its waves is, and leaves the records up to there; each is of a leg that started from what was on disk before it and says what its node's luck made of it, whatever the width of the waves |
| BranchSearch.BranchRun.InitialNodes | runner/branch.py:790-800 | generation 0 has as many nodes as replicas, with their own names |
| BranchSearch.FoundersTakeTurns | runner/branch.py:796-799 | founders take the base seeds in turn |
| BranchSearch.BranchRun.Prune | runner/branch.py:874-877 | deletes exactly the pruned nodes' checkpoints |
| BranchSearch.BranchRun.SpawnAll | runner/branch.py:884-893 | every kept parent gets its share of children, the best parent's first, ordinals and names consecutive |
| BranchSearch.BranchRun.Spawn | runner/branch.py:867-893 | whenever anything is kept, exactly the launch width of children with shares differing by at most one; wider exactly if a name is kept twice |
| BranchSearch.BranchRun.NextGeneration | runner/branch.py:925-934 | plans the children of the best-ranked survivors, and keeps everything on disk what it was |
| BranchSearch.RecoveredExactly | runner/branch.py:813-818 | after a generation that was recorded up to some node, what is read back is the ordinal of that node: the whole counter exactly if every planned node was recorded |
| BranchSearch.BranchRun.RecoverOrdinal | runner/branch.py:816-820 | the counter is the number of records or the largest recorded ordinal, whichever is larger |
| BranchSearch.BranchRun.ResumeNodes | runner/branch.py:802-865 | adopts the last usable generation, ranked anew, and plans its children; they continue their parents' checkpoints if every adopted record matches its own |
| BranchSearch.BranchRun.UnsupersededStand | runner/branch.py:824-830 | as long as no record was superseded, every record a resume would adopt matches its checkpoint and has its ancestors' |
| BranchSearch.BranchRun.OneGeneration | runner/branch.py:907-934 | one round of the search loop: killed exactly if a wave is, given up exactly if fewer than two nodes succeed, else carried on to a full next generation unless it is stopped or the last; a killed one leaves the counter behind by the nodes that were not recorded, any other by none |
| BranchSearch.BranchRun.Search | runner/branch.py:895-943 | if no wave is killed, it is not stopped and two nodes of every generation are lucky, it finishes with one record for every node of every generation, in order; there is nothing to resume exactly if no generation is usable; through dropped nodes, retries, kills and resumes: reseeds never repeat and schedules have one stop a generation with gametimes in order; every record describes the world it was written over, provided every record a resume adopts matches its checkpoint; if those also have their ancestors' checkpoints, no record that was not superseded loses its checkpoint's match or an ancestor; unless it is killed, a search that recorded anything ends with a counter that can be read back; and the children recorded after a resume are true exactly for matching parents, on a server that forgets nothing |
| BranchSearch.BranchRun.ReplayLeg | runner/branch.py:1058-1072 | a replay leg starts only where the lineage says its parent ended |
| BranchSearch.BranchRun.Replay | runner/branch.py:1037-1081 | a replay that ends has rebuilt the lineage's world at the gametime it ends at, and it ends at the recorded one if every leg works and lands |
| BranchSearch.ReplayReproduces | runner/branch.py:1037-1081 | for any good record of a search whose worlds are what its records say, superseded records included, a replay that reaches its final gametime rebuilds the world that was checkpointed, and the one on disk if that is still the record's |
| BranchResumes.SecondSession | runner/branch.py:802-865 | a search killed in generation 1 goes back to generation 0 when resumed, and uses the name of generation 1's first node again |
| BranchResumes.AdoptsAnotherWorld | runner/branch.py:827-839 | killed and resumed once more, it adopts a record whose checkpoint is another node's: the child's record replays, every leg working and landing, to another world than was checkpointed |
| BranchResumes.PrunesItsParent | runner/branch.py:867-877 | resumed to keep one node, it keeps a name whose namesake it prunes: the kept parent's checkpoint is gone and its child cannot start |
| BranchRecovery.RankedOnce | runner/branch.py:860 | records of one generation with different names can be ranked in one order only |
| BranchRecovery.SharedOnce | runner/branch.py:878-893 | the same number of children in even shares, best parent first, comes out one way |
| BranchRecovery.UsableAfterSelection | runner/branch.py:804-811 | after a generation is selected and the next has begun, the usable records of its number are the kept ones and those left over from before, and no others |
| BranchRecovery.FirstIsUndisturbed | runner/branch.py:821-830 | the first time a generation is run, nothing is left over, and no later generation is gone back to before two of its nodes are recorded |
| BranchRecovery.GoOn | runner/branch.py:907-934 | the next generation is planned and runs, up to a kill if there is one: what was planned, what was recorded, and what a resume finds usable |
| BranchRecovery.ResumeAgain | runner/branch.py:802-893 | a resume that finds only the kept records goes back to their generation exactly if there are two, and plans the children of the same parents in the same shares, with the ordinals after those recorded: the same nodes exactly if none was |
| BranchRecovery.KilledAndResumed | runner/branch.py:802-893 | a search killed before it has recorded two nodes of the generation after a first-time one, and resumed, is back at that generation if it keeps more than one node, and plans the very same nodes exactly if none was recorded |
| Palette.SectionBlocks | camera/blockdiff.py:63-84 | decodes a section as its cell-by-cell definition says, one-name and empty palettes, short data and entries past the palette included |
| Palette.DecodeAtWidth | camera/blockdiff.py:63-84 | packed at the width of its palette, four bits up to sixteen names and as many as number them beyond, a section decodes to what was packed, then air; it is refused exactly if a packed index is no name's |
| Palette.BitsAreEnough | camera/blockdiff.py:74-75 | the entry width holds every index of the palette and fits in a word |
| Palette.EntryOfPack | camera/blockdiff.py:76-83 | reading an entry back from packed signed words gives the entry that was packed |
| Palette.DecodeInvertsPack | camera/blockdiff.py:63-84 | any section packed from valid indices decodes to the names it was packed from |
| Regions.SlotIsChunk | camera/blockdiff.py:16-26 | for every chunk, negative coordinates included, both readers' arithmetics name the same region and slot |
| Regions.CellOfChunk | camera/blockdiff.py:98-99 | and the same column of it |
| Regions.FillChunk | camera/blockdiff.py:98-99 | lays exactly the 256 columns of one chunk over the slice |
| Regions.BlocksAtY | camera/blockdiff.py:87-101 | the slice holds exactly the columns whose chunk has the section, each with its block; it fails exactly on an unreadable section |
| Regions.ReadSections | runner/branch.py:1402-1405 | keeps the last section of every wanted height, and fails exactly on an unreadable one |
| Regions.BlockColumn | runner/branch.py:1372-1408 | reads every wanted cell of one column, and says so where nothing is saved |
| Regions.ReadersAgree | runner/branch.py:1379-1408 | both readers see the same block wherever the chunk has at most one section for the height |
| Regions.DoubledSection | camera/blockdiff.py:92-101 | with two sections at a height the slice reader shows the first and the column reader the last |
| Regions.ReadersAgreeExactly | runner/branch.py:1379-1408 | the readers agree about a height whatever the sections hold exactly for the chunks with at most one section there |

## Left out

- Vanilla Minecraft: chunk-source polls, lighting, world generation and `submit` are abstract step functions; a task is known by what it enqueues. `ChunkTaskPriorityQueue.Submit` is an assumption about vanilla's queue.
- The IO barrier of the tick end (off by default), and the clock gate that only matters with task sync off.
- The mixins that sort one collection by one key, and the one-line redirects.
- Logging, tracing, stack walking, command registration and locks; every static method of the seed source runs to its end undisturbed.
- The escaping and the comment line of Java property files, and digits outside ASCII: a sidecar is a map from keys to decimal text.
- Text of commands: the generator's output is a syntax tree. Comments are kept only as lines that do nothing, and the air block is always air.
- Scoreboard values and gametimes are unbounded integers; the game keeps 32 bits and wraps. Lists of commands are not cut off at the game's chain limit.
- Function calls nest to a depth given as a parameter; every theorem names the depth it needs, and the game allows far more.
- Detectors other than column stacks and block patterns: they test entities, markers or block kinds, which a grid of non-air blocks does not have. Thresholds of entity counts are not set again after a resume, so nothing is claimed of them.
- DetectorReplica.Replica.InstallDetector: does not model enabling a datapack that a reload did not enable, or the survey of a new world; custom datapacks and scripts are left out as well.
- DetectorReplica.Replica.Resume: does not model re-summoning, fake players and the reseed, which happen while frozen and touch no detector score; what they do to blocks is a parameter.
- Locating hits after the fact: it reads tops within the scanned levels only.
- Several score metrics on one scoreboard: names can be chosen so that their holders clash, so each metric is taken by itself. The other metric kinds count entities, markers or block kinds.
- Docker, rcon, the memory gate, copying and rendering: an attempt works or it does not, a leg lands somewhere, a save is torn or not, and an oracle says which.
- A search that is killed while it appends a line leaves half a line, which the reader of the lineage does not survive; kills between two lines are modelled.
- Cloning a run into another directory, replaying a single leg, and comparing checkpoints file by file.
- BranchSearch.BranchRun.RunLegs: runs the nodes of a wave one after the other, where the program starts a thread for each; they share no checkpoint, and the order is not observable.
- Hit lists and the ranking expression of a search: a rank is a number that comes with the leg, and stopping on a hit is the oracle's choice.
- Enderman.World.Advance: distances and positions are real numbers, so rounding is not modelled; and the loop is cut off after a number of rounds, because nothing bounds how often a wait of length zero is drawn.
- Random draws of the simulation are numbered inputs in their ranges; probabilities play no part.
- Masks for the other shapes and the two-cell trap (instances of the same code), and the statistics over several runs.
- Region file headers, compression and NBT: a region is its slots, a section its palette and data.
- The biome search (prefilter) rests on a library that is not part of this model, and so do the reports.
