# Model of a process controller for milk plants

This project models the parts of the ptusa controller that carry state over whole runs, and proves what they are for.

**The washing station** (`Cip*.dfy`). Several lines wash tanks and pipes with water, caustic and acid. A program is a
bit mask of phases; a scheduler walks each line through the steps of its phases (`CipProgram`, `CipSchedule`), tables
name the routine and the media of each step (`CipRouting`), and the routines switch the valves of the line and charge
the water it meters (`CipSpec`). Operator commands, locks and errors come at any moment (`CipControl`). `CipTech.Line`
is the line as an object, method by method; its `TickLine` is proved to bring about one step of the specification, and
the theorems are about every run of such steps: acid and caustic stay apart (`CipSafety`, and in `CipExactness` for
exactly which programs), a line that does not wash feeds nothing (`CipCommands`), one that does is fed what its step
needs (`CipValves`, with `CipEnds`, `CipWorks` and `CipTicks` for what ends a step and what a call does), between
caustic and acid the line goes through all steps of a rinse unless it is reset (`CipRinse`), every litre that is read is
charged once, and which ones are not read (`CipMeter`), every run ends, by its route (`CipSchedule`, `CipRoute`).
`CipStationSpec`, `CipSharing`, `CipLock` and `CipStation.Plant` put the lines together: the lock of the self-cleaning
excludes and is given back, and no line disturbs the shared valves of another, in every interleaving.

**Operations** (`StepSpec`, `OperationSpec`, `OperationSafety`, `OperationTime`, `OperationStepTime`,
`OperationDuration`, `OperationTransitions`, `OperationCounterexamples`, `OperationUnpausing`, and the objects in
`OperationState` and `Operation`). An operation moves between fifteen states; each state has an operation step, at most
one main step and a list of extra steps, which are kept over a pause together with the time of the main step. `SeatWash`
is the rotation of valve seats that such a step performs.

**What is kept** over restarts and in files: the statistics (`StatsFormat`, `CipStats`), the saved parameters and their
check sum (`ParamStore`, `Params`, `ParamCrc`), the flat memory of washing recipes (`RecipeTable`, `RecipeManager`) and
the text file of parameter recipes (`RecipeFile`).

**Control and outputs**: the regulators (`PidLaw`, `Pid`, `PidOutput`) and the scaling of analog outputs (`AnalogOutput`).

The pattern is the same everywhere: an object whose fields the code updates is a class whose methods follow the code and
are proved against functions on values; the theorems are lemmas about these functions, over every input and every run.

## Where the code differs from what one would expect

These are facts of the code, kept in the model and proved:

- The two tables of step routines disagree on steps 176 to 178 (`CipRouting.TablesAgree`).
- A preparation loop is only left by a successful check (`CipSchedule.FailingPreparationLoops`), a program with one of the
  bits 12 to 15 above its other bits ends at once (`CipSchedule.UnknownBitEndsAtOnce`), and locking and unlocking a line
  at its first step forgets that it was started (`CipCommands.LockAndUnlock`).
- Unlocking a line that is washing and was not locked pauses it with its valves open (`CipCommands.EventKeepsStill`).
- A line that is reset between caustic and rinse can wash with acid next without any rinse
  (`CipRinse.ResetSkipsRinse`, and likewise from acid to caustic); resets are the only way
  (`CipRinse.RinsedAfterCausticExactly`).
- Litres metered after the last reading of a step are charged to no account (`CipMeter.UnreadLitresEscape`,
  `CipMeter.PushOutEscapes`): those on the tick on which a push-out arrives, and all those of circulation, of filling
  and emptying the vessel or the object, of the dosing and the rinse of a preparation, of the pumping of the self-clean,
  town water included, and of the custom step.
- A recipe chosen for a started line is never checked against the others, and the end of that line shuts the valves it
  opens (`CipSharing.HarmfulChoiceDisturbs`).
- A self-cleaning that is locked and unlocked at its first step is forgotten, but its line keeps the lock, and no other
  line can start (`CipLock.ForgottenWashKeepsLock`, `CipLock.HeldLockRefuses`).
- UNPAUSING is left without being finalized (`OperationSafety.UnpausingIsLeftActive`,
  `OperationUnpausing.UnpausingIsLeftExactly`); a stop forgets the last RUN period
  (`OperationTime.StopForgetsLastPeriod`); a main step that is also an extra step can lose its time
  (`OperationCounterexamples.ListedMainStepLosesTime`), and one with a set time of zero counts from its last start
  (`OperationCounterexamples.ZeroSetTimeMiscounts`).
- Setting the current recipe keeps the old name on display and can write it over the new one
  (`RecipeTable.SetCurrentCarriesName`); a recipe file without parameters loses names (`RecipeFile.SecondNameLost`).
- Only the total size of the parameters is compared at a restart (`ParamStore.SavedValuesSurvive`).
- The evaluation that leaves manual mode returns the manual value even beyond the limits
  (`Pid.AutomaticOutputInLimits`).
- The ramp of the station's regulator can raise the output after manual mode (`Pid.StationRampHoldsBack`).
- The wait between seat washes wraps around if the washes alone do not fit the period (`SeatWash.WaitsFit`).

## Model

| member | source | states |
|---|---|---|
| CipProgram.GetNexpPrg | PAC/common/cip_tech_def.cpp:36-61 | The scheduler finds the highest set bit of the program below the current phase, or reports that there is none; for every phase and every bit mask. |
| CipSchedule.GoToStepStaysOnTrack | PAC/common/cip_tech_def.cpp:2044-2244 | From any step a run can stand at, with any result, the next step is again one of its phase, the start of another phase or the end; never an unknown step. |
| CipSchedule.StepDecreasesMeasure | PAC/common/cip_tech_def.cpp:2044-2244 | Completing a step always brings the line closer to the end, measured by phases left, failed checks left and place in the phase. |
| CipSchedule.RunEnds | PAC/common/cip_tech_def.cpp:2044-2244 | Every wash run reaches step 555 after a bounded number of completed steps, whatever the route choices, if the failed concentration checks are bounded. |
| CipSchedule.RunNeverLost | PAC/common/cip_tech_def.cpp:2044-2244 | Along a whole run no step is ever unknown to the scheduler. |
| CipSchedule.FailingPreparationLoops | PAC/common/cip_tech_def.cpp:2142-2165 | A caustic or acid preparation is still in its loop after a run if and only if every concentration check of the run has failed, whatever the other steps report: why the bound on failures is needed. |
| CipSchedule.StepConsumesPhase | PAC/common/cip_tech_def.cpp:3151-3231 | Each completed step leaves what is still to be washed as it was, or takes off exactly the phase that begins. |
| CipSchedule.FinishedRunWashesItsProgram | PAC/common/cip_tech_def.cpp:3151-3231 | A finished run has entered exactly the phases of its program in decreasing order of bits, if and only if the program has none of the four bits that name no phase. |
| CipSchedule.SmallProgramsAreKnown | PAC/common/cip_tech_def.cpp:3151-3231 | Every program below 4096 consists of known phases only. |
| CipRoute.PhaseIsItsRoute | PAC/common/cip_tech_def.cpp:2044-2244 | From its first step on every phase goes through exactly the steps of a literal list, for every choice of the options: for a caustic phase 22, 23, 24, then 26 unless the tank circulates, then 28, 29, 31, 33, 34, 35, 37, 39, 40, and so for all twelve phases; then the next phase is looked for. |
| CipRoute.RouteLeads | PAC/common/cip_tech_def.cpp:2044-2244 | Completing any step of such a list leads to the next one of the list, whatever is reported, but for a failed check. |
| CipRoute.FailedCheckDosesAgain | PAC/common/cip_tech_def.cpp:2142-2165 | A failed check sends a preparation through one dose and one circulation to the next check. |
| CipRoute.FinishedRunHasWashed | PAC/common/cip_tech_def.cpp:2044-2244 | A finished run of a program has been to the washing step of every phase of the program - 28 for both caustic phases, 48, 66, 77, 11 and 8, and the checks of the preparations - however the options change on the way. |
| CipCommands.TrackedStepsAreKnown | PAC/common/cip_tech_def.cpp:2246-2481 | No step that a run can reach is unknown to the step tables, neither when it is entered nor while it works. |
| CipCommands.LockAndUnlock | PAC/common/cip_tech_def.cpp:1493-1525 | Locking and unlocking leaves a line paused if it has left its first step and idle if it has not, so a wash just started is forgotten. |
| CipCommands.SkippingStarts | PAC/common/cip_tech_def.cpp:1781-1790 | Skipping a step starts a line again from every pause and error, but for a locked, an idle and a finished one. |
| CipCommands.LastStepOnlyEnds | PAC/common/cip_tech_def.cpp:2898-2924 | At its last step a line can be neither paused nor skipped: only the end of the step makes it idle, with its phase forgotten. |
| CipCommands.StoppedLinesFeedNothing | PAC/common/cip_tech_def.cpp:1527-1632 | At every moment of a run a line that is idle, paused, in error or locked has its feed, both paths and the steam shut, if and only if no line that washes and is not locked is unlocked along the run while it feeds. |
| CipCommands.EventKeepsStill | PAC/common/cip_tech_def.cpp:1500-1512 | One event keeps that, if and only if it does not unlock a line that is washing and not locked, or nothing was open: such an unlock pauses the line with its valves as they are. |
| CipRouting.TablesAgree | PAC/common/cip_tech_def.cpp:2750-2885 | The table used while a step works names the same routine and media as the table used to enter it, if and only if the step is none of 176 to 178. |
| CipSafety.SolutionsStayApart | PAC/common/cip_tech_def.cpp:2246-2481 | Chemical segregation: over every run, with any sensors, clocks, commands, errors and resets, a line whose programs begin with neither the self-clean nor the custom phase never has an acid valve and a caustic valve open together. |
| CipSafety.EventKeepsApart | PAC/common/cip_tech_def.cpp:704-778 | One tick or one choice of program keeps the routing invariant behind the segregation. |
| CipSafety.InitSegregates | PAC/common/cip_tech_def.cpp:4120-4834 | Entering a step opens acid valves only in acid steps and caustic valves only in caustic steps, whatever was open before. |
| CipSafety.DoSegregates | PAC/common/cip_tech_def.cpp:4836-5657 | Working on a step keeps acid and caustic valves to the steps they belong to, for every reading of the sensors. |
| CipSafety.SortSegregates | PAC/common/cip_tech_def.cpp:3434-3564 | Sorting the return by concentration only ever opens the tank of the step or the drain and neutralization. |
| CipSafety.EventKeepsSound | PAC/common/cip_tech_def.cpp:1776-2042 | Every command and tick keeps an idle line at its first step with no phase loaded, and every line at a known step. |
| CipValves.WorkingLineIsServed | PAC/common/cip_tech_def.cpp:4861-4929 | The converse of the segregation: over every run, while a line works at 22 or 24 exactly V03 feeds it and at 42 or 44 exactly V02, through the object; and likewise for every step what has to be open is open and what has to be shut is shut, returns included. |
| CipValves.EnteringSolution | PAC/common/cip_tech_def.cpp:4120-4336 | Entering the feed or push-out of a solution, valve by valve: V03 alone for caustic, V02 alone for acid, the rinse from the tank or the town, and the one return valve that belongs to the step. |
| CipValves.EnteringRinse | PAC/common/cip_tech_def.cpp:4338-4507 | Entering a water rinse or its push-out, valve by valve, for every setting of the water tank. |
| CipValves.EnteringCirculation | PAC/common/cip_tech_def.cpp:4726-4834 | Entering circulation, valve by valve: the vessel, or the tank of the solution where that is chosen. |
| CipValves.EnteringVesselEmptying | PAC/common/cip_tech_def.cpp:4646-4724 | Entering the emptying of the vessel, valve by valve. |
| CipValves.EnteringFilling | PAC/common/cip_tech_def.cpp:4586-4644 | Entering the filling of the vessel, valve by valve, and which valves stay as they were. |
| CipValves.EnteringEmptying | PAC/common/cip_tech_def.cpp:4509-4584 | Entering the emptying of the object, valve by valve; for a pipe nothing is switched. |
| CipValves.EnteringPreparation | PAC/common/cip_tech_def.cpp:3617-3699 | Entering the filling or the rinse of a preparation, valve by valve. |
| CipValves.EnteringLoop | PAC/common/cip_tech_def.cpp:3701-3753 | Entering the circulation, the check and the dosing of a preparation: the tank feeds itself and nothing else. |
| CipValves.EnteringPump | PAC/common/cip_tech_def.cpp:6075-6429 | Entering each step of the self-clean, valve by valve: its source, and its tank, washing head, drain or neutralization. |
| CipEnds.SortsByConcentration | PAC/common/cip_tech_def.cpp:3434-3564 | Which concentration goes to the tank, to the neutralization or to the drain, for how long a decision holds, and for how long a full tank is left alone. |
| CipEnds.WaterReturns | PAC/common/cip_tech_def.cpp:4930-4990 | Clean water returns to its tank, or to the drain while the tank is full or was within a minute. |
| CipEnds.WaterIsTaken | PAC/common/cip_tech_def.cpp:4876-4905 | Water is taken from the tank, or from the town while the tank is empty or was within a minute, and charged to the account of that source. |
| CipEnds.OthersAreTaken | PAC/common/cip_tech_def.cpp:4861-4929 | Town water, acid and caustic are charged to their own accounts, and only town water tops the vessel up. |
| CipEnds.FeedEnds | PAC/common/cip_tech_def.cpp:4836-5008 | When a feed is over, when it waits for the object, and when it fails, step by step. |
| CipEnds.PushOutEnds | PAC/common/cip_tech_def.cpp:5010-5228 | When a push-out is over and when it fails, step by step: volume, liquid in the return and the right concentration. |
| CipEnds.LiquidWasSeen | PAC/common/cip_tech_def.cpp:5010-5050 | Over every run: when a line holds at a push-out that liquid is back, liquid was seen after the volume had passed, since it has stood at this step. |
| CipEnds.EmptyingEnds | PAC/common/cip_tech_def.cpp:5230-5324 | When the emptying of the object is over, by its signal, the dry return or the time. |
| CipEnds.CirculationEnds | PAC/common/cip_tech_def.cpp:5340-5579 | When circulation is over: its time, and the leave of the object once given or given now. |
| CipEnds.VesselEnds | PAC/common/cip_tech_def.cpp:5581-5615 | When the filling and the emptying of the vessel are over. |
| CipEnds.PreparationEnds | PAC/common/cip_tech_def.cpp:3923-4118 | When each step of a preparation is over, and when it warns. |
| CipEnds.PumpingEnds | PAC/common/cip_tech_def.cpp:6431-6640 | Which level, volume or time ends each step of the self-clean. |
| CipWorks.CirculationWorks | PAC/common/cip_tech_def.cpp:5340-5579 | Which circulations are topped up and overflow, and that nothing else changes. |
| CipTicks.CirculationIsToppedUp | PAC/common/cip_tech_def.cpp:5340-5579 | A top-up begins on an empty vessel as often as allowed, ends on a level or after a minute, and is counted. |
| CipWorks.EmptyingReturns | PAC/common/cip_tech_def.cpp:5230-5324 | Where the return goes while the object is emptied. |
| CipWorks.DoseIsNoted | PAC/common/cip_tech_def.cpp:3765-3864 | When a repeated dose is noted for a warning, and that the warning is given once. |
| CipWorks.PumpingWorks | PAC/common/cip_tech_def.cpp:6431-6640 | What a pumping step switches: its vessel by the levels, its return by the tank. |
| CipTicks.FullTankDiverts | PAC/common/cip_tech_def.cpp:6431-6640 | A full tank diverts the stream to the neutralization or the drain, and what circulates stays. |
| CipTicks.PauseStops | PAC/common/cip_tech_def.cpp:1791-1799 | A pause of a working line shuts every valve and keeps its place, meter and flags; on any other line it does nothing. |
| CipTicks.LockStops | PAC/common/cip_tech_def.cpp:1493-1525 | A lock shuts every valve in every state. |
| CipTicks.ErrorStops | PAC/common/cip_tech_def.cpp:2604-2635 | A failing step stops the line with its error and shuts every valve, but the return after an error of the object. |
| CipTicks.CompletionMovesOn | PAC/common/cip_tech_def.cpp:2604-2635 | A step that is over is left for its successor, entered anew, and one that is not goes on. |
| CipTicks.GoesOnExactly | PAC/common/cip_tech_def.cpp:1824-1855 | Going on after a pause or an error is granted if and only if there is no conflict, the devices are good and no acid wash is due; then the line is at the same step again. |
| CipTicks.PauseAndGoOn | PAC/common/cip_tech_def.cpp:1824-1855 | A pause and going on keeps the place, the meter and the leave of the object. |
| CipTicks.ResetForgets | PAC/common/cip_tech_def.cpp:1799-1821 | A reset sends a working line to its last step, and makes one at rest forget its recipe and program. |
| CipTicks.SteamWaits | PAC/common/cip_tech_def.cpp:2586-2600 | Steam opens only when its conditions have held for more than 1.2 seconds, and shuts at once. |
| CipWorks.EndForgetsDose | PAC/common/cip_tech_def.cpp:2898-2924 | The end of a program shuts every valve and empties meter, counters, recipe and program. |
| CipExactness.ApartExactlyForOrdinaryPrograms | PAC/common/cip_tech_def.cpp:6075-6640 | From rest, acid and caustic are kept apart in all runs of a program, on a car wash and on any other line, if and only if its first phase is neither self-cleaning nor custom. |
| CipExactness.UnusualProgramMixes | PAC/common/cip_tech_def.cpp:2397-2437 | For every other program there is a run of operator commands, on a car wash and on any other line, that opens an acid and a caustic valve together. |
| CipRinse.RinsedAfterCaustic | PAC/common/cip_tech_def.cpp:2044-2109 | In every run, over any number of programs and with operator skips, steps 33, 35 and 37 are all entered between a caustic step and a later acid step, unless a reset reaches the line at one of the steps 22 to 35. |
| CipRinse.RinsedAfterAcid | PAC/common/cip_tech_def.cpp:2044-2109 | In every run steps 53, 55 and 57 are all entered between an acid step and a later caustic step, unless a reset reaches the line at one of the steps 42 to 55. |
| CipRinse.PassesGate | PAC/common/cip_tech_def.cpp:3191-3231 | A run that leaves a stretch of the route passes its gate, unless a reset reaches the line in that stretch. |
| CipRinse.WashIsEntered | PAC/common/cip_tech_def.cpp:2044-2109 | Over runs with operator skips: a phase of caustic, acid, hot water or disinfection that was begun is left only after its circulation was entered, unless a reset reaches the line before. |
| CipRinse.EventKeepsStretch | PAC/common/cip_tech_def.cpp:1799-1810 | One event leaves a line in its stretch or brings it to the gate if and only if it is no reset, or the line is locked and does not hear it. |
| CipRinse.RinsedAfterCausticExactly | PAC/common/cip_tech_def.cpp:1799-1810 | From the last caustic step before an acid step: the rinse is entered in between if and only if no reset reaches the line at the steps 22 to 35. |
| CipRinse.RinsedAfterAcidExactly | PAC/common/cip_tech_def.cpp:1799-1810 | From the last acid step before a caustic step: the rinse is entered in between if and only if no reset reaches the line at the steps 42 to 55. |
| CipRinse.ResetSkipsRinse | PAC/common/cip_tech_def.cpp:1799-1810 | The reset runs exist, in both directions: eight events from a line at rest lead through one solution, a reset and the choice of another program to the other one, and no step of the rinse is ever entered. |
| CipMeter.EveryLitreIsCharged | PAC/common/cip_tech_def.cpp:4861-4929 | Over every run, ends of programs included, the four accounts and what those ends cleared from them are together exactly the last meter readings of the steps, however often the water source changes or the line is paused. |
| CipMeter.DoStepMeters | PAC/common/cip_tech_def.cpp:5108-5178 | Every call of a step routine leaves the meter alone or charges all the litres since the last reading to exactly one account. |
| CipMeter.DoStepReads | PAC/common/cip_tech_def.cpp:5010-5050 | Every call of a step routine reads all the litres since the last reading, or none of them, and exactly which calls read: feeds and push-outs, but for the call in which a push-out arrives or fails, and the filling of a preparation. |
| CipMeter.EventSettles | PAC/common/cip_tech_def.cpp:2277-2290 | One event of any kind changes the settled sum only by the reading of a step that it closes and by what the end of a program clears. |
| CipMeter.UnreadLitresEscape | PAC/common/cip_tech_def.cpp:2277-2290 | The litres that no account gets are exactly those metered since the last reading of a step that is closed by a call that does not read: on the arrival of a push-out, in every step that neither feeds the object, pushes out nor fills a preparation, or by a command. |
| CipMeter.MeteredIsChargedOrEscapes | PAC/common/cip_tech_def.cpp:2277-2290 | Conservation: over every run all that the meter showed at the ends of the steps was charged, and cleared at the ends of programs, or escaped in that way. |
| CipMeter.PushOutEscapes | PAC/common/cip_tech_def.cpp:5103-5105 | It happens: from rest, the operator skips to the push-out of the caustic phase, and on its arrival all the litres of the step are charged to no account. |
| CipTech.Line.SortRR | PAC/common/cip_tech_def.cpp:3434-3564 | The return goes to the tank, the neutralization or the drain by concentration, tank level and the delay since the last switch, exactly as specified for the segregation proof. |
| CipTech.Line.InitToObject | PAC/common/cip_tech_def.cpp:4120-4336 | Entering a feed to the object puts the feed valves, the path and the return valves where the specification puts them. |
| CipTech.Line.InitFromObject | PAC/common/cip_tech_def.cpp:4338-4507 | Entering a push-out puts the valves where the specification puts them, and starts the arrival checks anew only if the step is new. |
| CipTech.Line.InitOporCIP | PAC/common/cip_tech_def.cpp:4509-4584 | Entering the emptying of an object that is a tank shuts the feed and leads the return where the step says; for a pipe nothing changes. |
| CipTech.Line.InitFilCirc | PAC/common/cip_tech_def.cpp:4586-4644 | Entering the filling of the vessel opens the feed of its medium and, at steps 26 and 46, the tank of that solution. |
| CipTech.Line.InitOporCirc | PAC/common/cip_tech_def.cpp:4646-4724 | Entering the emptying of the vessel leads the return where the step says. |
| CipTech.Line.InitCirc | PAC/common/cip_tech_def.cpp:4726-4834 | Entering circulation leads through the vessel, or through the tank of the solution where that is chosen; coming back counts the feed under way. |
| CipTech.Line.StopDevices | PAC/common/cip_tech_def.cpp:1527-1611 | Stopping shuts every valve of the line; after an error of the washed object the return valves stay as they are. |
| CipTech.Line.InitFilRR | PAC/common/cip_tech_def.cpp:3617-3699 | Entering the filling of a preparation feeds water to the tank that is prepared and opens the steam. |
| CipTech.Line.InitCircRR | PAC/common/cip_tech_def.cpp:3701-3753 | Entering the circulation of a preparation feeds from and returns to the same tank. |
| CipTech.Line.InitAddRR | PAC/common/cip_tech_def.cpp:3765-3864 | Entering the dosing circulates through the tank, and a second dose of the same size is noted for a warning. |
| CipTech.Line.InitOpolRR | PAC/common/cip_tech_def.cpp:3866-3921 | Entering the rinse of a preparation feeds water through the tank and leaves the steam as it is. |
| CipTech.Line.ScInitPumping | PAC/common/cip_tech_def.cpp:6075-6429 | Entering a pumping step of the self-clean opens the feed of its source and the valve of its target. |
| CipTech.Line.InitStep | PAC/common/cip_tech_def.cpp:2246-2481 | Entering a step, new or after a pause, is the routing of its table entry and nothing else. |
| CipTech.Line.FeedObject | PAC/common/cip_tech_def.cpp:4861-4929 | Feeding charges every metered litre once and switches between tank and main by the levels and delays. |
| CipTech.Line.ToObject | PAC/common/cip_tech_def.cpp:4836-5008 | A feed to the object: valves, delays, meter and result of one call, for every reading. |
| CipTech.Line.FromObject | PAC/common/cip_tech_def.cpp:5010-5228 | A push-out: valves, delays, meter and result of one call, for every reading. |
| CipTech.Line.OporCIP | PAC/common/cip_tech_def.cpp:5230-5324 | Emptying the object: the return is sorted, and the step is over on exactly the listed signals and times. |
| CipTech.Line.Circ | PAC/common/cip_tech_def.cpp:5340-5579 | Circulation: feeds, overflow, returns and the end of one call, for every reading. |
| CipTech.Line.OporCirc | PAC/common/cip_tech_def.cpp:5581-5615 | Emptying the vessel: one call, for every reading. |
| CipTech.Line.FilRR | PAC/common/cip_tech_def.cpp:3923-3965 | Filling of a preparation: one call, for every reading. |
| CipTech.Line.AddRR | PAC/common/cip_tech_def.cpp:4042-4084 | Dosing of a preparation: one call; a missing medium is reported once. |
| CipTech.Line.OpolRR | PAC/common/cip_tech_def.cpp:4086-4118 | Rinse of a preparation: one call, for every reading. |
| CipTech.Line.ScPumping | PAC/common/cip_tech_def.cpp:6431-6640 | Pumping of the self-clean: one call, for every reading. |
| CipTech.Line.DoStep | PAC/common/cip_tech_def.cpp:2637-2932 | Working on a step is the routine of its table entry, with its result; an unknown step is an error. |
| CipTech.Line.LoadNextPhase | PAC/common/cip_tech_def.cpp:3151-3231 | The next phase and its first step are those of the scheduler specification. |
| CipTech.Line.NextStepNumber | PAC/common/cip_tech_def.cpp:2044-2244 | The next step and phase are those of the scheduler specification. |
| CipTech.Line.EvalBlock | PAC/common/cip_tech_def.cpp:1493-1525 | A locked line is stopped and held; unlocking makes it paused or idle. |
| CipTech.Line.EvalCommands | PAC/common/cip_tech_def.cpp:1776-2042 | Each operator command changes step, state, phase, lock, recipe and valves exactly as specified. |
| CipTech.Line.EvalCipInProgress | PAC/common/cip_tech_def.cpp:2604-2635 | A working line advances, fails or ends as the result of its step says. |
| CipTech.Line.EvalSteam | PAC/common/cip_tech_def.cpp:2586-2600 | The steam valve opens only after its conditions held for longer than its delay, and shuts as soon as one of them fails. |
| CipTech.Line.TickLine | PAC/common/cip_tech_def.cpp:704-778 | One call of the evaluation brings about exactly one step of the line specification over which all runs are proved. |
| CipStationSpec.ClashIsMutual | PAC/common/cip_tech_def.cpp:1429-1473 | Two recipes clash in one order if and only if they clash in the other, although the check treats opened and shut valves differently. |
| CipSharing.SelfCleanExcludes | PAC/common/cip_tech_def.cpp:1857-1886 | Self-clean mutual exclusion: in every interleaving of all lines, while one line holds the lock every other line rests at its first step, idle or locked. |
| CipLock.ObserverKnowsHolder | PAC/common/cip_tech_def.cpp:1857-1886 | In every interleaving the lock is held by the line that took it last until that line has ended its program, and by nobody after that: an observer who watches starts and ends alone always knows the holder. |
| CipLock.EndFreesOthers | PAC/common/cip_tech_def.cpp:3126-3135 | Availability: the end of the holder gives the lock back, and then any other line at rest starts if and only if nothing but the lock stood in its way. |
| CipLock.StartsExactly | PAC/common/cip_tech_def.cpp:1857-1962 | A line at rest starts if and only if the lock is free for it, the switches allow it, no started line clashes with it, its devices are good and no acid wash is due; otherwise it shows why. |
| CipLock.HeldLockRefuses | PAC/common/cip_tech_def.cpp:1857-1886 | While another line holds the lock nothing starts. |
| CipLock.ForgottenWashKeepsLock | PAC/common/cip_tech_def.cpp:1493-1525 | A self-cleaning that is started, locked and unlocked at its first step is forgotten, but its line keeps the lock. |
| CipLock.RecipeIsApplied | PAC/common/mcaRec.cpp:407-517 | Device by device: a start opens what the recipe opens and shuts what it shuts and the own valves, an end shuts them, and nothing else is touched. |
| CipSharing.LinesDoNotInterfere | PAC/common/cip_tech_def.cpp:1907-1962 | Non-interference: in every interleaving in which no recipe is chosen for a started line that opens a valve another applied recipe holds open, the shared valves of each line whose recipe was applied stay where the recipe put them. |
| CipSharing.RestingChoiceIsHarmless | PAC/common/cip_tech_def.cpp:1907-1962 | For a line at rest every choice of a recipe is allowed in such a run. |
| CipSharing.HarmfulChoiceDisturbs | PAC/common/cip_tech_def.cpp:2986-2999 | The condition is exact: from every started state of an unlocked line not found in conflict, choosing a recipe and resetting disturbs another line if and only if that recipe opens a valve the other one holds open. |
| CipSharing.EndKeepsPosition | PAC/common/mcaRec.cpp:477-517 | The end of a line leaves the valves of another one in position if and only if its recipe opens none of those the other holds open. |
| CipSharing.RestingStationIsUndisturbed | PAC/common/cip_tech_def.cpp:704-778 | A station at rest satisfies what both station theorems start from. |
| CipSharing.AdmissionIsClear | PAC/common/cip_tech_def.cpp:1907-1962 | A line that passes the check at its start clashes with no line that passed before. |
| CipStation.Plant.GetValvesConflict | PAC/common/cip_tech_def.cpp:1429-1473 | The nested search over the other lines and their valves reports a conflict if and only if some started line has a clashing recipe. |
| CipStation.Plant.OnRecipeDevices | PAC/common/mcaRec.cpp:407-475 | Applying a recipe opens the devices it opens and then shuts those it shuts; numbers of the line come before numbers of the station. |
| CipStation.Plant.OffRecipeDevices | PAC/common/mcaRec.cpp:477-517 | Taking a recipe back shuts the devices that it opened and leaves all others. |
| CipStation.Plant.CloseLineValves | PAC/common/cip_tech_def.cpp:1389-1403 | The own valves 1001 to 1099 of the line are shut and no others. |
| CipStation.Plant.MayBegin | PAC/common/cip_tech_def.cpp:1857-1886 | The self-clean lock is granted, respected and taken exactly as the exclusion proof assumes. |
| CipStation.Plant.EvaluateLine | PAC/common/cip_tech_def.cpp:704-778 | One evaluation of one line brings about exactly one step of the station specification. |
| StepSpec.Find | PAC/common/operation_mngr.cpp:2494-2496 | The search gives the first place of a number in the list, and the length of the list if and only if it is not there. |
| OperationState.State.ToStep | PAC/common/operation_mngr.cpp:2182-2237 | Moving to a step ends the old one and starts the new one unless its set time is zero; a number that does not exist changes nothing. |
| OperationState.State.ToNextStep | PAC/common/operation_mngr.cpp:2239-2255 | The configured successor is entered, or the next number where none is configured. |
| OperationState.State.TurnOffActiveStep | PAC/common/operation_mngr.cpp:2257-2269 | The main step ends and none takes its place. |
| OperationState.State.Init | PAC/common/operation_mngr.cpp:1982-2014 | Entering a state starts its operation step, the wanted main step and every listed extra step. |
| OperationState.State.Finalize | PAC/common/operation_mngr.cpp:2120-2159 | Leaving a state keeps the time of the main step, ends everything that was active and empties the list of extra steps. |
| OperationState.State.OnExtraStep | PAC/common/operation_mngr.cpp:2478-2529 | An extra step is listed at most once, never while it is the main step, and started only if it passes its check. |
| OperationState.State.OffExtraStep | PAC/common/operation_mngr.cpp:2531-2562 | A listed extra step is ended and the first listing of it removed; any other number changes nothing. |
| OperationState.State.SwitchActiveExtraStep | PAC/common/operation_mngr.cpp:2568-2610 | A listed extra step is replaced by another one in the same place of the list. |
| OperationState.State.DropExtras | PAC/common/operation_mngr.cpp:2022-2039 | The loop over the list, which skips a place after each removal, ends exactly the extra steps that the specification drops. |
| OperationState.State.RaiseExtras | PAC/common/operation_mngr.cpp:2040-2052 | The loop over the steps lists exactly the signalled steps that were not listed, in order. |
| OperationState.State.Evaluate | PAC/common/operation_mngr.cpp:2018-2118 | One evaluation moves on by time or by condition as specified, and reports an expired last step. |
| Operation.Operation.constructor | PAC/common/operation_mngr.cpp:20-29 | A new operation has fifteen states at rest, no remembered step and no time. |
| Operation.Operation.Pause | PAC/common/operation_mngr.cpp:45-79 | Pausing keeps the RUN time, the main step and the extra steps, and enters PAUSING or PAUSE. |
| Operation.Operation.Stop | PAC/common/operation_mngr.cpp:81-111 | Stopping leaves the current state for STOPPING or STOP. |
| Operation.Operation.SwitchOff | PAC/common/operation_mngr.cpp:113-124 | Switching off leaves the current state for IDLE. |
| Operation.Operation.Start | PAC/common/operation_mngr.cpp:131-181 | Starting, coming back from a pause and ending the start-up, state by state. |
| Operation.Operation.ToRunState | PAC/common/operation_mngr.cpp:183-205 | Coming back loads the extra steps, enters the wanted step and adds back its time if it is the interrupted one. |
| Operation.Operation.Finalize | PAC/common/operation_mngr.cpp:398-411 | Ending an operation leaves its current state and drops all carried times. |
| Operation.Operation.Evaluate | PAC/common/operation_mngr.cpp:242-293 | One cycle is one evaluation of the current state and then the transition that its conditions ask for. |
| Operation.Operation.EvaluationTime | PAC/common/operation_mngr.cpp:227-240 | The reported time is that of earlier RUN periods and, in RUN, of the present one. |
| OperationSafety.CallKeepsTidy | PAC/common/operation_mngr.cpp:45-205 | Every call keeps all states but the current one and UNPAUSING at rest, and all active steps accounted for. |
| OperationSafety.ActiveStepsBelong | PAC/common/operation_mngr.cpp:2120-2159 | In every run from construction, a step flagged active belongs to the current state and is its main step or a listed extra step, UNPAUSING alone excepted; the same for operation steps. |
| OperationSafety.UnpausingIsLeftActive | PAC/common/operation_mngr.cpp:172-174 | The exception is real: from UNPAUSING the operation goes on without finalizing that state. |
| OperationSafety.ExtraStepsComeBack | PAC/common/operation_mngr.cpp:2468-2476 | After a pause, any calls while paused, and the start that leads back to RUN, from PAUSE or UNPAUSING, RUN is entered with exactly the extra steps of the pause, in order and started again; without enabling signals the list is the same after the whole start. |
| OperationSafety.PauseKeepsRun | PAC/common/operation_mngr.cpp:45-79 | Nothing done while paused touches the running state, the remembered step or the RUN time. |
| OperationSafety.CycleIsARun | PAC/common/operation_mngr.cpp:242-293 | A cycle of the operation is a run of at most two calls at one moment, so every theorem about runs of calls holds of runs of cycles. |
| OperationTransitions.CallLeads | PAC/common/operation_mngr.cpp:45-205 | Every call leads to the state of a literal table, or to IDLE with the consent of the object. |
| OperationTransitions.StepComesBack | PAC/common/operation_mngr.cpp:183-205 | After a pause, any calls while paused and a start, RUN is entered with the interrupted step, or with the one asked for, or with the first. |
| OperationTransitions.SignalsList | PAC/common/operation_mngr.cpp:2018-2052 | After an evaluation every step whose signal is present is listed, and a listing is only lost to a signal that has gone. |
| OperationTransitions.AddingLists | PAC/common/operation_mngr.cpp:2478-2529 | A step is listed last, once, and never while it is the main step. |
| OperationTransitions.DroppingUnlists | PAC/common/operation_mngr.cpp:2531-2562 | The first listing is taken out, the others keep their order, and the step is ended. |
| OperationTransitions.SwappingReplaces | PAC/common/operation_mngr.cpp:2568-2610 | A listing is replaced in its place; the old step is ended and the new one begins. |
| OperationTime.EvaluationTimeIsRunTime | PAC/common/operation_mngr.cpp:227-240 | In every run from construction, in RUN, PAUSING, PAUSE and UNPAUSING the reported time is the total time spent in RUN since the last start. |
| OperationTime.StopForgetsLastPeriod | PAC/common/operation_mngr.cpp:81-111 | In STOPPING and STOP the reported time misses exactly the RUN period that the stop ended. |
| OperationStepTime.StepTimeIsPauseProof | PAC/common/operation_mngr.cpp:2420-2441 | In every run from construction the time of the main step is the RUN time since it was entered, over any number of pauses, skipped steps and listings, if the call that entered the step and those since meet their conditions: a step that is entered or come back to begins, and no listing of a main step with carried time is ended. |
| OperationStepTime.StepTimeExactly | PAC/common/operation_mngr.cpp:2420-2441 | The conditions are exact: after any run, from a call that enters a step on, the time is right at every moment if and only if that call and all that follow meet them. |
| OperationStepTime.CallCountsExactly | PAC/common/operation_mngr.cpp:1004-1007 | One call keeps the time right if and only if it meets its condition, and one that enters a step makes it right if and only if it does, however wrong it was. |
| OperationStepTime.DroppedWalks | PAC/common/operation_mngr.cpp:2022-2039 | The walk over the extra steps takes the carried time from the main step if and only if it meets a listing of it whose signal has gone, and it skips a place after each removal. |
| OperationStepTime.EnteredCountsFromZero | PAC/common/operation_mngr.cpp:2195-2215 | A step that is entered counts from zero if and only if its set time lets it start, or it was last started at that very moment: the reason for the first condition. |
| OperationStepTime.DroppingKeepsMainTime | PAC/common/operation_mngr.cpp:2531-2562 | Ending an extra step keeps the time of the main step if and only if it is not the main step, is not listed, or carries no time: the reason for the second. |
| OperationStepTime.SwappingKeepsMainTime | PAC/common/operation_mngr.cpp:2568-2610 | Replacing a listing does so if and only if, besides, the other step does not exist or is the same. |
| OperationDuration.StepLastsItsTime | PAC/common/operation_mngr.cpp:2060-2116 | After any run whose calls since the entry meet their conditions, an evaluation leaves the main step exactly when its RUN time, counted from the calls alone, is more than its set time, or that is zero: for the configured successor, or out of the operation; until then it only follows a jump. |
| OperationDuration.StepStaysExactly | PAC/common/operation_mngr.cpp:2069-2076 | Without signals and jumps: the main step stays if and only if it has run for no more than its set time, over any number of pauses. |
| OperationCounterexamples.ZeroSetTimeMiscounts | PAC/common/operation_mngr.cpp:2195-2215 | The first condition is needed: from construction, one start of an operation whose first step has a set time of zero reports five units at once. |
| OperationCounterexamples.ListedMainStepLosesTime | PAC/common/operation_mngr.cpp:2531-2562 | The second condition is needed: a run of six calls from construction, over a pause, after which a main step that has run for ten units reports zero. |
| OperationUnpausing.UnpausingIsLeftExactly | PAC/common/operation_mngr.cpp:172-174 | Some run from construction leaves the operation step of UNPAUSING active in another state if and only if the operation has something to do in UNPAUSING. |
| SeatWash.WaitsFit | PAC/common/operation_mngr.cpp:1321-1342 | All washes and the waits around them fit the period, with less than one unit per wait to spare, if and only if the washes alone fit. |
| SeatWash.CallKeepsRotating | PAC/common/operation_mngr.cpp:1347-1454 | Every call keeps the group index in its row and only the group whose turn it is open, and moves the turn on by one group or not at all. |
| SeatWash.TurnsRotate | PAC/common/operation_mngr.cpp:1347-1433 | From any point of the rotation the turns that end are those of consecutive groups, counted round through upper and lower groups. |
| SeatWash.TurnIsWashed | PAC/common/operation_mngr.cpp:1369-1430 | While its turn lasts the group is open after every evaluation, it is shut when the time of its row has passed, and no other group is open. |
| SeatWash.WaitIsKept | PAC/common/operation_mngr.cpp:1356-1368 | A wait lasts for more than the computed time. |
| SeatWash.WashingRotates | PAC/common/operation_mngr.cpp:1309-1454 | From a start with closed groups, over any run: the k-th turn is that of group k modulo the number of groups, the index stays in range and at most one group is open. |
| SeatWash.InitRotates | PAC/common/operation_mngr.cpp:1309-1345 | Starting the action begins a proper rotation if and only if no group was left open. |
| SeatWash.OpenSeatAction.Start | PAC/common/operation_mngr.cpp:1309-1345 | The wait is computed in unsigned machine arithmetic, wrap-around included. |
| SeatWash.OpenSeatAction.Work | PAC/common/operation_mngr.cpp:1347-1433 | One evaluation of the action, phase by phase. |
| SeatWash.OpenSeatAction.End | PAC/common/operation_mngr.cpp:1435-1454 | Ending closes the group of the present turn only. |
| StatsFormat.ReadIntBack | PAC/common/cip_stats.cpp:20-42 | Any number written in decimal is read back, also from the start of a line. |
| StatsFormat.ReadFieldBack | PAC/common/cip_stats.cpp:43-69 | Any string shorter than its buffer is read back behind its length, even if it holds separators, digits, blanks or line ends. |
| StatsFormat.ReadRecordBack | PAC/common/cip_stats.cpp:24-71 | A record written is read back, and the reader stands just before its line end. |
| StatsFormat.FileComesBack | PAC/common/cip_stats.cpp:129-152 | Round trip: reading what was written gives the same table, for any number of objects and any counts. |
| StatsFormat.EmplaceSorted | PAC/common/cip_stats.cpp:84-99 | Filing a record keeps the table in name order with every name once. |
| StatsFormat.EmplaceAdds | PAC/common/cip_stats.cpp:84-99 | Filing adds exactly the new record, and nothing if the name is taken. |
| StatsFormat.ReadRecordsSorted | PAC/common/cip_stats.cpp:139-152 | Whatever a file holds, the table read from it is ordered with every name once. |
| StatsFormat.SampleRecord | PAC/common/cip_stats.cpp:24-40 | What the text of a record looks like, on an example. |
| CipStats.ObjectStats.Serialize | PAC/common/cip_stats.cpp:24-40 | The record is appended to the stream in the format of the round trip. |
| CipStats.ObjectStats.Deserialize | PAC/common/cip_stats.cpp:42-71 | The record becomes what the format reads from the stream, and the stream moves on by it. |
| CipStats.ObjectStats.ResetStats | PAC/common/cip_stats.cpp:73-80 | The texts, the count and the change mark become those of a new record, and the name stays. |
| CipStats.Stats.GetObjStats | PAC/common/cip_stats.cpp:84-99 | The record of a name is found, or a new default one is filed under it; keys stay equal to the names in the records. |
| CipStats.Stats.Serialize | PAC/common/cip_stats.cpp:129-137 | The loop writes the whole table in key order. |
| CipStats.Stats.Deserialize | PAC/common/cip_stats.cpp:139-152 | The loop replaces the table by the one read, with keys equal to the names in the records. |
| CipStats.SaveAndLoad | PAC/common/cip_stats.cpp:129-152 | Writing one statistics object and reading it into another makes their records equal. |
| ParamStore.LayoutIsDisjoint | PAC/common/param_ex.cpp:167-186 | Blocks handed out one after the other share no byte and stay within the total, for any sizes. |
| ParamStore.AllocationIsLayout | PAC/common/param_ex.cpp:167-186 | The addresses handed out depend on the sizes alone, so the same requests get the same blocks after a restart. |
| ParamStore.SaveIsLocal | PAC/common/param_ex.cpp:157-165 | A save of at least one byte copies its own bytes and no others; a save of none copies the whole image at the start and nothing elsewhere. |
| ParamStore.OperationRefines | PAC/common/param_ex.h:489-532 | Putting, saving, saving all and resetting do to the two byte images what they should do to a table of working values and a table of saved values. |
| ParamStore.RunRefines | PAC/common/param_ex.h:489-532 | The same over any run of operations on any blocks. |
| ParamStore.SavedValuesSurvive | PAC/common/param_ex.cpp:79-115 | After any run, a restart with the same blocks reads every last saved value, and a restart with another total resets to the defaults; only the total is compared. |
| Params.ParamsManager.Init | PAC/common/param_ex.cpp:79-87 | The working image becomes the persistent one. |
| Params.ParamsManager.GetParamsData | PAC/common/param_ex.cpp:167-186 | A block is handed out behind the last one, or refused if it does not fit. |
| Params.ParamsManager.Save | PAC/common/param_ex.cpp:157-165 | The wanted range is written through in place, a count of zero meaning everything. |
| Params.ParamsManager.FinalInit | PAC/common/param_ex.cpp:89-155 | Another total resets the images to the defaults with the reset flag cleared. |
| Params.SavedParams.Save | PAC/common/param_ex.h:489-505 | One value is set and written through; a number out of range does nothing. |
| Params.SavedParams.SaveAll | PAC/common/param_ex.h:512-518 | The bytes of the block are written through. |
| Params.SavedParams.ResetTo0 | PAC/common/param_ex.h:522-532 | The loop zeroes the block and writes it through. |
| ParamCrc.OneByteChangesCrc | PAC/common/param_ex.cpp:33-71 | Two images of any length, or two project numbers, that differ in exactly one byte have different check sums, with signed and with unsigned characters. |
| ParamCrc.TwoBytesChangeCrc | PAC/common/param_ex.cpp:33-71 | So have two that differ in no more than two neighbouring bytes. |
| ParamCrc.CheckValue | PAC/common/param_ex.cpp:33-71 | The sum of the digits 1 to 9 is 0x4B37, the check value of CRC-16/MODBUS: polynomial, starting value and order of the bits. |
| ParamCrc.ShiftedInjective | PAC/common/param_ex.cpp:45-50 | The shift loop loses no information. |
| ParamCrc.SolveCrc | PAC/common/param_ex.cpp:33-71 | The nested loops over the array compute that check sum. |
| RecipeTable.ValueIsACell | PAC/common/mcaRec.cpp:146-166 | Writing the four bytes of a value changes that value of that recipe and nothing else in the table. |
| RecipeTable.NameIsApart | PAC/common/mcaRec.cpp:190-196 | Writing a name changes that name and nothing else in the table. |
| RecipeTable.DecodeIsInjective | PAC/common/mcaRec.cpp:136-144 | The table determines every byte of the memory. |
| RecipeTable.PlacesInMemory | PAC/common/mcaRec.cpp:136-158 | Where each name and value lies in the memory, byte by byte. |
| RecipeTable.ActionsLead | PAC/common/mcaRec.cpp:63-93 | Where each action leads, which name it saves and shows, and that it changes no other recipe. |
| RecipeTable.CopyMovePaste | PAC/common/mcaRec.cpp:519-536 | Copying, moving about and pasting makes the recipe pasted into equal to the one copied and leaves the values of every other recipe. |
| RecipeTable.CommandsCopyAndPaste | PAC/common/mcaRec.cpp:112-133 | The same by the command value, which ends up cleared in both recipes. |
| RecipeTable.OrdinaryMovesKeepNames | PAC/common/mcaRec.cpp:63-93 | Moving to the next, the previous or a given recipe shows its stored name and changes nothing in the memory. |
| RecipeTable.SetCurrentCarriesName | PAC/common/mcaRec.cpp:226-239 | Setting the current recipe does not load its name: the next write of the name keeps the table if and only if both names are the same. |
| RecipeManager.Recipes.GetRecipeValue | PAC/common/mcaRec.cpp:146-158 | A value is read from its four bytes, and -1000 for one that was never written. |
| RecipeManager.Recipes.SetRecipeValue | PAC/common/mcaRec.cpp:160-166 | The bytes are overwritten in place, changing one entry of the table. |
| RecipeManager.Recipes.SaveRecipeName | PAC/common/mcaRec.cpp:190-196 | The name shown is written to the current recipe. |
| RecipeManager.Recipes.NextRecipe | PAC/common/mcaRec.cpp:63-77 | The next recipe becomes current with its block number and name, unless it was the last. |
| RecipeManager.Recipes.PrevRecipe | PAC/common/mcaRec.cpp:79-93 | The previous recipe becomes current with its block number and name, unless it was the first. |
| RecipeManager.Recipes.ToRecipe | PAC/common/mcaRec.cpp:386-400 | A given recipe becomes current with its block number and name, if it exists. |
| RecipeManager.Recipes.SetCurrentRecipe | PAC/common/mcaRec.cpp:226-239 | A given recipe becomes current with its block number but with the name shown before. |
| RecipeManager.Recipes.CopyRecipe | PAC/common/mcaRec.cpp:519-527 | The block of the current recipe is copied to the buffer of all lines. |
| RecipeManager.Recipes.PasteRecipe | PAC/common/mcaRec.cpp:529-536 | The buffer, if filled, becomes the current recipe. |
| RecipeManager.Recipes.NullifyRecipe | PAC/common/mcaRec.cpp:538-546 | The current recipe becomes all zero. |
| RecipeFile.FileComesBackExactly | PAC/common/params_recipe_manager.cpp:287-362 | A file of any size is always read as expected into a storage of any size - names and first values, zeros for missing values, other recipes kept - if and only if there is a parameter or no more than one recipe. |
| RecipeFile.SameSizeIsIdentity | PAC/common/params_recipe_manager.cpp:312-362 | With equal sizes the expected result is the storage that was written. |
| RecipeFile.SecondNameLost | PAC/common/params_recipe_manager.cpp:331-346 | Without parameters the name of the second recipe is lost, for any number of recipes. |
| RecipeFile.ReadRecipeBack | PAC/common/params_recipe_manager.cpp:333-346 | A recipe with parameters is read back into a storage of any width, and the reader stands just before its line end. |
| RecipeFile.ParamsRecipeStorage.constructor | PAC/common/params_recipe_manager.cpp:233-246 | All recipes are called "none" and hold zeros. |
| RecipeFile.ParamsRecipeStorage.SetRecPar | PAC/common/params_recipe_manager.cpp:263-273 | A value in range is replaced, a change noted only if it differs; anything out of range is ignored. |
| RecipeFile.ParamsRecipeStorage.Serialize | PAC/common/params_recipe_manager.cpp:287-310 | The nested loops write the text of the format. |
| RecipeFile.ParamsRecipeStorage.Deserialize | PAC/common/params_recipe_manager.cpp:312-362 | The nested loops refill the recipes as the format reads the text. |
| PidLaw.VelocityIsPositional | PAC/common/PID.cpp:128-139 | With constant gains, after any number of samples from a reset in which the clamp does not act, the output is the positional form of all errors so far. |
| PidLaw.LoopTelescopes | PAC/common/PID.cpp:128-139 | The same with the two remembered errors, the induction behind it. |
| Pid.RegulatorIsPositional | PAC/common/PID.cpp:126-162 | So it is for the whole regulator, over any run of evaluations and switchings on and off: its memory is the positional form of the errors since it last forgot, on leaving manual mode or when switched; acceleration, limits and manual values never enter it. |
| Pid.AutomaticOutputInLimits | PAC/common/PID.cpp:164-222 | An evaluation that does not take the manual value gives an output between the limits if and only if these are in order, and otherwise the upper one; the evaluation that leaves manual mode does so if and only if the manual value is between them. |
| PidOutput.OutputIsPositional | PAC/common/PID.cpp:126-222 | After any run, an automatic evaluation with the period over returns the positional form of the errors since the regulator last forgot, held back by the acceleration that began then, and cut to the limits. |
| PidOutput.OutputFollowsMemory | PAC/common/PID.cpp:140-162 | One evaluation returns the remembered output, held back evenly during the acceleration from below or above, and cut to the limits; within a period the last output stays. |
| PidOutput.RunBegins | PAC/common/PID.cpp:353-367 | The acceleration counts from the moment at which the regulator last forgot, from its starting output or the manual value. |
| PidOutput.ErrorIsDistance | PAC/common/PID.cpp:98-105 | The error is the distance to the task in percent of the range, with the sign turned for a reversed regulator. |
| PidOutput.SwitchingOffTakesTwo | PAC/common/PID.cpp:258-273 | Switching off takes two calls, and between them switching on goes on as before. |
| Pid.StepFollowsLaw | PAC/common/PID.cpp:65-223 | One call forgets, adds one error to the law, or leaves the memory alone, and exactly which calls do which. |
| Pid.RunKeepsBounded | PAC/common/PID.cpp:132-137 | Over any run of such calls the remembered output stays between 0 and 100. |
| Pid.ManualIsBumpless | PAC/common/PID.cpp:164-186 | Switching to manual takes over the output as it is, and switching back starts from the manual value. |
| Pid.StationRampHoldsBack | PAC/common/cip_tech_def.cpp:7770-7784 | The ramp of the station regulator holds the output back exactly when the way plus the starting value is not above it, always from zero. |
| Pid.Regulator.Evaluate | PAC/common/PID.cpp:65-223 | One evaluation of the object brings about the call of that name of the run theorem; one that is off only returns its starting output. |
| Pid.Regulator.DirectOn | PAC/common/PID.cpp:225-238 | Only a regulator that was off is reset when it is switched on. |
| Pid.Regulator.DirectOff | PAC/common/PID.cpp:258-273 | A running regulator first becomes stopping, and off and reset at the second call. |
| AnalogOutput.WrittenIsRead | PAC/common/bus_coupler_io.cpp:298-344 | A value between the limits comes back too small by less than one count of the span, in the dead zone of modules 554 and 555 by less than seven, and the counts always fit 16 bits with a sign. |
| AnalogOutput.ReadIsMonotone | PAC/common/bus_coupler_io.cpp:123-278 | A larger value never reads back smaller, and values beyond a limit read back as the limit exactly. |
| AnalogOutput.MilliamperesAreRead | PAC/common/bus_coupler_io.cpp:155-165 | Without a scale a current comes back too small by less than one count, but as none at all in the dead zone. |
| AnalogOutput.OtherModulesTruncate | PAC/common/bus_coupler_io.cpp:344-344 | Any other module gives back the whole part of the value if and only if it fits the cell. |
| AnalogOutput.CellsAreRead | PAC/common/bus_coupler_io.cpp:123-278 | The counts per milliampere of each module, and which ignore the first counts. |
| AnalogOutput.IoDevice.SetAO | PAC/common/bus_coupler_io.cpp:298-359 | The cell of an existing channel is overwritten with the encoded value, and nothing else. |
| AnalogOutput.IoDevice.GetAO | PAC/common/bus_coupler_io.cpp:123-296 | The cell of an existing channel is decoded; a channel that does not exist reads as zero. |

## Left out

Washing station:

- Pumps, dosing devices, set-points of the regulators, level and fault signals to the object, and the texts for the
  panel: the model keeps valves, steps, delays and the water meter.
- Readings are taken as truths of their comparisons: a temperature below its limit, a volume passed, a time over. What
  makes the secondary tank count as empty and the checks for faults are readings too.
- Step 300 is whatever the plant's own script makes of it; every other routine is the built-in one, not an override.
- Drain valves and cleaning heads of the tanks in the self-clean; the valves of the line in those steps are modelled.
- Counters of hot water, of top-ups, of skipped steps and of errors: they only count.
- Choosing, copying and naming recipes on the panel during a tick: choices come between ticks.
- Recipes that name the valves V00 to V13 of a line; valve numbers with a fraction; what the conflict check reads when no
  recipe is loaded (it may be anything).
- CipSafety.SolutionsStayApart: the place where clean rinsing water returns to is the drain or the water tank, the only
  two values that the code assigns to it.
- CipRinse.RinsedAfterCaustic: tells that the steps of the rinse are entered, not how long they last: the operator can
  skip through them.
- CipSharing.LinesDoNotInterfere: valve numbers of 1000 and more are exempt, as they are from the check itself, and recipe
  tables do not change during the run.

Operations:

- The actions of a step (switching devices, delays, analog control): a step is active or not, with its times.
- Signals are read once per call; scripts that answer a request for another state are a yes or no.
- Automatic start by signals keeps no record of its warnings and waiting times.
- OperationState.State.OnExtraStep: step number zero, for which the code would read before its first step, is excluded.
- OperationState.State.SwitchActiveExtraStep: the same for the step that is switched on.
- Operation.Operation.Evaluate: the answer of the object to a request for another state is granted or not granted.
- SeatWash.OpenSeatAction.Work: devices that are not valves, which the waiting phase switches off, are left alone.
- SeatWash.WashingRotates: a group is open or not; valves that belong to two groups, or that another action washes, are
  not told apart.
- Clocks do not wrap around.

Files and memories:

- Opening, closing and missing files; a stream that fails part way reads as failed as a whole.
- CipStats.ObjectStats.Deserialize: a stream that fails part way, a string too long for its buffer included, leaves
  the record unspecified.
- CipStats.Stats.Deserialize: a string that does not fit its buffer counts as a failed stream; the code would write past
  the buffer.
- Characters are bytes; code pages of names, and what lies behind the end mark of a name, are not modelled.
- RecipeFile.ParamsRecipeStorage.Deserialize: a stream that fails part way leaves the recipes unspecified.
- Params.ParamsManager.FinalInit: what the default routines of the plant write is an arbitrary image.
- RecipeFile.FileComesBackExactly: a value is the text printed for it; that printing rounds to six digits is not modelled.
- A parameter block that does not fit the store, which the code then keeps in ordinary memory.
- The defaults of a recipe (a long list of constants) and the list of recipes for the server.
- Recipes of caustic and acid, which use the same memory with other sizes.
- Long integers of a recipe value are taken as 32 bits wide.

Control and outputs:

- Rounding of numbers with a fraction, and division by an empty scale whose limits are equal and not zero.
- Sensors and actuators of a regulator, and the second set of gains, which only replaces the first.
- The station's regulator apart from its ramp: its law is that of `PidLaw`, its output is scaled instead of limited.
- A negative value for a module without a scale: the code converts it to an unsigned number, which is not defined.
- Analog inputs, digital inputs and outputs, and the print-out of devices.
