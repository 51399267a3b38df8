# Verified model of the multimodal input service

This project models the core of the input service's event loop and proves what it keeps over
whole runs: the timer manager, the key-command matcher, the key subscribers that share its timer
list, the cooperation protocol between two devices, the delegated-task queue, touch monitors, the
session table, and the pointer acceleration curves.

`dafny verify dfyconfig.toml` checks every file.

## How it is organised

Each component has a module of values and functions, in which runs are defined and the theorems
are proved, and, where the program updates objects in place, a class whose methods keep the
program's loops and branches and are proved equal to those functions.

| file | component |
|---|---|
| `Options.dfy`, `FiniteSets.dfy`, `TimerList.dfy` | optional values; finite sets; the ordered list of pending timers |
| `Timers.dfy`, `TimerPasses.dfy`, `TimerManager.dfy` | timer manager: runs of Add, Remove, Reset and Process with re-entrant callbacks; what a pass leaves alone and what ends an arming |
| `KeyTypes.dfy` | key events, strokes, configured sequences and shortcuts, timer callbacks |
| `KeySequences.dfy`, `SequenceLaunches.dfy`, `SequenceEntries.dfy` | incremental matcher for timed key sequences; which launches it arms; which events of a run arm a launch |
| `Shortcuts.dfy` | shortcut matching and filing |
| `Ownership.dfy` | who owns a timer, and what an owner's operations leave alone |
| `Subscribers.dfy`, `SubscriberOutcomes.dfy`, `KeySubscriberHandler.dfy` | key subscribers; what an event does for each of them |
| `KeyCommands.dfy`, `Launches.dfy`, `KeyCommandHandler.dfy` | shortcuts, sequences and the volume-key delay line together |
| `EventLoop.dfy`, `Stages.dfy` | every interleaving of key events, timer firings, subscriptions and other timers; which timers each step leaves alone |
| `ShortcutHolds.dfy`, `ShortcutOutcomes.dfy`, `SequenceHolds.dfy`, `DelayLine.dfy` | what a shortcut launch takes; which abilities are started, and when; which sequence launches a key cancels; the volume keys' queue, and where every event goes |
| `Cooperation.dfy`, `CooperateSM.dfy` | cooperation state machine of one device |
| `TwoDevices.dfy`, `UnguardedLegs.dfy`, `UnguardedRuns.dfy`, `CooperationRoundTrips.dfy` | two devices with channels: safety of every run, the runs that break it, and undisturbed round trips |
| `DelegateTasks.dfy` | task queue, pipe and worker |
| `TouchMonitors.dfy`, `TouchClaims.dfy` | touch monitors; their claims told from the events of a run |
| `Sessions.dfy`, `HandlerTables.dfy` | session table; interceptors, monitors and subscriptions told from the requests of a run |
| `RealArithmetic.dfy`, `PointerCurves.dfy` | products and quotients of reals; acceleration |

## What is assumed

- The clock does not go backwards. It is the latest reading plus a step (`tick`) chosen freely at
  every reading. The program reads `system_clock`, which an administrator can set back.
- A timer callback is what it asks of the manager: any list of Add, Remove and Reset calls, a
  different one for each firing.
- In `EventLoop` other components remove and reset only timers of their own.
- Nothing is assumed of key events: codes, actions, key items and times are arbitrary, except where
  a member asks for distinct key items including the event's own key.
- Sequences have a start delay above zero. A launch without delay clears the candidate list while
  it is being walked, which leaves the loop undefined.
- The kernel hands out descriptors that are not open; event ids are fresh for touch claims.
- Two devices have reliable first-in first-out channels and one start or stop in flight at a time;
  early failures and their receivers, callback outcomes, resets and start devices are free. Only a
  start of the device itself sets its pair of prepared devices.
- A locked method of the cooperation state machine is one atomic step; so are a post and a pop of
  the queue of delegated tasks, while the worker's read of the pipe is a step of its own.
- The arithmetic of the acceleration curves is over reals.

## Where the code does less than one might expect

- **Two devices** (`UnguardedRuns.SafeIffGuarded`). With one operation in flight at a time the two
  devices can still both end IN, or both OUT, with no message under way. The promise holds in every
  run if and only if three things are kept apart. No start, and no stop on an IN device, begins
  while a successful start result of the peer is undelivered; every other undelivered message is
  harmless, and so is a stop on an OUT device. Between a start's remembering the pair of prepared
  devices and its reading there whom to tell, nothing clears the pair: a close does so without
  lowering the starting flag (`input_device_cooperate_sm.cpp:131-134`), and after a session loss a
  late start request raises it again. And a stop on an IN device is for a start device of the peer.
  `UnguardedRuns` gives a run for each of the six parts of this condition.
- **Sequence launches** (`SequenceHolds.OrphanedBy`, `SequenceHolds.OrphanOnlyFires`). Keys pressed
  during the start delay of a sequence cancel its launch only while a candidate holds its timer. A
  pause, a time that goes back or another launch empties the candidates and leaves their timers
  armed; such a launch takes place whatever is pressed then.
- **Press-and-hold** (`Subscribers.ReleaseEndsHoldsIff`). A key release whose event lacks its own
  key item can leave another subscriber's hold armed, because the loop over the subscribers is
  left at `key_subscriber_handler.cpp:394-395`. A release ends every hold if and only if it carries
  its own item or is a power key released while a volume key is down.
- **Pid index** (`Sessions.FoundByPidExactlyWhen`, `Sessions.SecondSessionIsLost`). A process with
  two sessions is no longer found by pid once either of them closes, and a session on descriptor 0
  is never found by pid; its requests are then refused.
- **History length** (`KeySequences.AfterAPause`, `KeySequences.TwelfthKeyIsLost`).
  `AddSequenceKey` tests the length read before a reset (`key_command_handler.cpp:815-836`), so a
  twelfth key after a long pause clears the history and is itself not recorded.
- **Special keys** (`Launches.NotedUntilRelease`). `key_command_handler.cpp:676` passes the action of
  the input event, not the key action, so only the former makes a noted key forgotten.
- **Finishes reported early** (`CooperationRoundTrips.FailureMustReachThePeer`). `PrepareAndStart`
  reports a failed start to the origin of the start device, normally the local device itself
  (`i_input_device_cooperate_state.cpp:48-58`); the peer then keeps its starting flag and refuses
  starts until it is reset.

## Model

| member | source | states |
|---|---|---|
| `Timers.ProcessRunsEachDueOnce` | input/service/timer_manager/src/timer_manager.cpp:174-203 | a pass, whatever its callbacks ask of the manager, runs exactly the timers due at its start that no earlier callback of the pass removed or reset, each once, in deadline order with ties in insertion order, and leaves none due |
| `Timers.PassDrains` | input/service/timer_manager/src/timer_manager.cpp:174-203 | the in-place drain terminates and agrees with a reference that looks only at the timers due at its start, overflow included |
| `Timers.TurnDue` | input/service/timer_manager/src/timer_manager.cpp:188-201 | one turn takes one due timer away and, besides it, exactly those its callback removed or reset; nothing a callback adds or resets is due in the same pass (the termination measure) |
| `Timers.LeftoverMeansOverflow` | input/service/timer_manager/src/timer_manager.cpp:195-198 | a due timer is left behind only if some due timer's next deadline overflows, and that timer is lost without running |
| `Timers.DrainRunsUntouched` | input/service/timer_manager/src/timer_manager.cpp:180-202 | the reference drain, without overflow, leaves nothing and runs exactly the untouched timers in order |
| `Timers.RunFiresAsOftenAsAsked` | input/service/timer_manager/src/timer_manager.cpp:79-203 | in every run a timer armed with repeat count n >= 1 fires at most n times and is on the list exactly until its n-th firing, unless removed, reset or lost to overflow, in which case it fired fewer than n times |
| `TimerPasses.PassKeepsOthers` | input/service/timer_manager/src/timer_manager.cpp:174-203 | a pass takes a timer that is not due off the list exactly if a callback that it runs removes or resets it; otherwise the entry stays as it was, overflow included |
| `TimerPasses.PassAdds` | input/service/timer_manager/src/timer_manager.cpp:174-203 | whatever is new on the list after a pass was armed by a callback of the pass, or is a timer that the pass ran, put back one interval after the pass began with one more firing counted |
| `TimerPasses.EndedExactlyWhen` | input/service/timer_manager/src/timer_manager.cpp:108-203 | in every run an arming is ended before its last firing exactly if a call removes or resets its timer while it is on the list, or its next deadline overflows as it fires |
| `TimerPasses.RunSteps` | input/service/timer_manager/src/timer_manager.cpp:79-203 | every run of the manager is a sequence of single calls, firings and ticks, its calls being just those that the run and the callbacks of its firings make |
| `Timers.RunListOrdered` | input/service/timer_manager/src/timer_manager.cpp:62-157 | in every run the list is ordered by deadline then insertion, ids are distinct and within 0..63, and no id is free exactly when 64 timers are pending |
| `Timers.FreeId` | input/service/timer_manager/src/timer_manager.cpp:62-77 | the result is the least id no timer uses, or -1 exactly when all 64 are used |
| `Timers.FullTable` | input/service/timer_manager/src/timer_manager.cpp:62-77 | distinct ids within 0..63 leave no id free exactly when there are 64 of them |
| `Timers.AddMeans` | input/service/timer_manager/src/timer_manager.cpp:79-106 | adding fails, changing nothing, exactly when 64 timers are pending or the deadline overflows; otherwise exactly one timer is new, under an unused id, due the interval, brought within 50 and 4096, after the clock reading and behind every timer due by then |
| `Timers.RemoveMeans` | input/service/timer_manager/src/timer_manager.cpp:108-117 | exactly the timer of that id goes; an unused id changes nothing, for a reset too |
| `Timers.ResetMeans` | input/service/timer_manager/src/timer_manager.cpp:119-136 | the timer of that id starts over with its interval, repeat count and callback, behind every timer due by its new deadline, or is lost when that overflows; all others stay |
| `Timers.FireMeans` | input/service/timer_manager/src/timer_manager.cpp:188-201 | the head goes at its last firing and otherwise returns with one more firing counted, one interval after the pass began, behind every timer due by then |
| `Timers.AddKeepsInv` | input/service/timer_manager/src/timer_manager.cpp:79-106 | adding keeps the run invariant: order, distinct ids, and the account of every arming |
| `Timers.RemoveKeepsInv` | input/service/timer_manager/src/timer_manager.cpp:108-117 | removing keeps the run invariant |
| `Timers.ResetKeepsInv` | input/service/timer_manager/src/timer_manager.cpp:119-136 | resetting keeps the run invariant, overflow included |
| `Timers.FireKeepsInv` | input/service/timer_manager/src/timer_manager.cpp:188-201 | firing the head, for the last time or not, keeps the run invariant |
| `Timers.NextDelayIsLeast` | input/service/timer_manager/src/timer_manager.cpp:159-172 | the delay is the least remaining time over all timers, -1 exactly without timers, and within [-1, 4096] |
| `Timers.WaitingOutTheDelay` | input/service/module_loader/src/mmi_service.cpp:932-952 | nothing is due before the computed delay has run out, and a pass after it runs the earliest timer first |
| `TimerManagerClass.TimerManager.TakeNextTimerId` | input/service/timer_manager/src/timer_manager.cpp:62-77 | the slot loop finds the least free id or reports none |
| `TimerManagerClass.TimerManager.AddTimer` | input/service/timer_manager/src/timer_manager.cpp:79-106 | clamped interval, missing callback, full table and overflow as in the run model |
| `TimerManagerClass.TimerManager.RemoveTimer` | input/service/timer_manager/src/timer_manager.cpp:108-117 | the new state is that of the run model; success exactly if the id was pending |
| `TimerManagerClass.TimerManager.ResetTimer` | input/service/timer_manager/src/timer_manager.cpp:119-136 | the new state is that of the run model; success exactly if the id was pending and its deadline does not overflow |
| `TimerManagerClass.TimerManager.IsExist` | input/service/timer_manager/src/timer_manager.cpp:138-146 | true exactly if a timer has the id |
| `TimerManagerClass.TimerManager.InsertTimer` | input/service/timer_manager/src/timer_manager.cpp:148-157 | the walk inserts after every timer not later than the new one |
| `TimerManagerClass.TimerManager.CalcNextDelay` | input/service/timer_manager/src/timer_manager.cpp:159-172 | the least remaining time over all timers, within [-1, 4096] |
| `TimerManagerClass.TimerManager.RunHead` | input/service/timer_manager/src/timer_manager.cpp:188-201 | one turn of the loop: the head fires, is put back if it repeats, and its callback re-enters the manager |
| `TimerManagerClass.TimerManager.ProcessTimers` | input/service/timer_manager/src/timer_manager.cpp:174-203 | the loop terminates, refines the pass of the run model and keeps its invariant |
| `KeySequences.FilterRefinesRescan` | input/service/key_command/src/key_command_handler.cpp:765-885 | on every recorded event the shrinking filter holds exactly the complete and the extending sequences that a scan of all sequences finds, in the same order, even when no timer can be armed, and the filter left behind is again one to rely on |
| `SequenceLaunches.PressArmsTheCompleted` | input/service/key_command/src/key_command_handler.cpp:765-885 | a recorded event keeps every timer that recording it left and adds launches of sequences that the whole configuration completes, none more often than configured, all of them with ids enough and no overflow; some exactly if it counts as launching |
| `KeySequences.ReachableHistory` | input/service/key_command/src/key_command_handler.cpp:750-842 | every reachable history has at most 11 entries, non-decreasing times, gaps of at most MAX_DELAY_TIME equal to the noted delays, and alternating actions per key code |
| `KeySequences.RecordKeepsHistory` | input/service/key_command/src/key_command_handler.cpp:809-842 | recording an event keeps these properties on each of its branches |
| `KeySequences.RecordMeans` | input/service/key_command/src/key_command_handler.cpp:809-842 | time that goes back drops the history and the event; a pause above a second drops the history, and the event too after eleven entries; in between a repeat is passed over, as is any event once there are eleven, and every other event comes last in a history otherwise unchanged |
| `KeySequences.AfterAPause` | input/service/key_command/src/key_command_handler.cpp:809-842 | after a pause above MAX_DELAY_TIME a key is recorded exactly if the history had at most ten entries, and then starts a new one |
| `KeySequences.TwelfthKeyIsLost` | input/service/key_command/src/key_command_handler.cpp:815-836 | from an empty history eleven keys are recorded and the twelfth, after such a pause, is not |
| `KeySequences.IsSequenceKeysValid` | input/service/key_command/src/key_command_handler.cpp:427-457 | the check with its map accepts exactly the sequences of 1 to 10 steps in which successive steps of one key code change action |
| `KeySequences.AcceptedIsReachable` | input/service/key_command/src/key_command_handler.cpp:809-885 | entering the steps of an accepted sequence at any times without a pause above a second, from an empty history, records exactly them, and the last finds the sequence completed among the scanned candidates if and only if each pause was shorter than the nonzero delay configured for the step before it |
| `SequenceLaunches.AcceptedIsArmed` | input/service/key_command/src/key_command_handler.cpp:844-885 | the last step of such an entry arms the launch, under a new timer, only if each pause was shorter than the delay configured for the step before it, and if so then always with ids enough and no overflow |
| `KeySequences.EnteredIsNoted` | input/service/key_command/src/key_command_handler.cpp:809-842 | every prefix of an accepted sequence entered without a pause above a second is recorded step for step, with its times and the gaps between them |
| `SequenceEntries.ArmedOnlyByEntry` | input/service/key_command/src/key_command_handler.cpp:809-885 | in every run of the whole loop a sequence launch is armed only by a key event that is the last of events that are the strokes of the sequence, in order, with time never going back, gaps of at most a second and below the nonzero delay of the step before, and nothing in between but repeats; it is due the start delay in milliseconds, within 50 and 4096, after that event or later |
| `SequenceEntries.HistoryIsOfEvents` | input/service/key_command/src/key_command_handler.cpp:809-842 | in every run the history is made of events of the run, and up to ten entries it lacks none since the first but repeats |
| `SequenceEntries.LaunchEndsHistory` | input/service/key_command/src/key_command_handler.cpp:1009-1021 | the launch of a sequence ends the history, and besides it only key events touch the history |
| `KeyTypes.RepeatsMeans` | input/service/key_command/src/key_command_handler.cpp:750-763 | the backward search reports a repeat exactly when the latest stroke of the key code is the same stroke |
| `KeyTypes.AlternatesSnoc` | input/service/key_command/src/key_command_handler.cpp:750-763 | a stroke that is not a repeat is exactly one that keeps the alternation |
| `Shortcuts.MatchIsSetEquality` | input/service/key_command/src/key_command_handler.cpp:887-914 | for distinct key items including the event's own key, a shortcut matches exactly when key and trigger agree and the pre-keys are the other items as a set |
| `Shortcuts.AtMostOneMatches` | input/service/key_command/src/key_command_handler.cpp:732-746 | at most one filed shortcut matches an event |
| `Shortcuts.GenerateKeyInjective` | input/service/key_command/src/key_command_handler.cpp:489-499 | two shortcuts have the same text exactly when they have the same pre-keys, final key and trigger |
| `Shortcuts.ParseShortcutKeys` | input/service/key_command/src/key_command_handler.cpp:501-526 | every configured shortcut has its text in the map, and every entry is the first one configured with its trigger |
| `Shortcuts.OnlyDuplicatesAreDropped` | input/service/key_command/src/key_command_handler.cpp:501-526 | filing drops only true duplicates: what is filed under a shortcut's text has its trigger and is the shortcut itself if it came first |
| `Ownership.AddOnly` | input/service/timer_manager/src/timer_manager.cpp:79-106 | arming a timer adds one entry under an id not in use, or nothing, and leaves all other owners' timers in place and order |
| `Ownership.RemoveOnly` | input/service/timer_manager/src/timer_manager.cpp:108-117 | removing an owner's timer leaves the timers of all others in place and order |
| `Ownership.FireOnly` | input/service/timer_manager/src/timer_manager.cpp:188-201 | firing the head touches no timer of another owner |
| `EventLoop.RunOwnership` | input/service/key_command/src/key_command_handler.cpp:714-935 | in every run with ids reused at will, each id held in lastMatchedKey_, filterSequences_, specialTimers_ or a subscriber names a live timer created for that very holder, and no two holders share an id |
| `EventLoop.RunPendingTimers` | input/service/key_command/src/key_command_handler.cpp:680-709 | in every run at most one shortcut launch is pending, specialTimers_ lists for each key exactly its live delay timers in firing order, and the id popped when one fires is its own |
| `EventLoop.DelayLinePopsTheFired` | input/service/key_command/src/key_command_handler.cpp:682-689 | the front id of the key's list is that of the delay timer at the head of the timer list |
| `DelayLine.DelayLineIsAQueue` | input/service/key_command/src/key_command_handler.cpp:680-709 | in every run the delayed events of a key that left and those that wait are, one after the other, those that were held back: they leave in order of arrival, each once |
| `DelayLine.StepQueues` | input/service/key_command/src/key_command_handler.cpp:680-709 | a step takes out of the queue only the event whose timer fires, or for a launch with that key all of them, and puts an event held back at its end |
| `DelayLine.DeliveredIsTold` | input/service/key_command/src/key_command_handler.cpp:682-689 | a firing tells the subscribers the very event that its timer holds, once it is due, and pops its id |
| `DelayLine.DeliveredInTime` | input/service/key_command/src/key_command_handler.cpp:680-689 | in every run a delayed event that the subscribers are told came as a key event at least 150 ms before |
| `DelayLine.HeldBackMeans` | input/service/key_command/src/key_command_handler.cpp:675-709 | an event that no shortcut or sequence takes and whose key is not noted is held back exactly if it is a volume key's and a timer can be had, and is then due 150 ms after the clock reading |
| `DelayLine.WhereItGoes` | input/service/key_command/src/key_command_handler.cpp:552-712 | the subscribers see an event at once exactly if no shortcut or sequence takes it, its key is not noted and it is not held back, and then as if it came to them first; otherwise none is told of it |
| `EventLoop.RunHoldNotifications` | input/service/subscriber/src/key_subscriber_handler.cpp:210-286 | in every run a subscriber timer about to fire belongs to a current subscriber holding the event that armed it, and a press-and-hold one only if no CANCEL, no non-matching DOWN and no UP that ends holds was processed since |
| `EventLoop.RunRefinesRescan` | input/service/key_command/src/key_command_handler.cpp:765-885 | the refinement and the history properties hold in every run of the whole loop, timer callbacks included |
| `SequenceLaunches.RunArmsTheCompleted` | input/service/key_command/src/key_command_handler.cpp:765-885 | so it is on every event recorded in a run of the whole loop |
| `SequenceHolds.KeyCancels` | input/service/key_command/src/key_command_handler.cpp:809-842 | a key event cancels a pending sequence launch exactly if it continues the history and a candidate still holds the launch's timer |
| `SequenceHolds.OrphanedBy` | input/service/key_command/src/key_command_handler.cpp:1009-1021 | a launch that a candidate holds becomes one that none holds exactly by an event that drops the history, after a pause or with an earlier time, or by the launch of another sequence |
| `SequenceHolds.OrphanOnlyFires` | input/service/key_command/src/key_command_handler.cpp:1067-1076 | in every run such a launch stays pending until it fires, whatever keys are pressed |
| `SequenceHolds.PauseOrphans` | input/service/key_command/src/key_command_handler.cpp:823-826 | a run: one stroke arms the launch of its sequence, and a key after a pause leaves it pending and out of reach |
| `EventLoop.RunOk` | input/service/key_command/src/key_command_handler.cpp:657-712 | every interleaving of key events, firings, subscriptions, session losses and other components' timers keeps all holders' accounts |
| `EventLoop.FireStepOk` | input/service/key_command/src/key_command_handler.cpp:974-1021 | each kind of callback, shortcut launch, sequence launch, delayed key, notification, keeps all holders' accounts |
| `ShortcutHolds.LaunchOnlyWhileHeld` | input/service/key_command/src/key_command_handler.cpp:714-748 | in every run a pending shortcut launch was armed by a press of exactly its keys, has been pending ever since, is due no earlier than its clamped duration after that press, and every key event from then on was the same keys pressed |
| `ShortcutHolds.StepHolds` | input/service/key_command/src/key_command_handler.cpp:916-935 | a launch pending after any step matches the step's key event, if there is one, and if it is new that event armed it |
| `ShortcutHolds.KeyEventLeaves` | input/service/key_command/src/key_command_handler.cpp:657-712 | of all stages of a key event only the shortcut stage touches pending shortcut launches |
| `ShortcutOutcomes.StartedExactlyWhen` | input/service/key_command/src/key_command_handler.cpp:916-988 | in every run, with shortcuts filed by trigger, an ability is started exactly by a key event that triggers a shortcut without duration, or for a release before its duration has passed, while no launch waits for the same keys, or by the firing of a pending shortcut or sequence launch; never another ability, never two at once |
| `ShortcutOutcomes.StartedAtOnce` | input/service/key_command/src/key_command_handler.cpp:950-972 | a shortcut without duration, or for a release whose key went down less than the duration (times 1000) before, is started and the event taken; a later release does neither; no launch is left pending |
| `ShortcutOutcomes.PressWaits` | input/service/key_command/src/key_command_handler.cpp:916-935 | a press of a shortcut with a duration leaves exactly its launch pending, due the duration, within 50 and 4096, after the clock reading, if besides pending shortcut launches fewer than 64 timers exist and nothing overflows; otherwise none, and the event is not taken |
| `ShortcutOutcomes.WaitingIsKept` | input/service/key_command/src/key_command_handler.cpp:722-725 | the same keys again while their launch is pending change nothing and are taken |
| `ShortcutOutcomes.OthersEndIt` | input/service/key_command/src/key_command_handler.cpp:726-747 | an event that triggers no shortcut ends a pending launch, starts nothing and is not taken |
| `KeyCommands.ShortKeysOk` | input/service/key_command/src/key_command_handler.cpp:714-748 | shortcut handling keeps exactly one or no pending launch, the one in lastMatchedKey_ |
| `KeyCommands.PressOk` | input/service/key_command/src/key_command_handler.cpp:765-885 | sequence handling arms launches only under fresh ids and keeps every held id backed by its own timer |
| `KeyCommands.InterruptOk` | input/service/key_command/src/key_command_handler.cpp:1067-1076 | interrupting leaves no candidate with an id and removes only timers of sequences |
| `KeyCommands.DelayOk` | input/service/key_command/src/key_command_handler.cpp:680-709 | a delayed volume key joins its list at the end and fires after those before it |
| `KeyCommands.DropDelayedOk` | input/service/key_command/src/key_command_handler.cpp:1032-1043 | dropping a key's delay timers removes exactly those listed |
| `KeyCommands.OnKeyEventOk` | input/service/key_command/src/key_command_handler.cpp:657-712 | a key event, taken through shortcuts, sequences, special keys, delay line and subscribers, keeps all holders' accounts |
| `Launches.LaunchSilences` | input/service/key_command/src/key_command_handler.cpp:791-799 | after a launch no delayed event of a history key is pending, no subscriber to it has a timer, a volume or power key is noted exactly as its last stroke left it, and the notes on other keys stay |
| `Launches.ConsumeNotes` | input/service/key_command/src/key_command_handler.cpp:1045-1065 | a special key is noted after the loop over the history if its last stroke is down and not if it is up |
| `Launches.NotedUntilRelease` | input/service/key_command/src/key_command_handler.cpp:675-678 | without a launch a noted key is forgotten exactly by an event of it that no shortcut takes and whose input action is a release; until then its events reach neither the delay line nor the subscribers |
| `Launches.ClearKeyClears` | input/service/subscriber/src/key_subscriber_handler.cpp:476-483 | every subscriber to the key loses its timer, and all other subscribers stay as they are |
| `KeyCommandHandlerClass.KeyCommandHandler.IsRepeatKeyEvent` | input/service/key_command/src/key_command_handler.cpp:750-763 | the backward loop reports whether the latest stroke of the key code had the same action |
| `KeyCommandHandlerClass.KeyCommandHandler.InterruptTimers` | input/service/key_command/src/key_command_handler.cpp:1067-1076 | the loop refines its function |
| `KeyCommandHandlerClass.KeyCommandHandler.AddSequenceKey` | input/service/key_command/src/key_command_handler.cpp:809-842 | history, filter, timers and verdict are those of the matcher model on every branch |
| `KeyCommandHandlerClass.KeyCommandHandler.HandleSequence` | input/service/key_command/src/key_command_handler.cpp:844-885 | the loop stays with a candidate exactly if the history agrees with its first steps in strokes and delays, and arms a launch on completion |
| `KeyCommandHandlerClass.KeyCommandHandler.HandleSequences` | input/service/key_command/src/key_command_handler.cpp:765-807 | the whole handling of an event refines the model, the effects of a launch included |
| `KeyCommandHandlerClass.KeyCommandHandler.ConsumeKeys` | input/service/key_command/src/key_command_handler.cpp:791-799 | the loop over the history on special keys, subscribers and delay timers refines the model |
| `KeyCommandHandlerClass.KeyCommandHandler.HandleShortKeys` | input/service/key_command/src/key_command_handler.cpp:714-748 | the search and the press-and-hold timer refine the model |
| `KeyCommandHandlerClass.KeyCommandHandler.RemoveSubscribedTimer` | input/service/key_command/src/key_command_handler.cpp:1032-1043 | every listed timer of the key is removed and its list dropped |
| `KeyCommandHandlerClass.KeyCommandHandler.HandleSpecialKeys` | input/service/key_command/src/key_command_handler.cpp:1045-1065 | a release erases the key, a press enters it, anything else changes nothing |
| `KeyCommandHandlerClass.KeyCommandHandler.OnHandleEvent` | input/service/key_command/src/key_command_handler.cpp:657-712 | the order of the stages and the verdict are those of the model |
| `KeyCommandHandlerClass.KeyCommandHandler.HandleKeyEvent` | input/service/key_command/src/key_command_handler.cpp:552-564 | an event not handled goes on to the subscribers; all holders' accounts are kept |
| `Subscribers.OnKeyOk` | input/service/subscriber/src/key_subscriber_handler.cpp:110-137 | an event keeps: a subscriber with an id owns exactly one live timer holding the event that armed it, without one none; ids are shared by no two; holds are on |
| `Subscribers.FiringNotifies` | input/service/subscriber/src/key_subscriber_handler.cpp:273-286 | a firing timer notifies its current subscriber of the very event that armed it, leaves it without a timer, and for a press-and-hold option only while the hold is on |
| `Subscribers.ReleaseEndsHoldsIff` | input/service/subscriber/src/key_subscriber_handler.cpp:354-408 | a release leaves no hold armed, whoever subscribed, if and only if its event carries its own key item or is a power key release with a volume key down |
| `Subscribers.AwkwardIsReached` | input/service/subscriber/src/key_subscriber_handler.cpp:354-408 | two subscriptions and a key press lead from an empty handler to the state in which such a release leaves a hold |
| `Subscribers.DownHandledIffNotified` | input/service/subscriber/src/key_subscriber_handler.cpp:304-352 | a key going down is withheld from the next handler exactly if it repeats the one in progress or a subscriber is notified of it at once |
| `SubscriberOutcomes.OnKeyTells` | input/service/subscriber/src/key_subscriber_handler.cpp:110-137 | an event that does not repeat the one in progress tells exactly the subscribers to be told at once, for a press as for a release, each once and in list order, up to where the loop is left |
| `SubscriberOutcomes.OnKeySettles` | input/service/subscriber/src/key_subscriber_handler.cpp:304-418 | the same event makes every subscriber the loop comes to drop what it waits for, wait for its press duration or its release delay (within 50 and 4096 ms) with one timer holding the event, or stay, as its option demands; with ids enough and no overflow it always gets the timer; the others stay as they are |
| `SubscriberOutcomes.UpHandledIff` | input/service/subscriber/src/key_subscriber_handler.cpp:354-408 | a release is withheld from the next handler exactly if it repeats the one in progress, or the loop is not left early and some subscriber is to be told of it, at once or later |
| `SubscriberOutcomes.FitsMeans` | input/service/subscriber/src/key_subscriber_handler.cpp:167-186 | for distinct key items an option suits an event exactly if its final key is the event's and its pre-keys, if it has any, are the other keys pressed as a set |
| `SubscriberOutcomes.ReleasedMeans` | input/service/subscriber/src/key_subscriber_handler.cpp:354-408 | for a release the same, and a power key must not come up with a volume key down |
| `SubscriberOutcomes.RepeatedMeans` | input/service/subscriber/src/key_subscriber_handler.cpp:441-474 | for distinct key items an event is skipped exactly while one is in progress and it equals the last one in key code, action and set of keys |
| `SubscriberOutcomes.OnKeyInProgress` | input/service/subscriber/src/key_subscriber_handler.cpp:110-137 | when an event counts as in progress afterwards: a timer was armed by it, or one was in progress before and this is no release or cancel, and no subscriber visited later lost its timer |
| `SubscriberOutcomes.SubscribeMeans` | input/service/subscriber/src/key_subscriber_handler.cpp:67-94 | subscribing succeeds exactly for an id of at least 0 and at most four pre-keys, adds at most one subscriber, at the end and without a timer, and none if the session has one of that id |
| `SubscriberOutcomes.UnsubscribeMeans` | input/service/subscriber/src/key_subscriber_handler.cpp:96-108 | unsubscribing takes away the first subscriber of that session and id and no other |
| `Subscribers.SubscribeOk` | input/service/subscriber/src/key_subscriber_handler.cpp:67-94 | subscribing, duplicates and refusals included, keeps these properties |
| `Subscribers.UnsubscribeOk` | input/service/subscriber/src/key_subscriber_handler.cpp:96-108 | unsubscribing clears the timer and keeps these properties |
| `Subscribers.SessionDeleteOk` | input/service/subscriber/src/key_subscriber_handler.cpp:153-165 | dropping a session's subscribers while walking the list keeps these properties |
| `Subscribers.SessionDeleteDrops` | input/service/subscriber/src/key_subscriber_handler.cpp:153-165 | a deleted session takes exactly its own subscribers with it, the others stay in order |
| `KeySubscriberHandlerClass.KeySubscriberHandler.AddTimer` | input/service/subscriber/src/key_subscriber_handler.cpp:210-253 | refines the arming of the model: nothing when armed or without duration, -1 when no timer is free |
| `KeySubscriberHandlerClass.KeySubscriberHandler.ClearTimer` | input/service/subscriber/src/key_subscriber_handler.cpp:255-271 | the timer is removed and the kept event and flag cleared, or nothing without a timer |
| `KeySubscriberHandlerClass.KeySubscriberHandler.VisitSubscriber` | input/service/subscriber/src/key_subscriber_handler.cpp:304-418 | one turn of the three loops refines the model; the loop is left exactly for want of the event's own key item, and the event counts as handled exactly if the subscriber answers it |
| `KeySubscriberHandlerClass.KeySubscriberHandler.OnSubscribeKeyEvent` | input/service/subscriber/src/key_subscriber_handler.cpp:110-137 | repeated events are skipped, others visit the subscribers in order, as in the model; handled exactly if repeated, or no visit leaves the loop and some subscriber answers |
| `KeySubscriberHandlerClass.KeySubscriberHandler.SubscribeKeyEvent` | input/service/subscriber/src/key_subscriber_handler.cpp:67-94 | refines the model; refused exactly for a negative id or more than four pre-keys |
| `KeySubscriberHandlerClass.KeySubscriberHandler.UnsubscribeKeyEvent` | input/service/subscriber/src/key_subscriber_handler.cpp:96-108 | drops the first subscriber with that id and session, and succeeds exactly if there is one |
| `KeySubscriberHandlerClass.KeySubscriberHandler.DeleteSession` | input/service/subscriber/src/key_subscriber_handler.cpp:153-165 | the erase-while-walking loop refines the model |
| `KeySubscriberHandlerClass.KeySubscriberHandler.RemoveSubscriberKeyUpTimer` | input/service/subscriber/src/key_subscriber_handler.cpp:476-483 | the loop clears every armed subscriber to the key |
| `Cooperation.RunInvariant` | input/service/input_device_cooperate/src/input_device_cooperate_sm.cpp:87-434 | in every run of a device the state object has the kind of cooperateState_, IN and OUT never follow each other directly, and no more start completions take effect than events raised isStarting_ |
| `Cooperation.DuplicateFinishIsHarmless` | input/service/input_device_cooperate/src/i_input_device_cooperate_state.cpp:53-96 | a second finish call after the first changes nothing and sends nothing |
| `Cooperation.StepPaysForCompletion` | input/service/input_device_cooperate/src/input_device_cooperate_sm.cpp:231-332 | each completion that takes effect uses up a raised flag |
| `Cooperation.OtherResultRedirects` | input/service/input_device_cooperate/src/input_device_cooperate_sm.cpp:293-298 | an OUT device told of a new peer sends its stop there |
| `TwoDevices.NeverBothInNorOut` | input/service/input_device_cooperate/src/input_device_cooperate_sm.cpp:177-356 | under the conditions of the next row, in every run, whatever completions, failures and resets, two devices with no successful start result under way are never both OUT nor both IN |
| `UnguardedRuns.SafeIffGuarded` | input/service/input_device_cooperate/src/input_device_cooperate_sm.cpp:177-356 | every run keeps that promise if and only if FREE starts, IN starts and IN stops hold back while a successful start result is undelivered, no session loss or close clears the pair of prepared devices between its being set and read (for a FREE start and for a relay), and an IN stop is for a start device of the peer; OUT stops and early failures need no care |
| `UnguardedRuns.BothInByFreeStarts` | input/service/input_device_cooperate/src/input_device_cooperate_sm.cpp:231-332 | a run that ends quiet with both devices IN once FREE starts may begin over a waiting success |
| `UnguardedRuns.BothInByComingBack` | input/service/input_device_cooperate/src/input_device_cooperate_state_in.cpp:34-169 | a run that ends quiet with both devices IN once IN starts may begin over a waiting success |
| `UnguardedRuns.BothOutByStopping` | input/service/input_device_cooperate/src/input_device_cooperate_state_in.cpp:72-147 | a run that ends quiet with both devices OUT once IN stops may begin over a waiting success: the stop's callback is taken for that of a start |
| `UnguardedRuns.BothOutByClosing` | input/service/input_device_cooperate/src/input_device_cooperate_sm.cpp:114-143 | a run that ends quiet with both devices OUT once a close may come during a FREE start: it clears the prepared devices but not the starting flag |
| `UnguardedRuns.BothOutByRelay` | input/service/input_device_cooperate/src/input_device_cooperate_sm.cpp:65-85 | the same for a session loss during a relay, after which a late start request raises the starting flag again |
| `UnguardedRuns.BothOutByThirdDevice` | input/service/input_device_cooperate/src/input_device_cooperate_state_in.cpp:87-98 | the same for an IN stop whose start device belongs to a third device |
| `CooperationRoundTrips.StartEstablishes` | input/service/input_device_cooperate/src/input_device_cooperate_state_free.cpp:28-58 | an undisturbed start between devices at rest makes its device OUT and the peer IN, sharing the start device, and remembers the peer |
| `CooperationRoundTrips.StopByOut` | input/service/input_device_cooperate/src/input_device_cooperate_state_out.cpp:35-80 | a stop by the OUT device reaches the peer and frees both |
| `CooperationRoundTrips.StopByIn` | input/service/input_device_cooperate/src/input_device_cooperate_state_in.cpp:72-98 | a stop by the IN device, sent to the owner of the start device, frees both |
| `CooperationRoundTrips.StopByPointer` | input/service/input_device_cooperate/src/input_device_cooperate_sm.cpp:521-563 | a local pointer moving on the IN device frees both |
| `CooperationRoundTrips.StopByOtherPointer` | input/service/input_device_cooperate/src/input_device_cooperate_sm.cpp:521-563 | another pointer than the shared one moving on the OUT device frees both |
| `CooperationRoundTrips.SharedPointerIsLeft` | input/service/input_device_cooperate/src/input_device_cooperate_sm.cpp:521-563 | the shared pointer moving on the OUT device, and a remote one on the IN device, leave both devices as they are and send nothing |
| `CooperationRoundTrips.PointerInTransition` | input/service/input_device_cooperate/src/input_device_cooperate_sm.cpp:521-527 | while a device is starting or stopping, or FREE, no pointer changes it or sends anything |
| `CooperationRoundTrips.StartByIn` | input/service/input_device_cooperate/src/input_device_cooperate_state_in.cpp:34-169 | a start on the IN device, a come-back or a relay, frees both |
| `CooperationRoundTrips.RoundTrip` | input/service/input_device_cooperate/src/input_device_cooperate_sm.cpp:177-356 | a cooperation started on either device and ended by any of these ways leaves both devices as they were, but for the prepared devices they remember |
| `CooperationRoundTrips.FailureMustReachThePeer` | input/service/input_device_cooperate/src/i_input_device_cooperate_state.cpp:48-58 | after a start that fails early the peer's starting flag goes down exactly if the failure was reported to the peer; otherwise the peer refuses every start |
| `TwoDevices.BeginStartKeeps` | input/service/input_device_cooperate/src/input_device_cooperate_state_free.cpp:28-58 | beginning a start keeps the two-device invariant |
| `TwoDevices.BeginStopKeeps` | input/service/input_device_cooperate/src/input_device_cooperate_state_out.cpp:35-80 | beginning a stop keeps the two-device invariant, on an OUT device whatever is undelivered |
| `TwoDevices.FailKeeps` | input/service/input_device_cooperate/src/i_input_device_cooperate_state.cpp:37-97 | a finish reported early, once or more often and to anyone, keeps the two-device invariant |
| `TwoDevices.PrepareKeeps` | input/service/input_device_cooperate/src/i_input_device_cooperate_state.cpp:37-61 | remembering the pair of prepared devices keeps the two-device invariant |
| `TwoDevices.CallKeeps` | input/service/input_device_cooperate/src/i_input_device_cooperate_state.cpp:79-97 | calling distributed input, with the receiver read from the pair, keeps the two-device invariant |
| `TwoDevices.CallbackKeeps` | input/service/input_device_cooperate/src/input_device_cooperate_state_in.cpp:100-147 | a callback, routed by the flags that it finds, or of a relay that goes on or fails whatever they are, keeps the two-device invariant |
| `TwoDevices.StepTells` | input/service/input_device_cooperate/src/i_input_device_cooperate_state.cpp:79-108 | under the conditions of SafeIffGuarded, whatever may end as a start will be reported to the peer |
| `TwoDevices.PostedKeeps` | input/service/input_device_cooperate/src/input_device_cooperate_sm.cpp:300-356 | a posted finish, reported to the device the operation remembered, keeps the two-device invariant |
| `TwoDevices.DeliverKeeps` | input/service/input_device_cooperate/src/input_device_cooperate_sm.cpp:231-298 | delivering any message keeps the two-device invariant |
| `TwoDevices.DisturbKeeps` | input/service/input_device_cooperate/src/input_device_cooperate_sm.cpp:65-143 | a reset, close or pointer loss at any time keeps the two-device invariant |
| `CooperateSMClass.InputDeviceCooperateSM.StartInputDeviceCooperate` | input/service/input_device_cooperate/src/input_device_cooperate_sm.cpp:177-202 | a start goes ahead exactly if none is under way, the device is not OUT, both devices are named and differ, and the soft bus sends; it raises the flag, sends one request and in FREE remembers the peer; a refused one changes nothing and sends nothing |
| `CooperateSMClass.InputDeviceCooperateSM.StopInputDeviceCooperate` | input/service/input_device_cooperate/src/input_device_cooperate_sm.cpp:204-229 | a stop goes ahead exactly if none is under way, the device is not FREE and the soft bus sends; it raises the flag and sends one message, from IN to the owner of the start device and from OUT to the remembered peer; a refused one changes nothing and sends nothing |
| `CooperateSMClass.InputDeviceCooperateSM.StartRemoteCooperateResult` | input/service/input_device_cooperate/src/input_device_cooperate_sm.cpp:241-269 | the flag is down afterwards; an awaited success takes FREE to IN and OUT to FREE, and nothing else changes the state |
| `CooperateSMClass.InputDeviceCooperateSM.StopRemoteCooperateResult` | input/service/input_device_cooperate/src/input_device_cooperate_sm.cpp:278-291 | the flag is down afterwards; an awaited success ends in FREE, and nothing else changes the state |
| `CooperateSMClass.InputDeviceCooperateSM.OnStartFinish` | input/service/input_device_cooperate/src/input_device_cooperate_sm.cpp:300-332 | the flag is down afterwards; if it was up the peer is sent the result, and after a success in IN a sink other than the peer is told of the peer; such a success takes FREE to OUT and IN to FREE, and nothing else changes the state |
| `CooperateSMClass.InputDeviceCooperateSM.OnStopFinish` | input/service/input_device_cooperate/src/input_device_cooperate_sm.cpp:334-356 | the flag is down afterwards, a letter goes out exactly if it was up, and a success then ends in FREE |
| `CooperateSMClass.InputDeviceCooperateSM.CheckPointerEvent` | input/service/input_device_cooperate/src/input_device_cooperate_sm.cpp:521-563 | a local pointer on an IN device, or another than the shared one on an OUT device, stops the cooperation exactly if neither flag is up and the soft bus sends, and nothing else changes the device; the event goes on exactly with both flags down, a remote one on an IN device and a local one on a FREE device |
| `CooperateSMClass.InputDeviceCooperateSM.StartCooperateOtherResult` | input/service/input_device_cooperate/src/input_device_cooperate_sm.cpp:293-298 | the new peer is remembered and nothing else changes |
| `CooperateSMClass.InputDeviceCooperateSM.ChangeState` | input/service/input_device_cooperate/src/input_device_cooperate_sm.cpp:413-434 | state and state object change together; FREE means flags down and nothing remembered but the prepared devices |
| `CooperateSMClass.InputDeviceCooperateSM.UpdatePreparedDevices` | input/service/input_device_cooperate/src/input_device_cooperate_sm.cpp:443-448 | remembers the pair of prepared devices and nothing else |
| `CooperateSMClass.InputDeviceCooperateSM.OnSessionLost` | input/service/input_device_cooperate/src/input_device_cooperate_sm.cpp:65-85 | the device is reset, and its prepared devices forgotten, exactly if it is FREE or the lost device is the one it cooperates with; otherwise nothing changes |
| `CooperateSMClass.InputDeviceCooperateSM.OnCloseCooperation` | input/service/input_device_cooperate/src/input_device_cooperate_sm.cpp:114-143 | the prepared devices are forgotten; the device is reset exactly if it is not FREE and the close is local or by the device it cooperates with; otherwise the starting flag stays |
| `CooperateSMClass.InputDeviceCooperateSM.OnPointerOffline` | input/service/input_device_cooperate/src/input_device_cooperate_sm.cpp:476-497 | the device is reset, keeping its prepared devices, exactly if it is FREE or its start device went |
| `DelegateTasks.NoLostWakeup` | input/service/delegate_task/src/delegate_tasks.cpp:117-160 | under every interleaving, whenever the worker waits the unread records are at least the queued tasks, the queue has at most 1001 tasks, and taken-up, popped and queued tasks are all posted ones in order |
| `DelegateTasks.RunsInOrderOnce` | input/service/delegate_task/src/delegate_tasks.cpp:29-72 | each task runs at most once, in the order of posting |
| `DelegateTasks.TakenUpInTime` | input/service/module_loader/src/mmi_service.cpp:905-919 | a task with p tasks before it is popped after p / 10 + 1 rounds, however posts interleave |
| `DelegateTasks.TakenUpWithin101Rounds` | input/service/delegate_task/src/delegate_tasks.cpp:117-160 | every accepted task is popped within 101 rounds |
| `DelegateTasks.ExpiredNeverRuns` | input/service/delegate_task/src/delegate_tasks.cpp:30-43 | a task whose poster stopped waiting before the worker came to it never runs |
| `DelegateTasks.RunsExactlyWhen` | input/service/delegate_task/src/delegate_tasks.cpp:29-43 | in every run a task runs exactly if it was taken up and its poster had not stopped waiting by then |
| `DelegateTasks.WaitedForRuns` | input/service/delegate_task/src/delegate_tasks.cpp:29-72 | every accepted task whose poster is still waiting has run after 101 rounds, once the batch that popped it is done |
| `DelegateTasks.BatchRuns` | input/service/delegate_task/src/delegate_tasks.cpp:64-72 | undisturbed, the worker takes up its whole batch and runs those of it still waited for, in order |
| `DelegateTasks.TaskQueue.PostTask` | input/service/delegate_task/src/delegate_tasks.cpp:133-160 | task and record are added together or not at all; refused on the worker, over 1000 queued, or on a failed write |
| `DelegateTasks.TaskQueue.PopPendingTaskList` | input/service/delegate_task/src/delegate_tasks.cpp:117-131 | pops the first ten tasks or all of them, in order |
| `DelegateTasks.TaskQueue.ProcessTasks` | input/service/delegate_task/src/delegate_tasks.cpp:64-72 | pops the first ten tasks or all of them and runs those still waited for, in order; queue, taken-up and run tasks become those of a pop and its batch in the run model |
| `DelegateTasks.TaskQueue.OnDelegateTask` | input/service/module_loader/src/mmi_service.cpp:905-919 | one read and one pop refine the steps of the run model and keep the records at least as many as the tasks |
| `TouchMonitors.CancelledOncePerGesture` | input/service/monitor/src/event_monitor_handler.cpp:263-302 | in every run, after a CANCEL for a device and until its next single-finger DOWN, no second CANCEL is sent for it and no unflagged touch event of it is forwarded |
| `TouchMonitors.MarkMeansOneDevice` | input/service/monitor/src/event_monitor_handler.cpp:263-302 | with fresh event ids a claim changes at most one device, the one that saw the event, in whatever order the device map is walked |
| `TouchMonitors.ClaimStaysOverRun` | input/service/monitor/src/event_monitor_handler.cpp:342-383 | only a single-finger DOWN of the device undoes a claim |
| `TouchClaims.CancelledExactlyWhen` | input/service/monitor/src/event_monitor_handler.cpp:263-302 | in every run a CANCEL is sent exactly when a registered monitor claims an event id that a device's gesture under way is known by and that gesture is not claimed yet, the device being the first walked that knows the id; it is the device's last touch event with a new id and the flag set |
| `TouchClaims.WithheldExactlyWhen` | input/service/monitor/src/event_monitor_handler.cpp:319-333 | in every run a pointer event is withheld from the windows exactly if it is an unflagged touch event of a claimed gesture, and otherwise forwarded as it is |
| `TouchClaims.MonitorsExactly` | input/service/monitor/src/event_monitor_handler.cpp:205-261 | a session is registered exactly if it asked when fewer than 16 were and has not left since |
| `TouchClaims.IdsExactly` | input/service/monitor/src/event_monitor_handler.cpp:342-383 | a device is known by an id exactly if one of its touch events had it and since then no single-finger UP ended and no single-finger DOWN replaced the gesture |
| `TouchClaims.ClaimedExactly` | input/service/monitor/src/event_monitor_handler.cpp:263-383 | a gesture is claimed exactly if a monitor claimed it and no new one has begun since |
| `TouchMonitors.MonitorCollection.UpdateConsumptionState` | input/service/monitor/src/event_monitor_handler.cpp:342-383 | refines the update of the device's state |
| `TouchMonitors.MonitorCollection.HandleEvent` | input/service/monitor/src/event_monitor_handler.cpp:319-333 | the event stops here exactly if the run model withholds it |
| `TouchMonitors.MonitorCollection.MarkConsumed` | input/service/monitor/src/event_monitor_handler.cpp:263-302 | the search and the CANCEL refine the run model |
| `Sessions.ReferencesArePresent` | input/service/module_loader/src/uds_server.cpp:309-376 | in every run with fresh descriptors an indexed pid leads to a present session of that pid, and every interceptor, monitor and subscriber refers to a session in the table |
| `Sessions.FoundByPidExactlyWhen` | input/service/module_loader/src/uds_server.cpp:309-362 | a process is found by pid exactly if some Connect of it in the run, on a descriptor above 0, is followed by no other Connect of it and by no Disconnect of a descriptor it has open |
| `Sessions.SessionFoundExactlyWhen` | input/service/module_loader/src/uds_server.cpp:309-362 | of the sessions present the one found for its process is the one on the descriptor the process opened last, if above 0 and if the process has closed none since |
| `Sessions.IndexExactlyWhen` | input/service/module_loader/src/uds_server.cpp:319-362 | the index leads from a pid to a descriptor exactly if the pid opened it last and has closed none since, both told from the events of the run |
| `Sessions.PresentExactlyWhen` | input/service/module_loader/src/uds_server.cpp:298-362 | the table holds a session of a pid under a descriptor exactly if a Connect of the run opened it and no Disconnect has closed it since |
| `Sessions.SecondSessionIsLost` | input/service/module_loader/src/uds_server.cpp:344-362 | a run after which a present session is not found by its pid |
| `Sessions.DisconnectKeepsInv` | input/service/module_loader/src/uds_server.cpp:344-376 | a disconnection and its callbacks leave no reference to the session |
| `Sessions.InterceptorsKeepInv` | input/service/interceptor/src/event_interceptor_handler.cpp:235-303 | adding, replacing and removing interceptors keeps the references present |
| `Sessions.MonitorsKeepInv` | input/service/monitor/src/event_monitor_handler.cpp:205-261 | adding, replacing and removing monitors keeps the references present |
| `Sessions.SubscribeKeepsInv` | input/service/subscriber/src/key_subscriber_handler.cpp:139-165 | subscribing keeps the references present |
| `HandlerTables.EntryExactlyWhen` | input/service/interceptor/src/event_interceptor_handler.cpp:235-303 | in every run a session intercepts, or monitors, certain events exactly if a request of its process gave it that entry, an addition with fewer than 16 entries or a removal that leaves these events, and since then it neither disconnected nor had its entry taken or changed |
| `HandlerTables.SubscribedExactlyWhen` | input/service/subscriber/src/key_subscriber_handler.cpp:67-165 | in every run a subscription is listed exactly if its session asked for it and has neither taken it back nor disconnected since, and none is listed twice |
| `Sessions.UDSServer.Connect` | input/service/module_loader/src/uds_server.cpp:319-342 | refines AddSession; the new session is found by descriptor and, above 0, by pid |
| `Sessions.UDSServer.Disconnect` | input/service/module_loader/src/uds_server.cpp:344-376 | refines DelSession with its callbacks and keeps the references present |
| `Sessions.UDSServer.OnInterceptorSessionLost` | input/service/interceptor/src/event_interceptor_handler.cpp:292-303 | the erase-while-walking loop drops exactly the session's entry |
| `PointerCurves.DisplacementIncreases` | input/service/mouse_event_normalize/src/mouse_event_normalize.cpp:38-50 | for every setting the displacement is strictly increasing in the input speed and grows no faster than the steepest slope, hence is continuous |
| `PointerCurves.GainNonDecreasing` | input/service/mouse_event_normalize/src/mouse_event_normalize.cpp:75-95 | for every setting the gain is positive and does not decrease with the input speed |
| `PointerCurves.GainGrowsWithSetting` | input/service/mouse_event_normalize/src/mouse_event_normalize.cpp:38-95 | a higher setting gives a larger gain at every input speed |
| `PointerCurves.DisplacementByNumber` | input/service/mouse_event_normalize/src/mouse_event_normalize.cpp:38-50 | the displacement of every setting in numbers: the slopes up to 8, up to 32 and beyond grow by 0.16, 0.30 and 0.56 a setting up to the fifth and by 0.06, 0.45 and 0.84 from there on |
| `PointerCurves.GetSpeedGain` | input/service/mouse_event_normalize/src/mouse_event_normalize.cpp:75-95 | a gain is found exactly for a speed of at least 1e-6 and a setting of at least 1, and gain times speed is the displacement on the setting's curve |
| `PointerCurves.Mouse.HandleMotionAccelerate` | input/service/mouse_event_normalize/src/mouse_event_normalize.cpp:97-122 | both coordinates move by the same gain and stay on the screen |
| `PointerCurves.Mouse.SetPointerSpeed` | input/service/mouse_event_normalize/src/mouse_event_normalize.cpp:481-493 | any requested speed is clamped so that the curve index stays in range |

## Left out

- The 64-bit slot mask is the set of its one bits; shifts are not modelled as bit-vectors.
- The 32-bit callback counter of a timer that repeats for ever does not wrap around.
- KeyCommandHandlerClass.KeyCommandHandler.HandleSequence: takes no sequence with a zero start delay, because such a launch clears the list being walked and leaves the loop undefined.
- `HandleKeyCancel` of the key commands: no configured shortcut has that trigger, so it is never called.
- Launching an ability: only that it is asked for, and its effect on the handler's fields, are kept.
- JSON parsing of the configuration, apart from the sequence check and the filing of shortcuts.
- IPC proxies and stubs, permissions, sockets, epoll, libinput and soft-bus calls: only the message, event or clock value they deliver.
- Window management, pointer drawing, ANR tracking and the watchdogs of distributed input.
- Cooperation among three devices, overlapping starts on both devices, message loss, and late completions of an earlier start.
- The promise inside `PostSyncTask`: a poster that stops waiting is a step of its own.
- Server stop, which clears the session table without calling the deletion callbacks.
- Key code and character tables, logging, dumps and statistics.
- Floating-point rounding in the mouse code.
- Memory-level races and lock order; locked sections are atomic steps.
