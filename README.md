# TaskFlow / auto-gen-bolt, modelled in Dafny

The application is a single-page React app with two halves.

The first half is a task manager behind a mock sign-in:
- an authentication context keeps the signed-in user in local storage under `taskflow_user`;
- a router shows a spinner, the task application, or one of the landing, sign-in and sign-up pages;
- the task store keeps its list in local storage under `autodev-tasks`;
- a dashboard and an analytics view summarise the list;
- a dialog creates tasks;
- a simulated "agent squad" posts a scripted conversation on timers.

The second half is a blog-to-podcast landing section:
- a blog editor counts words;
- a generator runs a progress bar and then offers a player;
- a testimonial carousel, an FAQ accordion with read-aloud answers, and a voice gallery round it off.

Each core source file is one Dafny module:

| module | models |
|---|---|
| `Types`, `Agents` | the shared records and the six-agent roster |
| `TaskManager`, `TaskStats` | the task store (class `TaskStore`), its JSON snapshot and the per-status counts |
| `Dashboard`, `AnalyticsView`, `JsNumber` | the two summary views and the `Math.round` / `toFixed(0)` roundings they use |
| `TaskForm` | the create-task dialog (class `Dialog`) |
| `AgentSimulation`, `AgentPanel` | the simulation hook, with its timers as an explicit queue, and the panel that renders it |
| `AuthContext`, `AppRouter`, `LoginPage`, `SignupPage`, `EmailInput` | sign-in, sign-up, the stored user and page routing, and what the browser's e-mail input does in front of the two forms |
| `BlogInput`, `GenerateSection`, `Testimonials`, `Faq`, `VoiceSelector`, `OneAtATime` | the podcast landing components |
| `Decimal`, `JsText`, `JsonValue`, `Wrappers` | helpers: decimal `toString` and its parse, JavaScript white space / `trim` / `split`, JSON values and stored text, `Option` |

Components whose fields change step by step are classes with `modifies` clauses:
- `TaskStore`, `Dialog`, `Simulation`, `AuthProvider`, `Router`;
- the two `Page`s;
- `Editor`, `Generator`, `Carousel`, `Accordion`, `Gallery`.

Each method's `ensures` ties the new state to a pure function of the old one. The properties are proved about those functions.

The environment enters only as parameters:
- the clock (`now`, milliseconds);
- `Math.random()` draws;
- whether storage accepts a write;
- whether an awaited request rejects;
- the current time the audio element reports.

## Model

| member | source | states |
|---|---|---|
| `Types.ParseStatus` | src/types/index.ts:5 | a parsed status literal is one of the three names |
| `Types.StatusNameRoundTrip` | src/types/index.ts:5 | every status is read back from its own literal |
| `Types.ParsePriority` | src/types/index.ts:6 | a parsed priority literal is one of the three names |
| `Types.PriorityNameRoundTrip` | src/types/index.ts:6 | every priority is read back from its own literal |
| `Agents.RosterShape` | src/data/agents.ts:3-52 | six agents with pairwise distinct ids, in roster order, all `working`; an id is on the roster iff it is one of the six |
| `Decimal.NatToString` | src/hooks/useTaskManager.ts:59 | `toString()` of a non-negative clock reading: a non-empty run of digits with no leading zero unless it is "0" |
| `Decimal.ParseNat` | src/hooks/useTaskManager.ts:12-13 | a value is read back exactly from a non-empty run of digits |
| `Decimal.IntToString` | src/hooks/useAgentSimulation.ts:61 | `toString()` of any integer: a minus sign exactly for a negative value, followed by digits with no leading zero |
| `Decimal.ParseInt` | src/hooks/useTaskManager.ts:12-13 | a value is read back exactly from digits, or from a minus sign and the digits of a non-zero value; the result is negative iff the text starts with the minus sign |
| `Decimal.ParseNatToString` | src/hooks/useTaskManager.ts:59 | the decimal text of a natural number parses back to it |
| `Decimal.NatToStringInjective` | src/hooks/useTaskManager.ts:59 | two naturals have the same decimal text iff they are equal |
| `Decimal.ParseIntToString` | src/hooks/useTaskManager.ts:59 | `Date.now().toString()` read back gives the same millisecond count, negative ones included |
| `Decimal.IntToStringInjective` | src/hooks/useTaskManager.ts:59 | two integers have the same decimal text iff they are equal |
| `JsText.TrimStart` | src/components/TaskForm.tsx:22 | the result is a suffix of the input; what was cut is all white space; it does not start with white space |
| `JsText.TrimEnd` | src/components/TaskForm.tsx:22 | the result is a prefix of the input; what was cut is all white space; it does not end with white space |
| `JsText.Trim` | src/components/TaskForm.tsx:22 | `trim()` is the slice of the input that starts after its leading white space; everything cut on either side is white space, and the result neither starts nor ends with white space |
| `JsText.TrimEmptyIff` | src/pages/SignupPage.tsx:33 | `s.trim()` is empty (falsy) iff `s` is all white space |
| `JsText.BeforeFirst` | src/context/AuthContext.tsx:50 | `split('@')[0]`: the longest prefix without the separator, followed in the input by the separator when shorter |
| `JsText.Units` | src/pages/SignupPage.tsx:43 | a character takes one UTF-16 code unit below U+10000 and two above |
| `JsText.Utf16Length` | src/pages/SignupPage.tsx:43 | `.length` counts code units: at least the number of characters and at most twice it |
| `JsText.Utf16LengthIsSize` | src/pages/SignupPage.tsx:43 | `.length` equals the number of characters iff none is above U+FFFF |
| `JsText.Utf16LengthSnoc` | src/components/BlogInput.tsx:142 | one more character adds exactly its own code units |
| `JsText.Utf16Prefix` | src/components/BlogInput.tsx:142 | `substring(0, n)` on whole characters: the longest prefix within n code units; all of the input when it fits |
| `TaskManager.NewPosition` | src/hooks/useTaskManager.ts:61 | three draws in [0,1) place a new task inside the box [-2,2)×[1,3)×[-1,1) |
| `TaskManager.NewTaskFields` | src/hooks/useTaskManager.ts:56-62 | `addTask` copies the caller's fields verbatim and takes id and createdAt from the clock |
| `TaskManager.NewTaskIdsCollideIff` | src/hooks/useTaskManager.ts:59 | two new tasks share an id iff they were created in the same millisecond |
| `TaskManager.PatchCompletedAtIgnored` | src/hooks/useTaskManager.ts:70 | a completedAt carried by a patch never reaches the task |
| `TaskManager.StatusPatchEffect` | src/hooks/useTaskManager.ts:70 | a `{ status }` patch changes the status; completedAt becomes now when the status is completed and is kept otherwise; nothing else changes |
| `TaskManager.CompletedAtNeverCleared` | src/hooks/useTaskManager.ts:70 | once set, completedAt stays set through any patch, even one that reopens the task |
| `TaskManager.UpdateTasks` | src/hooks/useTaskManager.ts:67-73 | same length; every task with the id is patched, and every other task is unchanged |
| `TaskManager.UpdateUnknownIdIsNoop` | src/hooks/useTaskManager.ts:67-73 | updating an id no task carries leaves the list identical |
| `TaskManager.CountId` | src/hooks/useTaskManager.ts:76 | the number of tasks carrying an id is zero iff none does |
| `TaskManager.RemoveTasks` | src/hooks/useTaskManager.ts:75-77 | the survivors are exactly the tasks with another id, and the length drops by the number of tasks carrying the id |
| `TaskManager.RemoveConcat` | src/hooks/useTaskManager.ts:76 | filtering distributes over concatenation, so survivors keep their order |
| `TaskManager.RemoveUnknownIdIsNoop` | src/hooks/useTaskManager.ts:75-77 | deleting an id no task carries leaves the list identical |
| `TaskManager.SeedShape` | src/hooks/useTaskManager.ts:18-47 | the first-run list: three tasks with ids 1, 2 and 3, completed / in-progress / todo, and a completedAt exactly on the completed one |
| `TaskManager.TaskFromJson` | src/hooks/useTaskManager.ts:10-14 | a decoded task has each field read from the matching JSON field: the strings and literals as stored, the position as stored, createdAt rebuilt from its text, and completedAt present iff the stored value is truthy and then rebuilt from its text |
| `TaskManager.TaskToJsonFields` | src/hooks/useTaskManager.ts:53 | where each task field lands in the stored object; an absent completedAt is left out |
| `TaskManager.TimeJsonRoundTrip` | src/hooks/useTaskManager.ts:12-13 | a timestamp stored as its ISO text is read back as the same instant, and that text is never empty |
| `TaskManager.DecodesTo` | src/hooks/useTaskManager.ts:10-14 | the converse of the decoder's contract: a JSON object whose fields hold a task's values decodes to exactly that task |
| `TaskManager.TaskJsonRoundTrip` | src/hooks/useTaskManager.ts:10-14 | decoding the stored form of a task gives back the same task |
| `TaskManager.TasksToItems` | src/hooks/useTaskManager.ts:53 | one JSON item per task |
| `TaskManager.ItemsToTasks` | src/hooks/useTaskManager.ts:10 | a decoded array has one task per item |
| `TaskManager.ItemsToTasksCons` | src/hooks/useTaskManager.ts:10 | decoding an array whose head and tail decode is their concatenation |
| `TaskManager.ItemsRoundTrip` | src/hooks/useTaskManager.ts:10-15 | decoding the stored items of a list, item by item, gives back the same list |
| `TaskManager.TasksJsonRoundTrip` | src/hooks/useTaskManager.ts:10-15 | decoding the stored form of a list gives back the same list |
| `TaskManager.ReloadRestoresTasks` | src/hooks/useTaskManager.ts:7-15 | a snapshot written by the store is read back as the same list on the next mount |
| `TaskManager.FirstRunSeeds` | src/hooks/useTaskManager.ts:16-49 | with nothing stored the store starts from the three seed tasks |
| `TaskManager.ShapeCheckedOnMount` | src/hooks/useTaskManager.ts:10-14 | a stored array holding an object without a title, or with status "done", is refused on mount, though the source loads it |
| `TaskManager.TaskStore.constructor` | src/hooks/useTaskManager.ts:5 | the store starts empty over the given storage |
| `TaskManager.TaskStore.Persist` | src/hooks/useTaskManager.ts:52-54 | the snapshot under `autodev-tasks` becomes the serialisation of the current list |
| `TaskManager.TaskStore.Mount` | src/hooks/useTaskManager.ts:7-54 | the list becomes the rehydrated snapshot or the seed; a snapshot the model cannot decode leaves list and storage alone |
| `TaskManager.TaskStore.AddTask` | src/hooks/useTaskManager.ts:56-65 | appends and returns the new task; the snapshot follows |
| `TaskManager.TaskStore.UpdateTask` | src/hooks/useTaskManager.ts:67-73 | the list becomes `UpdateTasks` of the old one; the snapshot follows |
| `TaskManager.TaskStore.DeleteTask` | src/hooks/useTaskManager.ts:75-77 | the list becomes `RemoveTasks` of the old one; the snapshot follows |
| `TaskStats.CountStatus` | src/components/Dashboard.tsx:13-15 | a status count never exceeds the list length |
| `TaskStats.CountPriority` | src/components/Dashboard.tsx:16 | a priority count never exceeds the list length |
| `TaskStats.StatusCountsSum` | src/components/Dashboard.tsx:12-15 | completed + in-progress + todo equals the total |
| `TaskStats.PriorityCountsSum` | src/components/AnalyticsView.tsx:143-151 | high + medium + low equals the total |
| `TaskStats.CountStatusAppend` | src/components/Dashboard.tsx:13-15 | counting distributes over concatenation |
| `TaskStats.CountAfterAppend` | src/hooks/useTaskManager.ts:63 | an added task raises the count of its own status by one and no other |
| `TaskStats.ComputeStats` | src/components/Dashboard.tsx:11-17 | total is the length; completed, in-progress and todo are the counts of their status and sum to the total; high is the count of high-priority tasks |
| `TaskStats.CompletionRate` | src/components/Dashboard.tsx:19 | in [0,100]; 0 iff nothing is completed; 100 iff all of a non-empty list is; rate × total = completed × 100 |
| `TaskStats.RateBelow` | src/components/Dashboard.tsx:19 | comparing the rate with a threshold is comparing the counts cross-multiplied |
| `JsNumber.Round` | src/components/Dashboard.tsx:94 | `Math.round`: the nearest integer, halves rounded up |
| `JsNumber.ToFixed0` | src/components/Dashboard.tsx:71 | `toFixed(0)` is within one half of its input, and not negative for a non-negative input |
| `JsNumber.RoundAgreesWithToFixed` | src/components/Dashboard.tsx:71-94 | on non-negative values both roundings agree |
| `Dashboard.ShowCards` | src/components/Dashboard.tsx:11-97 | each count card shows its own status or priority count; Productivity is `Math.round` of the completion rate, equal to the "% done" figure, in [0,100] |
| `Dashboard.ProductivityIsShare` | src/components/Dashboard.tsx:19-94 | Productivity p is 0 for an empty list and otherwise within half a percent of the completed share: (p - 0.5)·total ≤ 100·completed < (p + 0.5)·total |
| `Dashboard.RoundedShare` | src/components/Dashboard.tsx:94 | a percentage rounded to n puts the share within half a percent of n, cross-multiplied by the total |
| `Dashboard.EmptyShowsZero` | src/components/Dashboard.tsx:19 | an empty list shows 0 everywhere |
| `Dashboard.RoundedPercent` | src/components/Dashboard.tsx:94 | a rounded share c/t reads 0 iff 200c < t, and 100 iff 200c ≥ 199t |
| `Dashboard.RoundEnds` | src/components/Dashboard.tsx:94 | `Math.round` of x is 0 iff x < 0.5, and 100 iff x ≥ 99.5, in the percentage range |
| `Dashboard.PercentBelow` | src/components/Dashboard.tsx:19 | comparing a rate with a fraction times 100 is comparing cross-multiplied counts |
| `Dashboard.ScaleCompare` | src/components/Dashboard.tsx:19 | multiplying by a positive total keeps an order |
| `Dashboard.RoundedRateEnds` | src/components/Dashboard.tsx:19-94 | the rounded completion rate is 0 below 0.5 % and 100 from 99.5 % on |
| `Dashboard.ProductivityZeroIff` | src/components/Dashboard.tsx:91-97 | Productivity shows 0 iff the list is empty or under 0.5 % of it is completed |
| `Dashboard.ProductivityFullIff` | src/components/Dashboard.tsx:91-97 | Productivity shows 100 iff at least 99.5 % of a non-empty list is completed |
| `AnalyticsView.Efficiency` | src/components/AnalyticsView.tsx:21 | at most 100, and for a draw in [0,1) between the rate and the rate plus 20 |
| `AnalyticsView.AvgCompletionDays` | src/components/AnalyticsView.tsx:17 | a draw in [0,1) gives a whole number of days from 2 to 6 |
| `AnalyticsView.BarWidth` | src/components/AnalyticsView.tsx:92 | no width for an empty list (the source divides by zero); otherwise width × total = count × 100 |
| `AnalyticsView.StatusBars` | src/components/AnalyticsView.tsx:92-120 | the three bars are always rendered; their widths are defined (not the NaN of 0/0) iff the list is non-empty, and then add up to 100 |
| `AnalyticsView.WidthsSum` | src/components/AnalyticsView.tsx:92-120 | three shares of one total add up to 100 % |
| `AnalyticsView.Priorities` | src/components/AnalyticsView.tsx:143-151 | each bar is the count of its own priority, and the three add up to the list length |
| `AnalyticsView.RecentActivity` | src/components/AnalyticsView.tsx:169 | `slice(0, 5)`: the first min(5, n) tasks, in store order |
| `AnalyticsView.RecentIgnoresNewTasks` | src/components/AnalyticsView.tsx:169 | once there are five tasks, a newly added task never shows under Recent Activity |
| `AnalyticsView.ShowCards` | src/components/AnalyticsView.tsx:11-68 | the completion % is the same figure as the dashboard's Productivity; completion % ≤ efficiency % ≤ 100; days from 2 to 6 |
| `AnalyticsView.CompletionZeroIff` | src/components/AnalyticsView.tsx:53-59 | the completion card shows 0 iff the list is empty or under 0.5 % of it is completed |
| `AnalyticsView.ToFixedMonotone` | src/components/AnalyticsView.tsx:53-59 | `toFixed(0)` keeps the order of percentages and stays in [0,100] |
| `TaskForm.SubmittableIff` | src/components/TaskForm.tsx:22 | a form is submitted iff its title holds a character that is not white space |
| `TaskForm.ToTaskData` | src/components/TaskForm.tsx:23 | `onSubmit` passes the four form fields and no completedAt |
| `TaskForm.CompletedFromFormHasNoTimestamp` | src/components/TaskForm.tsx:23 | a task created as completed from the dialog has no completedAt |
| `TaskForm.Render` | src/components/TaskForm.tsx:29 | nothing is rendered iff `isOpen` is false, otherwise the current fields; the app mounts the dialog only while open, so the first branch is not reached there |
| `TaskForm.Dialog.constructor` | src/App.tsx:21 | the dialog starts closed, with a blank form: empty title and description, todo, medium |
| `TaskForm.Dialog.Open` | src/App.tsx:125 | "New Task" mounts the dialog afresh: open, with the blank form of `TaskForm.tsx:13-18` |
| `TaskForm.Dialog.EditTitle` | src/components/TaskForm.tsx:64 | only while open: the title becomes the typed value, nothing else changes |
| `TaskForm.Dialog.EditDescription` | src/components/TaskForm.tsx:77 | only while open: the description becomes the typed value, nothing else changes |
| `TaskForm.Dialog.EditStatus` | src/components/TaskForm.tsx:91 | only while open: the status becomes the typed value, nothing else changes |
| `TaskForm.Dialog.EditPriority` | src/components/TaskForm.tsx:106 | only while open: the priority becomes the typed value, nothing else changes |
| `TaskForm.Dialog.Submit` | src/components/TaskForm.tsx:20-27 | submits the form iff the title is not blank; then the dialog closes and its state is reset; otherwise the dialog stays open and unchanged |
| `TaskForm.Dialog.Cancel` | src/App.tsx:199-206 | closing unmounts the form (`{isTaskFormOpen && <TaskForm …/>}`), so typed fields are lost and the next open starts blank |
| `TaskForm.PaddedTitleSentAsTyped` | src/components/TaskForm.tsx:22-23 | the title is checked trimmed but sent untrimmed, so leading white space reaches the task |
| `AgentSimulation.ScriptDelays` | src/hooks/useAgentSimulation.ts:5-48 | seven script entries, entry i due after 1000·(i+1) ms, strictly increasing |
| `AgentSimulation.ScriptSpeakersKnown` | src/hooks/useAgentSimulation.ts:5-48 | every speaker of the script is a roster agent |
| `AgentSimulation.DashJoinThree` | src/hooks/useAgentSimulation.ts:61 | the template literal joins three parts with two dashes |
| `AgentSimulation.SameTailAfterDash` | src/hooks/useAgentSimulation.ts:61 | the text after the last dash is determined by the whole string |
| `AgentSimulation.MessageIdsDistinct` | src/hooks/useAgentSimulation.ts:61 | messages of two different script positions never share an id, whatever the clock reads |
| `AgentSimulation.NextIsUnique` | src/hooks/useAgentSimulation.ts:59 | at most one pending timer is the event loop's next |
| `AgentSimulation.StartKeepsInv` | src/hooks/useAgentSimulation.ts:54-74 | `startSimulation` keeps the timer-queue invariant |
| `AgentSimulation.FireKeepsInv` | src/hooks/useAgentSimulation.ts:59-72 | running a timer at a time no earlier than the clock keeps the feed ordered and not in the future |
| `AgentSimulation.EmitAppendsOne` | src/hooks/useAgentSimulation.ts:59-71 | a message timer run at `at` appends exactly its entry's message, with id and timestamp both read from the clock at `at`; the last one queues the deactivation for `at` + 2000 |
| `AgentSimulation.DeactivateClearsFlag` | src/hooks/useAgentSimulation.ts:70 | the deactivation timer clears `isActive` and leaves the feed alone |
| `AgentSimulation.FireAllSnoc` | src/hooks/useAgentSimulation.ts:59 | running one more timer after a run is what the event loop does when it is next |
| `AgentSimulation.HeadsSnoc` | src/hooks/useAgentSimulation.ts:59 | one more head-of-queue firing extends a run by one |
| `AgentSimulation.OnTime` | src/hooks/useAgentSimulation.ts:58-72 | the run times when every timer runs exactly when due |
| `AgentSimulation.OnTimeFireTimes` | src/hooks/useAgentSimulation.ts:58-72 | due times in script order are possible run times |
| `AgentSimulation.ExpectedFeedEntries` | src/hooks/useAgentSimulation.ts:58-67 | message i of the feed is script entry i, with its own id and the time its timer actually ran |
| `AgentSimulation.FireNextEntry` | src/hooks/useAgentSimulation.ts:58-72 | in a run, the head of the queue is the next script entry, the event loop may run it at its run time, and doing so appends that message |
| `AgentSimulation.FeedGrows` | src/hooks/useAgentSimulation.ts:67 | the feed after k firings is the feed after k-1 plus message k-1 |
| `AgentSimulation.RunStep` | src/hooks/useAgentSimulation.ts:58-72 | one step of an undisturbed run gives the next run state |
| `AgentSimulation.RunStateZero` | src/hooks/useAgentSimulation.ts:54-56 | before any firing the run state is the started state |
| `AgentSimulation.RunExtends` | src/hooks/useAgentSimulation.ts:58-72 | a run that reached entry k-1 goes on to entry k |
| `AgentSimulation.RunEntries` | src/hooks/useAgentSimulation.ts:58-72 | firing the queue head k times reaches the k-th run state |
| `AgentSimulation.RunFinished` | src/hooks/useAgentSimulation.ts:69-70 | once every entry has fired only the deactivation timer is pending |
| `AgentSimulation.UndisturbedRun` | src/hooks/useAgentSimulation.ts:54-74 | for any run times no earlier than due and in order, an undisturbed run shows every script message in order, stamped when it ran, then queues the deactivation 2000 ms after the last actually ran, which clears `isActive` |
| `AgentSimulation.RunReachesSettle` | src/hooks/useAgentSimulation.ts:54-72 | after every entry has run the feed is complete, the flag still set and only the deactivation is pending |
| `AgentSimulation.UndisturbedScriptRun` | src/hooks/useAgentSimulation.ts:5-74 | the hook's own script: seven messages, the deactivation due 2000 ms after the seventh actually ran, then inactive |
| `AgentSimulation.OnTimeScriptRun` | src/hooks/useAgentSimulation.ts:5-74 | with every timer on time: messages at start + 1000 … start + 7000, inactive at start + 9000 |
| `AgentSimulation.ClearDoesNotCancel` | src/hooks/useAgentSimulation.ts:76-79 | `clearMessages` cancels no timer: the messages of a cleared run still arrive |
| `AgentSimulation.StaleDeactivation` | src/hooks/useAgentSimulation.ts:54-70 | a restart before the old run's deactivation runs: the new run's first message arrives, then that stale timer clears `isActive` with the rest of the new run still queued |
| `AgentSimulation.RestartFiresFirst` | src/hooks/useAgentSimulation.ts:54-67 | after such a restart the new run's first entry is next and runs ahead of the old deactivation |
| `AgentSimulation.StaleTimerNext` | src/hooks/useAgentSimulation.ts:70 | the old deactivation, due before the rest of the new run, is then next |
| `AgentSimulation.StaleDeactivationEndsRestartedRun` | src/hooks/useAgentSimulation.ts:54-70 | concretely: a run started at 0 finished by 7000; restarted at 7500, its first message runs at some a1 ≥ 8500 and the old timer at some a2 ≥ 9000 leaves the panel inactive with six entries still queued |
| `AgentSimulation.Simulation.constructor` | src/hooks/useAgentSimulation.ts:51-52 | no messages, inactive, no timers |
| `AgentSimulation.Simulation.StartSimulation` | src/hooks/useAgentSimulation.ts:54-74 | the state becomes `Start` of the old one, invariant kept |
| `AgentSimulation.Simulation.ClearMessages` | src/hooks/useAgentSimulation.ts:76-79 | the state becomes `Clear` of the old one, invariant kept |
| `AgentSimulation.Simulation.RunTimer` | src/hooks/useAgentSimulation.ts:59-72 | the event loop runs the next timer at any time no earlier than its due time and the clock: the state becomes `Fire` of the old one at that time, invariant kept |
| `AgentPanel.FindAgent` | src/components/AgentPanel.tsx:139 | `find`: none iff no agent carries the id; otherwise a roster agent with that id |
| `AgentPanel.Bubbles` | src/components/AgentPanel.tsx:138-143 | each bubble pairs a message with the roster agent of its speaker |
| `AgentPanel.BubbleMessages` | src/components/AgentPanel.tsx:141 | the messages of a feed, one per bubble, in order |
| `AgentPanel.BubblesShowKnownSpeakers` | src/components/AgentPanel.tsx:138-143 | the feed shows exactly the messages of roster agents, in order |
| `AgentPanel.AllKnownKept` | src/components/AgentPanel.tsx:140 | when every speaker is on the roster, no message is filtered out |
| `AgentPanel.AllKnownAllShown` | src/components/AgentPanel.tsx:138-143 | when every speaker is on the roster, every message gets its bubble, in order |
| `AgentPanel.BubblesAppend` | src/components/AgentPanel.tsx:138-143 | the feed of a concatenation is the concatenation of the feeds |
| `AgentPanel.UnknownSpeakerSkipped` | src/components/AgentPanel.tsx:140-142 | a message of an unknown agent renders nothing and changes nothing |
| `AgentPanel.KnownSpeakerShown` | src/components/AgentPanel.tsx:140-141 | a message of a roster agent adds exactly one bubble, at the end |
| `AgentPanel.SpokeIffBubble` | src/components/AgentPanel.tsx:124 | a roster agent has spoken iff the feed holds a bubble of theirs |
| `AgentPanel.Avatars` | src/components/AgentPanel.tsx:120-131 | one avatar per roster agent, in roster order |
| `AgentPanel.AvatarLitIffBubble` | src/components/AgentPanel.tsx:124 | an avatar is lit iff the run is active and the feed holds a bubble of that agent |
| `AgentPanel.Render` | src/components/AgentPanel.tsx:97-150 | Start is disabled iff active; the placeholder shows iff no messages and inactive; the feed shows the known speakers |
| `AgentPanel.StartLocksButton` | src/components/AgentPanel.tsx:101-145 | right after Start: button disabled, empty feed, no avatar lit, no placeholder |
| `AgentPanel.StaleFiringAfterClear` | src/components/AgentPanel.tsx:138-150 | after Clear the placeholder shows, and the cleared run's next timer, when it fires (`FiresAt`), brings a bubble back with Start enabled and every avatar dark |
| `AgentPanel.ScriptFeedFullyShown` | src/components/AgentPanel.tsx:138-143 | in an undisturbed run, whatever its run times, all seven script messages get their bubble, in script order |
| `AuthContext.UserToJson` | src/context/AuthContext.tsx:56 | the stored form of a user is an object, and so truthy |
| `AuthContext.UserFromJson` | src/context/AuthContext.tsx:3-10 | a decoded user has each field read from the matching string field; company present iff the field is, and then its string value |
| `AuthContext.UserToJsonFields` | src/context/AuthContext.tsx:56 | where each user field lands; an undefined company is left out |
| `AuthContext.UserJsonRoundTrip` | src/context/AuthContext.tsx:32-56 | decoding the stored form of a user gives back the same user |
| `AuthContext.UserId` | src/context/AuthContext.tsx:49 | ids start with `user_` and carry more after it |
| `AuthContext.UserIdsCollideIff` | src/context/AuthContext.tsx:49 | two users get the same id iff they were made in the same millisecond |
| `AuthContext.LoginUser` | src/context/AuthContext.tsx:48-53 | name = the email up to its first '@' (all of it without one); the email as typed; no company |
| `AuthContext.SignupUser` | src/context/AuthContext.tsx:69-75 | exactly the given name, email and company, id and date from the clock |
| `AuthContext.ReloadRestoresUser` | src/context/AuthContext.tsx:28-39 | a user stored by sign-in or sign-up is signed in again after a reload |
| `AuthContext.ReloadAfterLogout` | src/context/AuthContext.tsx:84-87 | after sign-out a reload restores nobody |
| `AuthContext.UnparsableEntryDropped` | src/context/AuthContext.tsx:31-36 | unparsable stored text is removed and the context starts signed out |
| `AuthContext.StoredShapeUnchecked` | src/context/AuthContext.tsx:32 | any stored object, even `{}`, counts as signed in; a stored `null` does not |
| `AuthContext.AuthProvider.constructor` | src/context/AuthContext.tsx:24-25 | no user, loading |
| `AuthContext.AuthProvider.IsAuthenticated` | src/context/AuthContext.tsx:93 | `!!user`: false for null, true for any object |
| `AuthContext.AuthProvider.CurrentUser` | src/context/AuthContext.tsx:92 | a user record is read only from a signed-in state |
| `AuthContext.AuthProvider.Mount` | src/context/AuthContext.tsx:28-39 | the user and storage become `MountUser` / `MountStorage` of the old ones; loading stops |
| `AuthContext.AuthProvider.BeginRequest` | src/context/AuthContext.tsx:42 | loading starts |
| `AuthContext.AuthProvider.Keep` | src/context/AuthContext.tsx:55-58 | the user is set before the storage write; a refused write throws after that; loading stops either way |
| `AuthContext.AuthProvider.CompleteLogin` | src/context/AuthContext.tsx:41-60 | signs in `LoginUser`, stores it when storage accepts, stops loading |
| `AuthContext.AuthProvider.CompleteSignup` | src/context/AuthContext.tsx:62-82 | signs in `SignupUser`, stores it when storage accepts, stops loading |
| `AuthContext.AuthProvider.Logout` | src/context/AuthContext.tsx:84-87 | no user, and the stored entry is removed |
| `AppRouter.Target` | src/AppRouter.tsx:41-54 | no callback leads to the landing page; exactly the two success callbacks lead to 'dashboard' |
| `AppRouter.ScreenFor` | src/AppRouter.tsx:14-56 | spinner iff loading; the app iff signed in and not loading; otherwise the page of `currentPage`, and nothing for 'dashboard' |
| `AppRouter.Offered` | src/AppRouter.tsx:40-56 | no callback is reachable from the spinner, the app or the blank screen |
| `AppRouter.RunNeverLanding` | src/AppRouter.tsx:11-54 | once any callback has fired the landing page never returns |
| `AppRouter.RunEndsAtLastTarget` | src/AppRouter.tsx:40-56 | a run of callbacks ends on the last one's page |
| `AppRouter.LogoutAfterLoginIsStuck` | src/AppRouter.tsx:46-53 | after a sign-in, signing out renders nothing and offers no way on, short of a reload |
| `AppRouter.LoadingHidesPages` | src/AppRouter.tsx:14-24 | while loading no page callback is reachable |
| `AppRouter.FailedLoginSignsIn` | src/context/AuthContext.tsx:41-60 | a `login` whose storage write throws: the spinner replaces the sign-in page while it runs, and it ends with the user signed in and the app shown (`src/AppRouter.tsx:14-28`) |
| `AppRouter.Router.constructor` | src/AppRouter.tsx:11 | the router starts on the landing page |
| `AppRouter.Router.Handle` | src/AppRouter.tsx:41-54 | `currentPage` becomes the callback's target, never the landing page |
| `LoginPage.SubmitRequest` | src/pages/LoginPage.tsx:23-29 | no request iff the email or the password is empty; otherwise both as typed |
| `LoginPage.BlankFieldsPass` | src/pages/LoginPage.tsx:23 | to the handler, fields of white space only are not missing and are sent untrimmed; in the app this happens to the password only, since the email field never hands the handler such a value (`LoginPage.BlankEmailNeverSent`) |
| `LoginPage.BlankEmailNeverSent` | src/pages/LoginPage.tsx:103-108 | an email typed as white space only either reads as empty, which the handler refuses, or blocks the submit: no request carries it |
| `LoginPage.InvalidEmailBlocked` | src/pages/LoginPage.tsx:91-108 | "abc" with a non-empty password passes the handler's own test, yet the e-mail field blocks the submit |
| `EmailInput.StripNewlines` | src/pages/LoginPage.tsx:103-106 | no line feed or carriage return remains, no character is added, and text without them is kept |
| `EmailInput.StripNewlinesChar` | src/pages/LoginPage.tsx:103-106 | a single character is dropped exactly when it is a line feed or carriage return |
| `EmailInput.StripNewlinesAppend` | src/pages/LoginPage.tsx:103-106 | stripping distributes over concatenation, so with the one-character case the result is the text with exactly its line breaks removed |
| `EmailInput.LeadingEnd` | src/pages/LoginPage.tsx:103-106 | the leading cut is ASCII white space and the text kept does not start with it |
| `EmailInput.TrailingStart` | src/pages/LoginPage.tsx:103-106 | the trailing cut is ASCII white space and the text kept does not end with it |
| `EmailInput.StripEdges` | src/pages/LoginPage.tsx:103-106 | the result is the slice that starts at the first non-white-space character, and everything cut off before or after it is ASCII white space while the slice neither starts nor ends with it |
| `EmailInput.Sanitize` | src/pages/LoginPage.tsx:103-108 | the value the e-mail input hands over is the newline-free text with exactly its ASCII white-space edges cut: a slice of it, everything before and after the slice white space, the slice's own ends not; so it holds no newline and only characters of the typed text |
| `EmailInput.EdgesCutUnique` | src/pages/LoginPage.tsx:103-106 | there is only one way to cut the white-space edges off a text, so the sanitized value is determined by that property alone |
| `EmailInput.CleanValueKept` | src/pages/LoginPage.tsx:103-108 | a value without newlines and without white space at either end is handed over unchanged |
| `EmailInput.SanitizeIdempotent` | src/pages/LoginPage.tsx:103-108 | sanitizing a sanitized value changes nothing |
| `EmailInput.AsciiBlankReadsEmpty` | src/pages/LoginPage.tsx:103-108 | a value of ASCII white space only reads as empty |
| `EmailInput.ValidAddressNotBlank` | src/pages/LoginPage.tsx:103-106 | a valid address is neither empty nor white space only |
| `EmailInput.BlankNeverAccepted` | src/pages/LoginPage.tsx:91-108 | text of white space only (any kind) reads as empty or blocks the submit |
| `EmailInput.NoAtBlocks` | src/pages/LoginPage.tsx:91-108 | non-empty text without `@` blocks the submit |
| `EmailInput.LabelIsDomain` | src/pages/LoginPage.tsx:103-106 | a single valid label is a valid domain |
| `EmailInput.DomainCons` | src/pages/LoginPage.tsx:103-106 | a valid label, a dot and a valid domain form a valid domain |
| `EmailInput.AddressOf` | src/pages/LoginPage.tsx:103-106 | local characters, `@` and a valid domain form a valid address, the shape of the field's placeholder `you@example.com` (line 108) |
| `LoginPage.Banner` | src/pages/LoginPage.tsx:164 | the banner shows iff the error is non-empty, with that text |
| `LoginPage.Page.constructor` | src/pages/LoginPage.tsx:13-17 | empty fields, password hidden, not remembered, no error |
| `LoginPage.Page.SetEmail` | src/pages/LoginPage.tsx:103-108 | the email becomes the typed value as the e-mail input sanitizes it |
| `LoginPage.Page.SetPassword` | src/pages/LoginPage.tsx:131 | the password becomes the typed value |
| `LoginPage.Page.ToggleShowPassword` | src/pages/LoginPage.tsx:137 | the visibility flag flips |
| `LoginPage.Page.SetRememberMe` | src/pages/LoginPage.tsx:155 | the flag becomes the check box state |
| `LoginPage.Page.PasswordInputType` | src/pages/LoginPage.tsx:129 | the input is `text` iff the password is shown, `password` otherwise |
| `LoginPage.Page.Submit` | src/pages/LoginPage.tsx:19-29 | the handler runs iff the email is empty or a valid address, and otherwise nothing changes; when it runs, it requests `login` iff both fields are non-empty, otherwise shows the fill-in message, and the error is cleared first |
| `LoginPage.Page.Settle` | src/pages/LoginPage.tsx:28-33 | success iff `login` resolved; a rejection records the failure message |
| `SignupPage.IndexOf` | src/pages/SignupPage.tsx:27 | the first position of a character, none iff absent |
| `SignupPage.AllPlainSlice` | src/pages/SignupPage.tsx:27 | a slice of a run without white space and '@' is such a run |
| `SignupPage.DomainSplits` | src/pages/SignupPage.tsx:27 | an accepted domain splits at a dot into two non-empty plain runs |
| `SignupPage.ValidateEmailSound` | src/pages/SignupPage.tsx:26-28 | every accepted address matches `^[^\s@]+@[^\s@]+\.[^\s@]+$` |
| `SignupPage.FirstAt` | src/pages/SignupPage.tsx:27 | an '@' preceded only by plain characters is the first one |
| `SignupPage.DomainAround` | src/pages/SignupPage.tsx:27 | two plain runs around a dot form an accepted domain |
| `SignupPage.ValidateEmailComplete` | src/pages/SignupPage.tsx:26-28 | every address matching the pattern is accepted |
| `SignupPage.ValidateEmailIff` | src/pages/SignupPage.tsx:26-28 | `validateEmail` accepts exactly the strings the pattern matches |
| `SignupPage.ValidEmailNotBlank` | src/pages/SignupPage.tsx:36-39 | an accepted address is never blank, so at most one email message applies |
| `SignupPage.Text` | src/pages/SignupPage.tsx:34-83 | each message's text; only the "no error" placeholder is empty |
| `SignupPage.FieldError` | src/pages/SignupPage.tsx:33-51 | the message a field's tests record, earlier tests first |
| `SignupPage.ErrorsFor` | src/pages/SignupPage.tsx:31-51 | one entry per failing test and none for a passing one |
| `SignupPage.FormErrors` | src/pages/SignupPage.tsx:30-54 | `newErrors` holds only the five checked keys, each with a non-empty message |
| `SignupPage.NameFlaggedIff` | src/pages/SignupPage.tsx:33-35 | the name is flagged iff it is empty or all white space |
| `SignupPage.EmailFlaggedIff` | src/pages/SignupPage.tsx:36-40 | the email is flagged iff blank or not matching, with "required" exactly for a blank one |
| `SignupPage.SecondStepFlaggedIff` | src/pages/SignupPage.tsx:41-51 | password, confirmation and terms are flagged iff the password is empty or under 8 UTF-16 code units, the confirmation differs, the box is unticked |
| `SignupPage.AgreesEverywhere` | src/pages/SignupPage.tsx:31-51 | a map that agrees with every test and holds nothing else is the errors map |
| `SignupPage.FillErrors` | src/pages/SignupPage.tsx:31-51 | building `newErrors` test by test gives exactly `ErrorsFor` |
| `SignupPage.NoKeysEmpty` | src/pages/SignupPage.tsx:54 | `Object.keys(m).length === 0` holds exactly for the empty map |
| `SignupPage.ContinueErrors` | src/pages/SignupPage.tsx:229-232 | Continue's map holds both keys, with empty text for a field that passed |
| `SignupPage.ContinueEmailAgrees` | src/pages/SignupPage.tsx:226-231 | for the email, the step-1 test and the final check agree |
| `SignupPage.SampleAddressValid` | src/pages/SignupPage.tsx:27 | `a@b.co` is accepted |
| `SignupPage.BlankNamePassesContinueOnly` | src/pages/SignupPage.tsx:226-234 | a name of white space only passes Continue but fails the final check |
| `SignupPage.BlankNameExample` | src/pages/SignupPage.tsx:226-234 | such a form exists: name " ", email `a@b.co` |
| `SignupPage.Page.constructor` | src/pages/SignupPage.tsx:13-24 | empty form, no errors, step 1 |
| `SignupPage.Page.HandleInputChange` | src/pages/SignupPage.tsx:57-70 | the field changes (the email to its sanitized value, src/pages/SignupPage.tsx:187-192), and its error is removed only if one is on screen |
| `SignupPage.Page.ValidateForm` | src/pages/SignupPage.tsx:30-55 | `errors` becomes the tests' map; true iff it is empty |
| `SignupPage.Page.Continue` | src/pages/SignupPage.tsx:225-234 | step 2 iff the step-1 test passes; otherwise Continue's map |
| `SignupPage.Page.Back` | src/pages/SignupPage.tsx:371 | back to step 1 |
| `SignupPage.Page.Submit` | src/pages/SignupPage.tsx:72-80 | requests `signup` with the four fields iff the form is clean |
| `SignupPage.Page.SignupSettled` | src/pages/SignupPage.tsx:79-84 | success iff `signup` resolved; otherwise the map holds only the submit error |
| `SignupPage.CleanFormIff` | src/pages/SignupPage.tsx:30-54 | a form is clean iff name not blank, email valid, password at least 8 UTF-16 code units, confirmation equal, terms ticked |
| `SignupPage.FourEmojiPasswordLongEnough` | src/pages/SignupPage.tsx:43 | a password of four emoji (four characters, eight code units) is long enough |
| `SignupPage.NoCheckedKeyEmpty` | src/pages/SignupPage.tsx:54 | a map over the checked keys holding none of them is empty |
| `BlogInput.SplitRest` | src/components/BlogInput.tsx:59 | a split always yields at least one piece |
| `BlogInput.SplitWs` | src/components/BlogInput.tsx:59 | `split(/\s+/)` always yields at least one piece |
| `BlogInput.NonEmpty` | src/components/BlogInput.tsx:59 | `filter(word => word.length > 0)` keeps only non-empty pieces, drawn from the input |
| `BlogInput.NonEmptyAppend` | src/components/BlogInput.tsx:59 | filtering distributes over concatenation |
| `BlogInput.RunsSkipWs` | src/components/BlogInput.tsx:59 | leading white space does not change the number of words |
| `BlogInput.RunsTrailingWs` | src/components/BlogInput.tsx:59 | trailing white space does not change the number of words |
| `BlogInput.SplitCountsRuns` | src/components/BlogInput.tsx:59 | the non-empty pieces of the split are the maximal runs of non-white-space |
| `BlogInput.RunsOfTrim` | src/components/BlogInput.tsx:59 | trimming does not change the number of words |
| `BlogInput.RunsOfTrimEnd` | src/components/BlogInput.tsx:59 | cutting trailing white space does not change the number of words |
| `BlogInput.CountWordsIsWordCount` | src/components/BlogInput.tsx:59 | the editor's count equals the number of maximal non-white-space runs |
| `BlogInput.NoWordsIff` | src/components/BlogInput.tsx:59 | the count is 0 iff the text is all white space |
| `BlogInput.SplitOnCount` | src/components/BlogInput.tsx:146 | `split(' ')` yields one more piece than there are spaces |
| `BlogInput.CardWordCount` | src/components/BlogInput.tsx:146 | a sample card shows the number of spaces plus one |
| `BlogInput.Preview` | src/components/BlogInput.tsx:142 | the longest prefix of the content within 120 UTF-16 code units, then "..."; all of the content when it fits |
| `BlogInput.BmpPreview` | src/components/BlogInput.tsx:142 | for content of characters below U+10000 only, the preview is its first 120 characters and "..." |
| `BlogInput.EmptyHasNoWords` | src/components/BlogInput.tsx:67-70 | the empty text has no words |
| `BlogInput.SampleCharacters` | src/components/BlogInput.tsx:59 | letters are not white space; the space and the line break are |
| `BlogInput.DoubleSpaceOvercounted` | src/components/BlogInput.tsx:146 | on "a  b" a card shows 3 words where the editor counts 2 |
| `BlogInput.LineBreakUndercounted` | src/components/BlogInput.tsx:146 | on "a\nb" a card shows 1 word where the editor counts 2 |
| `BlogInput.Progress` | src/components/BlogInput.tsx:81-82 | the progress is not negative and equals count / 2000 × 100 |
| `BlogInput.LabelByCount` | src/components/BlogInput.tsx:214 | "Too long" iff over 2000 words, "Almost full" iff 1801–2000, "Perfect" iff at most 1800 |
| `BlogInput.ColourByCount` | src/components/BlogInput.tsx:210 | red iff over 1800 words, amber iff 1401–1800, green iff at most 1400 |
| `BlogInput.BarWidth` | src/components/BlogInput.tsx:202 | `Math.min(progress, 100)` is the progress or 100, never above 100 |
| `BlogInput.BarWidthByCount` | src/components/BlogInput.tsx:202 | the bar is full iff 2000 words or more; otherwise count / 20 % |
| `BlogInput.Editor.constructor` | src/components/BlogInput.tsx:6-7 | empty text, zero words, consistent |
| `BlogInput.Editor.HandleContentChange` | src/components/BlogInput.tsx:56-60 | the text becomes the typed value and the count its number of words |
| `BlogInput.Editor.LoadSampleBlog` | src/components/BlogInput.tsx:62-65 | the text becomes the sample's and the count its number of words |
| `BlogInput.Editor.ClearContent` | src/components/BlogInput.tsx:67-70 | empty text, zero words |
| `GenerateSection.PadStart2` | src/components/GenerateSection.tsx:84 | `padStart(2, '0')`: unchanged when long enough, else two characters ending in the input |
| `GenerateSection.FormatTimeFields` | src/components/GenerateSection.tsx:81-85 | for t ≥ 0 the minutes and seconds fields rebuild the whole seconds, seconds in [0,60) |
| `GenerateSection.SmallNatToString` | src/components/GenerateSection.tsx:84 | the decimal text of a number below 100 is one or two digits |
| `GenerateSection.TwoDigits` | src/components/GenerateSection.tsx:84 | a second count below 60 prints as exactly two digits, with a leading zero below 10 |
| `GenerateSection.ParseClock` | src/components/GenerateSection.tsx:84 | a label read back has a colon three characters from its end |
| `GenerateSection.TwoDigitsParse` | src/components/GenerateSection.tsx:84 | the two seconds digits read back as the seconds |
| `GenerateSection.FormatTimeShape` | src/components/GenerateSection.tsx:81-85 | the label is the minutes, a colon, and two second digits |
| `GenerateSection.ParseClockOf` | src/components/GenerateSection.tsx:84 | a label of minutes and two second digits reads back as their total |
| `GenerateSection.FormatTimeRoundTrip` | src/components/GenerateSection.tsx:81-85 | reading the label of t ≥ 0 gives back its whole seconds |
| `GenerateSection.DurationLabel` | src/components/GenerateSection.tsx:11 | the 272-second podcast is labelled "4:32" |
| `GenerateSection.TicksFromEven` | src/components/GenerateSection.tsx:45-55 | from an even progress the interval fires once per missing 2 % plus once to stop |
| `GenerateSection.GenerationTakes51Ticks` | src/components/GenerateSection.tsx:45-55 | a generation takes 51 firings: 50 to reach 100 and one that stops |
| `GenerateSection.ExactlyOneStage` | src/components/GenerateSection.tsx:228-231 | exactly one status line shows, chosen by the thresholds 30, 60 and 90 |
| `GenerateSection.PanelFor` | src/components/GenerateSection.tsx:136-236 | the button iff neither flag; the progress panel iff generating only; the player iff complete only |
| `GenerateSection.Generator.constructor` | src/components/GenerateSection.tsx:6-11 | idle, not complete, paused, progress 0, time 0 |
| `GenerateSection.Generator.HandleGenerate` | src/components/GenerateSection.tsx:38-45 | generating, not complete, progress 0, time 0, interval running |
| `GenerateSection.Generator.Tick` | src/components/GenerateSection.tsx:45-55 | below 100 adds 2; at 100 stops the interval and completes; each firing brings the end one step closer |
| `GenerateSection.Generator.TogglePlayback` | src/components/GenerateSection.tsx:58-67 | playing flips |
| `GenerateSection.Generator.TimeUpdate` | src/components/GenerateSection.tsx:22-24 | the time becomes the element's time |
| `GenerateSection.Generator.Ended` | src/components/GenerateSection.tsx:26-29 | paused, back at 0 |
| `GenerateSection.Generator.Panel` | src/components/GenerateSection.tsx:136-236 | in every reachable state exactly one of the three panels shows |
| `OneAtATime.Toggle` | src/components/FAQ.tsx:72-74 | `current === i ? null : i` |
| `OneAtATime.ToggleTwiceRestores` | src/components/FAQ.tsx:72-74 | toggling the same item twice from closed or from itself restores the state |
| `OneAtATime.ToggleTwiceFromOther` | src/components/VoiceSelector.tsx:138-147 | from another open item, one toggle moves to `i` and a second closes everything |
| `Testimonials.Next` | src/components/Testimonials.tsx:68-70 | `(i + 1) % 5`: the next index, wrapping from 4 to 0 |
| `Testimonials.Prev` | src/components/Testimonials.tsx:72-74 | `(i - 1 + 5) % 5`: the previous index, wrapping from 0 to 4 |
| `Testimonials.NextUndoesPrev` | src/components/Testimonials.tsx:68-74 | next after previous returns to the same testimonial |
| `Testimonials.PrevUndoesNext` | src/components/Testimonials.tsx:68-74 | previous after next returns to the same testimonial |
| `Testimonials.Advance` | src/components/Testimonials.tsx:61-66 | n automatic advances stay in range |
| `Testimonials.AdvanceWraps` | src/components/Testimonials.tsx:61-66 | n automatic advances move to (i + n) mod 5 |
| `Testimonials.FiveNextsReturn` | src/components/Testimonials.tsx:61-66 | five advances come back to the same testimonial |
| `Testimonials.Dots` | src/components/Testimonials.tsx:215-221 | five dots, exactly the current one highlighted |
| `Testimonials.Carousel.constructor` | src/components/Testimonials.tsx:6 | starts at the first testimonial |
| `Testimonials.Carousel.NextTestimonial` | src/components/Testimonials.tsx:68-70 | the index becomes `Next` of the old one |
| `Testimonials.Carousel.PrevTestimonial` | src/components/Testimonials.tsx:72-74 | the index becomes `Prev` of the old one |
| `Testimonials.Carousel.AutoAdvance` | src/components/Testimonials.tsx:61-66 | one interval firing moves to `Next` |
| `Testimonials.Carousel.Select` | src/components/Testimonials.tsx:217 | a dot or mini card selects its own index |
| `Faq.Accordion.constructor` | src/components/FAQ.tsx:6-7 | the first answer open, nothing playing, both indices within the six questions |
| `Faq.Accordion.ToggleFaq` | src/components/FAQ.tsx:72-74 | for one of the six questions: the open answer closes iff it was clicked; otherwise the clicked one opens alone; the indices stay within the six |
| `Faq.Accordion.PlayAudio` | src/components/FAQ.tsx:76-92 | for one of the six questions: the playing answer stops iff it was clicked; otherwise the clicked one plays alone; the indices stay within the six |
| `Faq.Accordion.SpeechEnded` | src/components/FAQ.tsx:64-65 | an `end` or `error` of the speech clears the playing index |
| `Faq.Accordion.AnswerShown` | src/components/FAQ.tsx:211 | an answer is shown iff it is the open one, so at most one is |
| `VoiceSelector.IdsArePositions` | src/components/VoiceSelector.tsx:10-71 | five voices, each id equal to its position |
| `VoiceSelector.FindVoice` | src/components/VoiceSelector.tsx:149 | `voices.find(v => v.id === id)` finds a voice iff the id is below 5, and it is the one at that position |
| `VoiceSelector.Gallery.constructor` | src/components/VoiceSelector.tsx:6-7 | the first voice selected, nothing playing |
| `VoiceSelector.Gallery.SelectVoice` | src/components/VoiceSelector.tsx:218 | the clicked voice becomes the selected one |
| `VoiceSelector.Gallery.HandlePlayPreview` | src/components/VoiceSelector.tsx:138-147 | the playing preview stops iff it was clicked; otherwise the clicked one plays alone |
| `VoiceSelector.Gallery.PreviewEnded` | src/components/VoiceSelector.tsx:153-154 | an `end` or `error` of the speech clears the playing voice |
| `VoiceSelector.Gallery.Selected` | src/components/VoiceSelector.tsx:330-338 | the summary shows a voice of the list whose id is the selected one |

## Left out

- Rendering: markup, styles, animation (framer-motion), icons and the 3D scene (`TaskScene`, `TaskCube`) are not modelled. Only the values a view computes, and what it shows or hides, are.
- `TeamView`, `TaskDetails`, `Hero`, `Footer` and the landing page body are not part of this model. So is `App.tsx`, beyond the two calls it makes into the store (the `{ status }` patch at `src/App.tsx:24-26`, used by `TaskManager.StatusPatch`), the logout button (`src/App.tsx:136`) and the mounting of the task dialog only while it is open (`src/App.tsx:199-206`, class `TaskForm.Dialog`).
- `deleteTask` is modelled (`TaskManager.TaskStore.DeleteTask`) although `src/App.tsx:18` never takes it from the hook.
- Floating point: percentages, draws and times are exact reals. The model has no rounding error in `(completed / total) * 100` and no binary representation. `Math.round` and `toFixed(0)` are both modelled as "round half up", which is what they do on the non-negative values these views pass them.
- `Date`: a timestamp is an integer millisecond count, and a stored date is its decimal text, standing for the ISO string. The user's `createdAt` ISO string is a parameter. `toLocaleDateString` / `toLocaleTimeString` are not modelled.
- `JSON.parse` / `JSON.stringify`: storage holds the parsed value tree (`JsonValue.StoredText`), with `Unparsable(raw)` standing for text that does not parse. Character-level JSON syntax is not modelled.
- `TaskManager.TaskStore.Mount`: the source throws inside the effect only when the stored text does not parse, when it is not an array, or on a `null` / `undefined` element. Any other array loads unchecked, `[{}]` and tasks with an unknown status included. The model decodes each task strictly and refuses such an array too (`TaskManager.ShapeCheckedOnMount`). It reports `ok == false` and keeps the list and storage.
- Timers and the event loop: `setTimeout` / `setInterval` are an explicit queue of pending timers (`AgentSimulation`). A caller runs them. The next timer is the one due first, ties going to the one set first. It runs at any time no earlier than its due time and the clock (`AgentSimulation.FiresAt`), since `setTimeout` promises only a lower bound. The 1500 ms delay of `login` / `signup` is the split between `BeginRequest` and `CompleteLogin` / `CompleteSignup`.
- React semantics: the batching of state updates, effect scheduling and StrictMode double effects are not modelled. Each handler is one atomic step.
- `LoginPage.Page.Settle`: takes whether `login` rejected as a parameter and models the `catch` as written. In the app the banner never shows. The mock `login` throws only when storage refuses the write, and by then `setUser` has run. While `login` runs, the router shows the spinner instead of the page, and afterwards it shows the app (`AppRouter.FailedLoginSignsIn`). The same holds for the `submit` error of `SignupPage`.
- The disabled state of the submit buttons while `isLoading` (`src/pages/LoginPage.tsx:179`, `src/pages/SignupPage.tsx:346`) is not modelled. The router replaces the page with the spinner while loading in any case (`AppRouter.LoadingHidesPages`).
- The `submit` error that `SignupPage` records on a failed sign-up is held in the errors map, but no markup shows it. Its rendering is not modelled.
- Speech synthesis and audio: `speechSynthesis.speak` / `cancel`, voice choice, utterance parameters and `createSyntheticSpeech` are not modelled. Only the index bookkeeping is: `PlayAudio`, `HandlePlayPreview`, and the `onend` / `onerror` callbacks as `SpeechEnded` / `PreviewEnded`.
- `GenerateSection.Generator.TogglePlayback`: does not model the `if (audioElement)` guard or the element's `play` / `pause`. The element is created by the effect on mount, so the guard holds once mounted. The re-creation of the element whenever `isComplete` changes is not modelled either.
- `GenerateSection.Generator.HandleGenerate`: requires that no generation is running, because the button is rendered only when idle and "regenerate" only when complete. A second overlapping interval is not modelled.
- Seeking on the playback bar (`handleSeek`), the download link and the playback bar width are not modelled. Seeking needs the element's geometry.
- `BlogInput.Preview`: `substring(0, 120)` may cut a surrogate pair and show half of it. A Dafny string cannot hold a lone surrogate, so the model stops before that character.
- `BlogInput`: copying to the clipboard is not modelled, and the sample texts are not reproduced (`SampleBlog` is any title and content). The word count is stated against a reference definition (maximal runs of non-white-space), with JavaScript's `\s` set as `JsText.IsWhitespace`.
- Testimonial, FAQ and voice texts are not reproduced: only their counts (5, 6, 5) and the voice ids and names are.
- `EmailInput`: the e-mail state of the HTML Living Standard (section 4.10.5.1.5) is modelled for ASCII addresses. Browsers that convert a non-ASCII domain to punycode before checking it are not modelled; the model rejects such a domain. The validation message the browser shows is not modelled.
- `SignupPage`'s e-mail field blocks no submit in the model: it is rendered only in step 1, which has no submit button and several text fields, so pressing Enter there does not submit the form; step 2, whose button submits, has no e-mail field.
- `AgentSimulation.EmitAppendsOne`: the callback reads the clock twice, `Date.now()` for the id and `new Date()` for the timestamp, and the two readings may differ by a millisecond; the model takes both as the one fire time `at`.
- `AuthContext.User`'s `company` is optional as in the interface. `SignupPage` always passes a string (possibly empty).

## Notable behaviours

These are stated as lemmas, not claimed to be mistakes:
- `AppRouter.LogoutAfterLoginIsStuck`: signing out leaves the page blank until a reload.
- `AgentSimulation.StaleDeactivationEndsRestartedRun`: a restarted simulation is marked inactive by the old run's timer.
- `AgentPanel.StaleFiringAfterClear`: Clear does not stop pending messages.
- `BlogInput.DoubleSpaceOvercounted` / `BlogInput.LineBreakUndercounted`: the two word counts disagree.
- `SignupPage.BlankNamePassesContinueOnly`: a blank name passes step 1.
- `AuthContext.StoredShapeUnchecked`: any stored object signs in.
- `TaskForm.PaddedTitleSentAsTyped`: the title is checked trimmed but sent untrimmed.
- `AppRouter.FailedLoginSignsIn`: a sign-in whose storage write fails still signs the user in, and no failure banner shows.
- `SignupPage.FourEmojiPasswordLongEnough`: the length rule counts UTF-16 code units, so four emoji pass the 8-character minimum.
- `TaskManager.ShapeCheckedOnMount`: the source loads any stored array of objects without checking the task fields.
- `src/components/BlogInput.tsx` uses `BookOpen` (line 133), `Sparkles` (line 148) and `Copy` (line 230) but imports only `FileText` and `Zap` (line 3). As written, the component fails when it first renders. The model covers its logic as if the icons were imported.
