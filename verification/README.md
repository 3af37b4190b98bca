# The stateful cores of i3-aiwr, in Dafny

A model of the parts of the window manager i3 (in its i3-aiwr variant) whose
correctness depends on several functions and on mutable state together, with
proofs of what they keep over every call and over whole runs.

**Containers.** Every object on screen is a `Con`: a parent, an ordered list of
tiling children, a list of floating ones, and a separate focus order over both.
`TailQueue` treats the intrusive tail queues of `queue.h` on their real
pointers, head and entry sharing one layout as the backward macros assume.
`Containers` defines the heap record `Con`, its contents as a value (`Node`) and
a forest of them (`Forest`). For each operation there is a function on forests
with its laws (`Attachment`, `WorkspaceAttach`, `Focus`, `Swapping`,
`Encapsulation`, `Urgency`, `FocusUrgency`, `Activation`, `Showing`,
`Fullscreen`), and a method on the heap proved to compute it (in the same module
or in `ContainerOps`, `FocusOps`, `SwapOps`, `WrapOps`, `UrgencyOps`,
`Workspaces`, `Floating`, `FullscreenSearch`). `TreeRuns` and `WindowRuns` put
the operations together: what they keep over every run. `con_swap` is followed
furthest: `TreeQueues` down to the pointers of all queues of the tree,
`SwapUrgency`, `SwapFocus` and `SwapFocusOps` through its change of focus to the
urgency flags, `SwapModes` and `SwapWhole` to the fullscreen modes.
`SwapSplits`, `FullscreenRooms` and `FloatingSwap` hold the concrete trees.

**Animation clock.** `AnimationClock` is the re-entrant slot table: callbacks
are arbitrary finite scripts of calls, nested to any depth, and every event an
owner can see goes to a log. `AnimationSteps` shows that each call keeps every
animation's story consistent with the table, `AnimationRuns` states what holds
over all runs, `AnimationCalls` what each single call does, and `ClockOps` is the
table updated in place. `Bezier` and `Curves`
are the curve solver, in exact reals, and the table of curves; the convention is
section 2.2 of CSS Easing Functions Level 1.

**Layout arithmetic.** `Percent`, `PercentOps`: shares of a container among its
children. `Gaps`, `GapsOps`: the gaps command; `GapCommands` tells side by side
what each one sets.

**Input.** `ParseString`, `ParserStack`, `CommandParser`, `CommandParserOps`:
the command parser over an arbitrary token table and arbitrary commands;
`CommandTokens` states what a line a user types is read as, `CommandRuns` and
`CommandSplit` what holds of every line. `Bindings`, `BindingOps`: press and
release bindings. `Placeholders`: title formats.

Check everything with `dafny verify dfyconfig.toml`.

## Findings

Each is a lemma with an input that shows it, next to one that says exactly when
the expected property does hold.

- `con_swap` sends the hints of both containers up from their new places. When
  the container that has the focus by then is one of the two and an urgent split,
  `con_set_urgency` returns at once and its new parents stay unflagged
  (`SwapSplits.SwapFlagsCanFail` on one workspace,
  `SwapSplits.SwapFlagsCanFailAcross` on two; exactly when:
  `SwapFocus.SwapFlags`).
- `con_swap` then exchanges the fullscreen modes by two calls, the second of
  which can undo the first: swapping a global container with one fullscreen on
  its output leaves neither global (`FullscreenRooms.SwapLosesGlobal`). Exactly
  when the modes are exchanged: `SwapWhole.SwapExchangesModes`. For floating
  windows it matters that the first call raises the second container, as
  `FloatingSwap.RaiseSavesMode` shows.
- `con_fix_percent` gives several children without a share unequal ones, since
  the total it divides grows in between (`Percent.LaterNewcomersGrow`; exactly
  when they are equal: `Percent.NewcomersEqual`).
- Enabling fullscreen on an output disables only a global fullscreen container
  if there is one, so a second container of the workspace can stay fullscreen
  (`FullscreenRooms.TwoOnOneOutput`; exactly when not:
  `Fullscreen.EnableOnOutput`).
- Outer plus inner gap of a workspace can become negative when a side is set or
  lowered for all workspaces (`Gaps.EffectiveCanBeNegative`,
  `Gaps.MinusCanBeNegative`; exactly when not: `Gaps.UpdateForAll`).
- A press stops marking release bindings once it has found a press binding and
  one more release binding, although the comment in the loop says it goes on to
  mark those needed (`Bindings.LaterReleaseUnmarked`; exactly when:
  `Bindings.MarkedUnlessStopped`).
- A limit of `format_placeholders` as a library function: its two passes agree on
  names that start with `%` (`Placeholders.PassesAgree`), and with any other name
  need not (`Placeholders.OtherNamesDisagree`). Its one caller passes a fixed
  table of `%` names (src/con.c:2577-2584).
- The layout test at src/con.c:2046 is always true (`|| L_SCROLLING`), so
  `WrapOps.ConSetLayout` has no such test. README.md:304 says that a spring's
  `speed` divides its settle time; the code never uses it, and neither does
  `Curves.Registry.DefineSpring`.

## Model

| member | source | states |
|---|---|---|
| TailQueue.Init | include/queue.h:360-364 | an initialised head is an empty queue |
| TailQueue.First | include/queue.h:336 | the first entry of the sequence, or null |
| TailQueue.Last | include/queue.h:339-340 | the double indirection through tqh_last, which reads an entry as if it were a head, returns the last entry, or null when empty |
| TailQueue.Next | include/queue.h:338 | the entry's successor, or null |
| TailQueue.Prev | include/queue.h:342-343 | the double indirection through tqe_prev returns the predecessor, or null for the first entry |
| TailQueue.InsertHead | include/queue.h:366-374 | all next/prev/last pointers form the queue with the entry in front |
| TailQueue.InsertTail | include/queue.h:376-382 | ... with the entry at the end |
| TailQueue.InsertAfter | include/queue.h:384-392 | ... with the entry right after the given one |
| TailQueue.InsertBefore | include/queue.h:394-400 | ... with the entry right before the given one, found without the head |
| TailQueue.Remove | include/queue.h:402-411 | ... without the entry, whose own pointers stay |
| TailQueue.Replace | include/queue.h:413-423 | ... with the other entry in its place |
| TailQueue.SwapAdjacent | include/queue.h:426-437 | ... with the two consecutive entries exchanged |
| TailQueue.SwapByMoves | src/con.c:2647-2660 | taking two non-adjacent entries out and putting each behind the other's remembered predecessor exchanges exactly their two positions |
| TailQueue.SwapWithin | src/con.c:2637-2661 | in one list, adjacent either way round or apart: the pointers form the queue with the two entries exchanged |
| TailQueue.SwapAcross | src/con.c:2637-2661 | in two lists: both queues with each entry in the other's position |
| TailQueue.SwapConsInTree | src/con.c:2637-2661 | either way, every queue given is the old one with the two entries exchanged |
| TreeQueues.ListsApart | include/data.h:748-803 | no two of the queues of all containers, children, floating ones and focus orders, have a link in common |
| TreeQueues.SwappedQueue | src/con.c:2637-2663 | exchanging the links of the two containers in every queue gives the queues of the swapped forest |
| TreeQueues.SwapQueues | src/con.c:2637-2663 | on the pointers alone: if every list of the tree is on its queue, then after both macro calls every list of the swapped tree is on its own |
| DockOrder.ClientOrder | src/con.c:154-157 | comparing class, then instance, is antisymmetric and transitive, absent strings included |
| DockOrder.CompareMeans | src/con.c:154-157 | the comparison is 0 exactly for equal texts up to letter case, and negative exactly when at the first difference the first text ends or has the smaller letter |
| DockOrder.ClientBefore | src/con.c:154-157 | a client sorts before another by class, and by instance only if the classes are equal; without a class it sorts first |
| DockOrder.DockOrderKept | src/con.c:147-169 | dock clients stay sorted by class and instance however they arrive |
| Attachment.WorkspaceOrderKept | src/con.c:119-145 | numbered workspaces stay in ascending order ahead of the unnumbered ones, and a newcomer follows those of its own number |
| Attachment.AttachKeeps | src/con.c:110-224 | attaching a loose container that is not above its new parent keeps the tree well formed, whatever index it lands on |
| Attachment.AttachBehindFocused | src/con.c:171-213 | an ordinary container attached with the focus in mind directly follows the first tiling entry of the parent's focus list |
| Attachment.AttachBehindPrevious | src/con.c:171-213 | without such an entry, or with ignore_focus, it directly follows the container it was asked to follow |
| Attachment.AttachLast | src/con.c:171-213 | with neither, and always on an output, it is the last child |
| Attachment.AttachElsewhere | src/con.c:110-224 | in the lists it joins the others keep their order, it is last in the focus order, and no other container changes |
| Attachment.DetachKeeps | src/con.c:244-253 | detaching keeps the tree well formed and leaves the container in nobody's lists |
| Attachment.DetachUndoes | src/con.c:110-253 | detaching what was just attached, at whatever index, gives back every list |
| Attachment.DetachElsewhere | src/con.c:244-253 | it leaves its parent's lists only, where the others keep their order |
| ContainerOps.FindWorkspaceSlot | src/con.c:119-143 | the walk over the workspaces finds the slot the order asks for |
| ContainerOps.FindDockSlot | src/con.c:147-167 | the loop finds the first client that sorts after the new one |
| WorkspaceAttach.ConAttach | src/con.c:110-224 | the heap after the call is the attached forest: one parent, one child list and one focus list change, the focus entry goes last; for a window on a workspace with a layout for windows it is the forest with a new split between the two |
| WorkspaceAttach.AttachInsideKeeps | src/workspace.c:1006-1031 | then the tree is well formed, the window is alone in the new split, which has that layout and is last in the workspace's focus order |
| WorkspaceAttach.SplitFollows | src/workspace.c:1006-1031 | on a workspace with windows the new split directly follows the most recently focused tiling child |
| WorkspaceAttach.NextWindowSplit | src/con.c:2039-2045 | after con_set_layout on an empty workspace the next window is alone in a split of the layout asked for, if that is stacked, tabbed or scrolling |
| WorkspaceAttach.NextWindowPlain | src/con.c:2039-2045 | for any other layout it gets no split of its own |
| WorkspaceAttach.SplitShares | src/workspace.c:1027-1028 | and the workspace's children, the split among them, have positive shares with sum exactly 1 |
| ContainerOps.ConDetach | src/con.c:244-253 | the heap after the call is the detached forest |
| TreeRuns.StepKeeps | src/con.c:110-285 | each of create, attach, attach through workspace_attach_to, detach, focus, swap and workspace wrapping keeps the tree well formed |
| TreeRuns.StepMeans | src/con.c:110-285 | each step of a run does what its operation is for: the container comes below the parent, leaves all lists, heads the focus orders, trades parents, or the workspace's children get a split of the layout |
| TreeRuns.RunsKeepTree | src/con.c:110-285 | in every state of every run: parents agree with list membership, no cycles, and each focus list is a permutation of the tiling plus floating children |
| TreeRuns.InOneList | src/con.c:171-222 | an attached container is in exactly one of its parent's two child lists and in no other container's |
| Focus.FocusUpLists | src/con.c:260-270 | after con_focus each container on the way up heads its parent's focus list, all other entries keep their relative order, and no other list changes |
| Focus.DescendReturns | src/con.c:260-272 | after con_focus(c), con_descend_focused from c or any ancestor returns c |
| Focus.DescendLeads | src/con.c:1713-1719 | con_descend_focused steps from each container to its most recently focused child, until it meets the focus or a container without children |
| Focus.NextFocusedOutside | src/con.c:1677-1704 | con_next_focused is the parent or lies inside a sibling, never the container itself or anything inside it |
| Focus.NextFocusedAlone | src/con.c:1677-1704 | without a sibling it is the parent |
| Focus.NextFocusedLeads | src/con.c:1677-1704 | otherwise the leaf at the end of the most recently focused children, starting from the first other entry of the parent's focus list |
| Focus.ContentFirst | src/con.c:1655-1676 | for a dock client the search starts at the first plain child of its output |
| Focus.NextFocusedSurvives | src/con.c:1671-1705 | so the result keeps its whole line of ancestors when the container is detached |
| FocusOps.ConDescendFocused | src/con.c:1713-1719 | the loop ends, inside the container it started from, at the specified descendant |
| FocusOps.ConNextFocused | src/con.c:1671-1705 | the heap version returns the specified successor, for a dock client the focused descendant of its output's content; either way it lies outside the container's subtree |
| FocusUrgency.FocusKeepsExact | src/con.c:260-283 | con_focus in full on any container, taking back the hint of an urgent leaf included, keeps every flag below the workspaces exact |
| FocusUrgency.FocusLeads | src/con.c:260-283 | afterwards every container above the focus has the one below it first in its focus list |
| FocusUrgency.FocusTakesHint | src/con.c:272-283 | it takes the hint of the leaf that gets the focus, unless its timer runs, and of no other leaf |
| FocusUrgency.ConFocusFully | src/con.c:260-283 | the heap after con_focus on any container: focus lists raised, then the focused leaf's hint taken back and its ancestors' flags recomputed twice |
| Swapping.SwapTwice | src/con.c:2637-2677 | performing the exchange twice is the identity on all containers |
| Swapping.ContentsGo | src/con.c:2637-2677 | window, children, layouts, flags, timer and mode go with each container; in focus orders each stands where the other stood |
| Swapping.PlacesKept | src/con.c:2637-2677 | every place in every child list keeps its share, geometry, floating state and parent; its occupant changes only from one of the two to the other |
| Swapping.SwapKeeps | src/con.c:2605-2677 | swapping two unrelated containers keeps the tree well formed, both attached |
| SwapOps.ConHasParent | src/con.c:746-757 | true exactly for proper ancestors |
| SwapOps.ApartMoves | src/con.c:2647-2660 | on the sequences too: when neither container directly follows the other in their common list, taking both out and putting each behind what was before the other exchanges the two; AcrossMoves and AdjacentMoves say the same of two lists and of neighbours |
| SwapOps.Exchange | src/con.c:2637-2677 | the heap after the macro's steps on both pairs of lists, in each of its branches, and the field swaps is the swapped forest |
| SwapOps.Accepts | src/con.c:2605-2623 | accepted exactly for two distinct regular containers neither above the other |
| PercentOps.SwapKeepsShares | src/con.c:2675-2705 | every child list shows the same percentages in the same order after a swap, so the two closing con_fix_percent calls do what they would have done before it |
| Urgency.UrgentChildMeans | src/con.c:2391-2407 | below the workspaces the recursive search finds an urgent child exactly when some leaf under the container is urgent |
| Urgency.UpdateParentsEffect | src/con.c:2414-2438 | updating the ancestors changes flags only, and no answer to which leaves are urgent under what |
| Urgency.FlagAfter | src/con.c:2414-2438 | the exact flag of every container after the update |
| Urgency.SetLeafKeepsExact | src/con.c:2444-2467 | con_set_urgency on a leaf keeps every split container's flag equal to "some leaf under it is urgent", whether the hint is set, cleared, ignored for the focused container, or held back by a timer |
| Urgency.HintTaken | src/con.c:2444-2467 | the leaf has the hint it was given, unless it is the focused one being set or its timer runs; no other leaf changes |
| UrgencyOps.ConHasUrgentChild | src/con.c:2391-2407 | the heap search decides the specified predicate |
| UrgencyOps.ConUpdateParentsUrgency | src/con.c:2414-2438 | the loop, which recomputes on flags it is itself rewriting, ends in the forest updated all at once |
| UrgencyOps.ConSetUrgency | src/con.c:2444-2467 | the heap after the call is the specified one, and unchanged when the hint is ignored |
| SwapUrgency.SwapAlmostExact | src/con.c:2637-2677 | right after the exchange only flags above the two places can be wrong, and those are still right about urgent leaves elsewhere |
| SwapFocusOps.FindRestored | src/con.c:2625-2635 | what is to be focused afterwards: the focused container if all is on one workspace, otherwise whichever comes to the place of the one with the focus in it, otherwise nothing |
| SwapFocusOps.ConSwap | src/con.c:2600-2685 | refused with nothing touched, or: places exchanged, that container focused in full, then both hints sent up |
| SwapFocus.SwapFlags | src/con.c:2625-2685 | told of the state before the call: all flags end up exact if and only if, when the container focused at the end is one of the two and an urgent split, every container above the place it comes to was flagged already |
| SwapFocus.SwapWindows | src/con.c:2625-2685 | so swapping two leaves always leaves all flags exact |
| SwapSplits.SwapFlagsCanFail | src/con.c:2625-2685 | a concrete tree, on one workspace with the focus on an urgent split, after which its new parent stays unflagged |
| SwapSplits.SwapFlagsCanFailAcross | src/con.c:2625-2685 | another across two workspaces, where the focus comes to the urgent split by the swap itself |
| SwapModes.ExchangeModes | src/con.c:2687-2700 | the heap and the focus after the calls that exchange fullscreen modes, with all the focusing, raising and showing they do: one call for the second container, then one for the first |
| SwapModes.ModesExchanged | src/con.c:2687-2700 | the first container always gets the second's mode; the second one's new mode is lost exactly for modes global and output, and for output and global when a search of the first one's workspace, once the floating container around the second has been raised, meets the second before any that was fullscreen there; tree, focus, exact flags and at most one global container are kept |
| SwapWhole.SwapExchangesModes | src/con.c:2600-2700 | the same told of the state before con_swap: its change of focus and its hints do not matter to it |
| SwapWhole.ConSwap | src/con.c:2600-2700 | the heap and the focus after all of con_swap up to its closing con_fix_percent calls, or nothing touched when it refuses |
| SwapWhole.FocusAfterSwap | src/con.c:2625-2712 | after every accepted swap the focus is where it was, if all were on one workspace or it was in neither container, and otherwise on the other container, which stands at the index and under the parent of the one that had it |
| SwapWhole.FocusKeepsWorkspace | src/con.c:2625-2712 | it is on the workspace it was on before if and only if no swapped container holds a workspace of its own with the focus on it |
| SwapWhole.FocusStaysOnWorkspace | src/con.c:2625-2712 | so it always is when windows and splits are swapped |
| SwapWhole.FocusAfterModes | src/con.c:2683-2699 | the focus after the modes have been exchanged as well: with equal modes it stays, otherwise the second container can draw it as it gets the first one's mode, and then the first one as it gets the second's |
| SwapWhole.SwapKeepsWorkspace | src/con.c:2600-2700 | so over the whole call, unless one of the two is global, the workspace with the focus stays that on the same terms |
| SwapWhole.SwapPlaces | src/con.c:2600-2700 | after the whole call each of the two is below the other's former parent at the other's former index |
| SwapWhole.SwapKeepsExact | src/con.c:2600-2700 | when neither hint gets lost as SwapFlags tells, all flags are exact after the modes have been exchanged as well |
| SwapWhole.MetLevels | src/con.c:617-648 | who is met first follows from depth: the second is if it is less deep than all others, and is not if one is less deep than it |
| FloatingSwap.RaiseSavesMode | src/con.c:1300-1301 | between two floating windows: right after the exchange a search would meet the second first, but enabling it raises its floating container, the search then meets the first, and the modes are exchanged |
| FullscreenRooms.SwapLosesGlobal | src/con.c:2687-2700 | a concrete run of two calls after which swapping the globally fullscreen container with one fullscreen on its output leaves neither global |
| Encapsulation.RefillExact | src/con.c:1070-1078 | the loop whose bound grows reads inside the saved array exactly when enough entries are not skipped, and then restores the first of those in their saved order |
| Encapsulation.WrapOrders | src/con.c:2046-2072 | the new split takes all tiling children in their order, its focus order is the workspace's without the floating ones, obtained without reading past the saved array; the floating list is untouched |
| Encapsulation.WrapKeeps | src/con.c:2046-2072 | the tree stays well formed |
| Encapsulation.WrapSplit | src/con.c:2047-2072 | the new split has the layout asked for, the workspace as its parent and the split layout remembered; the moved children change in nothing but their parent, and no other container changes |
| Encapsulation.WrapFocus | src/con.c:2058-2072 | the tiling children keep their focus order in the split, the floating ones theirs on the workspace, followed by the split |
| Encapsulation.LaidOutLayout | src/con.c:2029-2115 | the container's own layout after con_set_layout, with what default falls back to |
| Floating.ConInsideFloating | src/con.c:708-726 | the floating container that the first container on the way up that settles it names, null if that is not floating and at the top of the tree |
| WrapOps.GetFocusOrder | src/con.c:1041-1052 | the saved array is the focus list |
| WrapOps.SetFocusOrder | src/con.c:1061-1079 | for a workspace the saved entries, otherwise those not inside a floating container, up to the old length |
| WrapOps.ConSetLayout | src/con.c:2024-2072 | on a workspace with children, detaching and attaching them one by one, restoring the focus order and attaching the split gives exactly the wrapped forest; an empty one gets the layout, kept for windows to come if it needs a split |
| FullscreenSearch.BreadthFirstOrder | src/con.c:617-648 | the order in which the search visits a tree has each of its containers once, none before one that is less deep |
| FullscreenSearch.ConGetFullscreenCon | src/con.c:612-651 | the search ends, returns null exactly when no proper descendant has the mode, and otherwise the first that does in that order |
| FullscreenSearch.FirstHitShallowest | src/con.c:612-651 | which is one of the least depth |
| Workspaces.ConGetWorkspace | src/con.c:560-566 | the nearest workspace on the way up, or null |
| Workspaces.WorkspaceNearest | src/con.c:560-566 | there is one exactly if a workspace is the container or above it, and then none of those is inside it but itself |
| Activation.ConRaise | src/con.c:292-297 | the heap after the call: the floating container around the given one is last in its workspace's floating list, or nothing changed |
| Activation.RaiseMeans | src/con.c:292-297 | the innermost floating container around it, with no workspace and no output in between, is last of its parent's floating children; the others keep their order and nothing else changes |
| Activation.RaiseNothing | src/con.c:292-297 | without one nothing changes |
| Activation.ConActivate | src/con.c:303-306 | the heap after con_focus and con_raise |
| Activation.ActivateKeeps | src/con.c:292-306 | activating changes no fullscreen mode, and of the lists of children only what raising changes |
| Activation.ActivateLeads | src/con.c:303-306 | descending from any container above the one activated ends at it |
| Activation.ActivateTakesHint | src/con.c:260-306 | the leaf activated loses its hint, unless its timer runs, and no other leaf does |
| Showing.WorkspaceShow | src/workspace.c:438-561 | the heap and the focus after the call: one visible workspace on the output, the focus on what has it there, an urgent container's hint kept while a timer runs |
| Showing.ShowMeans | src/workspace.c:462-527 | of the workspaces beside it only this one is visible; the focus stays if it was there, and otherwise goes to where descending from the workspace ends |
| Showing.ShowLeads | src/workspace.c:506-527 | descending from any container above the focus ends at it |
| Showing.ShowHints | src/workspace.c:501-527 | the window focused loses its hint, unless that is deferred or its timer runs, and no other window does; a deferred one gets a timer and flags the workspace |
| Showing.ShowKeepsExact | src/workspace.c:462-527 | every flag below the workspaces stays exact, with the hint deferred or not |
| Fullscreen.ConEnableFullscreen | src/con.c:1262-1305 | the heap and the focus after the call: one conflicting container off, workspace and focus changed and changed back as the mode asks, this one on, or nothing changed |
| Fullscreen.ConDisableFullscreen | src/con.c:1313-1327 | the mode is off, workspaces excepted |
| Fullscreen.ConToggleFullscreen | src/con.c:1206-1219 | enables from off, disables from any mode |
| Fullscreen.EnableFocus | src/con.c:1262-1305 | the container enabled gets the focus, if for all outputs or on the focused workspace; otherwise the focus stays, and descending from its workspace comes to it; for all outputs its workspace is made visible |
| Fullscreen.ToggleMeans | src/con.c:1206-1219 | off from any mode, the mode asked for from off, and a workspace is left alone |
| Fullscreen.TurnedEffect | src/con.c:1284-1304 | nobody moves but floating containers within their list; of the windows only the conflicting one and this one change modes |
| WindowRuns.RunsKeep | src/con.c:260-2700 | in every state of every run of focusing, activating, showing workspaces, hints, enabling, disabling, toggling and swapping: the tree is proper with the focus in it, and at most one container below the root is globally fullscreen |
| WindowRuns.FocusMeans | src/con.c:260-306 | a step of a run for con_focus, con_activate or workspace_show moves the focus to the container, with every focus list above leading to it, or onto the workspace |
| WindowRuns.HintMeans | src/con.c:2444-2467 | one for a hint gives the window that hint, unless it has the focus or a timer runs, and moves no focus |
| WindowRuns.ModeMeans | src/con.c:1206-1327 | one for fullscreen gives the container the mode asked for, takes it, or turns it round |
| WindowRuns.SwapMeans | src/con.c:2600-2712 | one for a swap puts each of the two in the other's place, or changes nothing when con_swap refuses |
| WindowRuns.RunsFlag | src/con.c:260-2700 | in every state of every such run, every split below the workspaces is flagged exactly when an urgent window is in it, provided no swap on the way lost a hint as SwapFlags tells |
| Fullscreen.EnableOnOutput | src/con.c:1284-1290 | a workspace with at most one CF_OUTPUT container keeps that property if and only if no global container exists or the workspace had none |
| FullscreenRooms.TwoOnOneOutput | src/con.c:1284-1290 | a concrete run of three calls, from a tree with no window fullscreen, after which a workspace has two |
| AnimationClock.Progress | src/aiwr_anim.c:77-80 | progress is within [0, 1], and exactly 1 from the end of the duration on |
| AnimationCalls.ProgressShare | src/aiwr_anim.c:77-80 | from start to end progress times the duration is the time run |
| AnimationCalls.StartBegins | src/aiwr_anim.c:144-179 | a start with a length makes the new id alive from then, for its curve's natural length or else the one asked for, and changes nobody else |
| AnimationCalls.StartAtOnce | src/aiwr_anim.c:144-159 | without one it does what its step and completion callbacks ask for, in that order, and nothing else |
| AnimationCalls.CancelEnds | src/aiwr_anim.c:181-187 | after a cancel nobody is alive under the id; if one was the log is longer by its cancellation, otherwise nothing changed, and everybody else is as before |
| AnimationCalls.FinishEnds | src/aiwr_anim.c:189-198 | a finish of a live animation ends it, with a last step at 1 directly followed, but for what that step's callback does, by its completion or cancellation |
| AnimationCalls.FinishNothing | src/aiwr_anim.c:189-198 | of any other it does nothing |
| AnimationCalls.CompletionCalls | src/aiwr_anim.c:74-89 | an animation at its end is stepped at 1 and completed, and what its completion callback starts is alive |
| AnimationCalls.CancelledInStep | src/aiwr_anim.c:82-86 | one that cancels itself in its step is not completed |
| AnimationSteps.DoKeeps | src/aiwr_anim.c:144-198 | whatever calls the callbacks make in turn, each start, cancel and finish keeps every animation's story consistent with the slot table |
| AnimationSteps.CompactedKeeps | src/aiwr_anim.c:51-58 | compaction keeps exactly the active slots in their order, and changes who is alive for nobody |
| AnimationSteps.TickIdle | src/aiwr_anim.c:66-107 | a tick during which callbacks start, cancel and finish at will leaves every stored slot active, ids distinct, and the timer running exactly when the table is non-empty |
| AnimationSteps.DoIdle | src/aiwr_anim.c:144-198 | so does every call between ticks |
| AnimationRuns.RunsRest | src/aiwr_anim.c:51-106 | over every run: between calls all stored slots are active, live ids are distinct, the timer runs exactly when something is stored |
| AnimationRuns.RunSteps | src/aiwr_anim.c:66-198 | every call of a run is made, on what the ones before it left |
| AnimationRuns.RunsTellStories | src/aiwr_anim.c:66-198 | over every run: nothing happens to an animation after its completion or cancellation (so it completes at most once, and never after a cancel), completion directly follows a step of progress exactly 1, every step is within [0, 1] and follows the start |
| AnimationRuns.RunsAccountForAll | src/aiwr_anim.c:144-198 | over every run each animation started is exactly one of alive, completed, cancelled |
| AnimationRuns.TickSteps | src/aiwr_anim.c:72-89 | a tick steps each animation at most once, with the progress its start and duration give, and none that was created during it |
| AnimationRuns.TickReaches | src/aiwr_anim.c:72-89 | an animation alive after a tick was stepped by it and had time left; so the first tick at or after its end ends it |
| ClockOps.SlotTable.SlotById | src/aiwr_anim.c:41-47 | the loop finds the first active slot of that id |
| ClockOps.SlotTable.Compact | src/aiwr_anim.c:51-58 | sliding in place yields the compacted table, and nothing during a tick |
| ClockOps.SlotTable.Start | src/aiwr_anim.c:144-179 | the table after the call and the id returned, 0 when the end state is reached at once |
| ClockOps.SlotTable.Cancel | src/aiwr_anim.c:181-187 | the clock after the call is the specified one |
| ClockOps.SlotTable.Finish | src/aiwr_anim.c:189-198 | the clock after the last step, the completion and whatever their callbacks did |
| ClockOps.SlotTable.Tick | src/aiwr_anim.c:66-107 | the walk over the slots present at the start, each re-read by index after every callback, is the specified tick |
| Bezier.Slope | src/aiwr_bezier.c:104-108 | with both control points in [0, 1] the curve's x rises by at most 3 per unit of its parameter |
| Bezier.Construction | src/aiwr_bezier.c:105-108 | the polynomial is what dividing the control polygon again and again comes to, from 0 by way of the first and then the second control value to 1 |
| Bezier.Tangent | src/aiwr_bezier.c:110-113 | the slope is the curve's derivative: the curve rises with it up to a multiple of the square of the distance |
| Bezier.RoundMeets | src/aiwr_bezier.c:117-125 | a round of Newton goes to where the tangent meets p, or to the nearer end of [0, 1] |
| Bezier.Range | src/aiwr_bezier.c:104-108 | the curve stays within the least and the greatest of 0, 1 and its two control values |
| Bezier.BracketSolves | src/aiwr_bezier.c:127-134 | 24 halvings of an interval that encloses a solution leave the middle within 1e-6 of it in x |
| Bezier.Newton | src/aiwr_bezier.c:116-126 | goes on from one parameter to the next for at most eight rounds, ending at the first that is a solution or has a flat tangent, always within [0, 1] |
| Bezier.Bisect | src/aiwr_bezier.c:127-134 | always ends with a parameter whose x is within 1e-6 of p |
| Bezier.BezierEval | src/aiwr_bezier.c:115-136 | whichever of the three ways it ends, the result is Y(t) for some t in [0, 1] with X(t) within 1e-6 of p; hence within the range of the control values, and within 1e-6 of p when y is x |
| Curves.Defines | src/aiwr_bezier.c:55-75 | a definition changes what its own name means, in any letter case, and no other name's meaning; no two entries share a name |
| Curves.Registry.Define | src/aiwr_bezier.c:90-100 | refuses only the empty name; x coordinates are clamped to [0, 1], y coordinates free |
| Curves.Registry.DefineSpring | src/aiwr_bezier.c:174-194 | refuses empty names and non-positive stiffness; defaults replace other non-positive numbers; the settle time is that of the oscillator so described |
| Curves.SettleTime | src/aiwr_bezier.c:165-172 | from the settle time to the ten second limit no sample is further than epsilon from the end, and the sample before is, unless it is the first; the time is positive and at most ten seconds |
| Curves.CurveEval | src/aiwr_bezier.c:297-312 | every curve is exactly 0 at or before its start and exactly 1 at or after its end; without a curve the value is strictly ahead of linear time in between; bezier curves are solved as above |
| Percent.FixTotal | src/con.c:1154-1198 | on a non-empty container all shares end up positive with sum exactly 1 |
| Percent.FixRatios | src/con.c:1162-1197 | children that had a share are all divided by the same number |
| Percent.FixTwice | src/con.c:1154-1198 | running it again changes nothing |
| Percent.SingleNewcomer | src/con.c:1175-1185 | one child without a share among n gets exactly 1/n |
| Percent.NewcomersEqual | src/con.c:1176-1183 | several children without a share end up equal if and only if no child had one |
| Percent.LaterNewcomersGrow | src/con.c:1176-1183 | otherwise each later one gets strictly more |
| Percent.ResizeConserves | src/commands.c:483-537 | a width or height resize conserves the total and leaves every share positive, whether it succeeds or is refused |
| Percent.ResizeMoves | src/commands.c:482-537 | on success the current child's share is its old one plus the percentage, and each other one's less an equal part of it; otherwise missing shares are filled in and that is all |
| Percent.ResizeRefused | src/commands.c:482-537 | it is refused if and only if the current child would shrink below one of its pixels, or is to grow and another would end below one |
| Percent.ResizeThenFix | src/commands.c:483-537 | after it con_fix_percent has nothing to do |
| PercentOps.ConFixPercent | src/con.c:1154-1198 | the loops over the children compute the specified shares, and nothing on a scrolling container |
| PercentOps.ResizeWidthHeight | src/commands.c:483-537 | success or refusal and the resulting shares are the specified ones, once the search (src/resize.c:125-176) has found a sibling |
| Gaps.CommandKeeps | src/commands.c:2507-2567 | each gaps command keeps all four gap invariants, for every workspace and side |
| GapCommands.CommandSets | src/commands.c:2423-2567 | a command for outer gaps sets each side it names, for the current workspace or for all, to the amount its mode makes of the old one, and no other side |
| GapCommands.CommandSetsInner | src/commands.c:2423-2567 | one for inner gaps sets those and limits each outer side anew |
| GapCommands.CommandRefuses | src/commands.c:2423-2567 | one with an unknown word changes nothing |
| Gaps.RunKeeps | src/commands.c:2423-2567 | over every sequence of commands and changes of focus: global inner >= 0, global plus own inner >= 0, each global side >= -global inner, own plus global side plus global inner plus max(0, own inner) >= 0 |
| Gaps.RunSteps | src/commands.c:2423-2567 | every command of a sequence is carried out, on what the ones before it left |
| Gaps.RelimitAll | src/commands.c:2514-2521 | the four no-op updates after an inner change restore all outer invariants from any state whose inner gaps are within bounds |
| Gaps.UpdateForAll | src/commands.c:2453-2464 | after setting, adding, subtracting or toggling a side for all, outer plus inner gap of a workspace is non-negative if and only if its own inner gap is, or the limited value on top of what it keeps of its own covers both inner gaps |
| Gaps.SetForCurrent | src/commands.c:2458-2464 | setting for the current workspace always leaves outer plus inner gap non-negative |
| Gaps.EffectiveCanBeNegative | src/commands.c:2453-2464 | three commands after which the invariants hold and yet a workspace's gaps add up to -5 |
| Gaps.MinusCanBeNegative | src/commands.c:2453-2464 | subtracting for all does the same from a state within the invariants |
| GapsOps.GapsUpdate | src/commands.c:2423-2501 | the nested loops over outputs and workspaces compute the specified state in place |
| GapsOps.CmdGaps | src/commands.c:2507-2567 | so does each command, stopping at the first update that fails |
| Bindings.PressThenRelease | src/bindings.c:281-292 | the first release binding a press matches is marked, so releasing that key triggers a release binding at or before it whatever the modifiers are by then |
| Bindings.TriggersExactly | src/bindings.c:227-308 | a press binding, or an unmarked release binding, is triggered only with exactly the modifiers of one of its keycodes, a marked one with any; neither by an event of the other kind |
| Bindings.PressMarks | src/bindings.c:210-292 | a press marks a release binding of its input type exactly if it matches and the search did not stop before it, unmarks the others, and changes nothing else |
| Bindings.PressMeans | src/bindings.c:210-292 | a press is for the bindings of the current mode only |
| Bindings.SwitchMeans | src/bindings.c:639-666 | switching goes to the first mode of the name with its bindings unmarked, and without one does nothing |
| Bindings.LaterReleaseUnmarked | src/bindings.c:288-291 | a later one can be left unmarked: behind a matching press binding and another matching release binding the loop stops |
| Bindings.MarkedUnlessStopped | src/bindings.c:281-292 | a matching release binding is marked if and only if no other matching release binding lies between it and a matching press binding before that |
| Bindings.RunsRemember | src/bindings.c:210-308 | over every run of presses, releases and mode switches a marked binding of the current mode matched key, modifiers and groups of the latest press of its input type |
| Bindings.RunSteps | src/bindings.c:210-308 | every input of a run is handled, on what the ones before it left, and a release changes nothing |
| Bindings.RunsRelease | src/bindings.c:227-308 | so a release event only triggers a release binding that it matches itself or whose own press was the latest of its type |
| BindingOps.FoundKeycode | src/bindings.c:241-276 | decides whether the key matches, by symbol with an eight-bit keycode or by keycode |
| BindingOps.PressBinding | src/bindings.c:210-308 | returns the first matching press binding only, and marks exactly the matching release bindings the search reaches |
| BindingOps.ReleaseBinding | src/bindings.c:227-308 | returns the first matching release binding, never a press binding, and changes nothing |
| BindingOps.ResetAll | src/bindings.c:656-663 | switching modes unmarks every binding of the new mode |
| ParseString.ScanLands | src/commands_parser.c:95-146 | for every input, quoted or bare, the decoding loop consumes exactly the scanned range: it never splits an escape at its end |
| ParseString.QuotedRoundTrip | src/commands_parser.c:95-149 | any non-empty text, escaped and quoted anywhere in a line, is read back with the walk on the closing quote; the empty one reads as nothing |
| ParseString.BareRoundTrip | src/commands_parser.c:105-147 | a bare text without backslashes is read as it stands, up to the first character that ends a word or a string |
| ParseString.Scan | src/commands_parser.c:98-128 | stops at the first delimiter, or at the first quote no backslash stands for |
| ParseString.Decode | src/commands_parser.c:133-146 | the copy fits its buffer and is the decoded text |
| ParseString.Parse | src/commands_parser.c:95-149 | text and end position, and nothing exactly when the scanned range is empty |
| ParserStack.Stack.PushString | src/parser_util.c:18-45 | strings of one identifier are joined by commas in one place; refuses when the ten places are used up |
| ParserStack.StringJoins | src/parser_util.c:18-45 | a string joins the first entry of its identifier, behind a comma, and the other entries stay |
| ParserStack.StringAdds | src/parser_util.c:18-45 | without one it takes a place of its own among the ten, or is refused |
| ParserStack.Stack.PushNumber | src/parser_util.c:47-66 | a number takes a place of its own; refuses when there is none |
| ParserStack.Stack.Clear | src/parser_util.c:92-101 | all places are free |
| CommandParser.Try | src/commands_parser.c:197-277 | a token that is taken moves the walk strictly forward and at most one past the terminator, which only the end token reaches; one that is not leaves it within the line |
| CommandParser.Strtol | src/commands_parser.c:214-236 | an accepted number fits 64 bits and ends strictly further on, within the line |
| CommandTokens.NumberRoundTrip | src/commands_parser.c:214-236 | any decimal numeral, signed or not and behind white space or not, is read as the number it denotes up to its end, or not at all if 64 bits do not hold it |
| CommandTokens.LiteralTaken | src/commands_parser.c:201-211 | a literal is taken exactly where its text stands, in any letter case, and just that text |
| CommandTokens.NumberTaken | src/commands_parser.c:214-236 | a number taken goes onto the stack under its name |
| CommandTokens.NoNumber | src/commands_parser.c:214-226 | where no digit follows white space and a sign no number is read |
| CommandTokens.QuotedTaken | src/commands_parser.c:240-257 | a quoted text goes onto the stack under its name, for a word and for a string, and the walk goes past the closing quote |
| CommandTokens.BareTaken | src/commands_parser.c:240-257 | a bare word is taken up to what ends a word, and a bare string up to the end of its command |
| CommandTokens.LiteralKept | src/commands_parser.c:201-211 | a literal with a name is kept on the stack as the table spells it |
| CommandTokens.EndTaken | src/commands_parser.c:259-275 | a command ends at a comma, a semicolon or the end of the line, and nowhere else; only a comma leaves the criteria standing |
| CommandTokens.FirstFits | src/commands_parser.c:197-277 | of a state's tokens the first that fits is taken |
| CommandTokens.NoneFits | src/commands_parser.c:197-284 | if none fits the line is in error where it stands |
| CommandTokens.ErrorStands | src/commands_parser.c:187-356 | the walk is then left at the first character that is no blank, with the stack cleared and what was called so far kept |
| CommandTokens.CommandHeard | src/commands_parser.c:158-368 | a line of a word and a number calls the command exactly once, with that number, and is consumed to its end |
| CommandRuns.ParseTellsAll | src/commands_parser.c:158-368 | for every line, table and behaviour of the commands: each call saw exactly the criteria standing at that moment and at most ten arguments, needs_tree_render is the disjunction over the calls, a line without an error was consumed to its terminator, an error stands within the line |
| CommandRuns.CriteriaEndWithCommand | src/commands_parser.c:259-275 | every criterion a call saw was added by an earlier call with no semicolon in between |
| CommandSplit.SemicolonStartsAfresh | src/commands_parser.c:187-356 | a quote-free command before a semicolon is parsed as it would be alone, errors included; if it ends in the initial state, what follows starts from scratch but for the calls made and the render request |
| CommandParserOps.Parser.NextState | src/commands_parser.c:66-87 | the parser after a goto or a call is the specified one, the stack cleared on a call and on the initial state |
| CommandParserOps.Parser.TryState | src/commands_parser.c:197-277 | the loop over a state's tokens takes the first that fits; what a failed string consumed stays consumed |
| CommandParserOps.ParseCommand | src/commands_parser.c:158-367 | the loop ends, and outcome, render request and calls are the specified ones |
| Placeholders.ReadingRenders | libi3/format_placeholders.c:41-65 | any leftmost, first-in-table reading of the format renders to the substitution |
| Placeholders.ReadingExists | libi3/format_placeholders.c:41-65 | every format has such a reading |
| Placeholders.PassesAgree | libi3/format_placeholders.c:28-65 | with names that start with a percent sign the writing pass takes the same matches as the measuring one |
| Placeholders.PlainStays | libi3/format_placeholders.c:44-48 | a format without percent signs stays as it is |
| Placeholders.OtherNamesDisagree | libi3/format_placeholders.c:28-48 | with a table that has another name, which no caller passes, the measuring pass can compute less room than the writing pass uses |
| Placeholders.Measure | libi3/format_placeholders.c:28-39 | exactly the length of the substitution plus the terminator |
| Placeholders.Write | libi3/format_placeholders.c:41-67 | fills a buffer of the size of its output to the last place, with every intermediate terminator inside it |
| Placeholders.FormatPlaceholders | libi3/format_placeholders.c:21-69 | the two passes together return the substitution |

## Left out

- X11, cairo, pango, libev and IPC effects, logging, memory management, and
  redrawing flags: no part of the properties. Clock readings are parameters.
- Lists of a `Con` are sequence fields. That the macros keep pointers and
  sequence in step is proved in `TailQueue` for each macro, and in `TreeQueues`
  for con_swap and all queues of the tree at once; the other operations on the
  tree are not repeated on pointers.
- WorkspaceAttach.ConAttach: does not model a dock client without a window, nor a
  floating container attached to a dock area; the source dereferences the window
  and has no list for the latter.
- FocusUrgency.ConFocusFully: does not model a workspace's own urgent flag, which
  `con_focus` clears on the way up and `workspace_update_urgent_flag` recomputes,
  nor the viewport that a scrolling container keeps aside (src/con.c:284).
- FocusOps.ConNextFocused: a dock client needs an output with a content
  container, without which the source dereferences NULL.
- SwapFocusOps.ConSwap: ends after the urgency calls (src/con.c:2685) and, like
  `FocusUrgency.ConFocusFully`, leaves out the workspaces' own urgent flags.
- SwapWhole.ConSwap: goes on to the fullscreen modes; `PercentOps.SwapKeepsShares`
  covers the two calls after them, redrawing apart. It requires both containers
  below workspaces, which clients of dock areas are not.
- Activation.ConActivate: like `FocusUrgency.ConFocusFully`.
- Showing.WorkspaceShow: does not model closing the workspace that is left when
  it is empty, moving sticky windows along, the refusal of internal workspaces,
  or the workspace's own flag but where the hint is deferred. `Fullscreen` and
  `SwapModes` inherit this where they go to another workspace in global mode.
- UrgencyOps.ConSetUrgency: does not model the workspace's own flag or the time
  stamp in the window.
- WrapOps.ConSetLayout: covers the workspace branch up to `tree_flatten`; the
  branches for split containers are plain assignments. The children must not
  claim to be floating themselves, as only windows inside a CT_FLOATING_CON do.
- Fullscreen.ConEnableFullscreen: requires a workspace above the container, like
  the source. Besides a well-formed tree it requires what the window manager
  keeps of it: floating windows in listed floating containers, workspaces listed
  beside workspaces, no parent without a place in its lists.
- WindowRuns.RunsKeep: a hint is one for a window below a workspace. Containers
  do not come and go in these runs; `TreeRuns.RunsKeepTree` covers that.
- Fullscreen.EnableOnOutput: leaves out workspaces below a workspace, of which
  there are none.
- `_con_move_to_con`, `con_activate_unblock`, `con_merge_into`: dominated by
  workspace switching and marks.
- ClockOps.SlotTable.Finish: between ticks its step callback may only start
  animations. The source keeps a pointer to the slot across that callback, and a
  cancel or finish inside it would compact the table beneath it. Slots are
  addressed by index throughout, so a moved table is not modelled either.
- ClockOps.SlotTable.Start: the clock is initialised, and ids do not wrap
  around. Callbacks that are NULL are callbacks that do nothing. The eased value
  handed to a callback is that of `Curves.CurveEval` and is not logged.
- `spring_at`: transcendental; an arbitrary function stands for it in
  `Curves.SettleTime` and `Curves.CurveEval`.
- Parsing of curve definitions, presets, frame rate, fences and render requests
  of the clock: easy members.
- PercentOps.ResizeWidthHeight: starts after the search for the container to
  resize, and takes the share of one pixel of each child as an arbitrary
  positive number. That there are at least two children is what the search
  guarantees: it ends with a sibling (src/resize.c:149-167).
- Floating-point rounding: shares, durations and curves are exact reals.
  Integer widths are unbounded except where the source tests them (`strtol`) or
  casts (keycodes).
- GapsOps.CmdGaps: takes type, scope and mode as parsed; another scope than
  "all" is "current", as in the source.
- BindingOps.PressBinding: an event state word is the pair of its upper half, as
  a set of bits, and its lower half. Collecting keycodes for symbols and grabbing
  keys and buttons are not modelled.
- CommandParserOps.ParseCommand: the generated token table and the commands are
  parameters. JSON replies and the wording of errors are left out. When the stack
  is full the program exits, which is the outcome `Quit`; so is appending a
  string where the same identifier holds a number, which no table should do.
- CommandSplit.SemicolonStartsAfresh: requires the first command to be free of
  quotes, because an unterminated quote reads on past the semicolon, and literals
  to be free of semicolons.
- Placeholders.FormatPlaceholders: a NULL format is not modelled, and texts hold
  no NUL characters, as C strings do not.
- Mark handling, colours, window titles, click routing, capture, gradients,
  sockets, the bundled tools: input and output, or easy members.
