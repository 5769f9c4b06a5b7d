# Organizer: recurrence, sync engines, token refresh, preview and task list in Dafny

The modules below model six parts of Organizer and prove what each promises.

* **Recurring tasks** (`Calendar`, `Alignment`, `Recurrence`, `Generator`).  Dates are day numbers of
  the proleptic Gregorian calendar, with years unbounded.  The occurrences of a rule are defined
  declaratively: days from `start_on` on, in a unit (day, week, month, year) a whole number of
  intervals from the anchor's, that have the wanted weekday, day of month (clamped) or month.  The
  closed forms and search loops are proved to find exactly those, and the generator's runs are then
  followed over whole histories.
* **VolunHub sync** (`Workflow`, `ThreeWayMerge`, `MergeTheorems`, `MergeEngine`, `Mirror`,
  `LateDelete`, `Projects`).  One merge is a sequence of effects (local save, patch, switching content
  pushes off, each workflow hop, link save), each leaving a world behind; a merge may stop after any of
  them and any call may be refused, fail, fail after having taken effect, or lose the credentials.
  `Mirror` follows links, tombstones and removals over whole histories, `LateDelete` a delete in the
  middle of a run; `Projects` the folding of projects.
* **Notion sync** (`Notion`, `NotionRun`, `NotionEngine`, `NotionProtocol`, `NotionSafety`,
  `NotionAlone`).  Two clocks, one of them seen only to the minute.  `NotionRun` is about complete runs; `NotionProtocol`
  interleaves any number of half-finished pushes and bootstraps with the user on both sides, with
  pages applied long after they were listed, with VolunHub imports and half-finished VolunHub merges, and
  with workers dying between any two steps; `NotionAlone` shows that its steps, undisturbed, are those
  of the runs.
* **VolunHub token refresh** (`TokenRefresh`).  Any number of workers share one row and a server that
  rotates refresh tokens (section 6 of RFC 6749); a ciphertext is the number of the grant it came with.
* **Markdown preview** (`PreviewText`, `PreviewGlyphs`, `Preview`, `PreviewCut`).  Flattening, whitespace collapsing
  and truncation of a tree, against functions on its text and on its characters in their elements.
* **Task list** (`TaskDataSource`).  The sparse page cache, against the server's list.

Where the source changes state step by step, a class or method does too, and is proved equal to a
function of the old state; the promises are lemmas about that function.

## What turned out to need a condition

* Without a bot id (`bot_id` is blank unless Notion's token response carries one) Notion's echo of
  the sync's own write counts as somebody else's edit, and can drop a newer local edit:
  `NotionSafety.EchoDropsEdit`.  With one, none is dropped but by the delete described below:
  `NotionSafety.NoEditDropped`.
* A token reply that never arrives leaves a spent refresh token in the row, and the next worker flips
  the connection to `needs_reauth`: `TokenRefresh.LostReply`.  A run of the workers leaves the
  connection safe if and only if no reply was lost; a request that never reaches the server does no
  harm: `TokenRefresh.SafeExactly`.
* A VolunHub run reads its links once.  A task the user deletes while it is at work is inserted again if
  and only if its merge had decided to save it and had not; its link is then a tombstone until the merge
  saves it, and stays one if the credentials are lost before: `LateDelete.DeletedDuringRun`.
* Between those two saves a Notion push takes the task for one without an owner.  So one owner for each
  task is kept by every interleaving without such a delete (`NotionSafety.OneOwner`), and after a delete
  some continuation gives the task both links if and only if a merge was yet to save it
  (`NotionSafety.SnatchedExactly`).  The same delete drops an edit (`NotionSafety.SnatchDropsEdit`).
* A listed Notion edit reaches its task exactly if it is not the known bot's, its minute is later than the
  link's stamp, and the task is unchanged since its own stamp or changed in an earlier minute
  (`NotionRun.PullMeans`).  A second edit in an already stamped minute is not seen as a change;
  `NotionRun.RunMerges` says what then stays as it was.
* The docstring of Notion's `bootstrap` says that a worker which dies does not create a second page
  for what it already did.  The code promises that for links only: a worker that dies between a page
  and its link leaves a page nobody tracks, and the resumed run makes another
  (`NotionSafety.OneOwner` and `NotionSafety.BootstrapMissesNoTask` speak of links).
* `removeById(undefined)` finds the first slot that is not loaded, because there the id is undefined
  too; the model follows the code (`TaskDataSource.FindSlot`).

## Main results

* The searches of a rule find exactly its declared occurrences; iterating `step` lists them all: `Recurrence.OccurrenceMeans`, `Recurrence.LatestOnOrBefore`, `Recurrence.Enumeration`, `Recurrence.Adjoint`.
* The generator over whole runs: `Generator.DailyRuns`, `Generator.DailyRunsSkipping`, `Generator.FinalMarker`, `Generator.CreatedIncrease`.
* What a merge means, that it is a fixpoint, and that it can be interrupted anywhere: `MergeTheorems.ContentMeaning`, `MergeTheorems.StateMeaning`, `MergeTheorems.Fixpoint`, `MergeTheorems.Recovery`.
* What a failed call leaves to do: `MergeTheorems.PatchMeans`, `MergeTheorems.StatePushMeans`, `MergeTheorems.RefusedPatch`, `MergeTheorems.FailedPatch`, `MergeTheorems.FailedHop`.
* Links, tombstones and removals over any history: `Mirror.SameTaskForever`, `Mirror.RemovalIsConfirmed`, `Mirror.TombstoneDropped`, `Mirror.ForgottenIsImportedAnew`.
* Folding projects conserves tasks: `Projects.Store.MergeProject`.
* Token refresh by any number of workers: `TokenRefresh.EveryInterleaving`, `TokenRefresh.SafeExactly`, `TokenRefresh.SecondAdopts`.
* Notion: no edit dropped, one owner, no task missed, in any interleaving without a delete that a VolunHub merge undoes, and exactly then: `NotionAlone.EveryEditIsKept`, `NotionSafety.OneOwner`, `NotionSafety.BootstrapMissesNoTask`, `NotionSafety.SnatchedExactly`.
* Notion: what a run means, and no ping-pong: `NotionRun.PullMeans`, `NotionRun.RunMerges`, `NotionRun.NoPingPong`.
* The preview shows what it should: `Preview.CollapseWhitespace`, `PreviewCut.TruncateTexts`, `Preview.TruncateShows`, `Preview.ToPreview`.
* The task list agrees with the server: `TaskDataSource.Session`, `TaskDataSource.DataSource.AtRest`.

## Model

| member | source | states |
|---|---|---|
| Calendar.MonthOfIs | tasks/recurrence.py:21-24 | a date lies in exactly the month whose first day it follows and whose length it does not exceed, leap years included |
| Calendar.RoundTrip | tasks/recurrence.py:21-24 | the clamped date of a month and day reads back as that month and the smaller of the day and the month's length |
| Calendar.LexicographicOrder | tasks/recurrence.py:21-24 | dates are ordered as their year, month and day are |
| Calendar.AddMonthsNumber | tasks/recurrence.py:34-36 | adding months carries into the year, backwards too, and moves the month count by exactly that many |
| Calendar.Landmarks | tasks/recurrence.py:21-36 | the calendar's leap years, month lengths and three fixed dates |
| Calendar.WeekdaysGoRound | tasks/recurrence.py:27-31 | Monday is 0, weekdays follow each other, and the Monday of a date's week is that many days before it |
| Recurrence.FirstOccurrence | tasks/recurrence.py:39-79 | the least occurrence, dropped if it is past the end date; its search loop makes at most two passes |
| Recurrence.StepIsNext | tasks/recurrence.py:82-109 | from any occurrence, `step` leads to the least later one within the end date, none if there is none |
| Recurrence.LatestOnOrBefore | tasks/recurrence.py:112-166 | the greatest occurrence at or before the cutoff, none exactly when there is none; at most two units are examined |
| Recurrence.LatestWeekly | tasks/recurrence.py:128-142 | the same for the weekly loop, over the selected weekdays |
| Recurrence.LatestMonthly | tasks/recurrence.py:144-155 | the same for the monthly loop, with clamped days |
| Recurrence.LatestYearly | tasks/recurrence.py:157-166 | the same for the yearly loop, with February 29 clamped |
| Recurrence.OccurrenceOnOrAfter | tasks/recurrence.py:169-180 | the least occurrence at or after the target within the end date, none exactly when there is none |
| Recurrence.Adjoint | tasks/recurrence.py:169-180 | the occurrence on or after x is at most y exactly when the latest on or before y is at least x |
| Recurrence.LatestIsUnique | tasks/recurrence.py:112-166 | there is one latest occurrence, so the function and the loop agree |
| Recurrence.IterateIsOccurrence | tasks/recurrence.py:39-109 | every iterate of `step` from the first occurrence is an occurrence, and the j-th has j before it |
| Recurrence.OccurrenceIsIterate | tasks/recurrence.py:39-109 | every occurrence within the end date is reached after as many steps as there are occurrences before it |
| Recurrence.Enumeration | tasks/recurrence.py:39-109 | iterating `step` lists exactly the occurrences, strictly increasing, without a gap |
| Recurrence.NoDrift | tasks/recurrence.py:82-109 | every iterate of a monthly or yearly rule keeps the wanted day, clamped anew in its own month, and a yearly one its month, however short the months before |
| Recurrence.OccurrenceMeans | tasks/recurrence.py:39-180 | what an occurrence is, from the rule's own fields: days, weeks, months or years from the start, a whole number of intervals, on a wanted day clamped to its month |
| Recurrence.GapLaw | tasks/recurrence.py:82-109 | a step of a daily, monthly or yearly rule is exactly its interval, in days, months or years; a weekly one stays in its week or goes exactly its interval of weeks on |
| Generator.TaskTemplate.MaterializeDueTasks | tasks/recurrence.py:222-270 | creates the task of the latest occurrence due by the lead time if it is past the marker and nothing blocks it, and moves the marker exactly then |
| Generator.GenerateAll | tasks/recurrence.py:273-281 | every template is run once and the new tasks are returned in order |
| Generator.OneEvent | tasks/recurrence.py:222-270 | a run creates at most one task, for an occurrence after the marker, and the marker then is that occurrence |
| Generator.CreatedIncrease | tasks/recurrence.py:222-270 | over any history of runs, edits of the rule and completed tasks, generated occurrences strictly increase |
| Generator.OneOpenTask | tasks/recurrence.py:246-250 | if every run skips while a task is open, at most the newest generated task is ever open |
| Generator.FinalMarker | tasks/recurrence.py:222-270 | for run days in any order, the final marker is the later of the first marker and the latest occurrence eligible on the latest day |
| Generator.DailyRuns | tasks/recurrence.py:222-270 | runs on consecutive days create exactly one task for each occurrence that becomes eligible, in order |
| Generator.RunMeans | tasks/recurrence.py:222-270 | what one run makes of a template, from its own fields: the task and the marker exactly if the latest occurrence is past the marker and no open task is to be waited for |
| Generator.DailyRunsSkipping | tasks/recurrence.py:246-250 | with skipping on and each task completed before the next run, daily runs miss nothing either |
| Workflow.AppliedReadsBack | integrations/volunhub/mapping.py:97-111 | a workflow state applied to a task reads back as that state, collapsed |
| Workflow.RouteIsShortest | integrations/volunhub/mapping.py:114-124 | a route is legal step by step, ends at the target, and no legal path is shorter |
| Workflow.RouteResumes | integrations/volunhub/mapping.py:114-124 | the route from any state on a route is the rest of it |
| Workflow.TransitionsMean | integrations/volunhub/mapping.py:43-49 | the workflow, edge by edge |
| Workflow.StatesMean | integrations/volunhub/mapping.py:160-174 | what flag and status are read as, and what applying a state does to them |
| ThreeWayMerge.DecideMeans | integrations/volunhub/sync.py:207-218 | what each decision means, both ways, and a conflict is two changes that differ |
| MergeEngine.DecideContent | integrations/volunhub/sync.py:233-245 | the loop over the content fields collects what to apply, to push and to settle, as decided field by field |
| MergeEngine.DecideAndSave | integrations/volunhub/sync.py:231-280 | decisions and the local save, saved only if something is applied or the project moved |
| MergeEngine.SendContent | integrations/volunhub/sync.py:282-300 | the patch: settled if done, content pushes switched off on a 403, noted if it failed, stopped if the credentials are lost |
| MergeEngine.RunHops | integrations/volunhub/sync.py:302-315 | the loop over the hops stops at the first that fails and records the state really reached |
| MergeEngine.SendState | integrations/volunhub/sync.py:302-315 | what the hops make of the new base |
| MergeEngine.MergeTask | integrations/volunhub/sync.py:221-322 | the method leaves exactly the worlds `ThreeWayMerge.Merge` lists, in that order, whatever the calls answer |
| MergeTheorems.CleanIs | integrations/volunhub/sync.py:221-322 | an undisturbed merge ends at the field-by-field three-way merge |
| MergeTheorems.ContentMeaning | integrations/volunhub/sync.py:207-245 | a one-sided content edit wins; in a true conflict the local value wins if it may be pushed, else the remote one; an unpushable local edit is kept |
| MergeTheorems.StateMeaning | integrations/volunhub/sync.py:247-259 | the same for the workflow state; given-up tasks and tasks without a workflow are left alone |
| MergeTheorems.ProjectMeaning | integrations/volunhub/sync.py:261-269 | the task takes the resolved project exactly when VolunHub moved it |
| MergeTheorems.Fixpoint | integrations/volunhub/sync.py:221-322 | a second merge without outside edits makes no call and no task save |
| MergeTheorems.MergeFine | integrations/volunhub/sync.py:221-322 | every world a merge leaves, however its calls turn out, can be recovered from |
| MergeTheorems.Recovery | integrations/volunhub/sync.py:221-322 | interrupted after any effect, with any outcomes, an undisturbed re-run ends where an uninterrupted merge would |
| MergeTheorems.RecoveryAfterMany | integrations/volunhub/sync.py:221-322 | the same after any number of interrupted attempts, as long as they leave the connection as it was |
| MergeTheorems.FailedPatch | integrations/volunhub/sync.py:282-300 | a failed patch settles every field in the snapshot but exactly the unsent ones; the next merge sends those again, or none if the call had taken effect, and undisturbed it leaves them agreed on the local values |
| MergeTheorems.FailedHop | integrations/volunhub/sync.py:302-322 | a failed hop keeps the old state in the snapshot with the raw state the last answered hop reached; the next merge pushes again, or finds agreement if the call had taken effect, and undisturbed it completes the push |
| MergeTheorems.PatchMeans | integrations/volunhub/sync.py:282-300 | what each outcome of the patch leaves of connection, VolunHub task, snapshot and errors, at the end of any merge |
| MergeTheorems.RefusedPatch | integrations/volunhub/sync.py:288-294 | a refused patch switches content pushes off and nothing else, is not an error, leaves the unsent fields at the old snapshot, and no later merge sends them |
| MergeTheorems.StatePushMeans | integrations/volunhub/sync.py:302-322 | when the state is pushed, whatever became of the patch, and what each answer to each request leaves of VolunHub's state, snapshot, errors and the merge itself |
| MergeTheorems.EffectsInOrder | integrations/volunhub/sync.py:275-322 | the task is saved first, the link last and only if the merge comes to its end, and the patch goes before the hops |
| MergeTheorems.HopsFine | integrations/volunhub/sync.py:302-315 | every world a hop leaves lies on the route to the same end |
| Mirror.Database.SyncTasks | integrations/volunhub/sync.py:121-145 | the loop, reading the links once, imports unknown tasks, skips tombstones and re-attaches known links |
| Mirror.Database.DetectRemovals | integrations/volunhub/sync.py:328-348 | asks about exactly the active links missing from the listing, marks them as the lookup says, and drops delisted tombstones if no lookup lost the credentials |
| Mirror.Database.SyncConnection | integrations/volunhub/sync.py:72-115 | one run, with removals looked for only after a complete listing |
| Mirror.SyncedRows | integrations/volunhub/sync.py:121-145 | what a listing does to every row: the task is never exchanged |
| Mirror.RunKeepsTasks | integrations/volunhub/sync.py:72-115 | a run deletes no local task and keeps every task's owner |
| Mirror.RemovalIsConfirmed | integrations/volunhub/sync.py:328-348 | a run marks an active link removed exactly if a complete listing lacked it and a lookup confirmed it, with the reason the lookup gave |
| Mirror.AlwaysConsistent | integrations/volunhub/sync.py:121-180 | over any history each task has at most one link, of its own user |
| Mirror.SameTaskForever | integrations/volunhub/views.py:113-130 | through unassignment, reassignment, disconnecting and reconnecting a link keeps its local task until the user deletes it |
| Mirror.NotReimported | integrations/volunhub/sync.py:121-145 | a locally deleted task is not imported again while it stays listed |
| Mirror.TombstoneDropped | integrations/volunhub/sync.py:328-348 | a tombstone is gone after a run if and only if the run is its user's, its listing was complete and lacked it, and no lookup lost the credentials |
| Mirror.UnknownImported | integrations/volunhub/sync.py:121-145 | a listed task without a link is imported under a new key for its user |
| Mirror.ForgottenIsImportedAnew | integrations/volunhub/sync.py:121-145 | over any history, a tombstone dropped by such a run and listed again in a later one becomes a new task |
| Mirror.UsersMean | integrations/volunhub/views.py:113-130 | what a user's new task, delete and disconnect do to tasks and links |
| Mirror.OnlyUsersDelete | integrations/volunhub/sync.py:72-115 | a task that is gone after a history was deleted by a user |
| LateDelete.MergedInTime | integrations/volunhub/sync.py:221-322 | undisturbed, the effects of a merge that runs to its end do to a known link what a run does |
| LateDelete.DeletedDuringRun | integrations/volunhub/sync.py:121-143 | a task deleted after any of its merge's effects is back if and only if the merge had decided to save it and had not; its link points at it again if moreover the merge comes to its end, and is a tombstone otherwise |
| Projects.Store.ResolveProject | integrations/volunhub/projects.py:14-44 | resolves through the cache, creates at most one project for a reference, renames only what it created |
| Projects.ResolveIsIdempotent | integrations/volunhub/projects.py:14-44 | resolving the same reference again changes nothing |
| Projects.ResolveIsCareful | integrations/volunhub/projects.py:14-44 | resolving touches no task, no other link and no project of the user |
| Projects.ResolveMeans | integrations/volunhub/projects.py:14-44 | first sight makes one project under the best title there is; later the link's name and slug follow, and the project is renamed exactly if the name is new and the sync made it |
| Projects.Store.MoveTasks | integrations/volunhub/projects.py:70-84 | the loop moves exactly the tasks to be moved |
| Projects.Store.MergeProject | integrations/volunhub/projects.py:55-84 | folding conserves tasks: each stays or moves to the target; a project is deleted only if created by the sync and left without task and link; leaving a user's project moves only the tasks that VolunHub project brought in |
| TokenRefresh.Database.RefreshAccessToken | integrations/volunhub/oauth.py:294-327 | what a refresh makes of row, server and the caller's copy, and when it succeeds, whether the endpoint answers, cannot be reached, or its answer is lost |
| TokenRefresh.StepSafe | integrations/volunhub/oauth.py:294-327 | every step of a worker keeps the stored grant live |
| TokenRefresh.RunSafe | integrations/volunhub/oauth.py:294-327 | so does every run whose replies arrive |
| TokenRefresh.Undisturbed | integrations/volunhub/oauth.py:294-327 | one worker's steps taken together do what the method does, for every kind of answer |
| TokenRefresh.RefreshMeans | integrations/volunhub/oauth.py:294-327 | when a refresh presents a token, when it stores and returns a new grant, when it adopts another's, and when it flags the connection |
| TokenRefresh.SecondAdopts | integrations/volunhub/oauth.py:294-327 | two workers that loaded the same row and refresh in turn ask the server once, and both return with the new grant |
| TokenRefresh.ReturnsStored | integrations/volunhub/oauth.py:294-327 | a worker returns with the tokens the row then holds |
| TokenRefresh.EveryInterleaving | integrations/volunhub/oauth.py:294-327 | for any number of workers whose replies arrive, no refresh token is presented twice, the connection never needs re-authorization, and an unlocked row holds the server's live grant |
| TokenRefresh.SafeExactly | integrations/volunhub/oauth.py:294-327 | a run of the workers leaves the connection safe if and only if no reply was lost; lost requests do no harm |
| TokenRefresh.LostReply | integrations/volunhub/oauth.py:294-327 | a reply lost before the commit makes the next refresh flip the connection |
| Notion.NotionWinsOnlyIfLater | integrations/notion/sync.py:290-301 | Notion wins a conflict exactly when its edit fell in a later minute than the local one, and then it was truly later |
| NotionEngine.Database.CreateTaskFromPage | integrations/notion/sync.py:304-318 | task, link and stamp |
| NotionEngine.Database.ApplyPage | integrations/notion/sync.py:231-287 | every branch: unknown page, own echo, tombstone, unchanged page, conflict won, page applied |
| NotionEngine.Database.ReapMissingPages | integrations/notion/sync.py:344-365 | deletes exactly the tasks whose unlisted page a lookup finds trashed, and their links |
| NotionEngine.Database.Pull | integrations/notion/sync.py:190-222 | applies the listed pages in turn and reaps after a full sweep; a query that breaks off leaves the watermark where it was |
| NotionEngine.Database.BuryTombstones | integrations/notion/sync.py:371-379 | trashes the pages of tombstones and drops the tombstones, failed or not |
| NotionEngine.Database.CreatePage | integrations/notion/sync.py:418-429 | page, link and stamp; nothing local if the call fails; no task gets a second link |
| NotionEngine.Database.CreatePages | integrations/notion/sync.py:381-390 | exactly the unlinked mirrorable tasks are uploaded, each once, in the order of their keys |
| NotionEngine.Database.UpdatePages | integrations/notion/sync.py:392-411 | exactly the links that are behind are written and, if answered, stamped |
| NotionEngine.Database.LinkParents | integrations/notion/sync.py:439-461 | relations are written to created pages only |
| NotionEngine.Database.Push | integrations/notion/sync.py:371-415 | the three parts and the relations, in that order |
| NotionEngine.Database.SyncConnection | integrations/notion/sync.py:70-119 | drift, lost authorisation and outages before or during the query, the bootstrap branch, and else a run that does what `NotionRun.AfterRun` says, its queries returning what the tables then hold |
| NotionEngine.Database.UploadBatch | integrations/notion/sync.py:158-172 | one batch of a bootstrap and the cursor saved after it |
| NotionEngine.Database.UploadAll | integrations/notion/sync.py:157-172 | the batches together upload everything after the cursor, and move it past all of it |
| NotionEngine.Database.Bootstrap | integrations/notion/sync.py:144-184 | the loop ends, uploads each unlinked mirrorable task after the cursor once, in order, leaves each linked unless its upload failed, and marks the bootstrap done |
| NotionEngine.UploadsLink | integrations/notion/sync.py:158-172 | after the uploads a task is linked exactly if it was before or its own upload succeeded |
| NotionRun.FullRunQuiets | integrations/notion/sync.py:190-222 | from any state, a full run whose calls succeed leaves nothing to do in either direction |
| NotionRun.QuietRunWritesNothing | integrations/notion/sync.py:371-415 | from there no run writes a task or a page, whether full or not and whether its calls succeed or not |
| NotionRun.NoPingPong | integrations/notion/sync.py:190-287 | after a full successful run, no number of later runs without user edits writes a task or a page |
| NotionRun.QuietMeans | integrations/notion/sync.py:122-132 | what nothing left to do means for every link, task and page |
| NotionRun.PullMeans | integrations/notion/sync.py:231-287 | what a pull makes of one page and its task, in times: the page's content reaches the task exactly if it was edited in a later minute than last seen, not by the known bot, and the task has not changed since its stamp or has in an earlier minute; a page listed twice counts once |
| NotionRun.UpdatesMean | integrations/notion/sync.py:392-411 | what a push makes of one page and its link |
| NotionRun.RunMerges | integrations/notion/sync.py:190-287 | what a run makes of a page and its task, in the same terms: the page's content there, else the task's if it has changed, else both untouched; and the task is stamped |
| NotionRun.RunImports | integrations/notion/sync.py:231-318 | a listed unlinked page of somebody else becomes a new, stamped task that says what the page says |
| NotionRun.RunUploads | integrations/notion/sync.py:381-390 | a task without a link, not VolunHub's, ends, if its upload succeeds, with a live page that says what it says |
| NotionRun.RunBuries | integrations/notion/sync.py:371-379 | a run drops every tombstone and trashes its page unless the call is refused; an unlinked page of the known bot is neither imported nor written |
| NotionRun.ReapMeans | integrations/notion/sync.py:344-365 | reaping takes a link and its task away exactly if its page was not listed and a lookup finds it trashed, and changes nothing else |
| NotionRun.DeletesOnlyTrashed | integrations/notion/sync.py:344-365 | a run deletes a task exactly when it is full and a lookup confirms that the task's page is trashed |
| NotionSafety.NextSound | integrations/notion/sync.py:231-477 | every step of every worker, the user and VolunHub keeps the invariant, a delete of a task that a merge is yet to save aside |
| NotionSafety.UnsyncedIsSound | integrations/notion/models.py:186-188 | a system in which nothing has been synced yet satisfies the invariant |
| NotionSafety.NoEditDropped | integrations/notion/sync.py:231-301 | without such a delete, in any interleaving a user's version of a task outside VolunHub is pending, changed again by the user, written to the task's page, or overwritten by a later edit of somebody else |
| NotionSafety.PendingIsLoaded | integrations/notion/sync.py:399-411 | a pending version is what the next push loads |
| NotionSafety.EchoDropsEdit | integrations/notion/sync.py:225-228 | without a bot id a push delayed by two minutes that dies before its stamp drops the edit made meanwhile |
| NotionSafety.StampAccounts | integrations/notion/sync.py:467-477 | a stamp with what was loaded leaves pending whatever was not sent |
| NotionSafety.OverwriteAccounts | integrations/notion/sync.py:261-287 | an applied page overwrites only versions Notion knew or versions older than the page |
| NotionSafety.OneOwner | integrations/notion/sync.py:122-132 | without such a delete, in any interleaving no task has both a VolunHub and a Notion link, and none has two Notion links |
| NotionSafety.SnatchedExactly | integrations/volunhub/sync.py:275-322 | after a delete some run, with no more such deletes, gives the task both links if and only if a merge had read it and was yet to save it |
| NotionSafety.SnatchDropsEdit | integrations/volunhub/sync.py:275-277 | such a delete, once the merge has inserted the task again, leaves the user's edit before it neither pending nor anywhere else |
| NotionSafety.BootstrapMissesNoTask | integrations/notion/sync.py:144-172 | without such a delete, a bootstrap, however often killed and resumed, ends with every mirrorable task linked or its upload failed |
| NotionSafety.UndisturbedCreate | integrations/notion/sync.py:418-429 | one worker's steps taken together do what `_create_page` does |
| NotionSafety.UndisturbedUpdate | integrations/notion/sync.py:399-411 | and what one turn of the third push loop does |
| NotionAlone.UndisturbedReap | integrations/notion/sync.py:344-365 | one reaping step does what the loop over missing pages does to its link |
| NotionAlone.UndisturbedBurial | integrations/notion/sync.py:371-379 | the steps over all tombstones together do what the first push loop does |
| NotionAlone.UndisturbedRelate | integrations/notion/sync.py:439-461 | a page remembered after its creation and related later is what one turn of `_link_parents` makes of it |
| NotionAlone.UndisturbedBatch | integrations/notion/sync.py:157-172 | a worker that loads a batch and goes through it does what the source's loop does, cursor included |
| NotionAlone.BatchMeans | integrations/notion/sync.py:156-163 | a batch is the first fifty mirrorable tasks after the cursor, in order, or all if there are fewer |
| NotionAlone.UndisturbedMerge | integrations/volunhub/sync.py:121-145 | a VolunHub merge that is not disturbed saves what it decided to and leaves the owners alone |
| NotionAlone.StepTells | integrations/notion/sync.py:231-301 | a new entry of a history says what its step did: the edit made, the version written, the upload failed, the version overwritten |
| NotionAlone.EveryEditIsKept | integrations/notion/sync.py:231-301 | the same as `NotionSafety.NoEditDropped`, told by the steps of the run alone |
| Preview.FlattenText | frontend/src/app/shared/markdown/markdown-preview.ts:37-68 | flattening keeps the text, with gaps for breaks and blocks and alt texts for images |
| Preview.FlattenSkeleton | frontend/src/app/shared/markdown/markdown-preview.ts:37-68 | flattening keeps exactly the inline elements, with their attributes and nesting |
| Preview.FlattenIs | frontend/src/app/shared/markdown/markdown-preview.ts:37-68 | every text, gap and inline element is put where it belongs, after what the target holds |
| Preview.FlatGlyphs | frontend/src/app/shared/markdown/markdown-preview.ts:37-68 | every character is kept within exactly the inline elements around it |
| Preview.AltMeans | frontend/src/app/shared/markdown/markdown-preview.ts:51-57 | the alternative text is the attribute without the spaces around it |
| PreviewText.SqueezeTexts | frontend/src/app/shared/markdown/markdown-preview.ts:74-92 | the first loop collapses each text with the memory of what precedes it |
| PreviewText.SqueezedIs | frontend/src/app/shared/markdown/markdown-preview.ts:74-92 | joined, those texts are the collapsed joined text |
| PreviewText.TrimTexts | frontend/src/app/shared/markdown/markdown-preview.ts:93-106 | the backwards loop trims up to the last text that holds more than spaces |
| PreviewText.TrimTailIs | frontend/src/app/shared/markdown/markdown-preview.ts:93-106 | joined, that is the trimmed joined text |
| PreviewText.CollapsedIs | frontend/src/app/shared/markdown/markdown-preview.ts:74-92 | replacing whitespace runs is collapsing one character at a time |
| PreviewGlyphs.PlacedSqueezed | frontend/src/app/shared/markdown/markdown-preview.ts:74-92 | collapsing the texts one by one is collapsing the characters, each within its elements |
| PreviewGlyphs.PlacedTrimmed | frontend/src/app/shared/markdown/markdown-preview.ts:93-106 | trimming the texts from the last one back is trimming the characters |
| PreviewText.CollapseTexts | frontend/src/app/shared/markdown/markdown-preview.ts:74-106 | the joined texts become the one line a browser shows of them |
| Preview.CollapseWhitespace | frontend/src/app/shared/markdown/markdown-preview.ts:74-106 | the text of the tree becomes one line, across element boundaries; each text is what is left of its own in its own element, each character stays within its elements; the elements stay; no text node is left empty |
| PreviewText.Clip | frontend/src/app/shared/markdown/markdown-preview.ts:168-172 | a prefix within the limit that ends in no space, cut at the last word boundary exactly if that lies in the back half; of a single-spaced text at least half the limit is kept, up to the limit or to a word boundary |
| Preview.Traversal.WalkNodes | frontend/src/app/shared/markdown/markdown-preview.ts:109-139 | the traversal with its shared budget and flags is the function `Walk` |
| Preview.WalkIs | frontend/src/app/shared/markdown/markdown-preview.ts:109-139 | the traversal keeps the visible characters in order, each in its elements, and spends at least half its budget, up to the budget or to a word boundary |
| Preview.TrimLastIs | frontend/src/app/shared/markdown/markdown-preview.ts:148-162 | trimming the last text takes off the trailing spaces and nothing else |
| Preview.TextlessGlyphs | frontend/src/app/shared/markdown/markdown-preview.ts:142-146 | removing elements without text removes nothing visible |
| PreviewCut.DropEmptyElementsIs | frontend/src/app/shared/markdown/markdown-preview.ts:142-146 | removing elements without text leaves none of them, and every text in its elements |
| PreviewCut.TruncateTexts | frontend/src/app/shared/markdown/markdown-preview.ts:109-153 | exactly which text nodes are left of a tree that is too long, in which elements, and where the ellipsis stands: in the text where the limit is reached if anything of it is kept, else outside all elements |
| Preview.TruncateTree | frontend/src/app/shared/markdown/markdown-preview.ts:109-153 | the method is the function `Truncate` |
| Preview.TruncateShows | frontend/src/app/shared/markdown/markdown-preview.ts:109-153 | a tree that fits is left alone; otherwise a prefix of at most the limit and at least half of it, up to the limit or to a word boundary, without trailing space, every character in its elements, and exactly one ellipsis |
| Preview.ToPreview | frontend/src/app/shared/markdown/markdown-preview.ts:24-34 | the preview of a page, end to end: one line, each character within its own elements, or that line cut short |
| TaskDataSource.DataSource.FetchPage | frontend/src/app/tasks/task-data-source.ts:138-175 | a page is requested at most once between clears, and not past the end |
| TaskDataSource.DataSource.FetchRange | frontend/src/app/tasks/task-data-source.ts:124-132 | exactly the pages of the range and one on either side are sent for, each unless it is fetched or past the end |
| TaskDataSource.DataSource.Connect | frontend/src/app/tasks/task-data-source.ts:45-55 | the first page is asked for |
| TaskDataSource.DataSource.OnRange | frontend/src/app/tasks/task-data-source.ts:47-50 | a new range is remembered and exactly its pages and their neighbours are asked for |
| TaskDataSource.DataSource.OnError | frontend/src/app/tasks/task-data-source.ts:147-174 | a page that failed or came back empty may be asked for again |
| TaskDataSource.DataSource.Replace | frontend/src/app/tasks/task-data-source.ts:97-103 | only the first slot with the task's id changes, and if the server changed the row too the list goes on agreeing |
| TaskDataSource.DataSource.OnPage | frontend/src/app/tasks/task-data-source.ts:150-170 | an arriving page keeps every loaded slot equal to its server row, in whatever order pages arrive |
| TaskDataSource.DataSource.RemoveById | frontend/src/app/tasks/task-data-source.ts:110-122 | removing a loaded row that the server dropped too, with nothing in flight, restores the agreement |
| TaskDataSource.DataSource.Refresh | frontend/src/app/tasks/task-data-source.ts:68-78 | keeps the shown rows while the pages in view are requested again |
| TaskDataSource.DataSource.Reset | frontend/src/app/tasks/task-data-source.ts:81-89 | forgets everything and requests the first page |
| TaskDataSource.DataSource.AtRest | frontend/src/app/tasks/task-data-source.ts:138-175 | with nothing in flight, every slot of the range in view holds its server row |
| TaskDataSource.AnswerFits | frontend/src/app/tasks/task-data-source.ts:150-170 | storing a server page in a list that agrees with the server keeps it agreeing |
| TaskDataSource.WindowMeans | frontend/src/app/tasks/task-data-source.ts:124-137 | a window is the pages of fifty rows on, or next to a page on, which a row in view is |
| TaskDataSource.SlotRemoved | frontend/src/app/tasks/task-data-source.ts:110-118 | cutting out a loaded slot leaves an array that agrees with the list without that task |
| TaskDataSource.WithoutIs | frontend/src/app/tasks/task-data-source.ts:110-122 | dropping a task from a list of distinct tasks is cutting out its slot |
| TaskDataSource.Session | frontend/src/app/tasks/task-data-source.ts:45-175 | over any order of connecting, range changes, arrivals, errors, refreshes, resets, and of replacements and removals with nothing in flight, the cache agrees with the server and asks for a page again only after a failure or a clear |

## Left out

- HTTP, pacing, backoff, encryption, OAuth redirects and client registration, Celery, the admin, serializers, realtime broadcasts and the MCP tools.
- Time zones, tags, `completed_date`, `MonitorField`, report counters, `last_synced_at` and `last_error` texts.
- VolunHub listings are taken as complete, well formed and of distinct ids; content values are opaque and already normalised.
- Mirror.NotReimported: a run is one step towards the user, so a delete in the middle of one is not among its events; `LateDelete.DeletedDuringRun` says what such a delete comes to.
- `changed_date` after VolunHub saves; the two-minute rule of `_backfill_dates`.
- Recurrence: the creation of a task and the save of the marker are one step, so a crash between them is not modelled; `next_occurrence` and `schedule_summary` say nothing more than the functions they call.
- Notion: page properties and the parent relation are one opaque content; which new pages have a mirrored parent is a parameter. Page times are always present.
- Notion: that every Notion edit is applied, that parents are linked after a resumed bootstrap, and that a page is trashed when the call fails are not claimed, because the code does not promise them.
- NotionSafety.OneOwner: a save by the user or by the folding of projects is one step; only a merge's saves are apart from its reading.
- Notion: which pages an incremental query returns (the overlap of the pull watermark) is left open; `NotionRun.QuietRunWritesNothing` and `NotionSafety.NoEditDropped` hold for any.
- NotionEngine.Database.Bootstrap: runs in one sitting; interruptions and interleavings are in `NotionSafety.BootstrapMissesNoTask`.
- NotionEngine.Database.SyncConnection: whether a full sync is due is a parameter, and the times of the last sync are not kept.
- TokenRefresh.EveryInterleaving: assumes that replies arrive; `TokenRefresh.SafeExactly` shows that nothing weaker will do.
- TokenRefresh.Database.RefreshAccessToken: a grant carries read scope and a new refresh token; expiry times and scopes are not kept.
- Preview.ToPreview: the DOM is a value that each step rebuilds, not nodes updated in place; parsing and serialisation of HTML, comments beyond being dropped, and UTF-16 surrogates are not modelled.
- TaskDataSource.Session: against a changing server list nothing is claimed, except for replacements and removals on both sides with nothing in flight; `refresh` of an initialised empty list requests nothing, and neither does the model.
- Goals, statistics, charts, quick-add parsing and the WebSocket service.
