# Preliminary-update triage step, modelled in Dafny

This project models the GitHub Actions step that runs when an issue is
assigned. The step first checks whether the developer may keep the issue.
A developer outside the admin and merge teams who already holds another
issue takes the reassign path. The step posts the multiple-issue reminder,
unassigns the developer, adds the "ready for dev lead" label and moves the
project item back to New Issue Approval. Everyone else takes the welcome
path. The step renders the preliminary-update instructions for the latest
assignee, posts them and moves the item to In Progress. If the rendering
is `null`, nothing happens. Everything sits inside one `try`/`catch`: the
first helper that throws ends the run, its error is logged, and `main`
returns normally.

Modules:

- `Wrappers` (`wrappers.dfy`): `Option` (JavaScript's `null`) and
  `Result` (a value, or what was thrown).
- `Timeline` (`timeline.dfy`): timeline events and latest-assignee
  resolution. `LatestAssignee` is the recursive specification.
  `ResolveAssignee` is the backward loop of `makeComment`. The lemmas say
  what that specification means.
- `PreliminaryUpdateComment` (`preliminary_update_comment.dfy`) covers
  `main` and `makeComment`. The helpers are not shown in the source, so an
  `Env` stands in for them. It gives the values they return, the two
  template renderers (`createComment` and `formatComment`, both
  uninterpreted) and the set of helpers that throw.
  - `Plan` is the sequence of calls a run makes when nothing throws.
  - `Execute` gives the meaning of the `try`/`catch`: run the calls in
    order until one throws.
  - `HandleAssignment` (`main`), `Reassign` and `Welcome` are imperative
    methods. Each `await` is one step that appends the change it makes to
    a trace. Each of the three is proved equal to `Execute` of its planned
    calls.
  - `MakeComment` (`makeComment`) returns a `Result`. It is the error of
    `getTimeline` if that throws, else the error of `formatComment` if that
    throws. Otherwise it is what `formatComment` returns, possibly `null`,
    for the request that pairs `${issueAssignee}` with the latest assignee
    found by `ResolveAssignee`.
- `TriageProperties` (`triage_properties.dfy`): which path runs, what
  each path changes and in what order, and what remains when a helper
  throws.

A run is a `Run(trace, logged)`. `trace` lists the changes made to the
issue tracker, in order. `logged` names the helper whose exception the
`catch` block logged, if any.

Facts about the code that the model follows:

- `createComment` and `makeComment` (and so `formatComment`) are called
  inside the `try`. A missing template therefore does not propagate: the
  error is caught and logged like any other. The model treats them as
  helpers that may throw (`CreateComment`, `FormatComment`).
- A throwing `getTimeline` propagates out of `makeComment`. It ends the
  run through the `catch` and does not fall back to the stored assignee.
- The payload's assignee is used when the timeline has no `'assigned'`
  event. An empty timeline is one such case.
- The welcome path tests `instructions !== null` (line 54), not whether
  the text is empty. An empty rendering (`Some("")`) is still posted and
  still followed by the In Progress update. The model does the same: only
  `None` skips both.
- The `else` block after the `catch` (lines 67-74) is a syntax error, so
  the file as written does not load. The model describes the file with
  those lines removed. Statements below that `main` always returns are
  about that file.

## Model

| member | source | states |
|---|---|---|
| Timeline.ResolveAssignee | github-actions/trigger-issue/add-preliminary-comment/preliminary-update-comment.js:83-93 | The backward scan that starts from the payload's assignee and stops at the first `'assigned'` event from the end returns `LatestAssignee(events, payloadAssignee)` |
| Timeline.LatestIsLastAssigned | github-actions/trigger-issue/add-preliminary-comment/preliminary-update-comment.js:88-92 | If event k is `'assigned'` and no later event is, the resolved assignee is event k's assignee login |
| Timeline.LatestWithoutAssigned | github-actions/trigger-issue/add-preliminary-comment/preliminary-update-comment.js:83-93 | With no `'assigned'` event, including an empty timeline, the resolved assignee is the payload's `issue.assignee.login` |
| Timeline.LatestIgnoresLaterOthers | github-actions/trigger-issue/add-preliminary-comment/preliminary-update-comment.js:88-92 | Appending events of other types after the timeline does not change the resolved assignee |
| Timeline.LatestIgnoresEarlier | github-actions/trigger-issue/add-preliminary-comment/preliminary-update-comment.js:88-91 | Once a later part of the timeline holds an `'assigned'` event, neither the events before that part nor the fallback affect the result, because the scan stops at the first match from the end |
| Timeline.LatestCases | github-actions/trigger-issue/add-preliminary-comment/preliminary-update-comment.js:83-93 | The result is one of two things: the fallback, for a timeline with no `'assigned'` event, or the assignee of the last `'assigned'` event |
| PreliminaryUpdateComment.MakeComment | github-actions/trigger-issue/add-preliminary-comment/preliminary-update-comment.js:81-143 | If `getTimeline` throws, that error comes back. Otherwise, if `formatComment` throws, that error comes back. Otherwise the result is what `formatComment` returns, possibly `null`, for the request pairing placeholder `${issueAssignee}` with the resolved latest assignee, path `preliminary-update.md`, and no text to format |
| PreliminaryUpdateComment.HandleAssignment | github-actions/trigger-issue/add-preliminary-comment/preliminary-update-comment.js:18-66 | `main` (with lines 67-74 removed) always returns. Its changes and logged error equal `Execute(Plan(env, issueNum))`: the three checks, then one branch, stopping at the first helper that throws |
| PreliminaryUpdateComment.Reassign | github-actions/trigger-issue/add-preliminary-comment/preliminary-update-comment.js:36-50 | The reassign branch makes its calls in order (render reminder, post, unassign, add label, get item, set New Issue Approval), and its trace and logged error are those of `Execute` on that sequence |
| PreliminaryUpdateComment.Welcome | github-actions/trigger-issue/add-preliminary-comment/preliminary-update-comment.js:51-62 | The welcome branch runs `makeComment`. Unless the result is `null`, it then posts, gets the item and sets In Progress. Its trace and logged error are those of `Execute` on those calls |
| TriageProperties.ExecuteWithoutThrow | github-actions/trigger-issue/add-preliminary-comment/preliminary-update-comment.js:19-66 | If no call throws, every planned change is made and nothing is logged |
| TriageProperties.ExecuteStopsAtFirstThrow | github-actions/trigger-issue/add-preliminary-comment/preliminary-update-comment.js:19-66 | If call k is the first to throw, exactly the changes of calls before k remain, no later call's change is made, and call k's error is logged |
| TriageProperties.ExecuteIsPrefix | github-actions/trigger-issue/add-preliminary-comment/preliminary-update-comment.js:19-66 | For any set of throwing helpers, the trace is a prefix of the uninterrupted trace. An error is logged exactly when some call threw, and the logged helper is one that throws |
| TriageProperties.ReassignEffects | github-actions/trigger-issue/add-preliminary-comment/preliminary-update-comment.js:36-50 | On the reassign path, the uninterrupted changes are exactly these, in this order: post the reminder comment on `issueNum`, unassign the developer, add the ready-for-dev label, set the item to New Issue Approval |
| TriageProperties.WelcomeEffects | github-actions/trigger-issue/add-preliminary-comment/preliminary-update-comment.js:52-62 | On the welcome path, the uninterrupted changes are exactly these: post the instructions, then set the item to In Progress. A `null` rendering gives no changes at all |
| TriageProperties.ReassignExactlyWhen | github-actions/trigger-issue/add-preliminary-comment/preliminary-update-comment.js:36-52 | In an uninterrupted run (no helper throws), unassigning is planned iff `!isAdminOrMerge && isAssignedToAnotherIssues`, and so is adding the label (both directions). When a helper throws, these may be cut short (see `PartialEffectsOnFailure`) |
| TriageProperties.PartialEffectsOnFailure | github-actions/trigger-issue/add-preliminary-comment/preliminary-update-comment.js:19-66 | For any failures, `main`'s trace is a prefix of its uninterrupted trace. An error is logged exactly when a helper it called threw |
| TriageProperties.UninterruptedRun | github-actions/trigger-issue/add-preliminary-comment/preliminary-update-comment.js:18-62 | With no helper throwing, `main` makes every change of its path and logs nothing |
| TriageProperties.WelcomePathNeverReassigns | github-actions/trigger-issue/add-preliminary-comment/preliminary-update-comment.js:36-61 | Whenever the welcome path is taken, whatever throws, the trace never holds an unassign, the label or a New Issue Approval update. The welcome path covers an admin or merge team member whatever their other assignments, and anyone holding no other issue |
| TriageProperties.ReassignNeverInProgress | github-actions/trigger-issue/add-preliminary-comment/preliminary-update-comment.js:36-50 | The reassign path never sets the status to In Progress, whatever throws |
| TriageProperties.NullInstructionsChangeNothing | github-actions/trigger-issue/add-preliminary-comment/preliminary-update-comment.js:53-61 | A `null` welcome rendering leaves the trace empty, whatever throws |
| TriageProperties.WelcomePostFailureStopsStatus | github-actions/trigger-issue/add-preliminary-comment/preliminary-update-comment.js:53-66 | If posting the welcome comment throws, an error is logged, the run still returns, and no change is made, so there is no status update |
| TriageProperties.WelcomeNamesLatestAssignee | github-actions/trigger-issue/add-preliminary-comment/preliminary-update-comment.js:83-139 | On an uninterrupted welcome run, the posted comment is the template rendered with `${issueAssignee}` paired with the login of the last `'assigned'` event. It is followed by the In Progress update |

## Left out

- The helpers not defined in this file are inputs of an `Env`: their
  results, and whether each one throws. These helpers are
  `getLatestAssignee`, `memberOfAdminOrMergeTeam`, `assignedToAnotherIssue`,
  `createComment`, `unAssignDev`, `addLabel`, `getItemInfo`,
  `updateItemStatus`, `postComment` and `getTimeline`. Their own behaviour
  (team lookups, failing closed, GitHub requests) is not part of this model.
- `formatComment` and `createComment` are uninterpreted functions.
  Placeholder replacement (every occurrence, or only one) is not modelled.
- `READY_FOR_DEV_LABEL` and `statusesValues` are defined elsewhere. The
  label is the action `ReadyForDevLabelAdded`. The two statuses are the
  symbolic values `NewIssueApproval` and `InProgress`. Their mapping to
  GitHub's status ids is not modelled.
- The value `getLatestAssignee` returns goes into an undeclared global
  and is not read again in this file, so only its chance to throw is
  modelled. The helpers `memberOfAdminOrMergeTeam`, `assignedToAnotherIssue`,
  `unAssignDev` and `createComment` take no developer argument and may
  read that global. Their results are free `Env` fields, so the model
  does not depend on how they find the developer.
- `createComment: string -> string`: on the reassign path,
  `unAssigningComment` is posted with no `null` check (lines 41-42). A
  `null` or non-string reminder from `createComment` is not modelled. The
  model always posts a string body.
- A change whose helper throws is not recorded in the trace, even if the
  remote service applied part of it.
- The `fs` module, `console.log`, and the `github`/`context` globals are
  not modelled. The values the step reads from them are `Env` fields and
  parameters.
- A `null` `assignee` object in the payload or in an `'assigned'` event is
  not modelled. Reading its `login` would throw a `TypeError` inside the
  `try`. That has the same observable result as a throwing helper in
  `makeComment`: no change is made and the error is logged.
- The `else` block after the `catch` (lines 67-74) is a syntax error that
  stops the whole file from loading. The model describes the file with
  those lines removed, and the block is not a path of the model.
- Disabled code is not modelled: the commented-out `shouldPost` return
  (lines 27-28) and the project-board column checks (lines 97-131).
- `async`/`await`: the step runs strictly in sequence. Each awaited call
  is one step of the trace, and there is no concurrency.
