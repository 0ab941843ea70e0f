/**
 * The triage step run when an issue is assigned: decide whether the developer
 * may keep the issue, then either send it back for approval (reassign path)
 * or post the preliminary-update instructions (welcome path). Every helper
 * the step calls is an oracle given by an `Env`; a helper may throw, and the
 * step catches whatever is thrown, logs it and returns normally.
 */
module PreliminaryUpdateComment {
  import opened Wrappers
  import opened Timeline

  /** Directory of the comment templates. */
  const TemplateDir := "./github-actions/trigger-issue/add-preliminary-comment/"
  /** Template posted on the reassign path. */
  const ReminderFile := "multiple-issue-reminder.md"
  /** Template posted on the welcome path. */
  const WelcomeFile := "preliminary-update.md"
  /** Token of the welcome template that the resolved assignee replaces. */
  const AssigneePlaceholder := "${issueAssignee}"

  /** The id of the issue's project item, as `getItemInfo` returns it. */
  type ItemId = string

  /** The two project statuses this step sets. */
  datatype Status = NewIssueApproval | InProgress

  /** The object handed to `formatComment`. */
  datatype CommentRequest = CommentRequest(
    replacementString: string,
    placeholderString: string,
    filePathToFormat: string,
    textToFormat: Option<string>)

  /** The helpers the step awaits or calls, each of which may throw. */
  datatype Helper =
    | GetLatestAssignee | MemberOfAdminOrMergeTeam | AssignedToAnotherIssue
    | CreateComment | GetTimeline | FormatComment
    | PostComment | UnAssignDev | AddLabel | GetItemInfo | UpdateItemStatus

  /** A change the step makes to the issue tracker. */
  datatype Action =
    | CommentPosted(issue: int, body: string)
    | DevUnassigned
    | ReadyForDevLabelAdded
    | StatusUpdated(item: ItemId, status: Status)

  /**
   * What the helpers answer in one run: the helpers that throw when called,
   * the values the others return, and the two template renderers.
   */
  datatype Env = Env(
    throws: set<Helper>,
    isAdminOrMerge: bool,
    isAssignedToAnotherIssues: bool,
    payloadAssignee: Login,
    timeline: seq<Event>,
    itemId: ItemId,
    createComment: string -> string,
    formatComment: CommentRequest -> Option<string>)

  /** One awaited call and the change it makes when it returns. */
  datatype Step = Step(helper: Helper, effect: Option<Action>)

  /** What a run leaves behind: the changes made, and the error caught and logged, if any. */
  datatype Run = Run(trace: seq<Action>, logged: Option<Helper>)

  /** The reassign path is for developers outside the admin and merge teams who already hold another issue. */
  predicate ShouldReassign(isAdminOrMerge: bool, isAssignedToAnotherIssues: bool)
  {
    !isAdminOrMerge && isAssignedToAnotherIssues
  }

  /** The `commentObject` of `makeComment` for a resolved assignee. */
  function WelcomeRequest(assignee: Login): CommentRequest
  {
    CommentRequest(assignee, AssigneePlaceholder, TemplateDir + WelcomeFile, None)
  }

  /** The welcome comment as `makeComment` renders it when nothing throws. */
  function WelcomeComment(env: Env): Option<string>
  {
    env.formatComment(WelcomeRequest(LatestAssignee(env.timeline, env.payloadAssignee)))
  }

  /** The calls of the reassign path, in order, when none of them throws. */
  function ReassignSteps(env: Env, issueNum: int): seq<Step>
  {
    [ Step(CreateComment, None),
      Step(PostComment, Some(CommentPosted(issueNum, env.createComment(TemplateDir + ReminderFile)))),
      Step(UnAssignDev, Some(DevUnassigned)),
      Step(AddLabel, Some(ReadyForDevLabelAdded)),
      Step(GetItemInfo, None),
      Step(UpdateItemStatus, Some(StatusUpdated(env.itemId, NewIssueApproval))) ]
  }

  /** The calls of the welcome path, in order, when none of them throws. */
  function WelcomeSteps(env: Env, issueNum: int): seq<Step>
  {
    [Step(GetTimeline, None), Step(FormatComment, None)] +
    match WelcomeComment(env)
    case None => []
    case Some(instructions) => [
      Step(PostComment, Some(CommentPosted(issueNum, instructions))),
      Step(GetItemInfo, None),
      Step(UpdateItemStatus, Some(StatusUpdated(env.itemId, InProgress)))]
  }

  /** The calls a run makes, in order, when no helper throws. */
  function Plan(env: Env, issueNum: int): seq<Step>
  {
    [Step(GetLatestAssignee, None), Step(MemberOfAdminOrMergeTeam, None), Step(AssignedToAnotherIssue, None)] +
    if ShouldReassign(env.isAdminOrMerge, env.isAssignedToAnotherIssues) then ReassignSteps(env, issueNum)
    else WelcomeSteps(env, issueNum)
  }

  /** The changes a sequence of calls makes when none of them throws. */
  function Effects(steps: seq<Step>): seq<Action>
  {
    if steps == [] then []
    else (if steps[0].effect.Some? then [steps[0].effect.value] else []) + Effects(steps[1..])
  }

  /**
   * The try/catch around the calls: they run in order until one throws;
   * that error is logged and no later call is made.
   */
  function Execute(steps: seq<Step>, throws: set<Helper>): Run
  {
    if steps == [] then Run([], None)
    else if steps[0].helper in throws then Run([], Some(steps[0].helper))
    else
      var rest := Execute(steps[1..], throws);
      Run((if steps[0].effect.Some? then [steps[0].effect.value] else []) + rest.trace, rest.logged)
  }

  /** The run the step makes on `env`. */
  function Expected(env: Env, issueNum: int): Run
  {
    Execute(Plan(env, issueNum), env.throws)
  }

  /** `expected` is what `trace` becomes once the calls `rest` have been executed. */
  ghost predicate Pending(expected: Run, trace: seq<Action>, rest: seq<Step>, throws: set<Helper>)
  {
    var r := Execute(rest, throws);
    expected == Run(trace + r.trace, r.logged)
  }

  /** One `await`: the call throws, or it returns and its change is appended to the trace. */
  method Await(s: Step, throws: set<Helper>, trace: seq<Action>, ghost rest: seq<Step>, ghost expected: Run)
    returns (newTrace: seq<Action>, threw: bool)
    requires rest != [] && rest[0] == s && Pending(expected, trace, rest, throws)
    ensures threw == (s.helper in throws)
    ensures threw ==> newTrace == trace && expected == Run(trace, Some(s.helper))
    ensures !threw ==> Pending(expected, newTrace, rest[1..], throws)
  {
    threw := s.helper in throws;
    newTrace := trace;
    if !threw && s.effect.Some? {
      newTrace := trace + [s.effect.value];
    }
  }

  /**
   * `makeComment`: the payload's assignee is replaced by the latest one the
   * timeline names, and the welcome template is rendered for that assignee.
   * `Failure` carries the helper that threw.
   */
  method MakeComment(env: Env) returns (r: Result<Option<string>, Helper>)
    ensures GetTimeline in env.throws ==> r == Failure(GetTimeline)
    ensures GetTimeline !in env.throws && FormatComment in env.throws ==> r == Failure(FormatComment)
    ensures GetTimeline !in env.throws && FormatComment !in env.throws ==>
              r == Success(env.formatComment(CommentRequest(
                     LatestAssignee(env.timeline, env.payloadAssignee),
                     AssigneePlaceholder,
                     TemplateDir + WelcomeFile,
                     None)))
  {
    var issueAssignee := env.payloadAssignee;
    var filename := WelcomeFile;
    if GetTimeline in env.throws {
      return Failure(GetTimeline);
    }
    var eventdescriptions := env.timeline;
    issueAssignee := ResolveAssignee(eventdescriptions, issueAssignee);
    var filePathToFormat := TemplateDir + filename;
    var commentObject := CommentRequest(issueAssignee, AssigneePlaceholder, filePathToFormat, None);
    if FormatComment in env.throws {
      return Failure(FormatComment);
    }
    r := Success(env.formatComment(commentObject));
  }

  /**
   * `main`: the triage decision and its sequence of effects. The method
   * always returns; `logged` is the error the catch block logs.
   */
  method HandleAssignment(env: Env, issueNum: int) returns (trace: seq<Action>, logged: Option<Helper>)
    ensures Run(trace, logged) == Expected(env, issueNum)
  {
    ghost var expected := Expected(env, issueNum);
    ghost var rest := Plan(env, issueNum);
    trace, logged := [], None;
    var threw: bool;

    // assignee = await getLatestAssignee(); the value is not used afterwards
    trace, threw := Await(Step(GetLatestAssignee, None), env.throws, trace, rest, expected);
    if threw { return trace, Some(GetLatestAssignee); }
    rest := rest[1..];

    trace, threw := Await(Step(MemberOfAdminOrMergeTeam, None), env.throws, trace, rest, expected);
    if threw { return trace, Some(MemberOfAdminOrMergeTeam); }
    rest := rest[1..];
    var isAdminOrMerge := env.isAdminOrMerge;

    trace, threw := Await(Step(AssignedToAnotherIssue, None), env.throws, trace, rest, expected);
    if threw { return trace, Some(AssignedToAnotherIssue); }
    rest := rest[1..];
    var isAssignedToAnotherIssues := env.isAssignedToAnotherIssues;

    if !isAdminOrMerge && isAssignedToAnotherIssues {
      assert rest == ReassignSteps(env, issueNum);
      trace, logged := Reassign(env, issueNum);
    } else {
      assert rest == WelcomeSteps(env, issueNum);
      trace, logged := Welcome(env, issueNum);
    }
  }

  /**
   * The reassign branch of `main`: post the multiple-issue reminder, unassign
   * the developer, add the ready-for-dev-lead label and move the item back
   * to New Issue Approval, stopping at the first call that throws.
   */
  method Reassign(env: Env, issueNum: int) returns (trace: seq<Action>, logged: Option<Helper>)
    ensures Run(trace, logged) == Execute(ReassignSteps(env, issueNum), env.throws)
  {
    ghost var expected := Execute(ReassignSteps(env, issueNum), env.throws);
    ghost var rest := ReassignSteps(env, issueNum);
    trace, logged := [], None;
    var threw: bool;

    var fileName := ReminderFile;
    var filePath := TemplateDir + fileName;
    trace, threw := Await(Step(CreateComment, None), env.throws, trace, rest, expected);
    if threw { return trace, Some(CreateComment); }
    rest := rest[1..];
    var unAssigningComment := env.createComment(filePath);

    trace, threw := Await(Step(PostComment, Some(CommentPosted(issueNum, unAssigningComment))), env.throws, trace, rest, expected);
    if threw { return trace, Some(PostComment); }
    rest := rest[1..];

    trace, threw := Await(Step(UnAssignDev, Some(DevUnassigned)), env.throws, trace, rest, expected);
    if threw { return trace, Some(UnAssignDev); }
    rest := rest[1..];

    trace, threw := Await(Step(AddLabel, Some(ReadyForDevLabelAdded)), env.throws, trace, rest, expected);
    if threw { return trace, Some(AddLabel); }
    rest := rest[1..];

    trace, threw := Await(Step(GetItemInfo, None), env.throws, trace, rest, expected);
    if threw { return trace, Some(GetItemInfo); }
    rest := rest[1..];
    var item := env.itemId;

    trace, threw := Await(Step(UpdateItemStatus, Some(StatusUpdated(item, NewIssueApproval))), env.throws, trace, rest, expected);
    if threw { return trace, Some(UpdateItemStatus); }
  }

  /**
   * The welcome branch of `main`: render the instructions and, unless they
   * are `null`, post them and move the item to In Progress, stopping at the
   * first call that throws.
   */
  method Welcome(env: Env, issueNum: int) returns (trace: seq<Action>, logged: Option<Helper>)
    ensures Run(trace, logged) == Execute(WelcomeSteps(env, issueNum), env.throws)
  {
    ghost var expected := Execute(WelcomeSteps(env, issueNum), env.throws);
    ghost var rest := WelcomeSteps(env, issueNum);
    trace, logged := [], None;
    var threw: bool;

    var instructions := MakeComment(env);
    assert GetTimeline !in env.throws ==> Pending(expected, trace, rest[1..], env.throws);
    if instructions.Failure? {
      return trace, Some(instructions.error);
    }
    assert Pending(expected, trace, rest[2..], env.throws) by {
      assert rest[1..][1..] == rest[2..];
    }
    assert instructions.value == WelcomeComment(env);
    rest := rest[2..];
    if instructions.value.Some? {
      trace, threw := Await(Step(PostComment, Some(CommentPosted(issueNum, instructions.value.value))), env.throws, trace, rest, expected);
      if threw { return trace, Some(PostComment); }
      rest := rest[1..];

      trace, threw := Await(Step(GetItemInfo, None), env.throws, trace, rest, expected);
      if threw { return trace, Some(GetItemInfo); }
      rest := rest[1..];
      var item := env.itemId;

      trace, threw := Await(Step(UpdateItemStatus, Some(StatusUpdated(item, InProgress))), env.throws, trace, rest, expected);
      if threw { return trace, Some(UpdateItemStatus); }
    }
  }
}
