/**
 * What the triage step promises: which path runs, the changes each path
 * makes and their order, and what is left behind when a helper throws.
 */
module TriageProperties {
  import opened Wrappers
  import opened Timeline
  import opened PreliminaryUpdateComment

  /** When no call throws, every change is made and nothing is logged. */
  lemma {:induction false} ExecuteWithoutThrow(steps: seq<Step>, throws: set<Helper>)
    requires forall k :: 0 <= k < |steps| ==> steps[k].helper !in throws
    ensures Execute(steps, throws) == Run(Effects(steps), None)
  {
    if steps != [] {
      ExecuteWithoutThrow(steps[1..], throws);
    }
  }

  /**
   * When call `k` is the first to throw, the changes of the calls before it
   * remain, no later change is made, and the error of call `k` is logged.
   */
  lemma {:induction false} ExecuteStopsAtFirstThrow(steps: seq<Step>, throws: set<Helper>, k: int)
    requires 0 <= k < |steps| && steps[k].helper in throws
    requires forall j :: 0 <= j < k ==> steps[j].helper !in throws
    ensures Execute(steps, throws) == Run(Effects(steps[..k]), Some(steps[k].helper))
  {
    if k > 0 {
      assert steps[1..][..k - 1] == steps[..k][1..];
      ExecuteStopsAtFirstThrow(steps[1..], throws, k - 1);
    }
  }

  /**
   * Whatever throws, the changes made are a prefix of those of an
   * uninterrupted run, and an error is logged exactly when some call threw.
   */
  lemma {:induction false} ExecuteIsPrefix(steps: seq<Step>, throws: set<Helper>)
    ensures Execute(steps, throws).trace <= Effects(steps)
    ensures Execute(steps, throws).logged == None <==> forall k :: 0 <= k < |steps| ==> steps[k].helper !in throws
    ensures Execute(steps, throws).logged != None ==> Execute(steps, throws).logged.value in throws
  {
    if steps != [] {
      ExecuteIsPrefix(steps[1..], throws);
      if steps[0].helper !in throws && Execute(steps[1..], throws).logged == None {
        forall k | 0 <= k < |steps| ensures steps[k].helper !in throws {
          if k > 0 { assert steps[k] == steps[1..][k - 1]; }
        }
      }
      if steps[0].helper !in throws && Execute(steps[1..], throws).logged != None {
        var j :| 0 <= j < |steps[1..]| && steps[1..][j].helper in throws;
        assert steps[j + 1] == steps[1..][j];
      }
    }
  }

  /** Membership in a prefix carries over to the whole sequence. */
  lemma InPrefix<T>(a: T, p: seq<T>, q: seq<T>)
    requires a in p && p <= q
    ensures a in q
  {
  }

  /** Calls that only read change nothing. */
  lemma {:induction false} QueriesChangeNothing(steps: seq<Step>)
    requires forall k :: 0 <= k < |steps| ==> steps[k].effect == None
    ensures Effects(steps) == []
  {
    if steps != [] {
      QueriesChangeNothing(steps[1..]);
    }
  }

  /** The change of one call followed by those of the calls after it. */
  lemma EffectsCons(s: Step, rest: seq<Step>)
    ensures Effects([s] + rest) == (if s.effect.Some? then [s.effect.value] else []) + Effects(rest)
  {
  }

  /** The three checks that open every run change nothing. */
  lemma ChecksChangeNothing(path: seq<Step>)
    ensures Effects([Step(GetLatestAssignee, None), Step(MemberOfAdminOrMergeTeam, None), Step(AssignedToAnotherIssue, None)] + path)
         == Effects(path)
  {
    EffectsCons(Step(AssignedToAnotherIssue, None), path);
    EffectsCons(Step(MemberOfAdminOrMergeTeam, None), [Step(AssignedToAnotherIssue, None)] + path);
    EffectsCons(Step(GetLatestAssignee, None), [Step(MemberOfAdminOrMergeTeam, None), Step(AssignedToAnotherIssue, None)] + path);
    assert [Step(GetLatestAssignee, None)] + ([Step(MemberOfAdminOrMergeTeam, None), Step(AssignedToAnotherIssue, None)] + path)
        == [Step(GetLatestAssignee, None), Step(MemberOfAdminOrMergeTeam, None), Step(AssignedToAnotherIssue, None)] + path;
  }

  /**
   * An uninterrupted reassign run posts the multiple-issue reminder,
   * unassigns the developer, adds the ready-for-dev-lead label and sets the
   * status to New Issue Approval, in that order and nothing else.
   */
  lemma ReassignEffects(env: Env, issueNum: int)
    requires ShouldReassign(env.isAdminOrMerge, env.isAssignedToAnotherIssues)
    ensures Effects(Plan(env, issueNum)) == [
      CommentPosted(issueNum, env.createComment(TemplateDir + ReminderFile)),
      DevUnassigned,
      ReadyForDevLabelAdded,
      StatusUpdated(env.itemId, NewIssueApproval)]
  {
    var steps := ReassignSteps(env, issueNum);
    ChecksChangeNothing(steps);
    var t5 := steps[5..];
    var t4 := steps[4..];
    var t3 := steps[3..];
    var t2 := steps[2..];
    var t1 := steps[1..];
    EffectsCons(steps[5], []);
    assert t5 == [steps[5]] + [];
    EffectsCons(steps[4], t5);
    assert t4 == [steps[4]] + t5;
    EffectsCons(steps[3], t4);
    assert t3 == [steps[3]] + t4;
    EffectsCons(steps[2], t3);
    assert t2 == [steps[2]] + t3;
    EffectsCons(steps[1], t2);
    assert t1 == [steps[1]] + t2;
    EffectsCons(steps[0], t1);
    assert steps == [steps[0]] + t1;
  }

  /**
   * An uninterrupted welcome run posts the rendered instructions and then
   * sets the status to In Progress; when the rendering is `null` it changes
   * nothing at all.
   */
  lemma WelcomeEffects(env: Env, issueNum: int)
    requires !ShouldReassign(env.isAdminOrMerge, env.isAssignedToAnotherIssues)
    ensures Effects(Plan(env, issueNum)) ==
      match WelcomeComment(env)
      case None => []
      case Some(instructions) => [CommentPosted(issueNum, instructions), StatusUpdated(env.itemId, InProgress)]
  {
    var steps := WelcomeSteps(env, issueNum);
    ChecksChangeNothing(steps);
    var tail := steps[2..];
    EffectsCons(steps[1], tail);
    assert steps[1..] == [steps[1]] + tail;
    EffectsCons(steps[0], steps[1..]);
    assert steps == [steps[0]] + steps[1..];
    if tail != [] {
      EffectsCons(tail[2], []);
      assert tail[2..] == [tail[2]] + [];
      EffectsCons(tail[1], tail[2..]);
      assert tail[1..] == [tail[1]] + tail[2..];
      EffectsCons(tail[0], tail[1..]);
      assert tail == [tail[0]] + tail[1..];
    }
  }

  /**
   * In an uninterrupted run, the reassign path's changes are planned exactly
   * when the developer is outside the admin and merge teams and holds another
   * issue. A helper that throws can cut them short; see `PartialEffectsOnFailure`.
   */
  lemma ReassignExactlyWhen(env: Env, issueNum: int)
    ensures (DevUnassigned in Effects(Plan(env, issueNum)))
        <==> ShouldReassign(env.isAdminOrMerge, env.isAssignedToAnotherIssues)
    ensures (ReadyForDevLabelAdded in Effects(Plan(env, issueNum)))
        <==> ShouldReassign(env.isAdminOrMerge, env.isAssignedToAnotherIssues)
  {
    if ShouldReassign(env.isAdminOrMerge, env.isAssignedToAnotherIssues) {
      ReassignEffects(env, issueNum);
    } else {
      WelcomeEffects(env, issueNum);
    }
  }

  /**
   * Whatever throws, the step's changes are a prefix of those of the
   * uninterrupted run, the run ends normally, and an error is logged
   * exactly when a helper it called threw.
   */
  lemma PartialEffectsOnFailure(env: Env, issueNum: int)
    ensures Expected(env, issueNum).trace <= Effects(Plan(env, issueNum))
    ensures Expected(env, issueNum).logged == None <==>
              forall k :: 0 <= k < |Plan(env, issueNum)| ==> Plan(env, issueNum)[k].helper !in env.throws
    ensures Expected(env, issueNum).logged != None ==> Expected(env, issueNum).logged.value in env.throws
  {
    ExecuteIsPrefix(Plan(env, issueNum), env.throws);
  }

  /** With no helper throwing, the run makes every change of its path and logs nothing. */
  lemma UninterruptedRun(env: Env, issueNum: int)
    requires env.throws == {}
    ensures Expected(env, issueNum) == Run(Effects(Plan(env, issueNum)), None)
  {
    ExecuteWithoutThrow(Plan(env, issueNum), env.throws);
  }

  /**
   * On the welcome path (a member of the admin or merge team whatever their
   * other issues, or anyone holding no other issue) the developer is never
   * unassigned, never given the ready-for-dev-lead label and never sent back
   * to New Issue Approval, whatever throws.
   */
  lemma WelcomePathNeverReassigns(env: Env, issueNum: int)
    requires !ShouldReassign(env.isAdminOrMerge, env.isAssignedToAnotherIssues)
    ensures forall a :: a in Expected(env, issueNum).trace ==>
              a != DevUnassigned && a != ReadyForDevLabelAdded && a != StatusUpdated(env.itemId, NewIssueApproval)
  {
    WelcomeEffects(env, issueNum);
    PartialEffectsOnFailure(env, issueNum);
    forall a | a in Expected(env, issueNum).trace
      ensures a != DevUnassigned && a != ReadyForDevLabelAdded && a != StatusUpdated(env.itemId, NewIssueApproval)
    {
      InPrefix(a, Expected(env, issueNum).trace, Effects(Plan(env, issueNum)));
    }
  }

  /** The reassign path never sets the status to In Progress. */
  lemma ReassignNeverInProgress(env: Env, issueNum: int)
    requires ShouldReassign(env.isAdminOrMerge, env.isAssignedToAnotherIssues)
    ensures forall a :: a in Expected(env, issueNum).trace ==> !(a.StatusUpdated? && a.status == InProgress)
  {
    ReassignEffects(env, issueNum);
    PartialEffectsOnFailure(env, issueNum);
    forall a | a in Expected(env, issueNum).trace ensures !(a.StatusUpdated? && a.status == InProgress) {
      InPrefix(a, Expected(env, issueNum).trace, Effects(Plan(env, issueNum)));
    }
  }

  /** A `null` rendering on the welcome path changes nothing, whatever throws. */
  lemma NullInstructionsChangeNothing(env: Env, issueNum: int)
    requires !ShouldReassign(env.isAdminOrMerge, env.isAssignedToAnotherIssues)
    requires WelcomeComment(env) == None
    ensures Expected(env, issueNum).trace == []
  {
    WelcomeEffects(env, issueNum);
    PartialEffectsOnFailure(env, issueNum);
  }

  /**
   * When posting the welcome comment throws, the run ends without an
   * uncaught error: the post's error (or an earlier one) is logged and
   * no status update follows.
   */
  lemma WelcomePostFailureStopsStatus(env: Env, issueNum: int)
    requires !ShouldReassign(env.isAdminOrMerge, env.isAssignedToAnotherIssues)
    requires WelcomeComment(env).Some? && PostComment in env.throws
    ensures Expected(env, issueNum).trace == []
    ensures Expected(env, issueNum).logged.Some?
  {
    var steps := Plan(env, issueNum);
    assert steps[5].helper == PostComment;
    var k := 0;
    while steps[k].helper !in env.throws
      invariant 0 <= k <= 5
      invariant forall j :: 0 <= j < k ==> steps[j].helper !in env.throws
      decreases 5 - k
    {
      k := k + 1;
    }
    ExecuteStopsAtFirstThrow(steps, env.throws, k);
    QueriesChangeNothing(steps[..k]);
  }

  /**
   * The welcome comment names the assignee of the last "assigned" event of
   * the timeline: it is the welcome template rendered with the placeholder
   * `${issueAssignee}` paired with that login.
   */
  lemma WelcomeNamesLatestAssignee(env: Env, issueNum: int, k: int)
    requires !ShouldReassign(env.isAdminOrMerge, env.isAssignedToAnotherIssues)
    requires IsLastAssigned(env.timeline, k)
    requires env.formatComment(CommentRequest(env.timeline[k].assignee, AssigneePlaceholder, TemplateDir + WelcomeFile, None)).Some?
    requires env.throws == {}
    ensures Expected(env, issueNum) == Run([
              CommentPosted(issueNum, env.formatComment(CommentRequest(
                env.timeline[k].assignee, AssigneePlaceholder, TemplateDir + WelcomeFile, None)).value),
              StatusUpdated(env.itemId, InProgress)], None)
  {
    LatestIsLastAssigned(env.timeline, env.payloadAssignee, k);
    WelcomeEffects(env, issueNum);
    UninterruptedRun(env, issueNum);
  }
}
