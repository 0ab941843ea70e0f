/**
 * Latest-assignee resolution: the issue's timeline is scanned from its end
 * for the most recent "assigned" event; the payload's assignee is the default.
 */
module Timeline {

  /** A GitHub user handle (`login`). */
  type Login = string

  /** The event type that records an assignment. */
  const Assigned := "assigned"

  /** One timeline event: its type and the login of the assignee it names. */
  datatype Event = Event(event: string, assignee: Login)

  /**
   * Specification of the resolution: the assignee of the last event whose
   * type is "assigned", or `fallback` when no such event exists. Defined by
   * peeling events off the end of the timeline, the direction of the scan.
   */
  function LatestAssignee(events: seq<Event>, fallback: Login): Login
  {
    if |events| == 0 then fallback
    else if events[|events| - 1].event == Assigned then events[|events| - 1].assignee
    else LatestAssignee(events[..|events| - 1], fallback)
  }

  /** Event `k` is an assignment and no later event is. */
  ghost predicate IsLastAssigned(events: seq<Event>, k: int)
  {
    0 <= k < |events| && events[k].event == Assigned &&
    forall j :: k < j < |events| ==> events[j].event != Assigned
  }

  /** No event of the timeline is an assignment. */
  ghost predicate NoneAssigned(events: seq<Event>)
  {
    forall j :: 0 <= j < |events| ==> events[j].event != Assigned
  }

  /**
   * The loop of `makeComment`: start from the payload's assignee, walk the
   * timeline backward and stop at the first "assigned" event met.
   */
  method ResolveAssignee(eventdescriptions: seq<Event>, payloadAssignee: Login) returns (issueAssignee: Login)
    ensures issueAssignee == LatestAssignee(eventdescriptions, payloadAssignee)
  {
    issueAssignee := payloadAssignee;
    var i := |eventdescriptions| - 1;
    assert eventdescriptions[..i + 1] == eventdescriptions;
    while i >= 0
      invariant -1 <= i < |eventdescriptions|
      invariant issueAssignee == payloadAssignee
      invariant LatestAssignee(eventdescriptions[..i + 1], payloadAssignee)
             == LatestAssignee(eventdescriptions, payloadAssignee)
      decreases i
    {
      if eventdescriptions[i].event == Assigned {
        issueAssignee := eventdescriptions[i].assignee;
        break;
      }
      assert eventdescriptions[..i + 1][..i] == eventdescriptions[..i];
      i := i - 1;
    }
  }

  /** The resolution yields the assignee of the last "assigned" event, whatever follows it. */
  lemma {:induction false} LatestIsLastAssigned(events: seq<Event>, fallback: Login, k: int)
    requires IsLastAssigned(events, k)
    ensures LatestAssignee(events, fallback) == events[k].assignee
  {
    var n := |events|;
    if k < n - 1 {
      var init := events[..n - 1];
      assert IsLastAssigned(init, k) by {
        forall j | k < j < |init| ensures init[j].event != Assigned {
          assert init[j] == events[j];
        }
      }
      LatestIsLastAssigned(init, fallback, k);
    }
  }

  /** Without any "assigned" event (an empty timeline included) the payload's assignee stands. */
  lemma {:induction false} LatestWithoutAssigned(events: seq<Event>, fallback: Login)
    requires NoneAssigned(events)
    ensures LatestAssignee(events, fallback) == fallback
  {
    var n := |events|;
    if n > 0 {
      var init := events[..n - 1];
      assert NoneAssigned(init) by {
        forall j | 0 <= j < |init| ensures init[j].event != Assigned {
          assert init[j] == events[j];
        }
      }
      LatestWithoutAssigned(init, fallback);
    }
  }

  /** Events of other types appended after the timeline do not change the result. */
  lemma {:induction false} LatestIgnoresLaterOthers(events: seq<Event>, later: seq<Event>, fallback: Login)
    requires NoneAssigned(later)
    ensures LatestAssignee(events + later, fallback) == LatestAssignee(events, fallback)
  {
    if |later| == 0 {
      assert events + later == events;
    } else {
      var m := |later|;
      var all := events + later;
      assert all[|all| - 1] == later[m - 1];
      assert all[..|all| - 1] == events + later[..m - 1];
      var init := later[..m - 1];
      assert NoneAssigned(init) by {
        forall j | 0 <= j < |init| ensures init[j].event != Assigned {
          assert init[j] == later[j];
        }
      }
      LatestIgnoresLaterOthers(events, init, fallback);
    }
  }

  /**
   * Once a later part of the timeline holds an "assigned" event, nothing
   * before that part, and not the payload's assignee either, influences the result.
   */
  lemma {:induction false} LatestIgnoresEarlier(earlier: seq<Event>, later: seq<Event>, fallback: Login, otherFallback: Login)
    requires exists j :: 0 <= j < |later| && later[j].event == Assigned
    ensures LatestAssignee(earlier + later, fallback) == LatestAssignee(later, otherFallback)
  {
    var m := |later|;
    var all := earlier + later;
    assert all[|all| - 1] == later[m - 1];
    if later[m - 1].event != Assigned {
      var j :| 0 <= j < m && later[j].event == Assigned;
      assert later[..m - 1][j] == later[j];
      assert all[..|all| - 1] == earlier + later[..m - 1];
      LatestIgnoresEarlier(earlier, later[..m - 1], fallback, otherFallback);
    }
  }

  /**
   * The two cases are exhaustive: the result is either the fallback of a
   * timeline with no assignment, or the assignee of its last assignment.
   */
  lemma {:induction false} LatestCases(events: seq<Event>, fallback: Login)
    ensures || (NoneAssigned(events) && LatestAssignee(events, fallback) == fallback)
            || (exists k :: IsLastAssigned(events, k) && LatestAssignee(events, fallback) == events[k].assignee)
  {
    var n := |events|;
    if n > 0 {
      var init := events[..n - 1];
      if events[n - 1].event == Assigned {
        assert IsLastAssigned(events, n - 1);
      } else {
        LatestCases(init, fallback);
        if NoneAssigned(init) {
          assert NoneAssigned(events) by {
            forall j | 0 <= j < n ensures events[j].event != Assigned {
              if j < n - 1 { assert init[j] == events[j]; }
            }
          }
        } else {
          var k :| IsLastAssigned(init, k) && LatestAssignee(init, fallback) == init[k].assignee;
          assert init[k] == events[k];
          assert IsLastAssigned(events, k) by {
            forall j | k < j < n ensures events[j].event != Assigned {
              if j < n - 1 { assert init[j] == events[j]; }
            }
          }
        }
      }
    }
  }
}
