/**
 * The minute-by-minute scheduler: which stored workflows are candidates, when a candidate's
 * cron expression is due, and which runs one check starts.
 *
 * Instants are integer seconds. Parsing a cron expression and asking for its next fire time
 * after an instant is one abstract function, `CronNext`, whose result says whether the
 * expression parsed and whether a next fire time exists.
 */
module Scheduler {
  import opened Wrappers
  import opened BackendModel

  /** How far back the due test looks, in seconds; also the check's period. */
  const OneMinute := 60

  /** The status a workflow must carry, ignoring case, to be scheduled. */
  const ActiveStatus := "ACTIVE"

  /** The outcome of parsing a cron expression and asking for the next fire time after an instant. */
  datatype Fire = Unparsable | NoNext | At(time: int)

  /** `CronExpression.parse(cron).next(after)`, with the parse error as `Unparsable`. */
  type CronNext = (string, int) -> Fire

  /**
   * `shouldRunNow`: due when the next fire time after one minute ago exists and is not after
   * now. An expression that does not parse is never due, and no error escapes.
   */
  function ShouldRunNow(cronNext: CronNext, cron: string, now: int): bool {
    match cronNext(cron, now - OneMinute)
    case At(t) => t <= now
    case _ => false
  }

  /**
   * `fire` is what a correct `next(after)` gives for the schedule whose fire instants are
   * `fires`: the earliest fire instant strictly after `after`, or none when there is none.
   */
  ghost predicate IsNextFire(fire: Fire, after: int, fires: int -> bool) {
    && !fire.Unparsable?
    && (fire.At? ==> after < fire.time && fires(fire.time) && forall u :: after < u < fire.time ==> !fires(u))
    && (fire.NoNext? ==> forall u :: after < u ==> !fires(u))
  }

  /**
   * With a correct `next`, an expression is due exactly when it fires at some instant of the
   * last minute: after one minute ago, and no later than now.
   */
  lemma DueIffFireInLastMinute(cronNext: CronNext, cron: string, now: int, fires: int -> bool)
    requires IsNextFire(cronNext(cron, now - OneMinute), now - OneMinute, fires)
    ensures ShouldRunNow(cronNext, cron, now) <==> exists u :: now - OneMinute < u <= now && fires(u)
  {
    var fire := cronNext(cron, now - OneMinute);
    if fire.At? {
      if fire.time <= now {
        assert fires(fire.time);
      } else {
        forall u | now - OneMinute < u <= now
          ensures !fires(u)
        {
        }
      }
    }
  }

  /** An expression that does not parse is never due. */
  lemma UnparsableNeverDue(cronNext: CronNext, cron: string, now: int)
    requires cronNext(cron, now - OneMinute) == Unparsable
    ensures !ShouldRunNow(cronNext, cron, now)
  {
  }

  /** `Character.toUpperCase` on the characters that fold onto ASCII letters: a-z and dotless i. */
  function UpperCase(c: char): char {
    if 'a' <= c <= 'z' then ((c as int) - 32) as char
    else if c == '\U{0131}' then 'I'
    else c
  }

  /** `Character.toLowerCase` on the characters that fold onto ASCII letters: A-Z and dotted I. */
  function LowerCase(c: char): char {
    if 'A' <= c <= 'Z' then ((c as int) + 32) as char
    else if c == '\U{0130}' then 'i'
    else c
  }

  /** Two characters match ignoring case: equal, equal upper-cased, or equal lower-cased after that. */
  predicate CharsEqualIgnoreCase(a: char, b: char) {
    a == b || UpperCase(a) == UpperCase(b) || LowerCase(UpperCase(a)) == LowerCase(UpperCase(b))
  }

  /** `s.equalsIgnoreCase(other)`: false for null, otherwise same length and matching characters. */
  predicate EqualsIgnoreCase(s: string, other: Option<string>) {
    other.Some? && |s| == |other.value| && forall i :: 0 <= i < |s| ==> CharsEqualIgnoreCase(s[i], other.value[i])
  }

  /**
   * The spellings of the scheduled status: six characters, each the upper- or lower-case letter
   * of "ACTIVE", where the fourth may also be a dotted capital or dotless small i.
   */
  lemma {:induction false} ActiveSpellings(status: string)
    ensures EqualsIgnoreCase(ActiveStatus, Some(status)) <==>
      && |status| == 6
      && status[0] in {'A', 'a'}
      && status[1] in {'C', 'c'}
      && status[2] in {'T', 't'}
      && status[3] in {'I', 'i', '\U{0130}', '\U{0131}'}
      && status[4] in {'V', 'v'}
      && status[5] in {'E', 'e'}
  {
    if |status| == 6 {
      var s := ActiveStatus;
      assert s[0] == 'A' && s[1] == 'C' && s[2] == 'T' && s[3] == 'I' && s[4] == 'V' && s[5] == 'E';
      if EqualsIgnoreCase(s, Some(status)) {
        assert CharsEqualIgnoreCase(s[0], status[0]);
        assert CharsEqualIgnoreCase(s[1], status[1]);
        assert CharsEqualIgnoreCase(s[2], status[2]);
        assert CharsEqualIgnoreCase(s[3], status[3]);
        assert CharsEqualIgnoreCase(s[4], status[4]);
        assert CharsEqualIgnoreCase(s[5], status[5]);
      }
    }
  }

  /** A workflow the scheduler looks at: status ACTIVE ignoring case, and a cron expression. */
  predicate IsCandidate(w: Workflow) {
    EqualsIgnoreCase(ActiveStatus, w.status) && w.cronExpression.Some?
  }

  /** A paused workflow, one without a status and one without a cron expression are never candidates. */
  lemma NeverCandidate(w: Workflow)
    requires w.status == None || w.status == Some("PAUSED") || w.cronExpression == None
    ensures !IsCandidate(w)
  {
    if w.status == Some("PAUSED") {
      assert !CharsEqualIgnoreCase(ActiveStatus[0], w.status.value[0]);
    }
  }

  /** Unlike the dashboard's count, the scheduler accepts a lower-case "active". */
  lemma LowerCaseActiveIsCandidate(w: Workflow)
    requires w.status == Some("active") && w.cronExpression.Some?
    ensures IsCandidate(w)
  {
    ActiveSpellings("active");
  }

  /** A workflow one check triggers: a candidate whose expression is due now. */
  predicate IsDue(cronNext: CronNext, now: int, w: Workflow) {
    IsCandidate(w) && ShouldRunNow(cronNext, w.cronExpression.value, now)
  }

  /** The due workflows, in the order the table lists them. */
  function DueWorkflows(cronNext: CronNext, now: int, workflows: seq<Workflow>): (due: seq<Workflow>)
    ensures forall w :: w in due <==> w in workflows && IsDue(cronNext, now, w)
    decreases |workflows|
  {
    if workflows == [] then []
    else
      var pre := workflows[..|workflows| - 1];
      var last := workflows[|workflows| - 1];
      assert forall w :: w in workflows <==> w in pre || w == last;
      DueWorkflows(cronNext, now, pre) + (if IsDue(cronNext, now, last) then [last] else [])
  }

  /** The due workflows of two lists, one after the other, are those of the first then those of the second. */
  lemma {:induction false} DueWorkflowsAppend(cronNext: CronNext, now: int, a: seq<Workflow>, b: seq<Workflow>)
    ensures DueWorkflows(cronNext, now, a + b) == DueWorkflows(cronNext, now, a) + DueWorkflows(cronNext, now, b)
    decreases |b|
  {
    if b == [] {
      assert a + b == a;
    } else {
      var pre := b[..|b| - 1];
      assert (a + b)[..|a + b| - 1] == a + pre;
      DueWorkflowsAppend(cronNext, now, a, pre);
    }
  }

  /**
   * Each due workflow is triggered as many times as the table lists it (once, for a stored
   * workflow), and any other workflow not at all.
   */
  lemma {:induction false} DueWorkflowsExactlyOnce(cronNext: CronNext, now: int, workflows: seq<Workflow>, w: Workflow)
    ensures multiset(DueWorkflows(cronNext, now, workflows))[w]
         == if IsDue(cronNext, now, w) then multiset(workflows)[w] else 0
    decreases |workflows|
  {
    if workflows != [] {
      var pre := workflows[..|workflows| - 1];
      DueWorkflowsExactlyOnce(cronNext, now, pre, w);
      assert workflows == pre + [workflows[|workflows| - 1]];
    }
  }

  /** The ids of a list of workflows, in order. */
  function Ids(workflows: seq<Workflow>): (ids: seq<string>)
    ensures |ids| == |workflows|
    ensures forall i :: 0 <= i < |workflows| ==> ids[i] == workflows[i].workflowId
  {
    seq(|workflows|, i requires 0 <= i < |workflows| => workflows[i].workflowId)
  }

  /**
   * `scheduleCheck`: goes through the stored workflows in table order and starts a run of each
   * due one; the result is the ids of the runs started, in order.
   */
  method ScheduleCheck(workflows: seq<Workflow>, now: int, cronNext: CronNext) returns (triggered: seq<string>)
    ensures triggered == Ids(DueWorkflows(cronNext, now, workflows))
  {
    triggered := [];
    for i := 0 to |workflows|
      invariant triggered == Ids(DueWorkflows(cronNext, now, workflows[..i]))
    {
      var wf := workflows[i];
      assert workflows[..i + 1][..i] == workflows[..i];
      if EqualsIgnoreCase(ActiveStatus, wf.status) && wf.cronExpression.Some? {
        if ShouldRunNow(cronNext, wf.cronExpression.value, now) {
          triggered := triggered + [wf.workflowId];
        }
      }
    }
    assert workflows[..|workflows|] == workflows;
  }
}
