/** What a client is told by a request, and what no run takes back. */
module Requests {
  import opened Prelude
  import opened Protocol
  import opened JointInvariant

  // ---- At once ----

  /** Whatever live status a terminate meets, the session is terminated right after it and names no handle. */
  lemma {:induction false} TerminateIsSeen(s: State, sid: Sid)
    requires sid in s && s[sid].row.Some?
    ensures var t := Apply(s, Terminate(sid));
            Observe(t, sid) == Live(Terminated)
            && (s[sid].row.value.status != Terminated ==> t[sid].row.value.handle == "")
  {
  }

  /** A delete removes every session that is neither pending nor running, and no other. */
  lemma {:induction false} DeleteIsSeen(s: State, sid: Sid)
    requires sid in s && s[sid].row.Some?
    ensures if Observe(s, sid) in {Live(Pending), Live(Running)} then Apply(s, Delete(sid)) == s
            else Observe(Apply(s, Delete(sid)), sid) == Deleted
  {
  }

  /** A prompt makes a completed session pending, with one more turn, and leaves every other alone. */
  lemma {:induction false} PromptIsSeen(s: State, sid: Sid)
    requires sid in s && s[sid].row.Some?
    ensures var t := Apply(s, Prompt(sid));
            if Observe(s, sid) == Live(Completed) then
              Observe(t, sid) == Live(Pending) && |t[sid].row.value.turns| == |s[sid].row.value.turns| + 1
            else t == s
  {
  }

  /** A create within the limit is seen as a pending session that holds its handle; without room nothing changes. */
  lemma {:induction false} CreateIsSeen(s: State, sid: Sid, user: nat, name: string, limit: nat)
    requires sid !in s && FreshName(s, name)
    ensures var t := Apply(s, Create(sid, user, name, limit));
            if |ActiveSessions(s, user)| < limit then
              && Observe(t, sid) == Live(Pending) && t[sid].row.value.handle == name
              && t[sid].row.value.user == user && |t[sid].row.value.turns| == 1
            else t == s
  {
  }

  // ---- No turn after the end ----

  /** The session has failed, was terminated or is gone. */
  predicate IsOver(c: Cell) {
    c.row.None? || c.row.value.status in {Failed, Terminated}
  }

  function TurnCount(c: Cell): nat {
    if c.row.None? then 0 else |c.row.value.turns|
  }

  lemma {:induction false} RequestsAddNoTurn(c: Cell)
    requires IsOver(c)
    ensures IsOver(PromptCell(c)) && IsOver(TerminateCell(c)) && IsOver(DeleteCell(c))
    ensures PromptCell(c).created == TerminateCell(c).created == DeleteCell(c).created == c.created
    ensures PromptCell(c).row.Some? ==> c.row.Some? && TurnCount(PromptCell(c)) == TurnCount(c)
    ensures TerminateCell(c).row.Some? ==> c.row.Some? && TurnCount(TerminateCell(c)) == TurnCount(c)
    ensures DeleteCell(c).row.Some? ==> DeleteCell(c) == c
  {
  }

  lemma {:induction false} GroupAddsNoTurn(c: Cell, g: Group)
    requires Joint(c) && IsOver(c) && (g.Single? ==> Groupable(g.step))
    ensures IsOver(GroupCell(c, g)) && GroupCell(c, g).created == c.created
    ensures GroupCell(c, g).row.Some? ==> c.row.Some? && TurnCount(GroupCell(c, g)) == TurnCount(c)
  {
    if g.Single? {
      RequestsAddNoTurn(c);
    }
  }

  lemma {:induction false} OverStaysOver(s: State, gs: seq<Group>, sid: Sid)
    requires StateFits(s) && WellGrouped(gs) && sid in s && IsOver(s[sid])
    ensures var t := RunGroups(s, gs);
            && sid in t && IsOver(t[sid]) && t[sid].created == s[sid].created
            && (t[sid].row.Some? ==> s[sid].row.Some? && TurnCount(t[sid]) == TurnCount(s[sid]))
    decreases |gs|
  {
    if gs != [] {
      assert gs[0] in gs;
      GroupOnCell(s, gs[0]);
      GroupKeepsFit(s, gs[0]);
      if GroupSid(gs[0]) == sid {
        GroupAddsNoTurn(s[sid], gs[0]);
      }
      OverStaysOver(ApplyGroup(s, gs[0]), gs[1..], sid);
    }
  }

  /**
   A terminate that any run of groups has led to: whatever groups follow, the
   session is seen as terminated or deleted, and no prompt gives it a turn.
   */
  lemma {:induction false} NoTurnAfterTerminate(before: seq<Group>, after: seq<Group>, sid: Sid)
    requires WellGrouped(before) && WellGrouped(after)
    requires var s := RunGroups(map[], before); sid in s && s[sid].row.Some?
    ensures var s := RunGroups(map[], before);
            var t := RunGroups(Apply(s, Terminate(sid)), after);
            && Observe(t, sid) in {Live(Terminated), Deleted}
            && t[sid].created == s[sid].created
            && (t[sid].row.Some? ==> |t[sid].row.value.turns| == |s[sid].row.value.turns|)
  {
    var s := RunGroups(map[], before);
    var t := Apply(s, Terminate(sid));
    RunKeepsFit(map[], before);
    FoldOne(Apply, s, Terminate(sid));
    assert Expand(Single(Terminate(sid))) == [Terminate(sid)];
    assert ApplyGroup(s, Single(Terminate(sid))) == t;
    GroupKeepsFit(s, Single(Terminate(sid)));
    TerminateIsSeen(s, sid);
    OverStaysOver(t, after, sid);
    TerminatedStays(t, after, sid);
  }

  lemma {:induction false} TerminatedStays(s: State, gs: seq<Group>, sid: Sid)
    requires StateFits(s) && WellGrouped(gs) && Observe(s, sid) in {Live(Terminated), Deleted}
    ensures Observe(RunGroups(s, gs), sid) in {Live(Terminated), Deleted}
    decreases |gs|
  {
    if gs != [] {
      assert gs[0] in gs;
      StepMovesStatus(s, gs[0], sid);
      GroupKeepsFit(s, gs[0]);
      TerminatedStays(ApplyGroup(s, gs[0]), gs[1..], sid);
    }
  }

  // ---- A session terminated before a worker picked it up ----

  /** Terminated or gone, with at most its provision task, still queued. */
  predicate Dormant(c: Cell) {
    && (c.row.None? || c.row.value.status == Terminated)
    && forall id | id in c.tasks :: c.tasks[id].job == ProvisionJob && c.tasks[id].phase == Queued
  }

  lemma {:induction false} StaysDormant(c: Cell, step: Step)
    requires Dormant(c)
    ensures Dormant(StepCell(c, step)) && StepCell(c, step).handed == c.handed
    ensures forall id | id in StepCell(c, step).tasks :: id in c.tasks
  {
  }

  /** Over any single steps such a session is never provisioned, and no turn of it is ever handed out. */
  lemma {:induction false} DormantIsNeverProvisioned(s: State, steps: seq<Step>, sid: Sid)
    requires sid in s && Dormant(s[sid])
    ensures sid in RunSteps(s, steps) && Dormant(RunSteps(s, steps)[sid])
    ensures RunSteps(s, steps)[sid].handed == s[sid].handed
    decreases |steps|
  {
    if steps != [] {
      if steps[0].sid == sid {
        StaysDormant(s[sid], steps[0]);
      }
      DormantIsNeverProvisioned(Apply(s, steps[0]), steps[1..], sid);
    }
  }

  /** A create and a terminate before the worker comes lead there. */
  lemma {:induction false} TerminatedEarlyIsDormant(s: State, sid: Sid, user: nat, name: string, limit: nat)
    requires CanCreate(s, sid, user, name, limit)
    ensures var t := Apply(Apply(s, Create(sid, user, name, limit)), Terminate(sid));
            sid in t && Dormant(t[sid]) && t[sid].handed == []
  {
  }
}
