/** Execution sessions: the last phase and the action count of a long-running agent. */
module Sessions {
  import opened Prelude
  import Policy

  datatype Phase = ApprovalRequiredPhase | ApprovedPhase | Executing | Completed | Denied | Failed | Simulated

  datatype Session = Session(
    agentId: string, jti: Option<string>, traceId: Option<string>, tool: Option<Policy.Tool>,
    actionCount: nat, lastPhase: Phase, approvalIds: seq<string>)

  datatype TouchInput = TouchInput(
    sessionId: string, agentId: string, jti: Option<string>, traceId: Option<string>, tool: Option<Policy.Tool>,
    phase: Phase, approvalId: Option<string>, incrementAction: bool)

  function Actions(sessions: map<string, Session>, id: string): nat {
    if id in sessions then sessions[id].actionCount else 0
  }

  function ApprovalIds(sessions: map<string, Session>, id: string): seq<string> {
    if id in sessions then sessions[id].approvalIds else []
  }

  function WithApproval(ids: seq<string>, id: Option<string>): seq<string> {
    if id.Some? && id.value != "" && id.value !in ids then ids + [id.value] else ids
  }

  /** What was given, or else what was known before. */
  function Newer<T>(given: Option<T>, known: Option<T>): Option<T> {
    if given.Some? then given else known
  }

  function Known(sessions: map<string, Session>, id: string): Session {
    if id in sessions then sessions[id] else Session("", None, None, None, 0, Executing, [])
  }

  function Touched(sessions: map<string, Session>, t: TouchInput): map<string, Session> {
    var known := Known(sessions, t.sessionId);
    sessions[t.sessionId := Session(
      t.agentId, Newer(t.jti, known.jti), Newer(t.traceId, known.traceId), Newer(t.tool, known.tool),
      Actions(sessions, t.sessionId) + if t.incrementAction then 1 else 0, t.phase,
      WithApproval(ApprovalIds(sessions, t.sessionId), t.approvalId))]
  }

  predicate Once(ids: seq<string>) {
    forall i, j :: 0 <= i < j < |ids| ==> ids[i] != ids[j]
  }

  /** Approval ids are kept in the order they came, each once, and the one given is among them. */
  lemma TouchKeepsApprovals(sessions: map<string, Session>, t: TouchInput)
    requires Once(ApprovalIds(sessions, t.sessionId))
    ensures var before, after := ApprovalIds(sessions, t.sessionId), ApprovalIds(Touched(sessions, t), t.sessionId);
            && Once(after) && before <= after
            && (t.approvalId.Some? && t.approvalId.value != "" ==> t.approvalId.value in after)
            && (forall id :: id in after ==> id in before || t.approvalId == Some(id))
  {
  }

  /** What a call does not say stays as it was known; what it says replaces it. */
  lemma TouchKeepsWhatItIsNotTold(sessions: map<string, Session>, t: TouchInput)
    ensures t.sessionId in Touched(sessions, t)
    ensures var after := Touched(sessions, t)[t.sessionId]; var known := t.sessionId in sessions;
            && after.agentId == t.agentId && after.lastPhase == t.phase
            && (t.jti.Some? ==> after.jti == t.jti) && (t.traceId.Some? ==> after.traceId == t.traceId)
            && (t.tool.Some? ==> after.tool == t.tool)
            && (known && t.jti.None? ==> after.jti == sessions[t.sessionId].jti)
            && (known && t.traceId.None? ==> after.traceId == sessions[t.sessionId].traceId)
            && (known && t.tool.None? ==> after.tool == sessions[t.sessionId].tool)
            && after.actionCount == (if known then sessions[t.sessionId].actionCount else 0) + if t.incrementAction then 1 else 0
    ensures forall id :: id != t.sessionId ==> (id in sessions <==> id in Touched(sessions, t))
    ensures forall id :: id != t.sessionId && id in sessions ==> Touched(sessions, t)[id] == sessions[id]
  {
  }

  /** When a session was first and last touched. */
  datatype Times = Times(createdAt: int, updatedAt: int)

  function Timed(times: map<string, Times>, id: string, now: int): map<string, Times> {
    times[id := Times(if id in times then times[id].createdAt else now, now)]
  }

  /** The times of a session stand beside the rest of it, which does not depend on them. */
  class InMemoryExecutionSessionStore {
    var sessions: map<string, Session>
    var times: map<string, Times>

    constructor ()
      ensures sessions == map[] && times == map[]
    {
      sessions, times := map[], map[];
    }

    method Touch(input: TouchInput, now: int) returns (session: Session, stamps: Times)
      modifies this
      ensures sessions == Touched(old(sessions), input) && session == sessions[input.sessionId]
      ensures times == Timed(old(times), input.sessionId, now) && stamps == times[input.sessionId]
    {
      var approvalIds := [];
      var actionCount := 0;
      var jti, traceId, tool := input.jti, input.traceId, input.tool;
      if input.sessionId in sessions {
        approvalIds := sessions[input.sessionId].approvalIds;
        actionCount := sessions[input.sessionId].actionCount;
        if jti.None? { jti := sessions[input.sessionId].jti; }
        if traceId.None? { traceId := sessions[input.sessionId].traceId; }
        if tool.None? { tool := sessions[input.sessionId].tool; }
      }
      if input.approvalId.Some? && input.approvalId.value != "" && input.approvalId.value !in approvalIds {
        approvalIds := approvalIds + [input.approvalId.value];
      }
      if input.incrementAction {
        actionCount := actionCount + 1;
      }
      session := Session(input.agentId, jti, traceId, tool, actionCount, input.phase, approvalIds);
      sessions := sessions[input.sessionId := session];
      stamps := Times(now, now);
      if input.sessionId in times {
        stamps := stamps.(createdAt := times[input.sessionId].createdAt);
      }
      times := times[input.sessionId := stamps];
    }
  }
}
