/** Vocabulary shared by the agent modules: identities, lifecycle, results. */
module Agents {
  import opened Ids

  type SessionId = string
  type AgentId = string
  type GroupId = string

  datatype Result<+T, +E> = Ok(value: T) | Err(error: E)

  datatype AgentKey = AgentKey(session: SessionId, agent: AgentId)

  datatype Status =
    | Pending | Running | WaitingForChildren | Finalizing | Cancelling
    | Completed | Failed | Cancelled
  {
    predicate Terminal() { Completed? || Failed? || Cancelled? }

    /** Non-terminal and not yet being cancelled. */
    predicate Live() { !Terminal() && !Cancelling? }
  }

  /** The outcome an agent reports when it finishes. */
  datatype ChildTerminal =
    | Completed(summary: string)
    | Failed(code: string, partial: Option<string>)
    | Cancelled
  {
    function ToStatus(): Status {
      match this
      case Completed(_) => Status.Completed
      case Failed(_, _) => Status.Failed
      case Cancelled => Status.Cancelled
    }
  }

  /** `status` is one of the three terminal statuses. */
  datatype ChildResult = ChildResult(
    childId: AgentId, status: Status, summary: string,
    errorCode: Option<string>, partialResult: Option<string>)

  const MAX_INLINE_RESULT_LEN := 4000
  const MAX_FULL_INLINE_LEN := 8000

  function Truncate(s: string, n: nat): string { if |s| <= n then s else s[..n] }

  /** The bounded result a parent sees for a child's terminal outcome. */
  function Sanitize(child: AgentId, t: ChildTerminal): ChildResult {
    match t
    case Completed(summary) =>
      ChildResult(child, t.ToStatus(), Truncate(summary, MAX_INLINE_RESULT_LEN), None, None)
    case Failed(code, partial) =>
      ChildResult(child, t.ToStatus(), "", Some(code),
                  if partial.Some? then Some(Truncate(partial.value, MAX_FULL_INLINE_LEN)) else None)
    case Cancelled =>
      ChildResult(child, t.ToStatus(), "", None, None)
  }

  /** What a parent can tell apart: the kind of outcome, the code and the bounded texts. */
  lemma SanitizeEqualIff(c: AgentId, t: ChildTerminal, d: AgentId, u: ChildTerminal)
    ensures Sanitize(c, t) == Sanitize(d, u) <==>
              && c == d && t.ToStatus() == u.ToStatus()
              && (t.Completed? ==>
                    Truncate(t.summary, MAX_INLINE_RESULT_LEN) == Truncate(u.summary, MAX_INLINE_RESULT_LEN))
              && (t.Failed? ==> t.code == u.code && t.partial.Some? == u.partial.Some?)
              && (t.Failed? && t.partial.Some? ==>
                    Truncate(t.partial.value, MAX_FULL_INLINE_LEN) == Truncate(u.partial.value, MAX_FULL_INLINE_LEN))
  {
  }

  /** Trusted execution identity, derived by the coordinator alone. */
  datatype Context = Context(session: SessionId, agent: AgentId, parent: Option<AgentId>, depth: nat)
  {
    function Key(): AgentKey { AgentKey(session, agent) }
    predicate Root() { parent.None? && depth == 0 }
    function Child(id: AgentId): Context { Context(session, id, Some(agent), depth + 1) }
  }
}
