/** The coordinator's scope side: permits, lifecycle and terminal outcomes. Every
    function is one critical section; calls that take several (`reserve_child`,
    `finish_child`) are threads that remember which section comes next. */
module Lifecycle {
  import opened Ids
  import opened Agents
  import S = AgentStore

  type NodeType = string
  const GENERAL_PURPOSE: NodeType := "general-purpose"

  datatype Contract = Contract(canSpawn: bool, maxDepth: Option<nat>)

  datatype Config = Config(maxConcurrent: nat, maxDepth: nat, registry: map<NodeType, Contract>)

  datatype Scope = Scope(status: Status, permit: bool, terminal: Option<ChildTerminal>)

  type Scopes = map<AgentKey, Scope>

  /** What a call in progress does next. */
  datatype Thread =
    | Admitted(caller: Context, nodeType: NodeType, target: Option<GroupId>)  // waits for a permit
    | Holding(caller: Context, nodeType: NodeType, target: Option<GroupId>)   // its permit is in flight
    | Registering(child: Context, group: GroupId)                             // reserved, joins its group next
    | Unwinding(child: Context)                                               // could not join, cancels the child
    | Persisting(child: Context, terminal: ChildTerminal)                     // won the scope, writes the status
    | Summarizing(child: Context, terminal: ChildTerminal)                    // writes the summary
    | Recording(child: Context, terminal: ChildTerminal)                      // records into the group

  datatype Life = Life(
    available: nat, scopes: map<AgentKey, Scope>, store: S.Store, nodeTypes: map<AgentKey, NodeType>,
    threads: map<nat, Thread>)

  datatype Error =
    | DepthLimitReached(limit: nat) | ParentNotRunning | RootHasNoTerminalState
    | ContractViolation(nodeType: NodeType) | Storage(error: S.StoreError)

  // ------------------------------------------------------------------ reserving

  function EnsureRoot(l: Life, session: SessionId, id: AgentId): (Result<Context, Error>, Life) {
    var root := Context(session, id, None, 0);
    if root.Key() in l.scopes then
      (if l.scopes[root.Key()].status.Terminal() then Err(ParentNotRunning) else Ok(root), l)
    else
      var (r, store) := S.Insert(l.store, S.Record(session, id, None, 0, 0, Pending, "", None));
      if r.Err? then (Err(Storage(r.error)), l)
      else (Ok(root), l.(store := store, scopes := l.scopes[root.Key() := Scope(Running, false, None)]))
  }

  /** The checks of `reserve_child` before it waits for a permit. */
  function Refusal(cfg: Config, l: Life, caller: Context, nodeType: NodeType): Option<Error> {
    var callerType := if caller.Key() in l.nodeTypes then l.nodeTypes[caller.Key()] else GENERAL_PURPOSE;
    if callerType !in cfg.registry || !cfg.registry[callerType].canSpawn then Some(ContractViolation(callerType))
    else if nodeType !in cfg.registry then Some(ContractViolation(nodeType))
    else if caller.Key() !in l.scopes || !l.scopes[caller.Key()].status.Live() then Some(ParentNotRunning)
    else
      var budget := cfg.registry[callerType].maxDepth;
      var limit := if budget.Some? then budget.value else cfg.maxDepth;
      if caller.depth >= limit then Some(DepthLimitReached(limit)) else None
  }

  function Admit(cfg: Config, l: Life, tid: nat, caller: Context, nodeType: NodeType, target: Option<GroupId>): Life {
    if Refusal(cfg, l, caller, nodeType).Some? then l
    else l.(threads := l.threads[tid := Admitted(caller, nodeType, target)])
  }

  function Acquire(l: Life, tid: nat): Life
    requires tid in l.threads && l.threads[tid].Admitted? && l.available > 0
  {
    var t := l.threads[tid];
    l.(available := l.available - 1, threads := l.threads[tid := Holding(t.caller, t.nodeType, t.target)])
  }

  /** Record, scope and node type of the new child; a taken id drops the permit again. */
  function InsertChild(l: Life, tid: nat, id: AgentId, caption: string, generation: nat): Life
    requires tid in l.threads && l.threads[tid].Holding?
  {
    var t := l.threads[tid];
    var child := t.caller.Child(id);
    var (r, store) := S.Insert(l.store,
                               S.Record(child.session, id, child.parent, child.depth, generation, Pending, caption,
                                        None));
    if r.Err? then l.(available := l.available + 1, threads := l.threads - {tid})
    else l.(store := store, scopes := l.scopes[child.Key() := Scope(Running, true, None)],
            nodeTypes := l.nodeTypes[child.Key() := t.nodeType],
            threads := if t.target.Some? then l.threads[tid := Registering(child, t.target.value)]
              else l.threads - {tid})
  }

  /** `reserve_child_in_group` after its group step. */
  function Joined(l: Life, tid: nat, ok: bool): Life
    requires tid in l.threads && l.threads[tid].Registering?
  {
    l.(threads := if ok then l.threads - {tid} else l.threads[tid := Unwinding(l.threads[tid].child)])
  }

  // ------------------------------------------------------------------ finishing

  /** The scope step of `finish_child`: the first terminal wins, and only the winner
      releases the permit; later finishers carry the stored terminal. */
  function FinishScope(l: Life, tid: nat, child: Context, terminal: ChildTerminal): Life {
    var k := child.Key();
    if child.Root() then l.(threads := l.threads - {tid})
    else if k in l.scopes && l.scopes[k].status.Terminal() then
      var next := if l.scopes[k].terminal.Some? then Recording(child, l.scopes[k].terminal.value)
        else Persisting(child, terminal);
      l.(threads := l.threads[tid := next])
    else if k in l.scopes then
      l.(available := l.available + (if l.scopes[k].permit then 1 else 0),
         scopes := l.scopes[k := Scope(terminal.ToStatus(), false, Some(terminal))],
         threads := l.threads[tid := Persisting(child, terminal)])
    else l.(threads := l.threads[tid := Persisting(child, terminal)])
  }

  function PersistStatus(l: Life, tid: nat): Life
    requires tid in l.threads && l.threads[tid].Persisting?
  {
    var t := l.threads[tid];
    var (r, store) := S.UpdateStatus(l.store, t.child.Key(), t.terminal.ToStatus());
    if r.Err? then l.(threads := l.threads - {tid})
    else l.(store := store, threads := l.threads[tid := Summarizing(t.child, t.terminal)])
  }

  function SummaryOf(t: ChildTerminal): Option<S.ChildSummary> {
    match t
    case Completed(summary) => Some(S.ChildSummary(summary, None))
    case Failed(code, _) => Some(S.ChildSummary("", Some(code)))
    case Cancelled => None
  }

  function PersistSummary(l: Life, tid: nat): Life
    requires tid in l.threads && l.threads[tid].Summarizing?
  {
    var t := l.threads[tid];
    var next := l.threads[tid := Recording(t.child, t.terminal)];
    if SummaryOf(t.terminal).None? then l.(threads := next)
    else
      var (r, store) := S.SetSummary(l.store, t.child.Key(), SummaryOf(t.terminal).value);
      if r.Err? then l.(threads := l.threads - {tid}) else l.(store := store, threads := next)
  }

  /** The record step also forgets the child's node type. */
  function Recorded(l: Life, tid: nat): Life
    requires tid in l.threads && l.threads[tid].Recording?
  {
    l.(threads := l.threads - {tid}, nodeTypes := l.nodeTypes - {l.threads[tid].child.Key()})
  }

  // ------------------------------------------------------------ status changes

  function WriteStatus(l: Life, k: AgentKey, status: Status): Life
    requires k in l.scopes
  {
    l.(scopes := l.scopes[k := l.scopes[k].(status := status)], store := S.UpdateStatus(l.store, k, status).1)
  }

  /** The mark at the head of `cancel_descendants`. */
  function Mark(l: Life, k: AgentKey): Life {
    if k in l.scopes && !l.scopes[k].status.Terminal() then WriteStatus(l, k, Cancelling) else l
  }

  /** `transition_status_if_current`. */
  function Transition(l: Life, k: AgentKey, expected: Status, next: Status): Life {
    if k in l.scopes && l.scopes[k].status == expected then WriteStatus(l, k, next) else l
  }

  /** `finalize_scope` while children are live. */
  function AwaitChildren(l: Life, k: AgentKey): Life {
    if k in l.scopes && l.scopes[k].status.Live() then WriteStatus(l, k, WaitingForChildren) else l
  }

  /** `finalize_scope` before it finishes the caller: the write is unconditional. */
  function BeginFinalize(l: Life, k: AgentKey): Life {
    if k in l.scopes then WriteStatus(l, k, Finalizing) else l
  }

  // ---------------------------------------------------------------------- moves

  datatype Move =
    | Root(session: SessionId, id: AgentId)
    | Admission(tid: nat, caller: Context, nodeType: NodeType, target: Option<GroupId>)
    | Acquisition(tid: nat)
    | Insertion(tid: nat, id: AgentId, caption: string, generation: nat)
    | Joining(tid: nat, ok: bool)
    | Finish(tid: nat, child: Context, terminal: ChildTerminal)
    | StatusWrite(tid: nat)
    | SummaryWrite(tid: nat)
    | RecordDone(tid: nat)
    | CancelMark(key: AgentKey)
    | Transit(key: AgentKey, expected: Status, next: Status)
    | Awaiting(key: AgentKey)
    | Finalize(key: AgentKey)

  /** Contexts handed to the coordinator were issued by it. */
  predicate Trusted(store: S.Store, c: Context) {
    c.Key() in store.records && store.records[c.Key()].parent == c.parent && store.records[c.Key()].depth == c.depth
  }

  predicate At(l: Life, tid: nat) { tid in l.threads }

  /** Anyone may start a finisher of any child with any terminal at any time.
      `finalize_scope` is called by a scope that has not finished. */
  predicate Enabled(l: Life, m: Move) {
    match m
    case Root(_, _) => true
    case Admission(tid, caller, _, _) => tid !in l.threads && Trusted(l.store, caller)
    case Acquisition(tid) => At(l, tid) && l.threads[tid].Admitted? && l.available > 0
    case Insertion(tid, _, _, _) => At(l, tid) && l.threads[tid].Holding?
    case Joining(tid, _) => At(l, tid) && l.threads[tid].Registering?
    case Finish(tid, child, terminal) =>
      Trusted(l.store, child)
        && (tid in l.threads ==> l.threads[tid] == Unwinding(child) && terminal == ChildTerminal.Cancelled)
    case StatusWrite(tid) => At(l, tid) && l.threads[tid].Persisting?
    case SummaryWrite(tid) => At(l, tid) && l.threads[tid].Summarizing?
    case RecordDone(tid) => At(l, tid) && l.threads[tid].Recording?
    case CancelMark(_) => true
    case Transit(_, expected, next) => expected.Live() && next.Live()
    case Awaiting(_) => true
    case Finalize(k) => k in l.scopes ==> !l.scopes[k].status.Terminal()
  }

  function Do(cfg: Config, l: Life, m: Move): Life
    requires Enabled(l, m)
  {
    match m
    case Root(session, id) => EnsureRoot(l, session, id).1
    case Admission(tid, caller, nodeType, target) => Admit(cfg, l, tid, caller, nodeType, target)
    case Acquisition(tid) => Acquire(l, tid)
    case Insertion(tid, id, caption, generation) => InsertChild(l, tid, id, caption, generation)
    case Joining(tid, ok) => Joined(l, tid, ok)
    case Finish(tid, child, terminal) => FinishScope(l, tid, child, terminal)
    case StatusWrite(tid) => PersistStatus(l, tid)
    case SummaryWrite(tid) => PersistSummary(l, tid)
    case RecordDone(tid) => Recorded(l, tid)
    case CancelMark(k) => Mark(l, k)
    case Transit(k, expected, next) => Transition(l, k, expected, next)
    case Awaiting(k) => AwaitChildren(l, k)
    case Finalize(k) => BeginFinalize(l, k)
  }

  // ------------------------------------------------------------------ invariant

  ghost predicate Hierarchy(l: Life) { S.Forest(l.store) && l.scopes.Keys == l.store.records.Keys }

  /** A stored terminal and the status agree; a permit is held exactly by the
      non-root scopes that have not finished; the root never finishes. */
  ghost predicate ScopeOk(l: Life, k: AgentKey)
    requires k in l.scopes && k in l.store.records
  {
    var s := l.scopes[k];
    && (s.status.Terminal() <==> s.terminal.Some?)
    && (s.terminal.Some? ==> s.status == s.terminal.value.ToStatus())
    && (s.permit <==> l.store.records[k].parent.Some? && s.terminal.None?)
    && (l.store.records[k].parent.None? ==> s.terminal.None?)
  }

  predicate Writes(t: Thread, k: AgentKey) { (t.Persisting? || t.Summarizing?) && t.child.Key() == k }

  ghost predicate NoWriter(l: Life, k: AgentKey) { forall t :: t in l.threads ==> !Writes(l.threads[t], k) }

  /** The store never shows another outcome, and shows it once its writer is through. */
  ghost predicate RecordOk(l: Life, k: AgentKey)
    requires k in l.scopes && k in l.store.records
  {
    var terminal := l.scopes[k].terminal;
    var r := l.store.records[k];
    && (terminal.None? ==> r.summary.None?)
    && (terminal.Some? ==> r.summary.None? || r.summary == SummaryOf(terminal.value))
    && (terminal.Some? && NoWriter(l, k) ==> r.status == l.scopes[k].status && r.summary == SummaryOf(terminal.value))
  }

  /** Every finisher carries the terminal that won. */
  ghost predicate ThreadOk(l: Life, t: Thread) {
    match t
    case Admitted(caller, _, _) => Trusted(l.store, caller)
    case Holding(caller, _, _) => Trusted(l.store, caller)
    case Registering(child, _) => Trusted(l.store, child) && child.parent.Some?
    case Unwinding(child) => Trusted(l.store, child) && child.parent.Some?
    case Persisting(child, terminal) => Carries(l, child, terminal)
    case Summarizing(child, terminal) =>
      Carries(l, child, terminal) && l.store.records[child.Key()].status == terminal.ToStatus()
    case Recording(child, terminal) => Carries(l, child, terminal)
  }

  ghost predicate Carries(l: Life, child: Context, terminal: ChildTerminal) {
    Trusted(l.store, child) && child.Key() in l.scopes && l.scopes[child.Key()].terminal == Some(terminal)
  }

  ghost predicate Coherent(l: Life) {
    && Hierarchy(l)
    && (forall k {:trigger ScopeOk(l, k)} :: k in l.scopes ==> ScopeOk(l, k))
    && (forall k {:trigger RecordOk(l, k)} :: k in l.scopes ==> RecordOk(l, k))
    && (forall t :: t in l.threads ==> ThreadOk(l, l.threads[t]))
  }

  function Holders(scopes: map<AgentKey, Scope>): set<AgentKey> { set k | k in scopes && scopes[k].permit }

  function InFlight(threads: map<nat, Thread>): set<nat> { set t | t in threads && threads[t].Holding? }

  ghost predicate PermitsConserved(cfg: Config, l: Life) {
    l.available + |Holders(l.scopes)| + |InFlight(l.threads)| == cfg.maxConcurrent
  }

  ghost predicate Inv(cfg: Config, l: Life) { Coherent(l) && PermitsConserved(cfg, l) }

  // ------------------------------------------------------------------- coherence

  /** A move that only touches threads other than writers keeps coherence. */
  lemma ThreadsKeepCoherent(l: Life, m: Life)
    requires Coherent(l) && m.scopes == l.scopes && m.store == l.store
    requires forall t :: t in m.threads ==> ThreadOk(l, m.threads[t])
    requires forall t :: t in l.threads && (l.threads[t].Persisting? || l.threads[t].Summarizing?)
               ==> t in m.threads && m.threads[t] == l.threads[t]
    ensures Coherent(m)
  {
    forall k | k in m.scopes ensures ScopeOk(m, k) { assert ScopeOk(l, k); }
    forall k | k in m.scopes ensures RecordOk(m, k) {
      assert RecordOk(l, k);
      if NoWriter(m, k) { assert NoWriter(l, k); }
    }
    forall t | t in m.threads ensures ThreadOk(m, m.threads[t]) { assert ThreadOk(l, m.threads[t]); }
  }

  /** A new record with a fresh scope keeps coherence. */
  lemma InsertKeepsCoherent(l: Life, m: Life, r: S.Record, scope: Scope)
    requires Coherent(l) && r.Key() !in l.store.records
    requires r.parent.None? ==> r.depth == 0
    requires r.parent.Some? ==> var p := AgentKey(r.session, r.parent.value);
                                p in l.store.records && r.depth == l.store.records[p].depth + 1
    requires r.summary.None? && scope == Scope(Running, r.parent.Some?, None)
    requires m.store == S.Insert(l.store, r).1 && m.scopes == l.scopes[r.Key() := scope] && m.threads == l.threads
    ensures Coherent(m)
  {
    S.InsertKeepsForest(l.store, r);
    forall k | k in m.scopes ensures ScopeOk(m, k) && RecordOk(m, k) {
      if k != r.Key() {
        assert ScopeOk(l, k) && RecordOk(l, k);
        if NoWriter(m, k) { assert NoWriter(l, k); }
      }
    }
    forall t | t in m.threads ensures ThreadOk(m, m.threads[t]) { assert ThreadOk(l, l.threads[t]); }
  }

  lemma WriteKeepsCoherent(l: Life, k: AgentKey, status: Status)
    requires Coherent(l) && k in l.scopes && !l.scopes[k].status.Terminal() && !status.Terminal()
    ensures Coherent(WriteStatus(l, k, status))
  {
    var m := WriteStatus(l, k, status);
    S.RewriteKeepsForest(l.store, k, l.store.records[k].(status := status));
    assert ScopeOk(l, k);
    forall j | j in m.scopes ensures ScopeOk(m, j) { assert ScopeOk(l, j); }
    forall j | j in m.scopes ensures RecordOk(m, j) { WriteKeepsRecord(l, k, status, j); }
    forall t | t in m.threads ensures ThreadOk(m, m.threads[t]) { WriteKeepsThread(l, k, status, l.threads[t]); }
  }

  lemma WriteKeepsThread(l: Life, k: AgentKey, status: Status, t: Thread)
    requires k in l.scopes && k in l.store.records && l.scopes[k].terminal.None? && ThreadOk(l, t)
    ensures ThreadOk(WriteStatus(l, k, status), t)
  {
  }

  lemma WriteKeepsRecord(l: Life, k: AgentKey, status: Status, j: AgentKey)
    requires k in l.scopes && k in l.store.records && l.scopes[k].terminal.None?
    requires j in l.scopes && j in l.store.records && RecordOk(l, j)
    ensures RecordOk(WriteStatus(l, k, status), j)
  {
    if NoWriter(WriteStatus(l, k, status), j) { assert NoWriter(l, j); }
  }

  /** The winning finisher: its terminal is stored and it becomes the writer. */
  lemma WinKeepsCoherent(l: Life, tid: nat, child: Context, terminal: ChildTerminal)
    requires Coherent(l) && Enabled(l, Finish(tid, child, terminal))
    requires !child.Root() && !l.scopes[child.Key()].status.Terminal()
    ensures Coherent(FinishScope(l, tid, child, terminal))
  {
    var k := child.Key();
    var m := FinishScope(l, tid, child, terminal);
    assert ScopeOk(l, k) && RecordOk(l, k) && S.ParentOk(l.store, k);
    assert Writes(m.threads[tid], k);
    forall j | j in m.scopes ensures ScopeOk(m, j) { assert ScopeOk(l, j); }
    forall j | j in m.scopes ensures RecordOk(m, j) {
      assert RecordOk(l, j);
      if j != k && NoWriter(m, j) { OtherWriters(l, m, tid, j); }
    }
    forall t | t in m.threads ensures ThreadOk(m, m.threads[t]) {
      if t != tid { assert ThreadOk(l, l.threads[t]); }
    }
  }

  lemma OtherWriters(l: Life, m: Life, tid: nat, j: AgentKey)
    requires NoWriter(m, j) && m.threads - {tid} == l.threads - {tid}
    requires tid in l.threads ==> !Writes(l.threads[tid], j)
    ensures NoWriter(l, j)
  {
    forall t | t in l.threads ensures !Writes(l.threads[t], j) {
      if t != tid { assert t in m.threads - {tid} && m.threads[t] == l.threads[t]; }
    }
  }

  lemma FinishKeepsCoherent(l: Life, tid: nat, child: Context, terminal: ChildTerminal)
    requires Coherent(l) && Enabled(l, Finish(tid, child, terminal))
    ensures Coherent(FinishScope(l, tid, child, terminal))
  {
    var k := child.Key();
    assert ScopeOk(l, k);
    if child.Root() || l.scopes[k].status.Terminal() {
      ThreadsKeepCoherent(l, FinishScope(l, tid, child, terminal));
    } else {
      WinKeepsCoherent(l, tid, child, terminal);
    }
  }

  ghost predicate ScopesOk(l: Life)
  {
    Hierarchy(l) && forall k {:trigger ScopeOk(l, k)} :: k in l.scopes ==> ScopeOk(l, k)
  }

  /** Rewriting a record in place moves nobody in the hierarchy. */
  lemma RewriteKeepsScopes(l: Life, m: Life, k: AgentKey, r: S.Record)
    requires ScopesOk(l) && k in l.scopes && m.scopes == l.scopes
    requires r.Key() == k && r.parent == l.store.records[k].parent && r.depth == l.store.records[k].depth
    requires m.store == l.store.(records := l.store.records[k := r])
    ensures ScopesOk(m)
  {
    S.RewriteKeepsForest(l.store, k, r);
    forall j | j in m.scopes ensures ScopeOk(m, j) { assert ScopeOk(l, j); }
  }

  /** The writer's store steps: `r` is the record the writer of `k` leaves behind. */
  lemma WriterKeepsRecords(l: Life, m: Life, tid: nat, k: AgentKey, r: S.Record)
    requires Coherent(l) && k in l.scopes && m.scopes == l.scopes && l.scopes[k].terminal.Some?
    requires m.store == l.store.(records := l.store.records[k := r])
    requires m.threads - {tid} == l.threads - {tid} && tid in l.threads && Writes(l.threads[tid], k)
    requires r.status == l.scopes[k].status
    requires r.summary == l.store.records[k].summary || r.summary == SummaryOf(l.scopes[k].terminal.value)
    requires NoWriter(m, k) ==> r.summary == SummaryOf(l.scopes[k].terminal.value)
    ensures m.scopes.Keys == m.store.records.Keys && forall j {:trigger RecordOk(m, j)} :: j in m.scopes ==>
              RecordOk(m, j)
  {
    assert RecordOk(l, k);
    forall j | j in m.scopes ensures RecordOk(m, j) {
      assert RecordOk(l, j);
      if j != k && NoWriter(m, j) { OtherWriters(l, m, tid, j); }
    }
  }

  lemma WriterKeepsThreads(l: Life, m: Life, k: AgentKey, r: S.Record, t: Thread)
    requires ThreadOk(l, t) && k in l.scopes && k in l.store.records && m.scopes == l.scopes
    requires r.parent == l.store.records[k].parent && r.depth == l.store.records[k].depth
    requires m.store == l.store.(records := l.store.records[k := r])
    requires l.scopes[k].terminal.Some? && r.status == l.scopes[k].terminal.value.ToStatus()
    ensures ThreadOk(m, t)
  {
  }

  lemma StatusWriteKeepsCoherent(l: Life, tid: nat)
    requires Coherent(l) && Enabled(l, StatusWrite(tid))
    ensures Coherent(PersistStatus(l, tid))
  {
    var t := l.threads[tid];
    var k := t.child.Key();
    var m := PersistStatus(l, tid);
    assert ThreadOk(l, t) && ScopeOk(l, k);
    var r := l.store.records[k].(status := t.terminal.ToStatus());
    assert Writes(m.threads[tid], k);
    RewriteKeepsScopes(l, m, k, r);
    WriterKeepsRecords(l, m, tid, k, r);
    forall u | u in m.threads ensures ThreadOk(m, m.threads[u]) { WriterKeepsThreads(l, m, k, r, l.threads[u]); }
  }

  lemma SummaryWriteKeepsCoherent(l: Life, tid: nat)
    requires Coherent(l) && Enabled(l, SummaryWrite(tid))
    ensures Coherent(PersistSummary(l, tid))
  {
    var t := l.threads[tid];
    var k := t.child.Key();
    var m := PersistSummary(l, tid);
    assert ThreadOk(l, t) && ScopeOk(l, k) && RecordOk(l, k);
    var before := l.store.records[k];
    var r := if SummaryOf(t.terminal).Some? then before.(summary := SummaryOf(t.terminal)) else before;
    assert m.store.records == l.store.records[k := r];
    RewriteKeepsScopes(l, m, k, r);
    WriterKeepsRecords(l, m, tid, k, r);
    forall u | u in m.threads ensures ThreadOk(m, m.threads[u]) { WriterKeepsThreads(l, m, k, r, l.threads[u]); }
  }

  lemma InsertionKeepsCoherent(l: Life, tid: nat, id: AgentId, caption: string, generation: nat)
    requires Coherent(l) && Enabled(l, Insertion(tid, id, caption, generation))
    ensures Coherent(InsertChild(l, tid, id, caption, generation))
  {
    var t := l.threads[tid];
    var child := t.caller.Child(id);
    var m := InsertChild(l, tid, id, caption, generation);
    assert ThreadOk(l, t);
    if child.Key() in l.store.records {
      ThreadsKeepCoherent(l, m);
    } else {
      var r := S.Record(child.session, id, child.parent, child.depth, generation, Pending, caption, None);
      var n := l.(store := m.store, scopes := m.scopes);
      InsertKeepsCoherent(l, n, r, Scope(Running, true, None));
      forall u | u in m.threads ensures ThreadOk(n, m.threads[u]) {
        if u != tid { assert ThreadOk(n, n.threads[u]); }
      }
      ThreadsKeepCoherent(n, m);
    }
  }

  lemma StatusMoveKeepsCoherent(cfg: Config, l: Life, m: Move)
    requires Coherent(l) && Enabled(l, m) && (m.CancelMark? || m.Transit? || m.Awaiting? || m.Finalize?)
    ensures Coherent(Do(cfg, l, m))
  {
    if Do(cfg, l, m) != l {
      var status := if m.CancelMark? then Cancelling else if m.Transit? then m.next
        else if m.Awaiting? then WaitingForChildren else Finalizing;
      WriteKeepsCoherent(l, m.key, status);
    }
  }

  lemma ThreadMoveKeepsCoherent(cfg: Config, l: Life, m: Move)
    requires Coherent(l) && Enabled(l, m) && (m.Admission? || m.Acquisition? || m.Joining? || m.RecordDone?)
    ensures Coherent(Do(cfg, l, m))
  {
    var n := Do(cfg, l, m);
    forall t | t in n.threads ensures ThreadOk(l, n.threads[t]) {
      if t in l.threads { assert ThreadOk(l, l.threads[t]); }
    }
    ThreadsKeepCoherent(l, n);
  }

  lemma RootKeepsCoherent(l: Life, session: SessionId, id: AgentId)
    requires Coherent(l)
    ensures Coherent(EnsureRoot(l, session, id).1)
  {
    if AgentKey(session, id) !in l.scopes {
      InsertKeepsCoherent(l, EnsureRoot(l, session, id).1, S.Record(session, id, None, 0, 0, Pending, "", None),
                          Scope(Running, false, None));
    }
  }

  lemma MoveKeepsCoherent(cfg: Config, l: Life, m: Move)
    requires Coherent(l) && Enabled(l, m)
    ensures Coherent(Do(cfg, l, m))
  {
    match m
    case Root(session, id) => RootKeepsCoherent(l, session, id);
    case Insertion(tid, id, caption, generation) => InsertionKeepsCoherent(l, tid, id, caption, generation);
    case Finish(tid, child, terminal) => FinishKeepsCoherent(l, tid, child, terminal);
    case StatusWrite(tid) => StatusWriteKeepsCoherent(l, tid);
    case SummaryWrite(tid) => SummaryWriteKeepsCoherent(l, tid);
    case Admission(_, _, _, _) => ThreadMoveKeepsCoherent(cfg, l, m);
    case Acquisition(_) => ThreadMoveKeepsCoherent(cfg, l, m);
    case Joining(_, _) => ThreadMoveKeepsCoherent(cfg, l, m);
    case RecordDone(_) => ThreadMoveKeepsCoherent(cfg, l, m);
    case CancelMark(_) => StatusMoveKeepsCoherent(cfg, l, m);
    case Transit(_, _, _) => StatusMoveKeepsCoherent(cfg, l, m);
    case Awaiting(_) => StatusMoveKeepsCoherent(cfg, l, m);
    case Finalize(_) => StatusMoveKeepsCoherent(cfg, l, m);
  }

  // --------------------------------------------------------------------- permits

  lemma HoldersUpdate(scopes: map<AgentKey, Scope>, k: AgentKey, s: Scope)
    ensures |Holders(scopes[k := s])| + (if k in scopes && scopes[k].permit then 1 else 0)
         == |Holders(scopes)| + (if s.permit then 1 else 0)
  {
    assert Holders(scopes[k := s]) == if s.permit then Holders(scopes) + {k} else Holders(scopes) - {k};
  }

  lemma InFlightUpdate(threads: map<nat, Thread>, tid: nat, t: Thread)
    ensures |InFlight(threads[tid := t])| + (if tid in threads && threads[tid].Holding? then 1 else 0)
         == |InFlight(threads)| + (if t.Holding? then 1 else 0)
  {
    assert InFlight(threads[tid := t]) == if t.Holding? then InFlight(threads) + {tid} else InFlight(threads) - {tid};
  }

  lemma InFlightRemove(threads: map<nat, Thread>, tid: nat)
    ensures |InFlight(threads - {tid})| + (if tid in threads && threads[tid].Holding? then 1 else 0) ==
            |InFlight(threads)|
  {
    assert InFlight(threads - {tid}) == InFlight(threads) - {tid};
  }

  lemma ScopeMoveKeepsPermits(cfg: Config, l: Life, m: Move)
    requires Inv(cfg, l) && Enabled(l, m)
    requires m.Root? || m.CancelMark? || m.Transit? || m.Awaiting? || m.Finalize?
    ensures PermitsConserved(cfg, Do(cfg, l, m))
  {
    var n := Do(cfg, l, m);
    if n != l {
      var k := if m.Root? then AgentKey(m.session, m.id) else m.key;
      HoldersUpdate(l.scopes, k, n.scopes[k]);
      assert n.scopes == l.scopes[k := n.scopes[k]];
    }
  }

  /** A move that touches no scope changes one thread, and takes a permit with it or not. */
  lemma ThreadMoveEffect(cfg: Config, l: Life, m: Move)
    requires Enabled(l, m)
    requires m.Admission? || m.Acquisition? || m.Joining? || m.StatusWrite? || m.SummaryWrite? || m.RecordDone?
    ensures var n := Do(cfg, l, m);
            && n.scopes == l.scopes
            && (n.threads == l.threads || n.threads == l.threads - {m.tid}
                || (m.tid in n.threads && n.threads == l.threads[m.tid := n.threads[m.tid]]))
            && l.available == n.available + (if m.Acquisition? then 1 else 0)
            && (m.tid in n.threads && n.threads[m.tid].Holding? && n.threads != l.threads <==> m.Acquisition?)
            && (m.tid in l.threads && l.threads[m.tid].Holding? ==> n.threads == l.threads)
  {
  }

  lemma ThreadMoveKeepsPermits(cfg: Config, l: Life, m: Move)
    requires Inv(cfg, l) && Enabled(l, m)
    requires m.Admission? || m.Acquisition? || m.Joining? || m.StatusWrite? || m.SummaryWrite? || m.RecordDone?
    ensures PermitsConserved(cfg, Do(cfg, l, m))
  {
    ThreadMoveEffect(cfg, l, m);
    var n := Do(cfg, l, m);
    InFlightRemove(l.threads, m.tid);
    if m.tid in n.threads { InFlightUpdate(l.threads, m.tid, n.threads[m.tid]); }
  }

  lemma FinishKeepsPermits(cfg: Config, l: Life, tid: nat, child: Context, terminal: ChildTerminal)
    requires Inv(cfg, l) && Enabled(l, Finish(tid, child, terminal))
    ensures PermitsConserved(cfg, FinishScope(l, tid, child, terminal))
  {
    var n := FinishScope(l, tid, child, terminal);
    InFlightRemove(l.threads, tid);
    if tid in n.threads { InFlightUpdate(l.threads, tid, n.threads[tid]); }
    HoldersUpdate(l.scopes, child.Key(), n.scopes[child.Key()]);
  }

  lemma InsertionKeepsPermits(cfg: Config, l: Life, tid: nat, id: AgentId, caption: string, generation: nat)
    requires Inv(cfg, l) && Enabled(l, Insertion(tid, id, caption, generation))
    ensures PermitsConserved(cfg, InsertChild(l, tid, id, caption, generation))
  {
    var n := InsertChild(l, tid, id, caption, generation);
    InFlightRemove(l.threads, tid);
    if tid in n.threads { InFlightUpdate(l.threads, tid, n.threads[tid]); }
    var k := l.threads[tid].caller.Child(id).Key();
    if k !in l.scopes { HoldersUpdate(l.scopes, k, Scope(Running, true, None)); }
  }

  /** Every critical section, in any order and by any number of calls, keeps the
      hierarchy, the agreement of scopes, store and finishers, and all permits. */
  lemma MoveKeepsInv(cfg: Config, l: Life, m: Move)
    requires Inv(cfg, l) && Enabled(l, m)
    ensures Inv(cfg, Do(cfg, l, m))
  {
    MoveKeepsCoherent(cfg, l, m);
    match m
    case Insertion(tid, id, caption, generation) => InsertionKeepsPermits(cfg, l, tid, id, caption, generation);
    case Finish(tid, child, terminal) => FinishKeepsPermits(cfg, l, tid, child, terminal);
    case Root(_, _) => ScopeMoveKeepsPermits(cfg, l, m);
    case CancelMark(_) => ScopeMoveKeepsPermits(cfg, l, m);
    case Transit(_, _, _) => ScopeMoveKeepsPermits(cfg, l, m);
    case Awaiting(_) => ScopeMoveKeepsPermits(cfg, l, m);
    case Finalize(_) => ScopeMoveKeepsPermits(cfg, l, m);
    case _ => ThreadMoveKeepsPermits(cfg, l, m);
  }

  // ---------------------------------------------------------- first terminal wins

  /** No move ever changes or removes a stored terminal. */
  lemma TerminalIsAbsorbing(cfg: Config, l: Life, m: Move, k: AgentKey)
    requires l.scopes.Keys == l.store.records.Keys && k in l.scopes && ScopeOk(l, k)
    requires Enabled(l, m) && l.scopes[k].terminal.Some?
    ensures var n := Do(cfg, l, m); k in n.scopes && n.scopes[k] == l.scopes[k]
  {
    match m
    case Root(_, _) =>
    case Insertion(_, _, _, _) =>
    case Finish(_, _, _) =>
    case CancelMark(_) =>
    case Transit(_, _, _) =>
    case Awaiting(_) =>
    case Finalize(_) =>
    case _ =>
  }

  /** The unconditional write of `finalize_scope` keeps a stored terminal visible
      exactly when the caller has not finished: afterwards a terminal is stored under
      a non-terminal status, and a further finish would replace it. */
  lemma FinalizeKeepsTerminalIff(l: Life, k: AgentKey)
    requires Coherent(l) && k in l.scopes
    ensures (forall j {:trigger ScopeOk(BeginFinalize(l, k), j)} :: j in l.scopes ==> ScopeOk(BeginFinalize(l, k), j))
              <==> !l.scopes[k].status.Terminal()
  {
    var n := BeginFinalize(l, k);
    assert ScopeOk(l, k);
    if l.scopes[k].status.Terminal() {
      assert !ScopeOk(n, k);
    } else {
      forall j | j in l.scopes ensures ScopeOk(n, j) { assert ScopeOk(l, j); }
    }
  }

  /** What that leads to: finalizing and then finishing always installs the new outcome,
      also over a terminal that was already stored. */
  lemma FinalizeReplacesTerminal(l: Life, tid: nat, child: Context, terminal: ChildTerminal)
    requires Coherent(l) && Trusted(l.store, child) && child.parent.Some?
    ensures var n := FinishScope(BeginFinalize(l, child.Key()), tid, child, terminal);
            child.Key() in n.scopes && n.scopes[child.Key()].terminal == Some(terminal)
  {
  }
}
