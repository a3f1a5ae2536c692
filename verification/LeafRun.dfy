/** A run in which an agent of a leaf node type gets a child after all. */
module LeafRun {
  import opened Ids
  import opened Agents
  import opened Coordinator
  import opened LeafNodes
  import L = Lifecycle
  import S = AgentStore
  import R = RaceRun
  import H = History

  /** In `leaf` the agent `p` runs as a leaf without children. A result forced for it there
      lets it spawn, and in `spawned`, which a run reaches too, it has the child `c`. */
  lemma LiftedLeafSpawns(cfg: L.Config, session: SessionId, r: AgentId, p: AgentId, c: AgentId, leafType: L.NodeType,
                         terminal: ChildTerminal) returns (leaf: System, spawned: System)
    requires R.Room(cfg) && r != p && r != c && p != c && LeafType(cfg, leafType)
    ensures var k := AgentKey(session, p);
            && H.Reach(cfg, leaf) && Leaf(cfg, leaf.life, k) && Barren(cfg, leaf.life, k)
            && leaf.life.scopes[k] == L.Scope(Running, true, None)
            && Lifts(leaf, ForceRecord(R.RootOf(session, r).Child(p), terminal), k)
            && H.Reach(cfg, spawned) && S.ChildOf(spawned.life.store, AgentKey(session, c), k)
            && spawned.life.store ==
               S.Insert(leaf.life.store, R.NewRecord(leaf, R.RootOf(session, r).Child(p), c)).1
  {
    var caller := R.RootOf(session, r).Child(p);
    leaf := R.SpawnParent(cfg, session, r, p, leafType);
    forall x ensures !S.ChildOf(leaf.life.store, x, AgentKey(session, p)) {}
    var e := ForceRecord(caller, terminal);
    LiftedLeafSpawnsIff(cfg, leaf, caller, terminal, L.GENERAL_PURPOSE);
    H.ReachNext(cfg, leaf, e);
    var lifted := Apply(cfg, leaf, e);
    spawned := R.Spawn(cfg, lifted, caller, L.GENERAL_PURPOSE, c, None);
  }
}
