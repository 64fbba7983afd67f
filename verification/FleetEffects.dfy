/** What a step of the fleet changes: one credential's world, or the health and limits of nodes. */
module FleetEffects {
  import opened Common
  import opened Provisioning
  import opened ProvisioningEffects
  import opened Protocol
  import opened Fleet

  /**
   A health report puts its node in service or offline and notes when it was seen; then every node
   in service that was last seen too long ago goes offline.  Nothing else of a node changes.
   */
  lemma HealthStep(f: Fleet, n: NodeId, healthy: bool, now: Time, staleAfter: nat)
    ensures var f' := FleetStep(f, Health(n, healthy, now, staleAfter));
            if n !in f.nodes then f' == f
            else
              && f'.worlds == f.worlds && f'.nodes.Keys == f.nodes.Keys
              && f'.nodes[n] == f.nodes[n].(status := if healthy then Serving else Offline, lastSeen := Some(now))
              && forall m | m in f.nodes && m != n ::
                   var x := f.nodes[m];
                   f'.nodes[m] == if x.status == Serving && x.lastSeen.Some? && now - x.lastSeen.value > staleAfter
                                  then x.(status := Offline) else x
  {
  }

  lemma OfflineStep(f: Fleet, n: NodeId)
    ensures var f' := FleetStep(f, GoOffline(n));
            && f'.worlds == f.worlds && f'.nodes.Keys == f.nodes.Keys
            && forall m | m in f.nodes :: f'.nodes[m] == if m == n then f.nodes[m].(status := Offline) else f.nodes[m]
  {
  }

  lemma SeedStep(f: Fleet, seeds: seq<NodeSeed>)
    ensures var f' := FleetStep(f, Seed(seeds));
            && f'.worlds == f.worlds
            && if forall i | 0 <= i < |seeds| :: SeedOk(seeds[i]) then SeedEffect(f.nodes, seeds, f'.nodes) else f' == f
  {
    SeedsHave(f.nodes, seeds);
  }

  /** A step of one credential is a protocol step of its world against the shared nodes. */
  lemma CredentialStep(f: Fleet, c: CredId, l: Label)
    ensures var f' := FleetStep(f, OnCredential(c, l));
            var w := if c in f.worlds then f.worlds[c] else START;
            && f'.worlds.Keys == f.worlds.Keys + {c} && f'.worlds[c] == Step(w, f.nodes, l).w && f'.nodes == Step(w, f.nodes, l).nodes
            && forall d | d in f.worlds && d != c :: f'.worlds[d] == f.worlds[d]
  {
  }
}
