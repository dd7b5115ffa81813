/**
 * The catalogue entities of the launcher's store and the pure parts of
 * `Store` in state.py: the dependency resolver behind `resolveDownload`,
 * the per-item container-settings defaults filled in by `loadManifest`, and
 * the type filters behind `getTools` and `getClients`.
 */
module Catalogue {
  import opened Wrappers

  /** An application or a runtime. `runtime` names the entry it depends on. */
  datatype Entity = Entity(id: string, kind: string, runtime: Option<string>)

  /** A server entry; not part of the dependency graph. */
  datatype Server = Server(id: string, name: string)

  /** An already-parsed manifest document. */
  datatype Manifest = Manifest(
    source: string,
    name: string,
    applications: map<string, Entity>,
    runtimes: map<string, Entity>,
    servers: map<string, Server>)

  /** Per-item container settings; only the default, built from an id, is modelled. */
  datatype ContainerSettings = ContainerSettings(id: string)

  const ToolType: string := "mod"
  const ClientType: string := "client"

  // ---------------------------------------------------------------------
  // Dependency resolution
  // ---------------------------------------------------------------------

  /** `applications.get(id, runtimes.get(id))`: applications take precedence. */
  function Lookup(apps: map<string, Entity>, rts: map<string, Entity>, id: string): Option<Entity>
  {
    if id in apps then Some(apps[id]) else if id in rts then Some(rts[id]) else None
  }

  /** Python truthiness of `requested.runtime`: absent and empty both mean "no runtime". */
  predicate HasRuntime(e: Entity)
  {
    e.runtime.Some? && e.runtime.value != ""
  }

  /** The catalogue entry an entity's `runtime` field resolves to, if any. */
  function DependencyOf(apps: map<string, Entity>, rts: map<string, Entity>, e: Entity): Option<Entity>
  {
    if HasRuntime(e) then Lookup(apps, rts, e.runtime.value) else None
  }

  /**
   * Following `runtime` fields from `id` reaches an entry without a
   * resolvable runtime within `n` steps. An unknown id ends at once.
   */
  ghost predicate EndsWithin(apps: map<string, Entity>, rts: map<string, Entity>, id: string, n: nat)
    decreases n
  {
    match Lookup(apps, rts, id)
    case None => true
    case Some(e) => !HasRuntime(e) || (n > 0 && EndsWithin(apps, rts, e.runtime.value, n - 1))
  }

  /** The chain of runtime references starting at `id` ends; other entries may still loop. */
  ghost predicate ChainEnds(apps: map<string, Entity>, rts: map<string, Entity>, id: string)
  {
    exists n: nat :: EndsWithin(apps, rts, id, n)
  }

  /** The least bound from `k` on that `id` ends within, given that it ends within `n`. */
  ghost function LeastBound(apps: map<string, Entity>, rts: map<string, Entity>, id: string, k: nat, n: nat): (d: nat)
    requires k <= n && EndsWithin(apps, rts, id, n)
    ensures k <= d <= n && EndsWithin(apps, rts, id, d)
    ensures forall m: nat :: k <= m < d ==> !EndsWithin(apps, rts, id, m)
    decreases n - k
  {
    if EndsWithin(apps, rts, id, k) then k else LeastBound(apps, rts, id, k + 1, n)
  }

  /** The number of runtime references followed from `id` before the chain ends. */
  ghost function Depth(apps: map<string, Entity>, rts: map<string, Entity>, id: string): (d: nat)
    requires ChainEnds(apps, rts, id)
    ensures EndsWithin(apps, rts, id, d)
    ensures forall m: nat :: EndsWithin(apps, rts, id, m) ==> d <= m
  {
    var n: nat :| EndsWithin(apps, rts, id, n);
    LeastBound(apps, rts, id, 0, n)
  }

  /**
   * An install chain for `id`: it ends with the entry `id` names, each
   * element's runtime resolves to the element before it, and the first
   * element has no resolvable runtime. Deepest dependency first.
   */
  ghost predicate IsInstallChain(apps: map<string, Entity>, rts: map<string, Entity>, id: string, s: seq<Entity>)
  {
    && |s| > 0
    && Lookup(apps, rts, id) == Some(s[|s| - 1])
    && DependencyOf(apps, rts, s[0]) == None
    && forall i :: 0 < i < |s| ==> DependencyOf(apps, rts, s[i]) == Some(s[i - 1])
  }

  /**
   * `resolveDownload`: the dependency chain of `id` in install order, or
   * the empty sequence when `id` is neither an application nor a runtime.
   */
  function Resolve(apps: map<string, Entity>, rts: map<string, Entity>, id: string): (r: seq<Entity>)
    requires ChainEnds(apps, rts, id)
    ensures r == [] <==> Lookup(apps, rts, id) == None
    ensures r != [] ==> IsInstallChain(apps, rts, id, r)
    decreases Depth(apps, rts, id)
  {
    match Lookup(apps, rts, id)
    case None => []
    case Some(requested) =>
      if HasRuntime(requested) then
        assert EndsWithin(apps, rts, requested.runtime.value, Depth(apps, rts, id) - 1);
        Resolve(apps, rts, requested.runtime.value) + [requested]
      else
        [requested]
  }

  /** Two install chains for `id` agree at every distance `j` from their ends. */
  lemma {:induction false} InstallChainsAgreeFromEnd(apps: map<string, Entity>, rts: map<string, Entity>,
                                                     id: string, s: seq<Entity>, t: seq<Entity>, j: nat)
    requires IsInstallChain(apps, rts, id, s) && IsInstallChain(apps, rts, id, t)
    requires j < |s| && j < |t|
    ensures s[|s| - 1 - j] == t[|t| - 1 - j]
    decreases j
  {
    if j > 0 {
      InstallChainsAgreeFromEnd(apps, rts, id, s, t, j - 1);
      var i, i' := |s| - j, |t| - j;
      assert 0 < i < |s| && 0 < i' < |t|;
      assert DependencyOf(apps, rts, s[i]) == Some(s[i - 1]);
      assert DependencyOf(apps, rts, t[i']) == Some(t[i' - 1]);
    }
  }

  /** Two install chains for the same id are equal: the chain is determined by the catalogue. */
  lemma {:induction false} InstallChainUnique(apps: map<string, Entity>, rts: map<string, Entity>,
                                              id: string, s: seq<Entity>, t: seq<Entity>)
    requires IsInstallChain(apps, rts, id, s) && IsInstallChain(apps, rts, id, t)
    ensures s == t
  {
    if |s| < |t| {
      // s[0] has no resolvable runtime, but the element of t it matches does.
      assert DependencyOf(apps, rts, t[|t| - |s|]) == Some(t[|t| - |s| - 1]);
      InstallChainsAgreeFromEnd(apps, rts, id, s, t, |s| - 1);
      assert false;
    } else if |t| < |s| {
      assert DependencyOf(apps, rts, s[|s| - |t|]) == Some(s[|s| - |t| - 1]);
      InstallChainsAgreeFromEnd(apps, rts, id, t, s, |t| - 1);
      assert false;
    }
    forall i | 0 <= i < |s| ensures s[i] == t[i] {
      InstallChainsAgreeFromEnd(apps, rts, id, s, t, |s| - 1 - i);
    }
  }

  /** An entry with no resolvable runtime resolves to exactly itself. */
  lemma ResolveLeaf(apps: map<string, Entity>, rts: map<string, Entity>, id: string, e: Entity)
    requires Lookup(apps, rts, id) == Some(e) && DependencyOf(apps, rts, e) == None
    ensures ChainEnds(apps, rts, id)
    ensures Resolve(apps, rts, id) == [e]
  {
    assert EndsWithin(apps, rts, id, 1);
  }

  /** An id that is both an application and a runtime resolves to the application. */
  lemma ResolvePrefersApplication(apps: map<string, Entity>, rts: map<string, Entity>, id: string)
    requires id in apps && id in rts
    requires ChainEnds(apps, rts, id)
    ensures Resolve(apps, rts, id) != []
    ensures Resolve(apps, rts, id)[|Resolve(apps, rts, id)| - 1] == apps[id]
  {
  }

  /** The three-link example: A depends on B, B on C, and A resolves to [C, B, A]. */
  lemma ThreeLinkChain()
    ensures var a := Entity("A", ClientType, Some("B"));
            var b := Entity("B", "runtime", Some("C"));
            var c := Entity("C", "runtime", None);
            var apps := map["A" := a];
            var rts := map["B" := b, "C" := c];
            ChainEnds(apps, rts, "A") && Resolve(apps, rts, "A") == [c, b, a]
  {
    var a := Entity("A", ClientType, Some("B"));
    var b := Entity("B", "runtime", Some("C"));
    var c := Entity("C", "runtime", None);
    var apps := map["A" := a];
    var rts := map["B" := b, "C" := c];
    assert EndsWithin(apps, rts, "C", 0);
    assert EndsWithin(apps, rts, "A", 2);
    var r := Resolve(apps, rts, "A");
    assert IsInstallChain(apps, rts, "A", [c, b, a]);
    InstallChainUnique(apps, rts, "A", r, [c, b, a]);
  }

  /**
   * The entries named in `c` form a cycle of any length: each one's runtime
   * names the next, and the last names the first. None of their chains
   * ends, so resolving any of them has no result.
   */
  lemma {:induction false} CycleNeverEnds(apps: map<string, Entity>, rts: map<string, Entity>,
                                          c: seq<string>, n: nat)
    requires |c| > 0
    requires forall i :: 0 <= i < |c| ==>
               && c[i] != ""
               && Lookup(apps, rts, c[i]).Some?
               && Lookup(apps, rts, c[i]).value.runtime == Some(c[(i + 1) % |c|])
    ensures forall i :: 0 <= i < |c| ==> !EndsWithin(apps, rts, c[i], n)
    decreases n
  {
    if n > 0 {
      CycleNeverEnds(apps, rts, c, n - 1);
    }
  }

  /**
   * An entry whose runtime's chain never ends never ends either. Applied
   * along a path, an id whose chain runs into a cycle has no result.
   */
  lemma LeadsIntoNeverEnds(apps: map<string, Entity>, rts: map<string, Entity>, id: string)
    requires Lookup(apps, rts, id).Some? && HasRuntime(Lookup(apps, rts, id).value)
    requires !ChainEnds(apps, rts, Lookup(apps, rts, id).value.runtime.value)
    ensures !ChainEnds(apps, rts, id)
  {
    var next := Lookup(apps, rts, id).value.runtime.value;
    forall n: nat ensures !EndsWithin(apps, rts, id, n) {
      if n > 0 {
        assert !EndsWithin(apps, rts, next, n - 1);
      }
    }
  }

  /**
   * A loop elsewhere in the catalogue does not stop an id whose own chain
   * ends from resolving: with X and Y naming each other, A still resolves
   * to [B, A], while neither X nor Y has a chain that ends.
   */
  lemma UnrelatedLoopResolves()
    ensures var a := Entity("A", ClientType, Some("B"));
            var b := Entity("B", "runtime", None);
            var x := Entity("X", "runtime", Some("Y"));
            var y := Entity("Y", "runtime", Some("X"));
            var apps := map["A" := a];
            var rts := map["B" := b, "X" := x, "Y" := y];
            && ChainEnds(apps, rts, "A") && Resolve(apps, rts, "A") == [b, a]
            && !ChainEnds(apps, rts, "X") && !ChainEnds(apps, rts, "Y")
  {
    var a := Entity("A", ClientType, Some("B"));
    var b := Entity("B", "runtime", None);
    var x := Entity("X", "runtime", Some("Y"));
    var y := Entity("Y", "runtime", Some("X"));
    var apps := map["A" := a];
    var rts := map["B" := b, "X" := x, "Y" := y];
    assert EndsWithin(apps, rts, "A", 1);
    var r := Resolve(apps, rts, "A");
    assert IsInstallChain(apps, rts, "A", [b, a]);
    InstallChainUnique(apps, rts, "A", r, [b, a]);
    forall n: nat ensures !EndsWithin(apps, rts, "X", n) && !EndsWithin(apps, rts, "Y", n) {
      CycleNeverEnds(apps, rts, ["X", "Y"], n);
      assert ["X", "Y"][0] == "X" && ["X", "Y"][1] == "Y";
    }
  }

  // ---------------------------------------------------------------------
  // Container-settings defaults
  // ---------------------------------------------------------------------

  /** The `id` fields of the entities of `m` (the source keys settings by `entity.id`). */
  ghost function IdsOf(m: map<string, Entity>): set<string>
  {
    set k | k in m :: m[k].id
  }

  /** Recording one more entity adds exactly its id. */
  lemma IdsOfInsert(m: map<string, Entity>, k: string, e: Entity)
    requires k !in m
    ensures IdsOf(m[k := e]) == IdsOf(m) + {e.id}
  {
    var m' := m[k := e];
    assert m'[k] == e;
    forall x | x in IdsOf(m) ensures x in IdsOf(m') {
      var k' :| k' in m && m[k'].id == x;
      assert m'[k'] == m[k'];
    }
  }

  /** `cs` with a default entry added for every id in `ids` that lacks one. */
  ghost function WithDefaults(cs: map<string, ContainerSettings>, ids: set<string>): (r: map<string, ContainerSettings>)
    ensures r.Keys == cs.Keys + ids
    ensures forall i :: i in cs ==> r[i] == cs[i]
    ensures forall i :: i in ids && i !in cs ==> r[i] == ContainerSettings(i)
  {
    map i | i in cs.Keys + ids :: if i in cs then cs[i] else ContainerSettings(i)
  }

  /** Every application and runtime has container settings under its id. */
  ghost predicate SettingsCover(apps: map<string, Entity>, rts: map<string, Entity>, cs: map<string, ContainerSettings>)
  {
    && (forall k :: k in apps ==> apps[k].id in cs)
    && (forall k :: k in rts ==> rts[k].id in cs)
  }

  /**
   * Filling defaults for the applications and then for the runtimes is
   * filling them for both at once, and leaves every one of them with settings.
   */
  lemma DefaultsComplete(cs: map<string, ContainerSettings>, apps: map<string, Entity>, rts: map<string, Entity>)
    ensures WithDefaults(WithDefaults(cs, IdsOf(apps)), IdsOf(rts)) == WithDefaults(cs, IdsOf(apps) + IdsOf(rts))
    ensures SettingsCover(apps, rts, WithDefaults(cs, IdsOf(apps) + IdsOf(rts)))
  {
  }

  /**
   * One of the two loops of `loadManifest`: every entity whose id has no
   * container settings gets a default entry; existing entries are kept.
   */
  method AddMissingDefaults(cs: map<string, ContainerSettings>, entities: map<string, Entity>)
    returns (r: map<string, ContainerSettings>)
    ensures r == WithDefaults(cs, IdsOf(entities))
  {
    r := cs;
    var todo := entities.Keys;
    while todo != {}
      invariant todo <= entities.Keys
      invariant r == WithDefaults(cs, IdsOf(entities - todo))
      decreases todo
    {
      var k :| k in todo;
      var e := entities[k];
      ghost var done := entities - todo;
      if e.id !in r {
        r := r[e.id := ContainerSettings(e.id)];
      }
      todo := todo - {k};
      assert entities - todo == done[k := e];
      IdsOfInsert(done, k, e);
    }
    assert entities - {} == entities;
  }

  // ---------------------------------------------------------------------
  // Type filters
  // ---------------------------------------------------------------------

  /** The entries of `apps` whose `type` is `kind`. */
  function OfType(apps: map<string, Entity>, kind: string): map<string, Entity>
  {
    map k | k in apps && apps[k].kind == kind :: apps[k]
  }

  /**
   * Filtering the merged applications is filtering the old ones minus those
   * the manifest replaces, plus the manifest's own.
   */
  lemma OfTypeAfterMerge(apps: map<string, Entity>, incoming: map<string, Entity>, kind: string)
    ensures OfType(apps + incoming, kind) == (OfType(apps, kind) - incoming.Keys) + OfType(incoming, kind)
  {
  }
}
