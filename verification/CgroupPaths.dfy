/** The bounded walk up the cgroup hierarchy that builds a path, over arbitrary id and parent maps. */
module CgroupPaths {
  import opened Machine
  import opened BatchReader

  const MAX_STEPS: nat := 10

  datatype Cgroup = Cgroup(id: u64, parentId: u64, name: string)

  type Names = map<u64, string>
  type Parents = map<u64, u64>

  // ---- The two maps ----

  function IdOf(): Cgroup -> u64 { (cg: Cgroup) => cg.id }

  function NameMap(cgroups: seq<Cgroup>): Names {
    var m := Rekey(cgroups, IdOf());
    map id | id in m :: m[id].name
  }

  function ParentMap(cgroups: seq<Cgroup>): Parents {
    var m := Rekey(cgroups, IdOf());
    map id | id in m :: m[id].parentId
  }

  method CollectMaps(cgroups: seq<Cgroup>) returns (names: Names, parents: Parents)
    ensures names == NameMap(cgroups) && parents == ParentMap(cgroups)
  {
    names, parents := map[], map[];
    for i := 0 to |cgroups|
      invariant names == NameMap(cgroups[..i]) && parents == ParentMap(cgroups[..i])
    {
      assert cgroups[..i + 1][..i] == cgroups[..i];
      names := names[cgroups[i].id := cgroups[i].name];
      parents := parents[cgroups[i].id := cgroups[i].parentId];
    }
    assert cgroups[..|cgroups|] == cgroups;
  }

  /** An id's name and parent are those of the last cgroup listed with it. */
  lemma LastListed(cgroups: seq<Cgroup>, i: nat)
    requires i < |cgroups| && forall j | i < j < |cgroups| :: cgroups[j].id != cgroups[i].id
    ensures var id, names, parents := cgroups[i].id, NameMap(cgroups), ParentMap(cgroups);
            && id in names && names[id] == cgroups[i].name
            && id in parents && parents[id] == cgroups[i].parentId
  {
    LastWins(cgroups, IdOf(), i);
  }

  // ---- What the walk should visit ----

  predicate Named(names: Names, id: u64) { id in names && names[id] != "" }

  /** The walk goes on from id to p. */
  predicate Link(parents: Parents, id: u64, p: u64) {
    id in parents && parents[id] == p && p != 0 && p != id
  }

  /** Ids leading upwards from `id`, each known and named, each linked to the next. */
  predicate IsChain(names: Names, parents: Parents, id: u64, chain: seq<u64>) {
    && (chain != [] ==> chain[0] == id)
    && (forall i | 0 <= i < |chain| :: Named(names, chain[i]))
    && (forall i | 0 < i < |chain| :: Link(parents, chain[i - 1], chain[i]))
  }

  function Ancestors(names: Names, parents: Parents, id: u64, steps: nat): (chain: seq<u64>)
    ensures |chain| <= steps
    decreases steps
  {
    if steps == 0 || id !in names || names[id] == "" then []
    else if id !in parents || parents[id] == 0 || parents[id] == id then [id]
    else [id] + Ancestors(names, parents, parents[id], steps - 1)
  }

  /** `Ancestors` is the longest chain of at most that many ids: it is one, and every other is a
      prefix of it.  Cycles make no exception. */
  lemma {:induction false} AncestorsLongest(names: Names, parents: Parents, id: u64, steps: nat, chain: seq<u64>)
    requires IsChain(names, parents, id, chain) && |chain| <= steps
    ensures IsChain(names, parents, id, Ancestors(names, parents, id, steps))
    ensures chain <= Ancestors(names, parents, id, steps)
    decreases steps
  {
    if |chain| > 1 {
      FirstLink(names, parents, id, chain);
    }
    if steps > 0 && Named(names, id) && id in parents && Link(parents, id, parents[id]) {
      var rest := if |chain| > 1 then chain[1..] else [];
      assert IsChain(names, parents, parents[id], rest) by {
        assert forall i | 0 < i < |rest| :: rest[i - 1] == chain[i] && rest[i] == chain[i + 1];
      }
      AncestorsLongest(names, parents, parents[id], steps - 1, rest);
    }
  }

  lemma FirstLink(names: Names, parents: Parents, id: u64, chain: seq<u64>)
    requires IsChain(names, parents, id, chain) && |chain| > 1
    ensures Named(names, id) && Link(parents, id, chain[1])
  {
    assert Link(parents, chain[1 - 1], chain[1]);
  }

  /** One more step adds at most one id, and none once the walk has ended by itself. */
  lemma {:induction false} OneMoreStep(names: Names, parents: Parents, id: u64, steps: nat)
    ensures Ancestors(names, parents, id, steps) <= Ancestors(names, parents, id, steps + 1)
    ensures Ancestors(names, parents, id, steps) == Ancestors(names, parents, id, steps + 1)
            <==> |Ancestors(names, parents, id, steps + 1)| <= steps
    decreases steps
  {
    if steps > 0 && Named(names, id) && id in parents && Link(parents, id, parents[id]) {
      OneMoreStep(names, parents, parents[id], steps - 1);
    }
  }

  // ---- Paths ----

  function Reverse<T>(s: seq<T>): (r: seq<T>)
    ensures |r| == |s|
  {
    if s == [] then [] else Reverse(s[1..]) + [s[0]]
  }

  function NameOf(names: Names, id: u64): string { if id in names then names[id] else "" }

  function Labels(names: Names, chain: seq<u64>): seq<string> {
    seq(|chain|, i requires 0 <= i < |chain| => NameOf(names, chain[i]))
  }

  function Join(parts: seq<string>): string {
    if parts == [] then "" else Join(parts[..|parts| - 1]) + "/" + parts[|parts| - 1]
  }

  function Slashed(parts: seq<string>): string { if parts == [] then "/" else Join(parts) }

  /** The components of a path of at most `steps` of them, outermost first. */
  function Components(names: Names, parents: Parents, id: u64, steps: nat): (parts: seq<string>)
    ensures |parts| == |Ancestors(names, parents, id, steps)| <= steps
  {
    Reverse(Labels(names, Ancestors(names, parents, id, steps)))
  }

  /** A slash before each component, and a slash alone if there are none. */
  lemma SlashBeforeEach(parts: seq<string>, name: string)
    ensures Slashed([]) == "/"
    ensures Slashed(parts + [name]) == (if parts == [] then "" else Slashed(parts)) + "/" + name
  {
    var all := parts + [name];
    assert all[..|all| - 1] == parts && all[|all| - 1] == name;
    assert Join(all) == Join(parts) + "/" + name;
  }

  lemma {:induction false} ReverseAt<T>(s: seq<T>, k: nat)
    requires k < |s|
    ensures Reverse(s)[k] == s[|s| - 1 - k]
  {
    if k < |s| - 1 {
      ReverseAt(s[1..], k);
    }
  }

  /** Component k is the name of the k-th id from the top of the walk; the last is the cgroup's own. */
  lemma ComponentAt(names: Names, parents: Parents, id: u64, steps: nat, k: nat)
    requires k < |Components(names, parents, id, steps)|
    ensures var chain := Ancestors(names, parents, id, steps);
            Components(names, parents, id, steps)[k] == NameOf(names, chain[|chain| - 1 - k])
  {
    LabelAt(names, Ancestors(names, parents, id, steps), k);
  }

  lemma LabelAt(names: Names, chain: seq<u64>, k: nat)
    requires k < |chain|
    ensures Reverse(Labels(names, chain))[k] == NameOf(names, chain[|chain| - 1 - k])
  {
    ReverseAt(Labels(names, chain), k);
  }

  /** The closure `build_path`: at most ten rounds, whatever the maps hold. */
  method BuildPath(names: Names, parents: Parents, id: u64) returns (path: string)
    ensures path == Slashed(Components(names, parents, id, 10))
  {
    var parts: seq<string> := [];
    var cur := id;
    ghost var chain: seq<u64> := [];
    for round := 0 to MAX_STEPS
      invariant chain + Ancestors(names, parents, cur, MAX_STEPS - round)
                == Ancestors(names, parents, id, MAX_STEPS)
      invariant parts == Labels(names, chain)
    {
      ghost var rest := Ancestors(names, parents, cur, MAX_STEPS - round);
      if cur !in names || names[cur] == "" {
        assert rest == [];
        break;
      }
      parts := parts + [names[cur]];
      if cur !in parents || parents[cur] == 0 || parents[cur] == cur {
        assert rest == [cur];
        chain := chain + rest;
        break;
      }
      assert chain + rest == chain + [cur] + rest[1..];
      chain := chain + [cur];
      cur := parents[cur];
    }
    assert chain == Ancestors(names, parents, id, MAX_STEPS) && parts == Labels(names, chain);
    path := Slashed(Reverse(parts));
  }

  // ---- How a path relates to the parent's ----

  /** A child's components are its parent's followed by its own name, exactly when the parent's path
      has fewer components than the walk has steps: ten, in `build_path`. */
  lemma ChildPathExactly(names: Names, parents: Parents, id: u64, p: u64, steps: nat)
    requires Named(names, id) && Link(parents, id, p) && steps > 0
    ensures Components(names, parents, id, steps) == Components(names, parents, p, steps) + [names[id]]
            <==> |Components(names, parents, p, steps)| < steps
  {
    OneMoreStep(names, parents, p, steps - 1);
    OwnNameLast(names, id, Ancestors(names, parents, p, steps - 1));
  }

  lemma OwnNameLast(names: Names, id: u64, above: seq<u64>)
    requires id in names
    ensures Reverse(Labels(names, [id] + above)) == Reverse(Labels(names, above)) + [names[id]]
  {
    var labels := Labels(names, [id] + above);
    assert labels[1..] == Labels(names, above) && labels[0] == names[id];
  }

  /** The same for the printed path. */
  lemma ChildPathPrinted(names: Names, parents: Parents, id: u64, p: u64, steps: nat)
    requires Named(names, id) && Link(parents, id, p)
    requires 0 < |Components(names, parents, p, steps)| < steps
    ensures Slashed(Components(names, parents, id, steps))
            == Slashed(Components(names, parents, p, steps)) + "/" + names[id]
  {
    ChildPathExactly(names, parents, id, p, steps);
    var parts := Components(names, parents, p, steps);
    assert (parts + [names[id]])[..|parts|] == parts;
  }

  const CYCLE_NAMES: Names := map[1 := "a", 2 := "b"]
  const CYCLE_PARENTS: Parents := map[1 := 2, 2 := 1]

  /** Two cgroups that name each other as parent: a walk runs all its steps, ten or any other number,
      and the rule for children fails. */
  lemma CycleBreaksChildPath(steps: nat)
    requires steps > 0
    ensures |Components(CYCLE_NAMES, CYCLE_PARENTS, 2, steps)| == steps
    ensures Components(CYCLE_NAMES, CYCLE_PARENTS, 1, steps)
            != Components(CYCLE_NAMES, CYCLE_PARENTS, 2, steps) + ["a"]
  {
    CycleFills(steps);
    ChildPathExactly(CYCLE_NAMES, CYCLE_PARENTS, 1, 2, steps);
  }

  lemma {:induction false} CycleFills(steps: nat)
    ensures |Ancestors(CYCLE_NAMES, CYCLE_PARENTS, 1, steps)| == steps
    ensures |Ancestors(CYCLE_NAMES, CYCLE_PARENTS, 2, steps)| == steps
  {
    if steps > 0 {
      CycleFills(steps - 1);
    }
  }
}
