/**
  The layered configuration: `_deep_merge` and how `load_config` stacks its layers. Tables are maps;
  everything else is a plain value, replaced as a whole.
 */
module DeepMerge {

  datatype Tree<V> = Plain(value: V) | Table(table: map<string, Tree<V>>)

  /** A table is merged into a table key by key; in every other case the later tree replaces the
      earlier. */
  function Join<V>(a: Tree<V>, b: Tree<V>): Tree<V>
    decreases b
  {
    if a.Plain? || b.Plain? then b
    else
      Table(map k | k in a.table.Keys + b.table.Keys ::
              if k !in b.table then a.table[k]
              else if k in a.table then Join(a.table[k], b.table[k])
              else b.table[k])
  }

  /** `_deep_merge`: the base is copied, then the keys of the other layer are visited in any order. */
  method DeepMerge<V>(base: map<string, Tree<V>>, over: map<string, Tree<V>>) returns (result: map<string, Tree<V>>)
    ensures Table(result) == Join(Table(base), Table(over))
    decreases Table(over)
  {
    result := base;
    var todo := over.Keys;
    while todo != {}
      invariant todo <= over.Keys
      invariant result.Keys == base.Keys + (over.Keys - todo)
      invariant forall k :: k in over.Keys - todo ==>
                  result[k] == if k in base then Join(base[k], over[k]) else over[k]
      invariant forall k :: k in result && k !in over.Keys - todo ==> k in base && result[k] == base[k]
      decreases todo
    {
      var k :| k in todo;
      todo := todo - {k};
      var v := over[k];
      if k in result && result[k].Table? && v.Table? {
        assert Table(over).table[k] == v;
        var merged := DeepMerge(result[k].table, v.table);
        result := result[k := Table(merged)];
      } else {
        result := result[k := v];
      }
    }
  }

  // ------------------------------------------------------------------ identity and idempotence

  lemma EmptyIsIdentity<V>(a: map<string, Tree<V>>)
    ensures Join(Table(a), Table(map[])) == Table(a) && Join(Table(map[]), Table(a)) == Table(a)
  {
  }

  lemma {:induction false} JoinTwice<V>(a: Tree<V>)
    ensures Join(a, a) == a
  {
    if a.Table? {
      forall k | k in a.table ensures Join(a.table[k], a.table[k]) == a.table[k] {
        JoinTwice(a.table[k]);
      }
    }
  }

  // ------------------------------------------------------------------ what is read at a path

  datatype View<V> = Missing | Leaf(value: V) | Inner

  function ViewAt<V>(t: Tree<V>, p: seq<string>): View<V> {
    if p == [] then (if t.Plain? then Leaf(t.value) else Inner)
    else if t.Plain? || p[0] !in t.table then Missing
    else ViewAt(t.table[p[0]], p[1..])
  }

  /** A plain value stands on the way to the path. */
  predicate Cut<V>(t: Tree<V>, p: seq<string>) {
    p != [] && (t.Plain? || (p[0] in t.table && Cut(t.table[p[0]], p[1..])))
  }

  /** The tree has something to say about the path. */
  predicate Speaks<V>(t: Tree<V>, p: seq<string>) {
    !ViewAt(t, p).Missing? || Cut(t, p)
  }

  /** The later layer decides whatever it speaks about; the rest is read from the earlier one. */
  lemma {:induction false} JoinedView<V>(a: Tree<V>, b: Tree<V>, p: seq<string>)
    ensures ViewAt(Join(a, b), p) == if Speaks(b, p) then ViewAt(b, p) else ViewAt(a, p)
    decreases p
  {
    if p != [] && b.Table? && a.Table? && p[0] in b.table && p[0] in a.table {
      JoinedView(a.table[p[0]], b.table[p[0]], p[1..]);
    }
  }

  /** Layers from the least to the most important. */
  function Stack<V>(layers: seq<Tree<V>>): Tree<V> {
    if layers == [] then Table(map[]) else Join(Stack(layers[..|layers| - 1]), layers[|layers| - 1])
  }

  /** What the last layer that speaks about the path says. */
  function LastWord<V>(layers: seq<Tree<V>>, p: seq<string>): View<V> {
    if layers == [] then ViewAt(Table(map[]), p)
    else if Speaks(layers[|layers| - 1], p) then ViewAt(layers[|layers| - 1], p)
    else LastWord(layers[..|layers| - 1], p)
  }

  lemma {:induction false} StackSaysTheLastWord<V>(layers: seq<Tree<V>>, p: seq<string>)
    ensures ViewAt(Stack(layers), p) == LastWord(layers, p)
  {
    if layers != [] {
      StackSaysTheLastWord(layers[..|layers| - 1], p);
      JoinedView(Stack(layers[..|layers| - 1]), layers[|layers| - 1], p);
    }
  }

  /** So the value at a path is that of the last layer that defines it, unless a later layer has a
      plain value on the way. */
  lemma {:induction false} LastDefinitionWins<V>(layers: seq<Tree<V>>, i: nat, p: seq<string>)
    requires i < |layers| && !ViewAt(layers[i], p).Missing?
    requires forall j :: i < j < |layers| ==> ViewAt(layers[j], p).Missing?
    ensures ViewAt(Stack(layers), p) ==
            if exists j :: i < j < |layers| && Cut(layers[j], p) then Missing else ViewAt(layers[i], p)
  {
    var last := |layers| - 1;
    JoinedView(Stack(layers[..last]), layers[last], p);
    if i < last {
      var rest := layers[..last];
      LastDefinitionWins(rest, i, p);
      if Cut(layers[last], p) {
        assert exists j :: i < j < |layers| && Cut(layers[j], p);
      } else {
        assert (exists j :: i < j < |layers| && Cut(layers[j], p)) <==> (exists j :: i < j < |rest| && Cut(rest[j], p)) by {
          if j :| i < j < |layers| && Cut(layers[j], p) {
            assert rest[j] == layers[j];
          }
          if j :| i < j < |rest| && Cut(rest[j], p) {
            assert layers[j] == rest[j];
          }
        }
      }
    }
  }

  // ------------------------------------------------------------------ associativity

  /** Joining `a` under `b` adds nothing to `b`. */
  predicate Covered<V>(a: Tree<V>, b: Tree<V>)
    decreases b
  {
    a.Plain? || b.Plain? || forall k :: k in a.table ==> k in b.table && Covered(a.table[k], b.table[k])
  }

  lemma {:induction false} CoveredIff<V>(a: Tree<V>, b: Tree<V>)
    ensures Join(a, b) == b <==> Covered(a, b)
    decreases b
  {
    if a.Table? && b.Table? {
      forall k | k in a.table && k in b.table
        ensures Join(a.table[k], b.table[k]) == b.table[k] <==> Covered(a.table[k], b.table[k])
      {
        CoveredIff(a.table[k], b.table[k]);
      }
      if Join(a, b) == b {
        forall k | k in a.table ensures k in b.table && Covered(a.table[k], b.table[k]) {
          assert k in Join(a, b).table;
        }
      }
    }
  }

  /** Somewhere the three are a table, a plain value and a table that does not cover the first. */
  predicate Clash<V>(a: Tree<V>, b: Tree<V>, c: Tree<V>)
    decreases c
  {
    a.Table? && c.Table?
    && if b.Plain? then !Covered(a, c)
       else exists k :: k in a.table && k in b.table && k in c.table && Clash(a.table[k], b.table[k], c.table[k])
  }

  /** Merging is associative exactly when no path is a table in the first layer, a plain value in the
      second and a table in the third that leaves some of the first uncovered. */
  lemma {:induction false} AssociativeIff<V>(a: Tree<V>, b: Tree<V>, c: Tree<V>)
    ensures Join(Join(a, b), c) == Join(a, Join(b, c)) <==> !Clash(a, b, c)
    decreases c
  {
    if a.Table? && c.Table? {
      if b.Plain? {
        CoveredIff(a, c);
      } else {
        AssociativeBelow(a, b, c);
      }
    }
  }

  lemma {:induction false} AssociativeBelow<V>(a: Tree<V>, b: Tree<V>, c: Tree<V>)
    requires a.Table? && b.Table? && c.Table?
    ensures Join(Join(a, b), c) == Join(a, Join(b, c)) <==> !Clash(a, b, c)
    decreases c, 0
  {
    var l, r := Join(Join(a, b), c), Join(a, Join(b, c));
    forall k | k in a.table && k in b.table && k in c.table
      ensures l.table[k] == r.table[k] <==> !Clash(a.table[k], b.table[k], c.table[k])
    {
      AssociativeIff(a.table[k], b.table[k], c.table[k]);
    }
    assert l.table.Keys == r.table.Keys;
    forall k | k in l.table && !(k in a.table && k in b.table && k in c.table)
      ensures l.table[k] == r.table[k]
    {
    }
  }

  /** In particular when no path is a table in one layer and a plain value in another. */
  predicate Aligned<V>(a: Tree<V>, b: Tree<V>)
    decreases b
  {
    (a.Table? <==> b.Table?)
    && (a.Table? ==> forall k :: k in a.table && k in b.table ==> Aligned(a.table[k], b.table[k]))
  }

  lemma {:induction false} AlignedDoNotClash<V>(a: Tree<V>, b: Tree<V>, c: Tree<V>)
    requires Aligned(a, b)
    ensures !Clash(a, b, c)
    decreases c
  {
    if a.Table? && b.Table? && c.Table? {
      forall k | k in a.table && k in b.table && k in c.table
        ensures !Clash(a.table[k], b.table[k], c.table[k])
      {
        AlignedDoNotClash(a.table[k], b.table[k], c.table[k]);
      }
    }
  }

  // ------------------------------------------------------------------ loading

  /** The raw configuration of `load_config`: each file is merged with the sections its connection
      tables stand for, and the project over the user. */
  method LoadLayers<V>(user: map<string, Tree<V>>, userConnections: map<string, Tree<V>>,
                       project: map<string, Tree<V>>, projectConnections: map<string, Tree<V>>)
    returns (raw: map<string, Tree<V>>)
    ensures Table(raw) == Join(Join(Table(user), Table(userConnections)), Join(Table(project), Table(projectConnections)))
    ensures !Clash(Stack([Table(user), Table(userConnections)]), Table(project), Table(projectConnections)) ==>
              Table(raw) == Stack([Table(user), Table(userConnections), Table(project), Table(projectConnections)])
  {
    var u := DeepMerge(user, userConnections);
    var p := DeepMerge(project, projectConnections);
    raw := DeepMerge(u, p);
    var layers := [Table(user), Table(userConnections), Table(project), Table(projectConnections)];
    assert layers[..3][..2] == [Table(user), Table(userConnections)] && layers[..3] == layers[..2] + [Table(project)];
    TwoLayers(Table(user), Table(userConnections));
    assert layers[..2] == [Table(user), Table(userConnections)];
    assert Stack(layers[..3]) == Join(Stack(layers[..2]), Table(project));
    assert Stack(layers) == Join(Stack(layers[..3]), Table(projectConnections));
    AssociativeIff(Table(u), Table(project), Table(projectConnections));
  }

  lemma TwoLayers<V>(a: Tree<V>, b: Tree<V>)
    requires a.Table?
    ensures Stack([a, b]) == Join(a, b)
  {
    assert [a, b][..1] == [a] && [a][..0] == [];
    EmptyIsIdentity(a.table);
    assert Stack([a]) == Join(Table(map[]), a);
  }
}
