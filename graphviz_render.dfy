/**
 * The Graphviz renderer: classes whose names end in `Repository`,
 * `Controller` or `Service` are grouped into one subgraph per layer, and each
 * class gets a directed `A -> B` edge to every known class it depends on.
 */
module GraphvizRender {
  import opened Strings
  import opened CocoStruct
  import opened Rendering

  /** The three layers, each named by the suffix that puts a class into it. */
  const Layers: set<string> := {"Repository", "Controller", "Service"}

  /** The names of the classes ending in `layer`, in input order. */
  function Cluster(classes: seq<ClassInfo>, layer: string): seq<string>
    decreases |classes|
  {
    if |classes| == 0 then []
    else
      var n := |classes| - 1;
      Cluster(classes[..n], layer) + (if EndsWith(classes[n].name, layer) then [classes[n].name] else [])
  }

  lemma ClusterStep(classes: seq<ClassInfo>, layer: string, i: nat)
    requires i < |classes|
    ensures Cluster(classes[..i + 1], layer)
      == Cluster(classes[..i], layer) + (if EndsWith(classes[i].name, layer) then [classes[i].name] else [])
  {
    assert classes[..i + 1][..i] == classes[..i];
  }

  /** `entry(layer).or_insert(vec![]).push(name)` when the name ends in `layer`. */
  function Place(m: map<string, seq<string>>, layer: string, name: string): map<string, seq<string>> {
    if EndsWith(name, layer) then
      var graph := if layer in m then m[layer] else [];
      m[layer := graph + [name]]
    else m
  }

  /** One class placed in the three layers, in the order the source tests them. */
  function PlaceAll(m: map<string, seq<string>>, name: string): map<string, seq<string>> {
    Place(Place(Place(m, "Repository", name), "Controller", name), "Service", name)
  }

  /** `sub_graphs_map` once the classes are placed, one after the other. */
  function Clusters(classes: seq<ClassInfo>): map<string, seq<string>>
    decreases |classes|
  {
    if |classes| == 0 then map[]
    else PlaceAll(Clusters(classes[..|classes| - 1]), classes[|classes| - 1].name)
  }

  lemma ClustersStep(classes: seq<ClassInfo>, i: nat)
    requires i < |classes|
    ensures Clusters(classes[..i + 1]) == PlaceAll(Clusters(classes[..i]), classes[i].name)
  {
    assert classes[..i + 1][..i] == classes[..i];
  }

  /**
   * The cluster map holds one entry per layer that received a class, and that
   * entry lists the names ending in the layer's suffix, in input order.
   */
  lemma {:induction false} ClustersAreLayers(classes: seq<ClassInfo>, k: string)
    ensures k in Clusters(classes) <==> k in Layers && Cluster(classes, k) != []
    ensures k in Clusters(classes) ==> Clusters(classes)[k] == Cluster(classes, k)
    decreases |classes|
  {
    if |classes| > 0 {
      var n := |classes| - 1;
      ClustersAreLayers(classes[..n], k);
    }
  }

  /** One subgraph block. */
  function SubgraphText(key: string, items: seq<string>): string {
    "\n  subgraph cluster_" + key + "{\n    " + Join(items, "\n    ") + "\n    }"
  }

  /** The subgraph blocks, in the order the map was walked. */
  function SubgraphTexts(m: map<string, seq<string>>, order: seq<string>): (texts: seq<string>)
    requires forall k :: k in order ==> k in m
    ensures |texts| == |order|
    ensures forall i :: 0 <= i < |order| ==> texts[i] == SubgraphText(order[i], m[order[i]])
  {
    seq(|order|, i requires 0 <= i < |order| => SubgraphText(order[i], m[order[i]]))
  }

  /** The diagram, given the walk of each class's dependency map and of the cluster map. */
  function Document(classes: seq<ClassInfo>, orders: seq<seq<string>>, clusterOrder: seq<string>): string
    requires |orders| == |classes|
    requires forall k :: k in clusterOrder ==> k in Clusters(classes)
  {
    "digraph G {\n  compound=true;\n  ranksep=1\n  node[shape=record]\n"
      + Join(SubgraphTexts(Clusters(classes), clusterOrder), "\n") + "\n"
      + Join(AllEdges(classes, orders, "", " -> "), "") + "\n}"
  }

  /** The walk of the dependency maps reports every edge target once, and the walk of the cluster map every cluster once. */
  ghost predicate ValidOrders(classes: seq<ClassInfo>, option: ParseOption, orders: seq<seq<string>>, clusterOrder: seq<string>) {
    && |orders| == |classes|
    && Walked(classes, option.fieldOnly, Names(classes), orders)
    && Enumerates(clusterOrder, Clusters(classes).Keys)
  }

  /** The dependency edges of one class: its rendered lines are dropped, only its dependency map is used. */
  method ClassEdges(clazz: ClassInfo, option: ParseOption, known: set<string>)
    returns (edges: seq<string>, ghost order: seq<string>)
    ensures Enumerates(order, EdgeTargets(clazz, option.fieldOnly, known))
    ensures edges == EdgeLines("", clazz.name, " -> ", order)
  {
    var depMap: map<string, string> := map[];
    var _, afterMembers := RenderMember(clazz, depMap, "");
    depMap := afterMembers;
    if !option.fieldOnly {
      var _, afterMethods := RenderMethod(clazz, depMap, "");
      depMap := afterMethods;
    }
    FiledFromEmpty(afterMembers, depMap, clazz, option.fieldOnly);
    edges, order := DepEdges(depMap, clazz.name, known, "", " -> ");
    assert (set k | k in depMap && k != clazz.name && k in known) == EdgeTargets(clazz, option.fieldOnly, known);
  }

  /** The loop over `sub_graphs_map`: one block per cluster, in the order the map is walked. */
  method ClusterBlocks(m: map<string, seq<string>>) returns (subGraphs: seq<string>, ghost order: seq<string>)
    ensures Enumerates(order, m.Keys)
    ensures forall k :: k in order ==> k in m
    ensures subGraphs == SubgraphTexts(m, order)
  {
    subGraphs := [];
    order := [];
    var pending := m.Keys;
    while pending != {}
      invariant pending <= m.Keys
      invariant forall k :: k in order <==> k in m.Keys - pending
      invariant forall i, j :: 0 <= i < j < |order| ==> order[i] != order[j]
      invariant subGraphs == SubgraphTexts(m, order)
      decreases pending
    {
      var key :| key in pending;
      assert key !in order;
      var items := m[key];
      subGraphs := subGraphs + [SubgraphText(key, items)];
      order := order + [key];
      pending := pending - {key};
    }
  }

  /** The three `entry(..).or_insert(vec![]).push(..)` statements for one class. */
  method PlaceClass(subGraphsMap: map<string, seq<string>>, name: string) returns (placed: map<string, seq<string>>)
    ensures placed == PlaceAll(subGraphsMap, name)
  {
    placed := subGraphsMap;
    if EndsWith(name, "Repository") {
      var graph := if "Repository" in placed then placed["Repository"] else [];
      placed := placed["Repository" := graph + [name]];
    }
    if EndsWith(name, "Controller") {
      var graph := if "Controller" in placed then placed["Controller"] else [];
      placed := placed["Controller" := graph + [name]];
    }
    if EndsWith(name, "Service") {
      var graph := if "Service" in placed then placed["Service"] else [];
      placed := placed["Service" := graph + [name]];
    }
  }

  /** The state of `render` after the first `i` classes. */
  ghost predicate RenderedUpTo(classes: seq<ClassInfo>, option: ParseOption, i: nat, orders: seq<seq<string>>,
                               subGraphsMap: map<string, seq<string>>, deps: seq<string>)
  {
    && i <= |classes| && |orders| == i
    && subGraphsMap == Clusters(classes[..i])
    && deps == AllEdges(classes[..i], orders, "", " -> ")
    && Walked(classes[..i], option.fieldOnly, Names(classes), orders)
  }

  lemma RenderedStep(classes: seq<ClassInfo>, option: ParseOption, i: nat, orders: seq<seq<string>>,
                     subGraphsMap: map<string, seq<string>>, deps: seq<string>, edges: seq<string>, order: seq<string>)
    requires RenderedUpTo(classes, option, i, orders, subGraphsMap, deps) && i < |classes|
    requires Enumerates(order, EdgeTargets(classes[i], option.fieldOnly, Names(classes)))
    requires edges == EdgeLines("", classes[i].name, " -> ", order)
    ensures RenderedUpTo(classes, option, i + 1, orders + [order], PlaceAll(subGraphsMap, classes[i].name), deps + edges)
  {
    ClustersStep(classes, i);
    AllEdgesStep(classes, orders, order, "", " -> ");
    WalkedStep(classes, option.fieldOnly, Names(classes), orders, order);
  }

  /** `GraphvizRender::render`. */
  method Render(classes: seq<ClassInfo>, option: ParseOption)
    returns (r: string, ghost orders: seq<seq<string>>, ghost clusterOrder: seq<string>)
    ensures ValidOrders(classes, option, orders, clusterOrder)
    ensures forall k :: k in clusterOrder ==> k in Clusters(classes)
    ensures r == Document(classes, orders, clusterOrder)
  {
    var subGraphsMap: map<string, seq<string>> := map[];
    var deps: seq<string> := [];
    var classMap := KnownClasses(classes);

    orders := [];
    assert classes[..0] == [];
    for i := 0 to |classes|
      invariant RenderedUpTo(classes, option, i, orders, subGraphsMap, deps)
    {
      var placed := PlaceClass(subGraphsMap, classes[i].name);
      var edges, order := ClassEdges(classes[i], option, classMap.Keys);
      RenderedStep(classes, option, i, orders, subGraphsMap, deps, edges, order);
      subGraphsMap := placed;
      deps := deps + edges;
      orders := orders + [order];
    }
    assert classes[..|classes|] == classes;

    var subGraphs;
    subGraphs, clusterOrder := ClusterBlocks(subGraphsMap);

    r := "digraph G {\n  compound=true;\n  ranksep=1\n  node[shape=record]\n" + Join(subGraphs, "\n") + "\n" + Join(deps, "") + "\n}";
  }

  // ---------------------------------------------------------------------------
  // Properties

  /** A cluster holds exactly the names of the classes ending in its layer's suffix. */
  lemma {:induction false} ClusterMembers(classes: seq<ClassInfo>, layer: string, name: string)
    ensures name in Cluster(classes, layer) <==> EndsWith(name, layer) && exists i :: 0 <= i < |classes| && classes[i].name == name
    decreases |classes|
  {
    if |classes| > 0 {
      var n := |classes| - 1;
      ClusterMembers(classes[..n], layer, name);
      if exists i :: 0 <= i < |classes| && classes[i].name == name {
        var i :| 0 <= i < |classes| && classes[i].name == name;
        if i < n {
          assert classes[..n][i] == classes[i];
        }
      }
      if name in Cluster(classes[..n], layer) {
        var i :| 0 <= i < n && classes[..n][i].name == name;
        assert classes[i] == classes[..n][i];
      }
    }
  }

  /** Cluster members keep the input order: a class placed later sits after one placed earlier. */
  lemma {:induction false} ClusterKeepsOrder(classes: seq<ClassInfo>, more: seq<ClassInfo>, layer: string)
    ensures Cluster(classes + more, layer) == Cluster(classes, layer) + Cluster(more, layer)
    decreases |more|
  {
    if |more| == 0 {
      assert classes + more == classes;
    } else {
      var n := |more| - 1;
      ClusterKeepsOrder(classes, more[..n], layer);
      assert (classes + more)[..|classes| + n] == classes + more[..n];
    }
  }

  /** A subgraph is emitted exactly for the layers that received at least one class. */
  lemma OnlyPopulatedClusters(classes: seq<ClassInfo>, layer: string)
    ensures layer in Clusters(classes) <==> layer in Layers && exists i :: 0 <= i < |classes| && EndsWith(classes[i].name, layer)
  {
    ClustersAreLayers(classes, layer);
    if exists i :: 0 <= i < |classes| && EndsWith(classes[i].name, layer) {
      var i :| 0 <= i < |classes| && EndsWith(classes[i].name, layer);
      assert classes[i].name in Cluster(classes, layer) by {
        ClusterMembers(classes, layer, classes[i].name);
      }
    }
    if Cluster(classes, layer) != [] {
      var name := Cluster(classes, layer)[0];
      assert exists i :: 0 <= i < |classes| && EndsWith(classes[i].name, layer) by {
        ClusterMembers(classes, layer, name);
        var i :| 0 <= i < |classes| && classes[i].name == name;
        assert EndsWith(classes[i].name, layer);
      }
    }
  }

  /** No name ends in two of the suffixes, so a class joins at most one cluster. */
  lemma AtMostOneLayer(name: string)
    ensures EndsWith(name, "Repository") ==> !EndsWith(name, "Controller") && !EndsWith(name, "Service")
    ensures EndsWith(name, "Controller") ==> !EndsWith(name, "Service")
  {
    if EndsWith(name, "Repository") {
      assert name[|name| - 1] == 'y';
    }
    if EndsWith(name, "Controller") {
      assert name[|name| - 1] == 'r';
    }
  }

  /** `DemoServiceImpl` and `DemoCtrl` end in none of the suffixes and join no cluster. */
  lemma UnsuffixedJoinsNone(classes: seq<ClassInfo>)
    ensures "DemoServiceImpl" !in Cluster(classes, "Service")
    ensures "DemoCtrl" !in Cluster(classes, "Controller")
  {
    ClusterMembers(classes, "Service", "DemoServiceImpl");
    ClusterMembers(classes, "Controller", "DemoCtrl");
    assert "DemoServiceImpl"[15 - 7..] != "Service";
    assert "DemoCtrl"[8 - 8..] != "Controller";
  }

  /** The output opens with the `digraph G {` header lines and closes with `}`. */
  lemma DocumentFrame(classes: seq<ClassInfo>, orders: seq<seq<string>>, clusterOrder: seq<string>)
    requires |orders| == |classes|
    requires forall k :: k in clusterOrder ==> k in Clusters(classes)
    ensures "digraph G {\n  compound=true;\n  ranksep=1\n  node[shape=record]\n" <= Document(classes, orders, clusterOrder)
    ensures Document(classes, orders, clusterOrder)[|Document(classes, orders, clusterOrder)| - 1] == '}'
  {
  }
}
