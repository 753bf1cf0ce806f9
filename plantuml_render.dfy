/**
 * The PlantUML renderer: for each class its inheritance lines and its class
 * block, then one `A -- B` line for each known class B that A depends on,
 * between `@startuml` and `@enduml`.
 */
module PlantUmlRender {
  import opened Strings
  import opened CocoStruct
  import opened Rendering

  /** One `Parent <|-- Child` block per parent, in parent order. */
  function ParentLines(parents: seq<string>, name: string): (lines: seq<string>)
    ensures |lines| == |parents|
    ensures forall i :: 0 <= i < |parents| ==> lines[i] == parents[i] + " <|-- " + name
  {
    seq(|parents|, i requires 0 <= i < |parents| => parents[i] + " <|-- " + name)
  }

  function ClassBlock(c: ClassInfo, fieldOnly: bool): string {
    "class " + c.name + " {\n" + Body(c, fieldOnly, "") + "}"
  }

  /**
   * The blocks one class contributes: unless parents are switched off, one
   * inheritance block per parent in order, then the class block.
   */
  function Blocks(c: ClassInfo, option: ParseOption): (blocks: seq<string>)
    ensures |blocks| == (if option.withoutParent then 0 else |c.parents|) + 1
    ensures blocks[|blocks| - 1] == ClassBlock(c, option.fieldOnly)
    ensures !option.withoutParent ==> forall i :: 0 <= i < |c.parents| ==> blocks[i] == c.parents[i] + " <|-- " + c.name
  {
    (if |c.parents| > 0 && !option.withoutParent then ParentLines(c.parents, c.name) else []) + [ClassBlock(c, option.fieldOnly)]
  }

  function AllBlocks(classes: seq<ClassInfo>, option: ParseOption): seq<string>
    decreases |classes|
  {
    if |classes| == 0 then []
    else AllBlocks(classes[..|classes| - 1], option) + Blocks(classes[|classes| - 1], option)
  }

  /** The diagram, given the order in which each class's dependency map was walked. */
  function Document(classes: seq<ClassInfo>, option: ParseOption, orders: seq<seq<string>>): string
    requires |orders| == |classes|
  {
    "@startuml\n\n" + Join(AllBlocks(classes, option), "\n\n") + "\n" + Join(AllEdges(classes, orders, "", " -- "), "") + "\n@enduml"
  }

  /** What a walk of a class's dependency map may report: each edge target once. */
  ghost predicate ValidOrders(classes: seq<ClassInfo>, option: ParseOption, orders: seq<seq<string>>) {
    && |orders| == |classes|
    && Walked(classes, option.fieldOnly, Names(classes), orders)
  }

  lemma AllBlocksStep(classes: seq<ClassInfo>, option: ParseOption, i: nat)
    requires i < |classes|
    ensures AllBlocks(classes[..i + 1], option) == AllBlocks(classes[..i], option) + Blocks(classes[i], option)
  {
    assert classes[..i + 1][..i] == classes[..i];
  }

  lemma ParentLinesStep(parents: seq<string>, name: string, j: nat)
    requires j < |parents|
    ensures ParentLines(parents[..j + 1], name) == ParentLines(parents[..j], name) + [parents[j] + " <|-- " + name]
  {
  }

  /** The body of the class loop of `render`: one class's blocks and edge lines. */
  method RenderClass(clazz: ClassInfo, option: ParseOption, known: set<string>)
    returns (blocks: seq<string>, edges: seq<string>, ghost order: seq<string>)
    ensures blocks == Blocks(clazz, option)
    ensures Enumerates(order, EdgeTargets(clazz, option.fieldOnly, known))
    ensures edges == EdgeLines("", clazz.name, " -- ", order)
  {
    var depMap: map<string, string> := map[];
    var members, afterMembers := RenderMember(clazz, depMap, "");
    depMap := afterMembers;
    var methods: seq<string> := [];
    if !option.fieldOnly {
      methods, depMap := RenderMethod(clazz, depMap, "");
    }
    FiledFromEmpty(afterMembers, depMap, clazz, option.fieldOnly);

    var content := Join(members, "") + Join(methods, "");
    var classField := clazz.name;
    blocks := [];
    if |clazz.parents| > 0 && !option.withoutParent {
      for j := 0 to |clazz.parents|
        invariant blocks == ParentLines(clazz.parents[..j], clazz.name)
      {
        ParentLinesStep(clazz.parents, clazz.name, j);
        blocks := blocks + [clazz.parents[j] + " <|-- " + clazz.name];
      }
      assert clazz.parents[..|clazz.parents|] == clazz.parents;
    }
    blocks := blocks + ["class " + classField + " {\n" + content + "}"];

    edges, order := DepEdges(depMap, clazz.name, known, "", " -- ");
    assert (set k | k in depMap && k != clazz.name && k in known) == EdgeTargets(clazz, option.fieldOnly, known);
  }

  /** The state of `render` after the first `i` classes. */
  ghost predicate RenderedUpTo(classes: seq<ClassInfo>, option: ParseOption, i: nat, orders: seq<seq<string>>,
                               rendered: seq<string>, deps: seq<string>)
  {
    && i <= |classes| && |orders| == i
    && rendered == AllBlocks(classes[..i], option)
    && deps == AllEdges(classes[..i], orders, "", " -- ")
    && Walked(classes[..i], option.fieldOnly, Names(classes), orders)
  }

  lemma RenderedStep(classes: seq<ClassInfo>, option: ParseOption, i: nat, orders: seq<seq<string>>,
                     rendered: seq<string>, deps: seq<string>, blocks: seq<string>, edges: seq<string>, order: seq<string>)
    requires RenderedUpTo(classes, option, i, orders, rendered, deps) && i < |classes|
    requires blocks == Blocks(classes[i], option)
    requires Enumerates(order, EdgeTargets(classes[i], option.fieldOnly, Names(classes)))
    requires edges == EdgeLines("", classes[i].name, " -- ", order)
    ensures RenderedUpTo(classes, option, i + 1, orders + [order], rendered + blocks, deps + edges)
  {
    AllBlocksStep(classes, option, i);
    AllEdgesStep(classes, orders, order, "", " -- ");
    WalkedStep(classes, option.fieldOnly, Names(classes), orders, order);
  }

  /** `PlantUmlRender::render`. */
  method Render(classes: seq<ClassInfo>, option: ParseOption) returns (r: string, ghost orders: seq<seq<string>>)
    ensures ValidOrders(classes, option, orders)
    ensures r == Document(classes, option, orders)
  {
    var rendered: seq<string> := [];
    var deps: seq<string> := [];
    var classMap := KnownClasses(classes);

    orders := [];
    for i := 0 to |classes|
      invariant RenderedUpTo(classes, option, i, orders, rendered, deps)
    {
      var blocks, edges, order := RenderClass(classes[i], option, classMap.Keys);
      RenderedStep(classes, option, i, orders, rendered, deps, blocks, edges, order);
      rendered := rendered + blocks;
      deps := deps + edges;
      orders := orders + [order];
    }
    assert classes[..|classes|] == classes;

    r := "@startuml\n\n" + Join(rendered, "\n\n") + "\n" + Join(deps, "") + "\n@enduml";
  }

  // ---------------------------------------------------------------------------
  // Properties

  /** No classes: the markers with three empty lines between them. */
  lemma RenderEmpty(option: ParseOption)
    ensures Document([], option, []) == "@startuml\n\n\n\n@enduml"
  {
  }

  /** A diagram of one class without parents and edges: just its block between the markers. */
  lemma DocumentOfOne(c: ClassInfo, option: ParseOption, orders: seq<seq<string>>)
    requires |orders| == 1 && c.parents == []
    requires AllEdges([c], orders, "", " -- ") == []
    ensures Document([c], option, orders) == "@startuml\n\n" + ClassBlock(c, option.fieldOnly) + "\n\n@enduml"
  {
    assert [c][..0] == [];
    assert AllBlocks([c], option) == [ClassBlock(c, option.fieldOnly)];
  }

  /** A class with no members and no methods renders as an empty block. */
  lemma RenderSingleEmptyClass(orders: seq<seq<string>>)
    requires ValidOrders([NewClass("Demo")], DefaultOption(), orders)
    ensures Document([NewClass("Demo")], DefaultOption(), orders) == "@startuml\n\n" + "class Demo {\n}" + "\n\n@enduml"
  {
    var demo := NewClass("Demo");
    assert AllEdges([demo], orders, "", " -- ") == [] by {
      WalkedAt([demo], false, Names([demo]), orders, 0);
      assert EdgeTargets(demo, false, Names([demo])) == {};
      EnumeratesNone(orders[0]);
      AllEdgesOfOne(demo, orders, "", " -- ");
    }
    DocumentOfOne(demo, DefaultOption(), orders);
    assert ClassBlock(demo, false) == "class Demo {\n}" by {
      assert Body(demo, false, "") == "";
    }
  }

  /** The class of the next two lemmas: a member typed `String` and a method returning its own class. */
  function SelfReferencing(): (c: ClassInfo)
    ensures c.name == "Demo" && c.parents == []
  {
    NewClass("Demo").(members := [NewMember("demo", "-", "String")], methods := [NewMethod("method", "-", [], "Demo")])
  }

  /** Its body holds one line for the member and one for the method. */
  lemma SelfReferencingBody()
    ensures Body(SelfReferencing(), false, "") == "  - String demo\n  - Demo method()\n"
  {
    var demo := SelfReferencing();
    var member := "  - String demo\n";
    var call := "  - Demo method()\n";
    assert MemberLine(demo.members[0], "") == member;
    assert MemberLines(demo.members, "") == [member];
    assert MethodLine(demo.methods[0], "") == call;
    assert MethodLines(demo.methods, "") == [call];
    assert Join([member], "") == member && Join([call], "") == call;
  }

  /** Its method returns its own class, and an edge to itself is never drawn. */
  lemma SelfReferenceHasNoEdge(orders: seq<seq<string>>)
    requires ValidOrders([SelfReferencing()], DefaultOption(), orders)
    ensures AllEdges([SelfReferencing()], orders, "", " -- ") == []
  {
    var demo := SelfReferencing();
    MemberTargetsOfOne(demo.members[0]);
    MethodTargetsOfOne(demo.methods[0]);
    assert demo.members == [demo.members[0]] && demo.methods == [demo.methods[0]];
    WalkedAt([demo], false, Names([demo]), orders, 0);
    assert EdgeTargets(demo, false, Names([demo])) == {};
    EnumeratesNone(orders[0]);
    AllEdgesOfOne(demo, orders, "", " -- ");
  }

  /** Its block: the member line, then the method line. */
  lemma SelfReferencingBlock()
    ensures ClassBlock(SelfReferencing(), false) == "class Demo {\n" + "  - String demo\n  - Demo method()\n" + "}"
  {
    SelfReferencingBody();
    assert "class " + SelfReferencing().name + " {\n" == "class Demo {\n";
  }

  /** The whole diagram of that class: its two lines in the block, and no edge. */
  lemma RenderMemberMethod(orders: seq<seq<string>>)
    requires ValidOrders([SelfReferencing()], DefaultOption(), orders)
    ensures Document([SelfReferencing()], DefaultOption(), orders)
      == "@startuml\n\n" + ("class Demo {\n" + "  - String demo\n  - Demo method()\n" + "}") + "\n\n@enduml"
  {
    SelfReferenceHasNoEdge(orders);
    DocumentOfOne(SelfReferencing(), DefaultOption(), orders);
    SelfReferencingBlock();
  }

  /** Two classes `Demo` and `Demo2` where `Demo` uses `Demo2`: the only edge is `Demo -- Demo2`. */
  lemma TwoClassEdges(demo: ClassInfo, orders: seq<seq<string>>)
    requires demo.name == "Demo"
    requires ClassDeps(demo, false) <= {"String", "Demo2", "Demo"} && "Demo2" in ClassDeps(demo, false)
    requires ValidOrders([demo, NewClass("Demo2")], DefaultOption(), orders)
    ensures AllEdges([demo, NewClass("Demo2")], orders, "", " -- ") == ["Demo -- Demo2\n"]
  {
    var demo2 := NewClass("Demo2");
    var classes := [demo, demo2];
    NamesStep(classes, 0);
    NamesStep(classes, 1);
    assert classes[..0] == [] && classes[..2] == classes;
    assert Names(classes) == {"Demo", "Demo2"};
    WalkedAt(classes, false, Names(classes), orders, 0);
    WalkedAt(classes, false, Names(classes), orders, 1);
    assert EdgeTargets(demo, false, Names(classes)) == {"Demo2"};
    assert EdgeTargets(demo2, false, Names(classes)) == {};
    EnumeratesOne(orders[0], "Demo2");
    EnumeratesNone(orders[1]);
    AllEdgesOfTwo(demo, demo2, orders, "", " -- ");
    assert "" + demo.name + " -- " + "Demo2" + "\n" == "Demo -- Demo2\n";
    assert EdgeLines("", demo.name, " -- ", orders[0]) == ["Demo -- Demo2\n"];
  }

  /** `Demo` uses `String` and `Demo2`; only `Demo2` is a class, so the only edge is `Demo -- Demo2`. */
  lemma RenderDeps(orders: seq<seq<string>>)
    requires var demo := NewClass("Demo").(members := [NewMember("demo", "-", "String")],
                                           methods := [NewMethod("method", "-", [], "Demo2")]);
      ValidOrders([demo, NewClass("Demo2")], DefaultOption(), orders)
    ensures var demo := NewClass("Demo").(members := [NewMember("demo", "-", "String")],
                                          methods := [NewMethod("method", "-", [], "Demo2")]);
      AllEdges([demo, NewClass("Demo2")], orders, "", " -- ") == ["Demo -- Demo2\n"]
  {
    var demo := NewClass("Demo").(members := [NewMember("demo", "-", "String")],
                                  methods := [NewMethod("method", "-", [], "Demo2")]);
    MemberTargetsOfOne(demo.members[0]);
    MethodTargetsOfOne(demo.methods[0]);
    TwoClassEdges(demo, orders);
  }

  /** A method whose pure return type is a class links to that class, even when its raw type is `[]Demo2`. */
  lemma RenderArray(orders: seq<seq<string>>)
    requires var demo := NewClass("Demo").(methods := [NewMethod("method", "-", [], "[]Demo2").(pureReturnType := "Demo2")]);
      ValidOrders([demo, NewClass("Demo2")], DefaultOption(), orders)
    ensures var demo := NewClass("Demo").(methods := [NewMethod("method", "-", [], "[]Demo2").(pureReturnType := "Demo2")]);
      AllEdges([demo, NewClass("Demo2")], orders, "", " -- ") == ["Demo -- Demo2\n"]
  {
    var demo := NewClass("Demo").(methods := [NewMethod("method", "-", [], "[]Demo2").(pureReturnType := "Demo2")]);
    MethodTargetsOfOne(demo.methods[0]);
    assert MemberTargets(demo.members) == {};
    TwoClassEdges(demo, orders);
  }

  /** A class with parents `Demo2` and `Demo3` gets `Demo2 <|-- Demo`, then `Demo3 <|-- Demo`, then its own block. */
  lemma RenderParents()
    ensures Blocks(NewClass("Demo").(parents := ["Demo2", "Demo3"]), DefaultOption())
      == ["Demo2 <|-- Demo", "Demo3 <|-- Demo", "class Demo {\n}"]
  {
    var demo := NewClass("Demo").(parents := ["Demo2", "Demo3"]);
    assert Body(demo, false, "") == "";
    assert ClassBlock(demo, false) == "class Demo {\n}";
    assert demo.parents[0] + " <|-- " + demo.name == "Demo2 <|-- Demo";
    assert demo.parents[1] + " <|-- " + demo.name == "Demo3 <|-- Demo";
    assert ParentLines(demo.parents, demo.name) == ["Demo2 <|-- Demo", "Demo3 <|-- Demo"];
  }

  /** With only fields shown, a class renders as if it had no methods. */
  lemma FieldOnlyDropsMethods(c: ClassInfo, option: ParseOption)
    requires option.fieldOnly
    ensures Blocks(c, option) == Blocks(c.(methods := []), option)
    ensures ClassDeps(c, option.fieldOnly) == ClassDeps(c.(methods := []), option.fieldOnly)
  {
    FieldOnlyIgnoresMethods(c, "");
    var none := c.(methods := []);
    assert MethodLines(none.methods, "") == [];
  }
}
