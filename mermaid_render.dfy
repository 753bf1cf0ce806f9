/**
 * The Mermaid renderer: every line indented by four spaces, all parents of a
 * class on one `P1,P2 <|-- Name` line, the class header under its processed
 * name, and `A -- B` lines for the known classes each class depends on.
 * There are no start and end markers.
 */
module MermaidRender {
  import opened Strings
  import opened CocoStruct
  import opened Rendering

  /** The indentation of every block, parent line and edge. */
  const Space: string := "    "

  /** The names of the classes after `process_name`, as this renderer's `class_map` holds them. */
  function ProcessedNames(classes: seq<ClassInfo>, processName: string -> string): set<string>
    decreases |classes|
  {
    if |classes| == 0 then {}
    else ProcessedNames(classes[..|classes| - 1], processName) + {processName(classes[|classes| - 1].name)}
  }

  lemma ProcessedNamesStep(classes: seq<ClassInfo>, processName: string -> string, i: nat)
    requires i < |classes|
    ensures ProcessedNames(classes[..i + 1], processName) == ProcessedNames(classes[..i], processName) + {processName(classes[i].name)}
  {
    assert classes[..i + 1][..i] == classes[..i];
  }

  /** A name is known exactly when it is the processed name of some class. */
  lemma {:induction false} ProcessedNamesMembers(classes: seq<ClassInfo>, processName: string -> string, t: string)
    ensures t in ProcessedNames(classes, processName) <==> exists i :: 0 <= i < |classes| && processName(classes[i].name) == t
    decreases |classes|
  {
    if |classes| > 0 {
      var n := |classes| - 1;
      ProcessedNamesMembers(classes[..n], processName, t);
      if t in ProcessedNames(classes[..n], processName) {
        var i :| 0 <= i < n && processName(classes[..n][i].name) == t;
        assert classes[i] == classes[..n][i];
      }
      if exists i :: 0 <= i < |classes| && processName(classes[i].name) == t {
        var i :| 0 <= i < |classes| && processName(classes[i].name) == t;
        if i < n {
          assert classes[..n][i] == classes[i];
        }
      }
    }
  }

  /** The single inheritance line: all parents joined by `,`, then the processed name. */
  function ParentLine(c: ClassInfo, processName: string -> string): string {
    Space + Join(c.parents, ",") + " <|-- " + processName(c.name)
  }

  function ClassBlock(c: ClassInfo, fieldOnly: bool, processName: string -> string): string {
    Space + "class " + processName(c.name) + " {\n" + Body(c, fieldOnly, Space) + Space + "}"
  }

  /** The blocks one class contributes: the inheritance line when there are parents and they are shown, then the class block. */
  function Blocks(c: ClassInfo, option: ParseOption, processName: string -> string): (blocks: seq<string>)
    ensures |blocks| == (if |c.parents| > 0 && !option.withoutParent then 2 else 1)
    ensures blocks[|blocks| - 1] == ClassBlock(c, option.fieldOnly, processName)
    ensures |blocks| == 2 ==> blocks[0] == ParentLine(c, processName)
  {
    (if |c.parents| > 0 && !option.withoutParent then [ParentLine(c, processName)] else []) + [ClassBlock(c, option.fieldOnly, processName)]
  }

  function AllBlocks(classes: seq<ClassInfo>, option: ParseOption, processName: string -> string): seq<string>
    decreases |classes|
  {
    if |classes| == 0 then []
    else AllBlocks(classes[..|classes| - 1], option, processName) + Blocks(classes[|classes| - 1], option, processName)
  }

  lemma AllBlocksStep(classes: seq<ClassInfo>, option: ParseOption, processName: string -> string, i: nat)
    requires i < |classes|
    ensures AllBlocks(classes[..i + 1], option, processName) == AllBlocks(classes[..i], option, processName) + Blocks(classes[i], option, processName)
  {
    assert classes[..i + 1][..i] == classes[..i];
  }

  /** The diagram, given the order in which each class's dependency map was walked. */
  function Document(classes: seq<ClassInfo>, option: ParseOption, processName: string -> string, orders: seq<seq<string>>): string
    requires |orders| == |classes|
  {
    Join(AllBlocks(classes, option, processName), "\n\n") + "\n" + Join(AllEdges(classes, orders, Space, " -- "), "")
  }

  /** Each walk reports the class's dependency keys that are processed class names other than its own raw name. */
  ghost predicate ValidOrders(classes: seq<ClassInfo>, option: ParseOption, processName: string -> string, orders: seq<seq<string>>) {
    && |orders| == |classes|
    && Walked(classes, option.fieldOnly, ProcessedNames(classes, processName), orders)
  }

  /** The body of the class loop of `render`: one class's blocks and edge lines. */
  method RenderClass(clazz: ClassInfo, option: ParseOption, processName: string -> string, known: set<string>)
    returns (blocks: seq<string>, edges: seq<string>, ghost order: seq<string>)
    ensures blocks == Blocks(clazz, option, processName)
    ensures Enumerates(order, EdgeTargets(clazz, option.fieldOnly, known))
    ensures edges == EdgeLines(Space, clazz.name, " -- ", order)
  {
    var space := Space;
    var depMap: map<string, string> := map[];
    var members, afterMembers := RenderMember(clazz, depMap, space);
    depMap := afterMembers;
    var methods: seq<string> := [];
    if !option.fieldOnly {
      methods, depMap := RenderMethod(clazz, depMap, space);
    }
    FiledFromEmpty(afterMembers, depMap, clazz, option.fieldOnly);

    var content := Join(members, "") + Join(methods, "");
    var className := processName(clazz.name);
    blocks := [];
    if |clazz.parents| > 0 && !option.withoutParent {
      blocks := blocks + [space + Join(clazz.parents, ",") + " <|-- " + className];
    }
    blocks := blocks + [space + "class " + className + " {\n" + content + space + "}"];

    edges, order := DepEdges(depMap, clazz.name, known, space, " -- ");
    assert (set k | k in depMap && k != clazz.name && k in known) == EdgeTargets(clazz, option.fieldOnly, known);
  }

  /** The state of `render` after the first `i` classes, `known` being the processed class names. */
  ghost predicate RenderedUpTo(classes: seq<ClassInfo>, option: ParseOption, processName: string -> string, known: set<string>,
                               i: nat, orders: seq<seq<string>>, rendered: seq<string>, deps: seq<string>)
  {
    && i <= |classes| && |orders| == i
    && rendered == AllBlocks(classes[..i], option, processName)
    && deps == AllEdges(classes[..i], orders, Space, " -- ")
    && Walked(classes[..i], option.fieldOnly, known, orders)
  }

  lemma RenderedStep(classes: seq<ClassInfo>, option: ParseOption, processName: string -> string, known: set<string>,
                     i: nat, orders: seq<seq<string>>, rendered: seq<string>, deps: seq<string>,
                     blocks: seq<string>, edges: seq<string>, order: seq<string>)
    requires RenderedUpTo(classes, option, processName, known, i, orders, rendered, deps) && i < |classes|
    requires blocks == Blocks(classes[i], option, processName)
    requires Enumerates(order, EdgeTargets(classes[i], option.fieldOnly, known))
    requires edges == EdgeLines(Space, classes[i].name, " -- ", order)
    ensures RenderedUpTo(classes, option, processName, known, i + 1, orders + [order], rendered + blocks, deps + edges)
  {
    AllBlocksStep(classes, option, processName, i);
    AllEdgesStep(classes, orders, order, Space, " -- ");
    WalkedStep(classes, option.fieldOnly, known, orders, order);
  }

  /** `MermaidRender::render`, with `process_name` given as a function. */
  method Render(classes: seq<ClassInfo>, option: ParseOption, processName: string -> string)
    returns (r: string, ghost orders: seq<seq<string>>)
    ensures ValidOrders(classes, option, processName, orders)
    ensures r == Document(classes, option, processName, orders)
  {
    var rendered: seq<string> := [];
    var deps: seq<string> := [];

    var classMap: map<string, bool> := map[];
    for i := 0 to |classes|
      invariant classMap.Keys == ProcessedNames(classes[..i], processName)
    {
      ProcessedNamesStep(classes, processName, i);
      classMap := classMap[processName(classes[i].name) := true];
    }
    assert classes[..|classes|] == classes;

    orders := [];
    for i := 0 to |classes|
      invariant RenderedUpTo(classes, option, processName, classMap.Keys, i, orders, rendered, deps)
    {
      var blocks, edges, order := RenderClass(classes[i], option, processName, classMap.Keys);
      RenderedStep(classes, option, processName, classMap.Keys, i, orders, rendered, deps, blocks, edges, order);
      rendered := rendered + blocks;
      deps := deps + edges;
      orders := orders + [order];
    }
    assert classes[..|classes|] == classes;

    r := Join(rendered, "\n\n") + "\n" + Join(deps, "");
  }

  // ---------------------------------------------------------------------------
  // Properties

  /** No classes: a single newline. */
  lemma RenderEmpty(option: ParseOption, processName: string -> string)
    ensures Document([], option, processName, []) == "\n"
  {
  }

  /** Every block and parent line starts with the four-space indentation. */
  lemma {:induction false} BlocksIndented(classes: seq<ClassInfo>, option: ParseOption, processName: string -> string)
    ensures forall b :: b in AllBlocks(classes, option, processName) ==> Space <= b
    decreases |classes|
  {
    if |classes| > 0 {
      var n := |classes| - 1;
      BlocksIndented(classes[..n], option, processName);
      var last := Blocks(classes[n], option, processName);
      forall b | b in last ensures Space <= b {
        var c := classes[n];
        assert b == ParentLine(c, processName) || b == ClassBlock(c, option.fieldOnly, processName);
      }
    }
  }

  /** Every edge line starts with the four-space indentation. */
  lemma EdgesIndented(classes: seq<ClassInfo>, orders: seq<seq<string>>, e: string)
    requires |orders| == |classes|
    requires e in AllEdges(classes, orders, Space, " -- ")
    ensures Space <= e
  {
    AllEdgesMembers(classes, orders, Space, " -- ", e);
  }

  /**
   * The inheritance line lists the parents between the indentation and
   * ` <|-- `, separated by commas: splitting that part on `,` gives back the
   * parents, in order, as long as no parent name holds a comma.
   */
  lemma ParentLineLists(c: ClassInfo, processName: string -> string)
    requires |c.parents| > 0
    requires forall i :: 0 <= i < |c.parents| ==> ',' !in c.parents[i]
    ensures exists joined ::
      && ParentLine(c, processName) == Space + joined + " <|-- " + processName(c.name)
      && Split(joined, ',') == c.parents
  {
    SplitJoin(c.parents, ',');
    assert [','] == ",";
    var joined := Join(c.parents, ",");
    assert ParentLine(c, processName) == Space + joined + " <|-- " + processName(c.name);
  }

  /** A class with parents `Demo2` and `Demo3` gets the one line `    Demo2,Demo3 <|-- Demo`. */
  lemma TwoParentsOneLine(processName: string -> string)
    requires processName("Demo") == "Demo"
    ensures Blocks(NewClass("Demo").(parents := ["Demo2", "Demo3"]), DefaultOption(), processName)[0]
      == Space + "Demo2,Demo3" + " <|-- " + "Demo"
  {
    var demo := NewClass("Demo").(parents := ["Demo2", "Demo3"]);
    assert Join(demo.parents, ",") == "Demo2" + "," + "Demo3";
  }

  /** With parents switched off, or with none, a class contributes only its block. */
  lemma NoParentLine(c: ClassInfo, option: ParseOption, processName: string -> string)
    requires option.withoutParent || c.parents == []
    ensures Blocks(c, option, processName) == [ClassBlock(c, option.fieldOnly, processName)]
  {
  }

  /** With only fields shown, a class renders as if it had no methods. */
  lemma FieldOnlyDropsMethods(c: ClassInfo, option: ParseOption, processName: string -> string)
    requires option.fieldOnly
    ensures Blocks(c, option, processName) == Blocks(c.(methods := []), option, processName)
    ensures ClassDeps(c, option.fieldOnly) == ClassDeps(c.(methods := []), option.fieldOnly)
  {
    FieldOnlyIgnoresMethods(c, Space);
  }
}
