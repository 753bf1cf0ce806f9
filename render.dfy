/**
 * What the three renderers share: the member and method lines of a class
 * body, the per-class dependency map (`dep_map`) those lines fill, and the
 * loop that turns a dependency map into edge lines.
 *
 * A dependency map sends a type name to the name of the class that uses it.
 * It starts empty for every class, so all its values are that class's name and
 * its key set says everything about it. Its iteration order is not fixed: the
 * edge loop reports the order it took as a ghost sequence.
 */
module Rendering {
  import opened Strings
  import opened CocoStruct

  // ---------------------------------------------------------------------------
  // Lines and dependency keys

  /** The key a typed member or method links to: the pure type when there is one, else the raw type. */
  function DepKey(dataType: string, pureType: string): (key: string)
    ensures |pureType| > 0 ==> key == pureType
    ensures |pureType| == 0 ==> key == dataType
  {
    if |pureType| > 0 then pureType else dataType
  }

  /** One member line: `<space>  <access><name>` untyped, `<space>  <access> <type> <name>` typed. */
  function MemberLine(m: MemberInfo, space: string): string {
    if m.dataType == "" then space + "  " + m.access + m.name + "\n"
    else space + "  " + m.access + " " + m.dataType + " " + m.name + "\n"
  }

  /** One method line: as a member line, with the return type and a trailing `()`. */
  function MethodLine(m: MethodInfo, space: string): string {
    if m.returnType == "" then space + "  " + m.access + m.name + "()\n"
    else space + "  " + m.access + " " + m.returnType + " " + m.name + "()\n"
  }

  function MemberLines(members: seq<MemberInfo>, space: string): (lines: seq<string>)
    ensures |lines| == |members|
    ensures forall i :: 0 <= i < |members| ==> lines[i] == MemberLine(members[i], space)
  {
    seq(|members|, i requires 0 <= i < |members| => MemberLine(members[i], space))
  }

  function MethodLines(methods: seq<MethodInfo>, space: string): (lines: seq<string>)
    ensures |lines| == |methods|
    ensures forall i :: 0 <= i < |methods| ==> lines[i] == MethodLine(methods[i], space)
  {
    seq(|methods|, i requires 0 <= i < |methods| => MethodLine(methods[i], space))
  }

  /** The dependency keys of the typed members. */
  function MemberTargets(members: seq<MemberInfo>): set<string>
    decreases |members|
  {
    if |members| == 0 then {}
    else
      var m := members[|members| - 1];
      MemberTargets(members[..|members| - 1]) + (if m.dataType == "" then {} else {DepKey(m.dataType, m.pureDataType)})
  }

  /** The dependency keys of the methods with a return type. */
  function MethodTargets(methods: seq<MethodInfo>): set<string>
    decreases |methods|
  {
    if |methods| == 0 then {}
    else
      var m := methods[|methods| - 1];
      MethodTargets(methods[..|methods| - 1]) + (if m.returnType == "" then {} else {DepKey(m.returnType, m.pureReturnType)})
  }

  lemma MemberLinesStep(members: seq<MemberInfo>, space: string, i: nat)
    requires i < |members|
    ensures MemberLines(members[..i + 1], space) == MemberLines(members[..i], space) + [MemberLine(members[i], space)]
  {
  }

  lemma MethodLinesStep(methods: seq<MethodInfo>, space: string, i: nat)
    requires i < |methods|
    ensures MethodLines(methods[..i + 1], space) == MethodLines(methods[..i], space) + [MethodLine(methods[i], space)]
  {
  }

  lemma MemberTargetsStep(members: seq<MemberInfo>, i: nat)
    requires i < |members|
    ensures MemberTargets(members[..i + 1]) == MemberTargets(members[..i]) +
      (if members[i].dataType == "" then {} else {DepKey(members[i].dataType, members[i].pureDataType)})
  {
    assert members[..i + 1][..i] == members[..i];
  }

  lemma MethodTargetsStep(methods: seq<MethodInfo>, i: nat)
    requires i < |methods|
    ensures MethodTargets(methods[..i + 1]) == MethodTargets(methods[..i]) +
      (if methods[i].returnType == "" then {} else {DepKey(methods[i].returnType, methods[i].pureReturnType)})
  {
    assert methods[..i + 1][..i] == methods[..i];
  }

  /** The dependency map after filing `targets` under `owner` on top of `depMap`. */
  ghost predicate Filed(newDepMap: map<string, string>, depMap: map<string, string>, targets: set<string>, owner: string) {
    && newDepMap.Keys == depMap.Keys + targets
    && forall k :: k in newDepMap ==> newDepMap[k] == if k in targets then owner else depMap[k]
  }

  lemma FiledStep(newDepMap: map<string, string>, depMap: map<string, string>, targets: set<string>, owner: string, key: string)
    requires Filed(newDepMap, depMap, targets, owner)
    ensures Filed(newDepMap[key := owner], depMap, targets + {key}, owner)
  {
  }

  // ---------------------------------------------------------------------------
  // render_member and render_method

  /**
   * `render_member`: one line per member, in member order; every typed member
   * files its dependency key under the class name, and no other key changes.
   */
  method RenderMember(clazz: ClassInfo, depMap: map<string, string>, space: string)
    returns (members: seq<string>, newDepMap: map<string, string>)
    ensures members == MemberLines(clazz.members, space)
    ensures Filed(newDepMap, depMap, MemberTargets(clazz.members), clazz.name)
  {
    members := [];
    newDepMap := depMap;
    for i := 0 to |clazz.members|
      invariant members == MemberLines(clazz.members[..i], space)
      invariant Filed(newDepMap, depMap, MemberTargets(clazz.members[..i]), clazz.name)
    {
      var member := clazz.members[i];
      MemberTargetsStep(clazz.members, i);
      MemberLinesStep(clazz.members, space, i);
      var line;
      if member.dataType == "" {
        line := space + "  " + member.access + member.name + "\n";
      } else {
        line := space + "  " + member.access + " " + member.dataType + " " + member.name + "\n";
      }
      assert line == MemberLine(member, space);
      members := members + [line];
      if member.dataType != "" {
        var key := if |member.pureDataType| > 0 then member.pureDataType else member.dataType;
        FiledStep(newDepMap, depMap, MemberTargets(clazz.members[..i]), clazz.name, key);
        newDepMap := newDepMap[key := clazz.name];
      }
    }
    assert clazz.members[..|clazz.members|] == clazz.members;
  }

  /** `render_method`: the same, over the methods and their return types. */
  method RenderMethod(clazz: ClassInfo, depMap: map<string, string>, space: string)
    returns (methods: seq<string>, newDepMap: map<string, string>)
    ensures methods == MethodLines(clazz.methods, space)
    ensures Filed(newDepMap, depMap, MethodTargets(clazz.methods), clazz.name)
  {
    methods := [];
    newDepMap := depMap;
    for i := 0 to |clazz.methods|
      invariant methods == MethodLines(clazz.methods[..i], space)
      invariant Filed(newDepMap, depMap, MethodTargets(clazz.methods[..i]), clazz.name)
    {
      var m := clazz.methods[i];
      MethodTargetsStep(clazz.methods, i);
      MethodLinesStep(clazz.methods, space, i);
      var line;
      if m.returnType == "" {
        line := space + "  " + m.access + m.name + "()\n";
      } else {
        line := space + "  " + m.access + " " + m.returnType + " " + m.name + "()\n";
      }
      assert line == MethodLine(m, space);
      methods := methods + [line];
      if m.returnType != "" {
        var key := if |m.pureReturnType| > 0 then m.pureReturnType else m.returnType;
        FiledStep(newDepMap, depMap, MethodTargets(clazz.methods[..i]), clazz.name, key);
        newDepMap := newDepMap[key := clazz.name];
      }
    }
    assert clazz.methods[..|clazz.methods|] == clazz.methods;
  }

  /** An untyped member links nowhere; a typed one links to its pure type when it has one. */
  lemma MemberTargetsOfOne(m: MemberInfo)
    ensures m.dataType == "" ==> MemberTargets([m]) == {}
    ensures m.dataType != "" && m.pureDataType != "" ==> MemberTargets([m]) == {m.pureDataType}
    ensures m.dataType != "" && m.pureDataType == "" ==> MemberTargets([m]) == {m.dataType}
  {
    if m.dataType != "" {
      assert DepKey(m.dataType, m.pureDataType) in MemberTargets([m]);
    }
  }

  /** A method returning `[]Demo2` with pure type `Demo2` links to `Demo2`, not to `[]Demo2`. */
  lemma MethodTargetsOfOne(m: MethodInfo)
    ensures m.returnType == "" ==> MethodTargets([m]) == {}
    ensures m.returnType != "" && m.pureReturnType != "" ==> MethodTargets([m]) == {m.pureReturnType}
    ensures m.returnType != "" && m.pureReturnType == "" ==> MethodTargets([m]) == {m.returnType}
  {
    if m.returnType != "" {
      assert DepKey(m.returnType, m.pureReturnType) in MethodTargets([m]);
    }
  }

  /** The body text of a class: its member lines, then its method lines unless only fields are shown. */
  function Body(c: ClassInfo, fieldOnly: bool, space: string): string {
    Join(MemberLines(c.members, space), "") + (if fieldOnly then "" else Join(MethodLines(c.methods, space), ""))
  }

  /** The keys of a class's dependency map once its members (and, unless only fields are shown, methods) are rendered. */
  function ClassDeps(c: ClassInfo, fieldOnly: bool): set<string> {
    MemberTargets(c.members) + (if fieldOnly then {} else MethodTargets(c.methods))
  }

  // ---------------------------------------------------------------------------
  // Edges

  /** The types a class gets an edge to: known class names other than its own. */
  function EdgeTargets(c: ClassInfo, fieldOnly: bool, known: set<string>): (targets: set<string>)
    ensures forall t :: t in targets <==> t in ClassDeps(c, fieldOnly) && t != c.name && t in known
  {
    set t | t in ClassDeps(c, fieldOnly) && t != c.name && t in known
  }

  /** `order` lists every element of `s` exactly once. */
  ghost predicate Enumerates(order: seq<string>, s: set<string>) {
    && (forall t :: t in order <==> t in s)
    && (forall i, j :: 0 <= i < j < |order| ==> order[i] != order[j])
  }

  /** A walk reports as many keys as the set has. */
  lemma {:induction false} EnumeratesSize(order: seq<string>, s: set<string>)
    requires Enumerates(order, s)
    ensures |order| == |s|
    decreases |order|
  {
    if |order| == 0 {
      assert forall t :: t !in s;
      assert s == {};
    } else {
      var n := |order| - 1;
      var last := order[n];
      var rest := order[..n];
      forall t ensures t in rest <==> t in s - {last} {
        if t in rest {
          var i :| 0 <= i < n && rest[i] == t;
          assert order[i] == t && order[i] != order[n];
        }
        if t in s - {last} {
          var i :| 0 <= i < |order| && order[i] == t;
          assert i != n;
          assert rest[i] == t;
        }
      }
      forall i, j | 0 <= i < j < |rest| ensures rest[i] != rest[j] {
        assert rest[i] == order[i] && rest[j] == order[j];
      }
      EnumeratesSize(rest, s - {last});
      assert order[n] in order;
    }
  }

  /** Walking an empty set reports nothing. */
  lemma EnumeratesNone(order: seq<string>)
    requires Enumerates(order, {})
    ensures order == []
  {
    EnumeratesSize(order, {});
  }

  /** Walking a single key reports just that key. */
  lemma EnumeratesOne(order: seq<string>, t: string)
    requires Enumerates(order, {t})
    ensures order == [t]
  {
    EnumeratesSize(order, {t});
    assert t in order;
  }

  /** The edge lines of one class, in the order its dependency map was walked. */
  function EdgeLines(prefix: string, owner: string, arrow: string, order: seq<string>): (lines: seq<string>)
    ensures |lines| == |order|
    ensures forall i :: 0 <= i < |order| ==> lines[i] == prefix + owner + arrow + order[i] + "\n"
  {
    seq(|order|, i requires 0 <= i < |order| => prefix + owner + arrow + order[i] + "\n")
  }

  /**
   * The loop each renderer runs over a class's dependency map: a key equal to
   * its value (the class itself) or not among the known names is skipped; any
   * other key gives one edge line.
   */
  method DepEdges(depMap: map<string, string>, ghost owner: string, known: set<string>, prefix: string, arrow: string)
    returns (edges: seq<string>, ghost order: seq<string>)
    requires forall k :: k in depMap ==> depMap[k] == owner
    ensures Enumerates(order, set k | k in depMap && k != owner && k in known)
    ensures edges == EdgeLines(prefix, owner, arrow, order)
  {
    edges := [];
    order := [];
    var pending := depMap.Keys;
    while pending != {}
      invariant pending <= depMap.Keys
      invariant edges == EdgeLines(prefix, owner, arrow, order)
      invariant forall t :: t in order <==> t in depMap && t !in pending && t != owner && t in known
      invariant forall i, j :: 0 <= i < j < |order| ==> order[i] != order[j]
      decreases pending
    {
      var callee :| callee in pending;
      pending := pending - {callee};
      var current := depMap[callee];
      if callee == current {
        continue;
      }
      if callee !in known {
        continue;
      }
      edges := edges + [prefix + current + arrow + callee + "\n"];
      order := order + [callee];
    }
  }

  /** The edge lines of all classes, class by class. */
  function AllEdges(classes: seq<ClassInfo>, orders: seq<seq<string>>, prefix: string, arrow: string): seq<string>
    requires |orders| == |classes|
    decreases |classes|
  {
    if |classes| == 0 then []
    else
      var n := |classes| - 1;
      AllEdges(classes[..n], orders[..n], prefix, arrow) + EdgeLines(prefix, classes[n].name, arrow, orders[n])
  }

  /** Every edge line names one class and one entry of that class's walk, and every such pair has its line. */
  lemma {:induction false} AllEdgesMembers(classes: seq<ClassInfo>, orders: seq<seq<string>>, prefix: string, arrow: string, e: string)
    requires |orders| == |classes|
    ensures e in AllEdges(classes, orders, prefix, arrow) <==>
      exists i, t :: 0 <= i < |classes| && t in orders[i] && e == prefix + classes[i].name + arrow + t + "\n"
    decreases |classes|
  {
    if |classes| > 0 {
      var n := |classes| - 1;
      AllEdgesMembers(classes[..n], orders[..n], prefix, arrow, e);
      var last := EdgeLines(prefix, classes[n].name, arrow, orders[n]);
      if e in AllEdges(classes, orders, prefix, arrow) {
        if e in last {
          var j :| 0 <= j < |last| && last[j] == e;
          assert orders[n][j] in orders[n];
        } else {
          var i, t :| 0 <= i < n && t in orders[..n][i] && e == prefix + classes[..n][i].name + arrow + t + "\n";
          assert classes[..n][i] == classes[i] && orders[..n][i] == orders[i];
        }
      } else {
        forall i, t | 0 <= i < |classes| && t in orders[i]
          ensures e != prefix + classes[i].name + arrow + t + "\n"
        {
          if i < n {
            assert classes[..n][i] == classes[i] && orders[..n][i] == orders[i];
          } else {
            var j :| 0 <= j < |orders[n]| && orders[n][j] == t;
            assert last[j] == prefix + classes[n].name + arrow + t + "\n";
          }
        }
      }
    }
  }

  /** The edges of one class, and of two classes. */
  lemma AllEdgesOfOne(c: ClassInfo, orders: seq<seq<string>>, prefix: string, arrow: string)
    requires |orders| == 1
    ensures AllEdges([c], orders, prefix, arrow) == EdgeLines(prefix, c.name, arrow, orders[0])
  {
    assert [c][..0] == [];
  }

  lemma AllEdgesOfTwo(c0: ClassInfo, c1: ClassInfo, orders: seq<seq<string>>, prefix: string, arrow: string)
    requires |orders| == 2
    ensures AllEdges([c0, c1], orders, prefix, arrow)
      == EdgeLines(prefix, c0.name, arrow, orders[0]) + EdgeLines(prefix, c1.name, arrow, orders[1])
  {
    assert [c0, c1][..1] == [c0];
    AllEdgesOfOne(c0, orders[..1], prefix, arrow);
  }

  /** The names of the classes, as the renderers' `class_map` holds them. */
  function Names(classes: seq<ClassInfo>): (names: set<string>)
    decreases |classes|
  {
    if |classes| == 0 then {} else Names(classes[..|classes| - 1]) + {classes[|classes| - 1].name}
  }

  lemma NamesStep(classes: seq<ClassInfo>, i: nat)
    requires i < |classes|
    ensures Names(classes[..i + 1]) == Names(classes[..i]) + {classes[i].name}
  {
    assert classes[..i + 1][..i] == classes[..i];
  }

  /** The `class_map` loop the PlantUML and Graphviz renderers open with: every class name, mapped to `true`. */
  method KnownClasses(classes: seq<ClassInfo>) returns (classMap: map<string, bool>)
    ensures classMap.Keys == Names(classes)
    ensures forall k :: k in classMap ==> classMap[k]
  {
    classMap := map[];
    for i := 0 to |classes|
      invariant classMap.Keys == Names(classes[..i])
      invariant forall k :: k in classMap ==> classMap[k]
    {
      NamesStep(classes, i);
      classMap := classMap[classes[i].name := true];
    }
    assert classes[..|classes|] == classes;
  }

  lemma {:induction false} NamesMembers(classes: seq<ClassInfo>, t: string)
    ensures t in Names(classes) <==> exists i :: 0 <= i < |classes| && classes[i].name == t
    decreases |classes|
  {
    if |classes| > 0 {
      var n := |classes| - 1;
      NamesMembers(classes[..n], t);
      if t in Names(classes[..n]) {
        var i :| 0 <= i < n && classes[..n][i].name == t;
        assert classes[i] == classes[..n][i];
      }
      if exists i :: 0 <= i < |classes| && classes[i].name == t {
        var i :| 0 <= i < |classes| && classes[i].name == t;
        if i < n {
          assert classes[..n][i] == classes[i];
        }
      }
    }
  }

  lemma AllEdgesStep(classes: seq<ClassInfo>, orders: seq<seq<string>>, order: seq<string>, prefix: string, arrow: string)
    requires |orders| < |classes|
    ensures AllEdges(classes[..|orders| + 1], orders + [order], prefix, arrow)
      == AllEdges(classes[..|orders|], orders, prefix, arrow) + EdgeLines(prefix, classes[|orders|].name, arrow, order)
  {
    var i := |orders|;
    assert classes[..i + 1][..i] == classes[..i];
    assert (orders + [order])[..i] == orders;
  }

  /** Each class's walk of its dependency map reports each of its edge targets exactly once. */
  ghost predicate Walked(classes: seq<ClassInfo>, fieldOnly: bool, known: set<string>, orders: seq<seq<string>>)
    requires |orders| == |classes|
    decreases |classes|
  {
    if |classes| == 0 then true
    else
      var n := |classes| - 1;
      Walked(classes[..n], fieldOnly, known, orders[..n]) && Enumerates(orders[n], EdgeTargets(classes[n], fieldOnly, known))
  }

  lemma WalkedStep(classes: seq<ClassInfo>, fieldOnly: bool, known: set<string>, orders: seq<seq<string>>, order: seq<string>)
    requires |orders| < |classes|
    requires Walked(classes[..|orders|], fieldOnly, known, orders)
    requires Enumerates(order, EdgeTargets(classes[|orders|], fieldOnly, known))
    ensures Walked(classes[..|orders| + 1], fieldOnly, known, orders + [order])
  {
    var i := |orders|;
    assert classes[..i + 1][..i] == classes[..i];
    assert (orders + [order])[..i] == orders;
  }

  lemma {:induction false} WalkedAt(classes: seq<ClassInfo>, fieldOnly: bool, known: set<string>, orders: seq<seq<string>>, j: nat)
    requires |orders| == |classes|
    requires Walked(classes, fieldOnly, known, orders)
    requires j < |classes|
    ensures Enumerates(orders[j], EdgeTargets(classes[j], fieldOnly, known))
    decreases |classes|
  {
    var n := |classes| - 1;
    if j < n {
      WalkedAt(classes[..n], fieldOnly, known, orders[..n], j);
      assert classes[..n][j] == classes[j] && orders[..n][j] == orders[j];
    }
  }

  /**
   * The edges of a whole diagram: a line joins a class to a known class other
   * than itself that one of its members (or, unless only fields are shown,
   * methods) is typed with, and every such pair has its line.
   */
  lemma EdgesAreTargets(classes: seq<ClassInfo>, orders: seq<seq<string>>, prefix: string, arrow: string,
                        fieldOnly: bool, known: set<string>, e: string)
    requires |orders| == |classes|
    requires Walked(classes, fieldOnly, known, orders)
    ensures e in AllEdges(classes, orders, prefix, arrow) <==>
      exists i, t :: 0 <= i < |classes| && t in ClassDeps(classes[i], fieldOnly) && t != classes[i].name && t in known
        && e == prefix + classes[i].name + arrow + t + "\n"
  {
    AllEdgesMembers(classes, orders, prefix, arrow, e);
    if e in AllEdges(classes, orders, prefix, arrow) {
      var i, t :| 0 <= i < |classes| && t in orders[i] && e == prefix + classes[i].name + arrow + t + "\n";
      WalkedAt(classes, fieldOnly, known, orders, i);
      assert t in EdgeTargets(classes[i], fieldOnly, known);
    }
    if exists i, t :: 0 <= i < |classes| && t in ClassDeps(classes[i], fieldOnly) && t != classes[i].name && t in known
        && e == prefix + classes[i].name + arrow + t + "\n" {
      var i, t :| 0 <= i < |classes| && t in ClassDeps(classes[i], fieldOnly) && t != classes[i].name && t in known
        && e == prefix + classes[i].name + arrow + t + "\n";
      WalkedAt(classes, fieldOnly, known, orders, i);
      assert t in EdgeTargets(classes[i], fieldOnly, known);
      assert t in orders[i];
    }
  }

  lemma TailDiffers(head: string, a: string, b: string)
    requires a != b
    ensures head + a + "\n" != head + b + "\n"
  {
    var x := head + a + "\n";
    var y := head + b + "\n";
    if |a| != |b| {
      assert |x| != |y|;
    } else {
      var k :| 0 <= k < |a| && a[k] != b[k];
      assert x[|head| + k] == a[k] && y[|head| + k] == b[k];
    }
  }

  /** Within one class no target gets two edge lines. */
  lemma EdgeLinesDistinct(prefix: string, owner: string, arrow: string, order: seq<string>, targets: set<string>)
    requires Enumerates(order, targets)
    ensures forall i, j :: 0 <= i < j < |order| ==>
      EdgeLines(prefix, owner, arrow, order)[i] != EdgeLines(prefix, owner, arrow, order)[j]
  {
    var lines := EdgeLines(prefix, owner, arrow, order);
    forall i, j | 0 <= i < j < |order| ensures lines[i] != lines[j] {
      TailDiffers(prefix + owner + arrow, order[i], order[j]);
    }
  }

  /** A dependency map built from empty for one class holds exactly that class's dependency keys, all filed under its name. */
  lemma FiledFromEmpty(afterMembers: map<string, string>, afterMethods: map<string, string>, c: ClassInfo, fieldOnly: bool)
    requires Filed(afterMembers, map[], MemberTargets(c.members), c.name)
    requires fieldOnly ==> afterMethods == afterMembers
    requires !fieldOnly ==> Filed(afterMethods, afterMembers, MethodTargets(c.methods), c.name)
    ensures afterMethods.Keys == ClassDeps(c, fieldOnly)
    ensures forall k :: k in afterMethods ==> afterMethods[k] == c.name
  {
  }

  /** With only fields shown, methods neither appear in the body nor add dependency keys. */
  lemma FieldOnlyIgnoresMethods(c: ClassInfo, space: string)
    ensures Body(c, true, space) == Body(c.(methods := []), false, space)
    ensures ClassDeps(c, true) == ClassDeps(c.(methods := []), false)
  {
    var none := c.(methods := []);
    assert MethodLines(none.methods, space) == [];
    assert MethodTargets(none.methods) == {};
  }
}
