/**
 * The records the parser builds and the renderers read: a class (or struct)
 * with its parents, members (fields) and methods, and the options that steer
 * parsing and rendering.
 */
module CocoStruct {

  /** Rust's `i32`. */
  newtype i32 = x: int | -0x8000_0000 <= x < 0x8000_0000

  const I32Max: int := 0x7fff_ffff

  datatype MemberInfo = MemberInfo(
    name: string,
    access: string,
    dataType: string,
    pureDataType: string,
    lineNo: i32)

  datatype MethodInfo = MethodInfo(
    name: string,
    access: string,
    parameters: seq<string>,
    returnType: string,
    pureReturnType: string,
    lineNo: i32)

  datatype ClassInfo = ClassInfo(
    id: i32,
    name: string,
    package: string,
    file: string,
    lang: string,
    parents: seq<string>,
    members: seq<MemberInfo>,
    methods: seq<MethodInfo>)

  /**
   * The six options of a parse. `merge_method_name` collapses members and
   * methods whose names differ only in case; `field_only` leaves methods out of
   * diagrams; `without_parent` drops inheritance lines. The last three steer
   * name transforms that none of the modelled functions reads.
   */
  datatype ParseOption = ParseOption(
    mergeMethodName: bool,
    fieldOnly: bool,
    withoutParent: bool,
    withoutImplSuffix: bool,
    inlineIdSuffix: bool,
    withoutSuffix: string)

  /** The options of a default-constructed parser: every flag off, no suffix. */
  function DefaultOption(): (o: ParseOption)
    ensures !o.mergeMethodName && !o.fieldOnly && !o.withoutParent
    ensures !o.withoutImplSuffix && !o.inlineIdSuffix && o.withoutSuffix == ""
  {
    ParseOption(false, false, false, false, false, "")
  }

  /** `MemberInfo::new`: no pure type yet and line 0. */
  function NewMember(name: string, access: string, dataType: string): (m: MemberInfo)
    ensures m.name == name && m.access == access && m.dataType == dataType
    ensures m.pureDataType == "" && m.lineNo == 0
  {
    MemberInfo(name, access, dataType, "", 0)
  }

  /** `MethodInfo::new`: the parameter list is kept as given, no pure type yet, line 0. */
  function NewMethod(name: string, access: string, parameters: seq<string>, returnType: string): (m: MethodInfo)
    ensures m.name == name && m.access == access && m.returnType == returnType
    ensures m.parameters == parameters
    ensures m.pureReturnType == "" && m.lineNo == 0
  {
    MethodInfo(name, access, parameters, returnType, "", 0)
  }

  /** `MethodInfo::parameter_too_long`: more than five parameters. */
  function ParameterTooLong(m: MethodInfo): (tooLong: bool)
    ensures tooLong <==> |m.parameters| >= 6
  {
    |m.parameters| > 5
  }

  /** `ClassInfo::new`: only the name is set. */
  function NewClass(name: string): (c: ClassInfo)
    ensures c.name == name && c.id == 0
    ensures c.package == "" && c.file == "" && c.lang == ""
    ensures c.parents == [] && c.members == [] && c.methods == []
  {
    ClassInfo(0, name, "", "", "", [], [], [])
  }
}
