/**
 * The ctags tag-line parser. A first pass registers every class/struct line
 * under its name; a second pass attaches member and method lines to the class
 * named by the last segment of their qualifier; finalisation sorts (and may
 * de-duplicate) members, methods and classes by lower-case name.
 *
 * The regular expressions are not modelled. What the line-level patterns
 * capture is given with each line (`TagLine`); the type-level patterns are
 * functions supplied by the caller (`TypeRules`).
 */
module CtagsParser {
  import opened Wrappers
  import opened Strings
  import opened Sorting
  import opened CocoStruct

  // ---------------------------------------------------------------------------
  // Input: tag lines with their captures

  /** What the class/struct pattern captures: the class name and the file. */
  datatype ClassCaptures = ClassCaptures(className: string, fileName: string)

  /** What the member/method pattern captures: name, the signature field, the tag kind and the line digits. */
  datatype AvailableCaptures = AvailableCaptures(name: string, signature: string, tagType: string, lineNo: string)

  /** One tag line: its text, and what each line-level pattern captured in it (`None`: no match). */
  datatype TagLine = TagLine(
    text: string,
    classCaptures: Option<ClassCaptures>,
    inherits: Option<string>,
    available: Option<AvailableCaptures>,
    qualifier: Option<string>,
    access: Option<string>,
    language: Option<string>)

  /** What the Rust field pattern captures: the field (with its visibility) and its type. */
  datatype RustField = RustField(field: string, dataType: string)

  /** The type-level patterns, each a function from the text it is applied to to its capture. */
  datatype TypeRules = TypeRules(
    cFamilyType: string -> Option<string>,
    rustField: string -> Option<RustField>,
    pureRustType: string -> Option<string>,
    rustReturnType: string -> Option<string>,
    goType: string -> Option<string>,
    typeScriptType: string -> Option<string>,
    parameters: string -> Option<string>)

  // ---------------------------------------------------------------------------
  // Keyword stripping

  /** The declaration modifiers removed before the C-family type pattern runs, in table order. */
  const TypeKeywords: seq<string> := [
    "private", "public", "protected", "static", "volatile", "synchronized",
    "final", "const", "abstract", "struct", "union", "enum", "override",
    "internal", "extern", "readonly", "*", ":"
  ]

  /** The line after deleting the first occurrence of each keyword in turn. */
  function StripKeywords(line: string, keywords: seq<string>): string
    decreases |keywords|
  {
    if |keywords| == 0 then line
    else RemoveFirst(StripKeywords(line, keywords[..|keywords| - 1]), keywords[|keywords| - 1])
  }

  /** `remove_keywords`: one `replacen(keyword, "", 1)` per table entry. */
  method RemoveKeywords(line: string) returns (r: string)
    ensures r == StripKeywords(line, TypeKeywords)
  {
    r := line;
    for i := 0 to |TypeKeywords|
      invariant r == StripKeywords(line, TypeKeywords[..i])
    {
      StripOneMore(line, TypeKeywords, i);
      r := RemoveFirst(r, TypeKeywords[i]);
    }
    StripOneMore(line, TypeKeywords, |TypeKeywords|);
  }

  lemma StripOneMore(line: string, keywords: seq<string>, i: nat)
    requires i <= |keywords|
    ensures i < |keywords| ==>
      StripKeywords(line, keywords[..i + 1]) == RemoveFirst(StripKeywords(line, keywords[..i]), keywords[i])
    ensures keywords[..|keywords|] == keywords
  {
    if i < |keywords| {
      assert keywords[..i + 1][..i] == keywords[..i];
    }
  }

  function TotalLength(words: seq<string>): nat {
    if |words| == 0 then 0 else TotalLength(words[..|words| - 1]) + |words[|words| - 1]|
  }

  /** Stripping only deletes characters, and at most one occurrence of each keyword. */
  lemma {:induction false} StripKeywordsShrinks(line: string, keywords: seq<string>)
    ensures multiset(StripKeywords(line, keywords)) <= multiset(line)
    ensures |line| - TotalLength(keywords) <= |StripKeywords(line, keywords)| <= |line|
    decreases |keywords|
  {
    if |keywords| > 0 {
      var before := StripKeywords(line, keywords[..|keywords| - 1]);
      StripKeywordsShrinks(line, keywords[..|keywords| - 1]);
      RemoveFirstShrinks(before, keywords[|keywords| - 1]);
      assert |multiset(StripKeywords(line, keywords))| <= |multiset(before)|;
    }
  }

  /** A line holding none of the keywords is left as it is. */
  lemma {:induction false} StripKeywordsAbsent(line: string, keywords: seq<string>)
    requires forall i :: 0 <= i < |keywords| ==> !Contains(line, keywords[i])
    ensures StripKeywords(line, keywords) == line
    decreases |keywords|
  {
    if |keywords| > 0 {
      StripKeywordsAbsent(line, keywords[..|keywords| - 1]);
      RemoveFirstRestores(line, keywords[|keywords| - 1]);
    }
  }

  lemma {:induction false} StripKeywordsThen(line: string, first: seq<string>, rest: seq<string>)
    ensures StripKeywords(line, first + rest) == StripKeywords(StripKeywords(line, first), rest)
    decreases |rest|
  {
    if |rest| == 0 {
      assert first + rest == first;
    } else {
      assert (first + rest)[..|first + rest| - 1] == first + rest[..|rest| - 1];
      StripKeywordsThen(line, first, rest[..|rest| - 1]);
    }
  }

  lemma NoMatchInShorter(s: string, pat: string)
    requires |pat| > |s|
    ensures !Contains(s, pat)
  {
  }

  /** `remove_keywords("public")` is empty: `private` does not occur, `public` is the whole line. */
  lemma RemoveKeywordsOfPublic()
    ensures StripKeywords("public", TypeKeywords) == ""
  {
    var first := TypeKeywords[..2];
    var rest := TypeKeywords[2..];
    assert TypeKeywords == first + rest;
    StripKeywordsThen("public", first, rest);
    assert first[..1] == ["private"];
    assert StripKeywords("public", first[..1]) == "public" by {
      NoMatchInShorter("public", "private");
      assert StripKeywords("public", first[..1][..0]) == "public";
      RemoveFirstRestores("public", "private");
    }
    assert MatchAt("public", "public", 0);
    assert IndexOf("public", "public", 0) == Some(0);
    assert StripKeywords("public", first) == "";
    forall i | 0 <= i < |rest| ensures !Contains("", rest[i]) {
      NoMatchInShorter("", rest[i]);
    }
    StripKeywordsAbsent("", rest);
  }

  // ---------------------------------------------------------------------------
  // Line numbers: `parse::<i32>().unwrap_or(0)` of the captured digits

  predicate AllDigits(s: string) {
    forall i :: 0 <= i < |s| ==> '0' <= s[i] <= '9'
  }

  function DecimalValue(s: string): nat
    requires AllDigits(s)
  {
    if |s| == 0 then 0 else DecimalValue(s[..|s| - 1]) * 10 + (s[|s| - 1] as int - '0' as int)
  }

  /** A digit string that does not fit an `i32` does not parse, and the line number falls back to 0. */
  function ParseLineNo(digits: string): i32 {
    if |digits| > 0 && AllDigits(digits) && DecimalValue(digits) <= I32Max
    then DecimalValue(digits) as i32
    else 0
  }

  /** The decimal rendering of a natural number, as ctags writes `line:<N>`. */
  function Decimal(n: nat): (s: string)
    ensures |s| > 0 && AllDigits(s)
  {
    if n < 10 then [('0' as int + n) as char]
    else Decimal(n / 10) + [('0' as int + n % 10) as char]
  }

  lemma {:induction false} DecimalValueOfDecimal(n: nat)
    ensures DecimalValue(Decimal(n)) == n
  {
    if n >= 10 {
      DecimalValueOfDecimal(n / 10);
      var s := Decimal(n);
      assert s[..|s| - 1] == Decimal(n / 10);
    }
  }

  /** Every line number that fits an `i32` parses back to itself; a larger one becomes 0. */
  lemma ParseLineNoRoundTrip(n: nat)
    ensures n <= I32Max ==> ParseLineNo(Decimal(n)) as int == n
    ensures n > I32Max ==> ParseLineNo(Decimal(n)) == 0
  {
    DecimalValueOfDecimal(n);
  }

  // ---------------------------------------------------------------------------
  // Access markers

  /** `access:public` gives `+`, `private` gives `-`, `protected` gives `#`, anything else nothing. */
  function AccessMarker(access: Option<string>): (marker: string)
    ensures marker == "+" <==> access == Some("public")
    ensures marker == "-" <==> access == Some("private")
    ensures marker == "#" <==> access == Some("protected")
    ensures marker != "+" && marker != "-" && marker != "#" ==> marker == ""
  {
    match access
    case Some(a) =>
      if a == "public" then "+"
      else if a == "private" then "-"
      else if a == "protected" then "#"
      else ""
    case None => ""
  }

  lemma {:induction false} SplitHeadThenSeparator(s: string, sep: char)
    requires |Split(s, sep)| > 1
    ensures |Split(s, sep)[0]| < |s|
    ensures s[..|Split(s, sep)[0]| + 1] == Split(s, sep)[0] + [sep]
  {
    var rest := Split(s[1..], sep);
    if s[0] != sep {
      SplitHeadThenSeparator(s[1..], sep);
      assert s[..|Split(s, sep)[0]| + 1] == [s[0]] + s[1..][..|rest[0]| + 1];
    }
  }

  /** With at least one space, the first word is `pub` exactly when the text starts with `pub `. */
  lemma RustFirstWord(s: string)
    requires |Split(s, ' ')| > 1
    ensures Split(s, ' ')[0] == "pub" <==> |s| >= 4 && s[..4] == "pub "
  {
    SplitHeadThenSeparator(s, ' ');
    if |s| >= 4 && s[..4] == "pub " {
      SplitFreePrefix("pub", s[3..], ' ');
      assert s == "pub" + s[3..];
      assert Split(s[3..], ' ')[0] == "" by {
        assert s[3..][0] == ' ';
      }
    }
  }

  /**
   * `parse_rust_access`: a field written as one word is private (`-`); with
   * more words it is public (`+`) when the first word is `pub`, and `#` otherwise.
   */
  function ParseRustAccess(fieldWithAccess: string): (marker: string)
    ensures marker == "-" <==> ' ' !in fieldWithAccess
    ensures marker == "+" <==> |fieldWithAccess| >= 4 && fieldWithAccess[..4] == "pub "
    ensures marker == "-" || marker == "+" || marker == "#"
  {
    var split := Split(fieldWithAccess, ' ');
    SplitCount(fieldWithAccess, ' ');
    assert ' ' in fieldWithAccess <==> multiset(fieldWithAccess)[' '] > 0;
    if |split| > 1 then
      RustFirstWord(fieldWithAccess);
      if split[0] == "pub" then "+" else "#"
    else
      assert |fieldWithAccess| >= 4 ==> fieldWithAccess[..4][3] == fieldWithAccess[3];
      "-"
  }

  // ---------------------------------------------------------------------------
  // Parameter lists

  /**
   * `pick_parameter_list`: nothing between the parentheses (or no match) gives
   * no parameters; otherwise the text between them split at every comma.
   */
  function PickParameterList(rules: TypeRules, signature: string): (parameters: seq<string>)
    ensures rules.parameters(signature) in {None, Some("")} ==> parameters == []
    ensures rules.parameters(signature) !in {None, Some("")} ==>
      && Join(parameters, ",") == rules.parameters(signature).value
      && (forall i :: 0 <= i < |parameters| ==> ',' !in parameters[i])
      && |parameters| == multiset(rules.parameters(signature).value)[','] + 1
  {
    match rules.parameters(signature)
    case None => []
    case Some(s) =>
      if s == "" then []
      else
        JoinSplit(s, ',');
        SplitPiecesAreFree(s, ',');
        SplitCount(s, ',');
        Split(s, ',')
  }

  /** A parameter text without commas, such as `Method method`, yields that one parameter. */
  lemma OneParameter(rules: TypeRules, signature: string, p: string)
    requires rules.parameters(signature) == Some(p) && p != "" && ',' !in p
    ensures PickParameterList(rules, signature) == [p]
  {
    SplitFreePrefix(p, "", ',');
    assert p + "" == p;
  }

  // ---------------------------------------------------------------------------
  // Type extraction

  /** The data type, pure (inner) type and, for Rust fields, the access read off one line. */
  datatype Extraction = Extraction(dataType: string, pureDataType: string, rustAccess: Option<string>)

  predicate IsCFamily(language: string) {
    language == "Java" || language == "C#" || language == "C++"
  }

  predicate Supported(language: string) {
    IsCFamily(language) || language == "Rust" || language == "Go" || language == "TypeScript"
  }

  /**
   * The type dispatch on the exact `language:` value. A Rust line is read as a
   * field first, then as a method whose return type `Self` names the owner.
   */
  function ExtractType(rules: TypeRules, text: string, language: string, owner: string): (x: Extraction)
    ensures !Supported(language) ==> x == Extraction("", "", None)
    ensures x.pureDataType != "" || x.rustAccess.Some? ==> language == "Rust"
    ensures language == "Rust" && rules.rustField(text).None? && rules.rustReturnType(text) == Some("Self")
      ==> x.dataType == owner
    ensures IsCFamily(language) ==> x.dataType == rules.cFamilyType(StripKeywords(text, TypeKeywords)).GetOr("")
    ensures language == "Rust" && rules.rustField(text).Some? ==>
      var f := rules.rustField(text).value;
      && x.dataType == f.dataType
      && x.pureDataType == rules.pureRustType(f.dataType).GetOr("")
      && x.rustAccess == Some(ParseRustAccess(f.field))
    ensures language == "Rust" && rules.rustField(text).None? ==>
      && x.rustAccess.None? && x.pureDataType == ""
      && (rules.rustReturnType(text).None? ==> x.dataType == "")
      && (rules.rustReturnType(text).Some? && rules.rustReturnType(text) != Some("Self") ==>
            x.dataType == rules.rustReturnType(text).value)
    ensures language == "Go" ==> x == Extraction(rules.goType(text).GetOr(""), "", None)
    ensures language == "TypeScript" ==> x == Extraction(rules.typeScriptType(text).GetOr(""), "", None)
  {
    if IsCFamily(language) then
      Extraction(rules.cFamilyType(StripKeywords(text, TypeKeywords)).GetOr(""), "", None)
    else if language == "Rust" then
      match rules.rustField(text)
      case Some(f) =>
        Extraction(f.dataType, rules.pureRustType(f.dataType).GetOr(""), Some(ParseRustAccess(f.field)))
      case None =>
        match rules.rustReturnType(text)
        case Some(t) => Extraction(if t == "Self" then owner else t, "", None)
        case None => Extraction("", "", None)
    else if language == "Go" then
      Extraction(rules.goType(text).GetOr(""), "", None)
    else if language == "TypeScript" then
      Extraction(rules.typeScriptType(text).GetOr(""), "", None)
    else
      Extraction("", "", None)
  }

  // ---------------------------------------------------------------------------
  // Class lines (first pass)

  /** The record a class/struct line registers. */
  function ClassFromLine(captures: ClassCaptures, inherits: Option<string>): (c: ClassInfo)
    ensures c.name == captures.className && c.file == captures.fileName && c.id == 0
    ensures c.package == "" && c.lang == "" && c.members == [] && c.methods == []
    ensures inherits.None? ==> c.parents == []
    ensures inherits.Some? ==>
      && Join(c.parents, ",") == inherits.value
      && (forall i :: 0 <= i < |c.parents| ==> ',' !in c.parents[i])
  {
    var c := NewClass(captures.className).(file := captures.fileName);
    match inherits
    case None => c
    case Some(s) =>
      JoinSplit(s, ',');
      SplitPiecesAreFree(s, ',');
      c.(parents := Split(s, ','))
  }

  /** The registry after one line of the first pass. */
  function Register(m: map<string, ClassInfo>, line: TagLine): map<string, ClassInfo> {
    match line.classCaptures
    case Some(c) => m[c.className := ClassFromLine(c, line.inherits)]
    case None => m
  }

  predicate IsClassLineFor(line: TagLine, name: string) {
    line.classCaptures.Some? && line.classCaptures.value.className == name
  }

  function ClassNames(lines: seq<TagLine>): set<string> {
    set l | l in lines && l.classCaptures.Some? :: l.classCaptures.value.className
  }

  /** The registry after the first pass over `lines`. */
  function RegisterAll(m: map<string, ClassInfo>, lines: seq<TagLine>): map<string, ClassInfo>
    decreases |lines|
  {
    if |lines| == 0 then m
    else Register(RegisterAll(m, lines[..|lines| - 1]), lines[|lines| - 1])
  }

  // ---------------------------------------------------------------------------
  // Member and method lines (second pass)

  /** The short class name: the last dot-separated segment of the qualifier (empty without one). */
  function Owner(line: TagLine): string {
    LastSegment(line.qualifier.GetOr(""), '.')
  }

  /** A member/method line reaches a class when it matches and its short class name is registered. */
  predicate Attaches(keys: set<string>, line: TagLine) {
    line.available.Some? && Owner(line) != "" && Owner(line) in keys
  }

  predicate IsMemberKind(tagType: string) {
    tagType == "member" || tagType == "field" || tagType == "property"
  }

  predicate IsMethodKind(tagType: string) {
    tagType == "method" || tagType == "function"
  }

  /**
   * The access marker of a member/method line: a Rust field's own visibility
   * replaces whatever the `access:` field said; otherwise the `access:` marker.
   */
  function LineAccess(rules: TypeRules, line: TagLine, owner: string): (access: string)
    requires line.language.Some?
    ensures line.language == Some("Rust") && rules.rustField(line.text).Some? ==>
      access == ParseRustAccess(rules.rustField(line.text).value.field)
    ensures !(line.language == Some("Rust") && rules.rustField(line.text).Some?) ==>
      access == AccessMarker(line.access)
  {
    ExtractType(rules, line.text, line.language.value, owner).rustAccess.GetOr(AccessMarker(line.access))
  }

  /** The member a member/field/property line adds to class `owner`. */
  function MemberFromLine(rules: TypeRules, line: TagLine, owner: string): MemberInfo
    requires line.available.Some? && line.language.Some?
  {
    var x := ExtractType(rules, line.text, line.language.value, owner);
    MemberInfo(line.available.value.name, LineAccess(rules, line, owner), x.dataType, x.pureDataType,
      ParseLineNo(line.available.value.lineNo))
  }

  /** The method a method/function line adds to class `owner`. */
  function MethodFromLine(rules: TypeRules, line: TagLine, owner: string): MethodInfo
    requires line.available.Some? && line.language.Some?
  {
    var x := ExtractType(rules, line.text, line.language.value, owner);
    MethodInfo(line.available.value.name, LineAccess(rules, line, owner),
      PickParameterList(rules, line.available.value.signature), x.dataType, x.pureDataType,
      ParseLineNo(line.available.value.lineNo))
  }

  /**
   * What one attaching line does to its class: the package becomes the full
   * qualifier, the language the `language:` value, and one member or one method
   * is appended according to the tag kind (nothing for any other kind).
   */
  function Attach(c: ClassInfo, line: TagLine, rules: TypeRules): (r: ClassInfo)
    requires line.available.Some? && line.language.Some?
    ensures r.package == line.qualifier.GetOr("") && r.lang == line.language.value
    ensures r.id == c.id && r.name == c.name && r.file == c.file && r.parents == c.parents
    ensures IsMemberKind(line.available.value.tagType) ==>
      r.members == c.members + [MemberFromLine(rules, line, c.name)] && r.methods == c.methods
    ensures IsMethodKind(line.available.value.tagType) ==>
      r.methods == c.methods + [MethodFromLine(rules, line, c.name)] && r.members == c.members
    ensures !IsMemberKind(line.available.value.tagType) && !IsMethodKind(line.available.value.tagType) ==>
      r.members == c.members && r.methods == c.methods
  {
    var tagType := line.available.value.tagType;
    var c' := c.(package := line.qualifier.GetOr(""), lang := line.language.value);
    if IsMemberKind(tagType) then c'.(members := c.members + [MemberFromLine(rules, line, c.name)])
    else if IsMethodKind(tagType) then c'.(methods := c.methods + [MethodFromLine(rules, line, c.name)])
    else c'
  }

  /** The registry after one line of the second pass: only the owning class changes, if any. */
  function AttachLine(m: map<string, ClassInfo>, line: TagLine, rules: TypeRules): (r: map<string, ClassInfo>)
    requires Attaches(m.Keys, line) ==> line.language.Some?
    ensures r.Keys == m.Keys
    ensures forall k :: k in m && !(Attaches(m.Keys, line) && k == Owner(line)) ==> r[k] == m[k]
    ensures Attaches(m.Keys, line) ==> r[Owner(line)] == Attach(m[Owner(line)], line, rules)
  {
    if Attaches(m.Keys, line) then m[Owner(line) := Attach(m[Owner(line)], line, rules)] else m
  }

  /** What the second pass needs: every line that will attach names its language. */
  predicate LanguagesGiven(keys: set<string>, lines: seq<TagLine>) {
    forall i :: 0 <= i < |lines| && Attaches(keys, lines[i]) ==> lines[i].language.Some?
  }

  /** The registry after the second pass over `lines`. */
  function AttachAll(m: map<string, ClassInfo>, lines: seq<TagLine>, rules: TypeRules): (r: map<string, ClassInfo>)
    requires LanguagesGiven(m.Keys, lines)
    ensures r.Keys == m.Keys
    decreases |lines|
  {
    if |lines| == 0 then m
    else
      var prefix := lines[..|lines| - 1];
      assert LanguagesGiven(m.Keys, prefix) by {
        forall i | 0 <= i < |prefix| && Attaches(m.Keys, prefix[i]) ensures prefix[i].language.Some? {
          assert prefix[i] == lines[i];
        }
      }
      AttachLine(AttachAll(m, prefix, rules), lines[|lines| - 1], rules)
  }

  /** The lines of all shards, in order. */
  function Flatten(shards: seq<seq<TagLine>>): seq<TagLine> {
    if |shards| == 0 then [] else Flatten(shards[..|shards| - 1]) + shards[|shards| - 1]
  }

  /** The registry `parse_str` builds: every class line first, then every member/method line. */
  function Parsed(lines: seq<TagLine>, rules: TypeRules): (r: map<string, ClassInfo>)
    requires LanguagesGiven(ClassNames(lines), lines)
    ensures r.Keys == ClassNames(lines)
  {
    RegisterAllKeys(map[], lines);
    AttachAll(RegisterAll(map[], lines), lines, rules)
  }

  // ---------------------------------------------------------------------------
  // Finalisation

  function ClassKey(c: ClassInfo): string { Lower(c.name) }
  function MemberKey(m: MemberInfo): string { Lower(m.name) }
  function MethodKey(m: MethodInfo): string { Lower(m.name) }

  /** One finalised record: members and methods sorted by lower-case name, then merged if asked. */
  function Finalize(c: ClassInfo, merge: bool): ClassInfo {
    var methods := SortBy(c.methods, KeyLe(MethodKey));
    var members := SortBy(c.members, KeyLe(MemberKey));
    c.(methods := if merge then DedupBy(methods, MethodKey) else methods,
       members := if merge then DedupBy(members, MemberKey) else members)
  }

  /** The type dispatch of `parse_method_methods`, on the exact `language:` value. */
  method ReadType(rules: TypeRules, text: string, language: string, owner: string) returns (x: Extraction)
    ensures x == ExtractType(rules, text, language, owner)
  {
    var dataType := "";
    var pureDataType := "";
    var access: Option<string> := None;
    if IsCFamily(language) {
      var withoutKeywords := RemoveKeywords(text);
      var capts := rules.cFamilyType(withoutKeywords);
      if capts.Some? {
        dataType := capts.value;
      }
    } else if language == "Rust" {
      var field := rules.rustField(text);
      if field.Some? {
        dataType := field.value.dataType;
        access := Some(ParseRustAccess(field.value.field));
        var pure := rules.pureRustType(dataType);
        if pure.Some? {
          pureDataType := pure.value;
        }
      } else {
        var returned := rules.rustReturnType(text);
        if returned.Some? {
          dataType := returned.value;
          if dataType == "Self" {
            dataType := owner;
          }
        }
      }
    } else if language == "Go" {
      var capts := rules.goType(text);
      if capts.Some? {
        dataType := capts.value;
      }
    } else if language == "TypeScript" {
      var capts := rules.typeScriptType(text);
      if capts.Some? {
        dataType := capts.value;
      }
    }
    x := Extraction(dataType, pureDataType, access);
  }

  // ---------------------------------------------------------------------------
  // The parser object

  /**
   * The second half of `parse_method_methods`, once the owner is found and its
   * package set: the language is set and the member or method read off the
   * line is appended.
   */
  method AttachTo(clazz: ClassInfo, line: TagLine, rules: TypeRules) returns (updated: ClassInfo)
    requires line.available.Some? && line.language.Some?
    requires clazz.package == line.qualifier.GetOr("")
    ensures updated == Attach(clazz, line, rules)
  {
    updated := clazz;
    var captures := line.available.value;
    var name := captures.name;
    var tagType := captures.tagType;
    var lineNo := ParseLineNo(captures.lineNo);

    var access := AccessMarker(line.access);

    var language := line.language.value;
    updated := updated.(lang := language);

    var extraction := ReadType(rules, line.text, language, updated.name);
    var dataType := extraction.dataType;
    var pureDataType := extraction.pureDataType;
    if extraction.rustAccess.Some? {
      access := extraction.rustAccess.value;
    }
    assert access == LineAccess(rules, line, updated.name);

    if IsMemberKind(tagType) {
      var member := NewMember(name, access, dataType);
      member := member.(lineNo := lineNo);
      if pureDataType != "" {
        member := member.(pureDataType := pureDataType);
      }
      assert member == MemberFromLine(rules, line, updated.name);
      updated := updated.(members := updated.members + [member]);
    } else if IsMethodKind(tagType) {
      var parameters := PickParameterList(rules, captures.signature);
      var newMethod := NewMethod(name, access, parameters, dataType);
      newMethod := newMethod.(lineNo := lineNo);
      if pureDataType != "" {
        newMethod := newMethod.(pureReturnType := pureDataType);
      }
      assert newMethod == MethodFromLine(rules, line, updated.name);
      updated := updated.(methods := updated.methods + [newMethod]);
    }
  }

  class Parser {
    var option: ParseOption
    var classMap: map<string, ClassInfo>

    /** Every record is filed under its own name. */
    ghost predicate Valid()
      reads this
    {
      forall k :: k in classMap ==> classMap[k].name == k
    }

    /** `CtagsParser::default()`. */
    constructor ()
      ensures Valid() && option == DefaultOption() && classMap == map[]
    {
      option := DefaultOption();
      classMap := map[];
    }

    /** `parse_class`: a class/struct line (re)registers a fresh record under its name. */
    method ParseClass(line: TagLine)
      requires Valid()
      modifies this
      ensures Valid() && option == old(option)
      ensures classMap == Register(old(classMap), line)
    {
      if line.classCaptures.Some? {
        var captures := line.classCaptures.value;
        var clazz := NewClass(captures.className);
        clazz := clazz.(file := captures.fileName);
        if line.inherits.Some? {
          clazz := clazz.(parents := Split(line.inherits.value, ','));
        }
        classMap := classMap[captures.className := clazz];
      }
    }

    /**
     * `lookup_class_from_map`: finds the class named by the last segment of the
     * qualifier and, when found, sets its package to the whole qualifier.
     */
    method LookupClassFromMap(line: TagLine) returns (found: Option<string>)
      requires Valid()
      modifies this
      ensures Valid() && option == old(option)
      ensures found.Some? <==> Owner(line) != "" && Owner(line) in old(classMap)
      ensures found.Some? ==> (found.value == Owner(line) &&
        classMap == old(classMap)[Owner(line) := old(classMap)[Owner(line)].(package := line.qualifier.GetOr(""))])
      ensures found.None? ==> classMap == old(classMap)
    {
      var className := "";
      if line.qualifier.Some? {
        className := line.qualifier.value;
      }
      var package := className;
      className := LastSegment(className, '.');
      if className == "" {
        return None;
      }
      if className !in classMap {
        return None;
      }
      var clazz := classMap[className];
      clazz := clazz.(package := package);
      classMap := classMap[className := clazz];
      found := Some(className);
    }

    /** `parse_method_methods`: attaches one member or method line to its class, if registered. */
    method ParseMethodMethods(line: TagLine, rules: TypeRules)
      requires Valid()
      requires Attaches(classMap.Keys, line) ==> line.language.Some?
      modifies this
      ensures Valid() && option == old(option)
      ensures classMap == AttachLine(old(classMap), line, rules)
    {
      if line.available.None? {
        return;
      }
      var found := LookupClassFromMap(line);
      if found.None? {
        assert !Attaches(old(classMap).Keys, line);
        return;
      }
      var owner := found.value;
      var clazz := classMap[owner];
      ghost var before := old(classMap)[owner];
      assert Attaches(old(classMap).Keys, line) && clazz == before.(package := line.qualifier.GetOr(""));

      clazz := AttachTo(clazz, line, rules);
      assert clazz == Attach(before, line, rules);
      classMap := classMap[owner := clazz];
      assert classMap == old(classMap)[owner := Attach(before, line, rules)];
    }

    /**
     * `parse_str`: the first pass runs over the lines of every shard before the
     * second pass starts, so a member line may come before its class line.
     */
    static method ParseStr(allLines: seq<seq<TagLine>>, rules: TypeRules) returns (parser: Parser)
      requires LanguagesGiven(ClassNames(Flatten(allLines)), Flatten(allLines))
      ensures fresh(parser) && parser.Valid() && parser.option == DefaultOption()
      ensures parser.classMap == Parsed(Flatten(allLines), rules)
    {
      parser := new Parser();
      var all := Flatten(allLines);
      for i := 0 to |allLines|
        invariant parser.Valid() && parser.option == DefaultOption()
        invariant parser.classMap == RegisterAll(map[], Flatten(allLines[..i]))
      {
        var lines := allLines[i];
        var done := Flatten(allLines[..i]);
        assert done + lines[..0] == done;
        for j := 0 to |lines|
          invariant parser.Valid() && parser.option == DefaultOption()
          invariant parser.classMap == RegisterAll(map[], done + lines[..j])
        {
          parser.ParseClass(lines[j]);
          AppendSlice(done, lines, j);
          RegisterAllSnoc(map[], done + lines[..j], lines[j]);
        }
        FlattenSnoc(allLines, i);
      }
      assert allLines[..|allLines|] == allLines;
      var registered := parser.classMap;
      RegisterAllKeys(map[], all);

      for i := 0 to |allLines|
        invariant parser.Valid() && parser.option == DefaultOption()
        invariant LanguagesGiven(registered.Keys, Flatten(allLines[..i]))
        invariant parser.classMap == AttachAll(registered, Flatten(allLines[..i]), rules)
      {
        var lines := allLines[i];
        var done := Flatten(allLines[..i]);
        FlattenHolds(allLines, i);
        assert done + lines[..0] == done;
        for j := 0 to |lines|
          invariant parser.Valid() && parser.option == DefaultOption()
          invariant LanguagesGiven(registered.Keys, done + lines[..j])
          invariant parser.classMap == AttachAll(registered, done + lines[..j], rules)
        {
          AppendSlice(done, lines, j);
          LanguageGiven(registered.Keys, all, lines[j]);
          LanguagesGivenSnoc(registered.Keys, done + lines[..j], lines[j]);
          AttachAllSnoc(registered, done + lines[..j], lines[j], rules);
          parser.ParseMethodMethods(lines[j], rules);
        }
        FlattenSnoc(allLines, i);
      }
      assert allLines[..|allLines|] == allLines;
    }

    /** The clone step of `classes`: each registered record, finalised, in the order the map is walked. */
    method FinalizedRecords() returns (unsorted: seq<ClassInfo>)
      requires Valid()
      ensures |unsorted| == |classMap|
      ensures forall i :: 0 <= i < |unsorted| ==>
        unsorted[i].name in classMap && unsorted[i] == Finalize(classMap[unsorted[i].name], option.mergeMethodName)
      ensures forall k :: k in classMap ==> exists i :: 0 <= i < |unsorted| && unsorted[i].name == k
    {
      unsorted := [];
      var pending := classMap.Keys;
      while pending != {}
        invariant pending <= classMap.Keys
        invariant |unsorted| + |pending| == |classMap.Keys|
        invariant forall i :: 0 <= i < |unsorted| ==>
          unsorted[i].name in classMap.Keys - pending &&
          unsorted[i] == Finalize(classMap[unsorted[i].name], option.mergeMethodName)
        invariant forall k :: k in classMap.Keys - pending ==> exists i :: 0 <= i < |unsorted| && unsorted[i].name == k
      {
        var name :| name in pending;
        var clazz := Finalize(classMap[name], option.mergeMethodName);
        var next := unsorted + [clazz];
        forall k | k in classMap.Keys - (pending - {name})
          ensures exists i :: 0 <= i < |next| && next[i].name == k
        {
          if k == name {
            assert next[|unsorted|].name == k;
          } else {
            assert k in classMap.Keys - pending;
            var i :| 0 <= i < |unsorted| && unsorted[i].name == k;
            assert next[i] == unsorted[i];
          }
        }
        unsorted := next;
        pending := pending - {name};
      }
      assert classMap.Keys - pending == classMap.Keys;
    }

    /**
     * `classes`: one finalised record per registered name, the list sorted by
     * lower-case class name (the order of names equal up to case is not fixed).
     */
    method Classes() returns (classes: seq<ClassInfo>)
      requires Valid()
      ensures |classes| == |classMap|
      ensures forall i :: 0 <= i < |classes| ==>
        classes[i].name in classMap && classes[i] == Finalize(classMap[classes[i].name], option.mergeMethodName)
      ensures forall k :: k in classMap ==> exists i :: 0 <= i < |classes| && classes[i].name == k
      ensures Sorted(classes, KeyLe(ClassKey))
    {
      var unsorted := FinalizedRecords();
      classes := SortBy(unsorted, KeyLe(ClassKey));
      SortByPermutes(unsorted, KeyLe(ClassKey));
      KeyLeIsTotalPreorder(ClassKey);
      SortBySorted(unsorted, KeyLe(ClassKey));
      forall i | 0 <= i < |classes|
        ensures classes[i].name in classMap && classes[i] == Finalize(classMap[classes[i].name], option.mergeMethodName)
      {
        assert classes[i] in multiset(unsorted);
      }
      forall k | k in classMap ensures exists i :: 0 <= i < |classes| && classes[i].name == k {
        var i :| 0 <= i < |unsorted| && unsorted[i].name == k;
        assert unsorted[i] in multiset(classes);
      }
    }
  }

  // ---------------------------------------------------------------------------
  // Properties of the two passes

  lemma FlattenSnoc(shards: seq<seq<TagLine>>, i: nat)
    requires i < |shards|
    ensures Flatten(shards[..i + 1]) == Flatten(shards[..i]) + shards[i]
    ensures shards[i][..|shards[i]|] == shards[i]
  {
    assert shards[..i + 1][..i] == shards[..i];
  }

  lemma AppendSlice<T>(a: seq<T>, b: seq<T>, j: nat)
    requires j < |b|
    ensures a + b[..j + 1] == (a + b[..j]) + [b[j]]
  {
    assert b[..j + 1] == b[..j] + [b[j]];
  }

  lemma RegisterAllSnoc(m: map<string, ClassInfo>, lines: seq<TagLine>, line: TagLine)
    ensures RegisterAll(m, lines + [line]) == Register(RegisterAll(m, lines), line)
  {
    assert (lines + [line])[..|lines|] == lines;
  }

  lemma LanguageGiven(keys: set<string>, lines: seq<TagLine>, line: TagLine)
    requires LanguagesGiven(keys, lines) && line in lines
    ensures Attaches(keys, line) ==> line.language.Some?
  {
    var p :| 0 <= p < |lines| && lines[p] == line;
  }

  lemma LanguagesGivenSnoc(keys: set<string>, lines: seq<TagLine>, line: TagLine)
    requires LanguagesGiven(keys, lines) && (Attaches(keys, line) ==> line.language.Some?)
    ensures LanguagesGiven(keys, lines + [line])
  {
    var next := lines + [line];
    forall k | 0 <= k < |next| && Attaches(keys, next[k]) ensures next[k].language.Some? {
      if k < |lines| {
        assert next[k] == lines[k];
      }
    }
  }

  lemma AttachAllSnoc(m: map<string, ClassInfo>, lines: seq<TagLine>, line: TagLine, rules: TypeRules)
    requires LanguagesGiven(m.Keys, lines + [line])
    ensures LanguagesGiven(m.Keys, lines)
    ensures Attaches(m.Keys, line) ==> line.language.Some?
    ensures AttachAll(m, lines + [line], rules) == AttachLine(AttachAll(m, lines, rules), line, rules)
  {
    var next := lines + [line];
    assert next[..|lines|] == lines;
    assert next[|lines|] == line;
    forall k | 0 <= k < |lines| && Attaches(m.Keys, lines[k]) ensures lines[k].language.Some? {
      assert next[k] == lines[k];
    }
  }

  lemma {:induction false} FlattenHolds(shards: seq<seq<TagLine>>, i: nat)
    requires i < |shards|
    ensures forall j :: 0 <= j < |shards[i]| ==> shards[i][j] in Flatten(shards)
    decreases |shards|
  {
    var last := |shards| - 1;
    if i < last {
      FlattenHolds(shards[..last], i);
      assert shards[..last][i] == shards[i];
    }
  }

  /** After the first pass the registered names are exactly the names of the class lines. */
  lemma {:induction false} RegisterAllKeys(m: map<string, ClassInfo>, lines: seq<TagLine>)
    ensures RegisterAll(m, lines).Keys == m.Keys + ClassNames(lines)
    decreases |lines|
  {
    if |lines| > 0 {
      var prefix := lines[..|lines| - 1];
      RegisterAllKeys(m, prefix);
      assert lines == prefix + [lines[|lines| - 1]];
      assert ClassNames(lines) == ClassNames(prefix) + ClassNames([lines[|lines| - 1]]);
    }
  }

  /** Every record the first pass files keeps the invariant of the parser. */
  lemma {:induction false} RegisterAllNames(m: map<string, ClassInfo>, lines: seq<TagLine>)
    requires forall k :: k in m ==> m[k].name == k
    ensures forall k :: k in RegisterAll(m, lines) ==> RegisterAll(m, lines)[k].name == k
    decreases |lines|
  {
    if |lines| > 0 {
      RegisterAllNames(m, lines[..|lines| - 1]);
    }
  }

  /**
   * A later class line with the same name replaces the whole record: the name
   * holds the record of its last class line.
   */
  lemma {:induction false} LastClassLineWins(m: map<string, ClassInfo>, lines: seq<TagLine>, j: nat)
    requires j < |lines| && lines[j].classCaptures.Some?
    requires forall l :: j < l < |lines| ==> !IsClassLineFor(lines[l], lines[j].classCaptures.value.className)
    ensures lines[j].classCaptures.value.className in RegisterAll(m, lines)
    ensures RegisterAll(m, lines)[lines[j].classCaptures.value.className]
      == ClassFromLine(lines[j].classCaptures.value, lines[j].inherits)
    decreases |lines|
  {
    if j < |lines| - 1 {
      LastClassLineWins(m, lines[..|lines| - 1], j);
    }
  }

  /** The second pass never touches the name, id, file or parents of a class, and only appends. */
  lemma {:induction false} AttachAllKeeps(m: map<string, ClassInfo>, lines: seq<TagLine>, rules: TypeRules, k: string)
    requires LanguagesGiven(m.Keys, lines) && k in m
    ensures var r := AttachAll(m, lines, rules)[k];
      && r.name == m[k].name && r.id == m[k].id && r.file == m[k].file && r.parents == m[k].parents
      && m[k].members <= r.members && m[k].methods <= r.methods
    decreases |lines|
  {
    if |lines| > 0 {
      var prefix := lines[..|lines| - 1];
      assert LanguagesGiven(m.Keys, prefix) by {
        forall i | 0 <= i < |prefix| && Attaches(m.Keys, prefix[i]) ensures prefix[i].language.Some? {
          assert prefix[i] == lines[i];
        }
      }
      AttachAllKeeps(m, prefix, rules, k);
    }
  }

  /**
   * A method line whose short class name is registered ends up among that
   * class's methods, wherever it stands among the lines.
   */
  lemma {:induction false} AttachedMethodStays(m: map<string, ClassInfo>, lines: seq<TagLine>, rules: TypeRules, i: nat)
    requires LanguagesGiven(m.Keys, lines)
    requires i < |lines| && Attaches(m.Keys, lines[i]) && IsMethodKind(lines[i].available.value.tagType)
    ensures lines[i].language.Some?
    ensures MethodFromLine(rules, lines[i], m[Owner(lines[i])].name)
      in AttachAll(m, lines, rules)[Owner(lines[i])].methods
    decreases |lines|
  {
    var prefix := lines[..|lines| - 1];
    var owner := Owner(lines[i]);
    assert LanguagesGiven(m.Keys, prefix) by {
      forall p | 0 <= p < |prefix| && Attaches(m.Keys, prefix[p]) ensures prefix[p].language.Some? {
        assert prefix[p] == lines[p];
      }
    }
    AttachAllKeeps(m, prefix, rules, owner);
    if i == |lines| - 1 {
      assert AttachAll(m, prefix, rules)[owner].name == m[owner].name;
    } else {
      AttachedMethodStays(m, prefix, rules, i);
      assert prefix[i] == lines[i];
      var before := AttachAll(m, prefix, rules)[owner].methods;
      assert before <= AttachAll(m, lines, rules)[owner].methods;
    }
  }

  /** The same for member lines. */
  lemma {:induction false} AttachedMemberStays(m: map<string, ClassInfo>, lines: seq<TagLine>, rules: TypeRules, i: nat)
    requires LanguagesGiven(m.Keys, lines)
    requires i < |lines| && Attaches(m.Keys, lines[i]) && IsMemberKind(lines[i].available.value.tagType)
    ensures lines[i].language.Some?
    ensures MemberFromLine(rules, lines[i], m[Owner(lines[i])].name)
      in AttachAll(m, lines, rules)[Owner(lines[i])].members
    decreases |lines|
  {
    var prefix := lines[..|lines| - 1];
    var owner := Owner(lines[i]);
    assert LanguagesGiven(m.Keys, prefix) by {
      forall p | 0 <= p < |prefix| && Attaches(m.Keys, prefix[p]) ensures prefix[p].language.Some? {
        assert prefix[p] == lines[p];
      }
    }
    AttachAllKeeps(m, prefix, rules, owner);
    if i == |lines| - 1 {
      assert AttachAll(m, prefix, rules)[owner].name == m[owner].name;
    } else {
      AttachedMemberStays(m, prefix, rules, i);
      assert prefix[i] == lines[i];
    }
  }

  /**
   * `parse_str` attaches a method line to the class named by its qualifier even
   * when the class line comes later in the input.
   */
  lemma MethodBeforeClassAttaches(lines: seq<TagLine>, rules: TypeRules, i: nat, j: nat)
    requires LanguagesGiven(ClassNames(lines), lines)
    requires i < j < |lines| && lines[j].classCaptures.Some?
    requires lines[i].available.Some? && IsMethodKind(lines[i].available.value.tagType)
    requires Owner(lines[i]) == lines[j].classCaptures.value.className != ""
    ensures lines[i].language.Some?
    ensures MethodFromLine(rules, lines[i], Owner(lines[i])) in Parsed(lines, rules)[Owner(lines[i])].methods
  {
    var registered := RegisterAll(map[], lines);
    RegisterAllKeys(map[], lines);
    RegisterAllNames(map[], lines);
    assert lines[j] in lines;
    AttachedMethodStays(registered, lines, rules, i);
  }

  /** The struct line of `should_build_rust_datatype`: `MethodInfo`, with no `struct:` qualifier. */
  function RustStructLine(text: string, signature: string): TagLine {
    TagLine(text, Some(ClassCaptures("MethodInfo", "src/coco_struct.rs")), None,
      Some(AvailableCaptures("MethodInfo", signature, "struct", "21")), None, None, Some("Rust"))
  }

  /** The field line of `should_build_rust_datatype`, qualified `struct:MethodInfo`. */
  function RustFieldLine(text: string, signature: string, access: Option<string>): TagLine {
    TagLine(text, None, None,
      Some(AvailableCaptures("name", signature, "field", "22")), Some("MethodInfo"), access, Some("Rust"))
  }

  /** Neither line of `should_build_rust_datatype` has a dotted qualifier. */
  lemma RustLineOwners(structText: string, structSignature: string,
                       fieldText: string, fieldSignature: string, access: Option<string>)
    ensures Owner(RustStructLine(structText, structSignature)) == ""
    ensures Owner(RustFieldLine(fieldText, fieldSignature, access)) == "MethodInfo"
  {
    SplitFreePrefix("", "", '.');
    SplitFreePrefix("MethodInfo", "", '.');
    assert "MethodInfo" + "" == "MethodInfo";
  }

  /** The first pass over the two lines of `should_build_rust_datatype` registers `MethodInfo` only. */
  lemma RustLinesRegistered(structText: string, structSignature: string,
                            fieldText: string, fieldSignature: string, access: Option<string>)
    ensures var st := RustStructLine(structText, structSignature);
      && ClassNames([st, RustFieldLine(fieldText, fieldSignature, access)]) == {"MethodInfo"}
      && RegisterAll(map[], [st, RustFieldLine(fieldText, fieldSignature, access)])
         == map["MethodInfo" := ClassFromLine(st.classCaptures.value, None)]
  {
    var st := RustStructLine(structText, structSignature);
    var fl := RustFieldLine(fieldText, fieldSignature, access);
    RegisterAllSnoc(map[], [], st);
    RegisterAllSnoc(map[], [st], fl);
    assert [] + [st] == [st] && [st] + [fl] == [st, fl];
    assert ClassNames([st, fl]) == {"MethodInfo"} by {
      assert st in [st, fl] && fl in [st, fl];
    }
  }

  /** A Rust field captured as `pub name` of type `String` gives a public member typed `String`. */
  lemma RustFieldMember(rules: TypeRules, fieldText: string, fieldSignature: string, access: Option<string>, owner: string)
    requires rules.rustField(fieldText) == Some(RustField("pub name", "String"))
    ensures var m := MemberFromLine(rules, RustFieldLine(fieldText, fieldSignature, access), owner);
      m.name == "name" && m.access == "+" && m.dataType == "String"
  {
    assert ParseRustAccess("pub name") == "+";
  }

  /**
   * `should_build_rust_datatype`: the field `pub name: String` of a Rust struct
   * becomes a public member typed `String`, whatever the `access:` field says.
   */
  lemma RustFieldIsPublic(rules: TypeRules, structText: string, structSignature: string,
                          fieldText: string, fieldSignature: string, access: Option<string>)
    requires rules.rustField(fieldText) == Some(RustField("pub name", "String"))
    ensures var lines := [RustStructLine(structText, structSignature), RustFieldLine(fieldText, fieldSignature, access)];
      && LanguagesGiven(ClassNames(lines), lines)
      && Parsed(lines, rules).Keys == {"MethodInfo"}
      && |Parsed(lines, rules)["MethodInfo"].members| == 1
      && Parsed(lines, rules)["MethodInfo"].members[0].name == "name"
      && Parsed(lines, rules)["MethodInfo"].members[0].access == "+"
      && Parsed(lines, rules)["MethodInfo"].members[0].dataType == "String"
  {
    var st := RustStructLine(structText, structSignature);
    var fl := RustFieldLine(fieldText, fieldSignature, access);
    var lines := [st, fl];
    RustLineOwners(structText, structSignature, fieldText, fieldSignature, access);
    RustLinesRegistered(structText, structSignature, fieldText, fieldSignature, access);
    var registered := RegisterAll(map[], lines);
    assert LanguagesGiven(ClassNames(lines), lines);
    assert lines[..1] == [st] && [st][..0] == [];
    assert AttachAll(registered, [st], rules) == registered;
    var c := registered["MethodInfo"];
    assert c.members == [];
    assert Parsed(lines, rules)["MethodInfo"] == Attach(c, fl, rules);
    RustFieldMember(rules, fieldText, fieldSignature, access, c.name);
  }

  // ---------------------------------------------------------------------------
  // Properties of finalisation

  /**
   * A finalised record keeps everything but its members and methods, which come
   * out sorted by lower-case name; without merging they are a permutation of the input.
   */
  lemma FinalizeSorts(c: ClassInfo, merge: bool)
    ensures var f := Finalize(c, merge);
      && f.id == c.id && f.name == c.name && f.package == c.package && f.file == c.file
      && f.lang == c.lang && f.parents == c.parents
      && Sorted(f.members, KeyLe(MemberKey)) && Sorted(f.methods, KeyLe(MethodKey))
      && multiset(f.members) <= multiset(c.members) && multiset(f.methods) <= multiset(c.methods)
      && (!merge ==> multiset(f.members) == multiset(c.members) && multiset(f.methods) == multiset(c.methods))
  {
    var methods := SortBy(c.methods, KeyLe(MethodKey));
    var members := SortBy(c.members, KeyLe(MemberKey));
    KeyLeIsTotalPreorder(MethodKey);
    KeyLeIsTotalPreorder(MemberKey);
    SortBySorted(c.methods, KeyLe(MethodKey));
    SortBySorted(c.members, KeyLe(MemberKey));
    SortByPermutes(c.methods, KeyLe(MethodKey));
    SortByPermutes(c.members, KeyLe(MemberKey));
    DedupBySorted(methods, MethodKey, KeyLe(MethodKey));
    DedupBySorted(members, MemberKey, KeyLe(MemberKey));
    DedupBySubset(methods, MethodKey);
    DedupBySubset(members, MemberKey);
  }

  /** Without merging, methods (members) sharing a lower-case name keep their input order. */
  lemma FinalizeIsStable(c: ClassInfo, k: string)
    ensures WithKey(Finalize(c, false).methods, MethodKey, k) == WithKey(c.methods, MethodKey, k)
    ensures WithKey(Finalize(c, false).members, MemberKey, k) == WithKey(c.members, MemberKey, k)
  {
    SortByKeepsKeyOrder(c.methods, MethodKey, k);
    SortByKeepsKeyOrder(c.members, MemberKey, k);
  }

  /**
   * With `merge_method_name`, of the methods (members) whose names are equal up
   * to ASCII case exactly one is left: the first of them in input order.
   */
  lemma FinalizeMergeKeepsFirst(c: ClassInfo, k: string)
    ensures WithKey(Finalize(c, true).methods, MethodKey, k) == FirstOf(WithKey(c.methods, MethodKey, k))
    ensures WithKey(Finalize(c, true).members, MemberKey, k) == FirstOf(WithKey(c.members, MemberKey, k))
  {
    var methods := SortBy(c.methods, KeyLe(MethodKey));
    var members := SortBy(c.members, KeyLe(MemberKey));
    KeyLeIsTotalPreorder(MethodKey);
    KeyLeIsTotalPreorder(MemberKey);
    SortBySorted(c.methods, KeyLe(MethodKey));
    SortBySorted(c.members, KeyLe(MemberKey));
    SortedIsGrouped(methods, MethodKey);
    SortedIsGrouped(members, MemberKey);
    DedupKeepsFirst(methods, MethodKey, k);
    DedupKeepsFirst(members, MemberKey, k);
    SortByKeepsKeyOrder(c.methods, MethodKey, k);
    SortByKeepsKeyOrder(c.members, MemberKey, k);
  }

  /**
   * Two methods whose names differ at most in case stay two without merging
   * and become the first one with it.
   */
  lemma MergeCollapsesDuplicates(c: ClassInfo)
    requires |c.methods| == 2 && MethodKey(c.methods[0]) == MethodKey(c.methods[1])
    ensures |Finalize(c, false).methods| == 2
    ensures Finalize(c, true).methods == [c.methods[0]]
  {
    var k := MethodKey(c.methods[0]);
    SortByPermutes(c.methods, KeyLe(MethodKey));
    assert WithKey(c.methods, MethodKey, k) == c.methods by {
      WithKeyAll(c.methods, MethodKey, k);
    }
    MergedShareKey(c, k);
    FinalizeMergeKeepsFirst(c, k);
  }

  /** When all methods share one key, so do the merged ones. */
  lemma MergedShareKey(c: ClassInfo, k: string)
    requires forall i :: 0 <= i < |c.methods| ==> MethodKey(c.methods[i]) == k
    ensures WithKey(Finalize(c, true).methods, MethodKey, k) == Finalize(c, true).methods
  {
    var sorted := SortBy(c.methods, KeyLe(MethodKey));
    var merged := DedupBy(sorted, MethodKey);
    assert Finalize(c, true).methods == merged;
    SortByPermutes(c.methods, KeyLe(MethodKey));
    DedupBySubset(sorted, MethodKey);
    forall i | 0 <= i < |merged| ensures MethodKey(merged[i]) == k {
      assert merged[i] in multiset(c.methods);
    }
    WithKeyAll(merged, MethodKey, k);
  }
}
