/**
 * The file filter that decides which source files are parsed: a grep
 * pattern on the displayed path, or else a package test on the path's
 * components, or else a substring test on the file name.
 */
module FileFilter {
  import opened Wrappers
  import opened Strings

  /** One component of a `PathBuf`, as `path.iter()` yields it. */
  datatype Component = RootDir | CurDir | ParentDir | Normal(name: string)

  /** A path, already split into its components. */
  datatype Path = Path(components: seq<Component>)

  /** The text `path.iter()` gives for a component. */
  function Text(c: Component): string {
    match c
    case RootDir => "/"
    case CurDir => "."
    case ParentDir => ".."
    case Normal(name) => name
  }

  /** `Path::file_name`: the last component when it is a plain name, and nothing otherwise. */
  function FileName(path: Path): (r: Option<string>)
    ensures r.Some? <==> |path.components| > 0 && path.components[|path.components| - 1].Normal?
  {
    if |path.components| > 0 && path.components[|path.components| - 1].Normal? then
      Some(path.components[|path.components| - 1].name)
    else None
  }

  /** What the foreign grep gives for the filter's pattern and the displayed path. */
  datatype GrepOutcome = InvalidPattern | Searched(hasMatch: bool)

  datatype Filter = Filter(grep: string, packages: seq<string>, suffixes: seq<string>)

  /** `FileFilter::default`: no pattern, no packages, no suffixes. */
  function DefaultFilter(): (f: Filter)
    ensures f.grep == "" && f.packages == [] && f.suffixes == []
  {
    Filter("", [], [])
  }

  /** `FileFilter::new`: note that the pattern comes last among the arguments. */
  function NewFilter(packages: seq<string>, suffixes: seq<string>, grep: string): (f: Filter)
    ensures f.grep == grep && f.packages == packages && f.suffixes == suffixes
  {
    Filter(grep, packages, suffixes)
  }

  /** Some component of the path is exactly one of the packages. */
  predicate InPackages(path: Path, packages: seq<string>) {
    exists i :: 0 <= i < |path.components| && Text(path.components[i]) in packages
  }

  /** The path has a file name, and it contains one of the suffixes somewhere. */
  predicate NameHasSuffix(path: Path, suffixes: seq<string>) {
    FileName(path).Some? && exists j :: 0 <= j < |suffixes| && Contains(FileName(path).value, suffixes[j])
  }

  /** `filter_by_packages`: true for no packages, else whether a component is one of them. */
  method FilterByPackages(path: Path, packages: seq<string>) returns (r: bool)
    ensures r <==> |packages| == 0 || InPackages(path, packages)
  {
    if |packages| == 0 {
      return true;
    }

    var includePackage := false;
    for i := 0 to |path.components|
      invariant includePackage <==> exists k :: 0 <= k < i && Text(path.components[k]) in packages
    {
      var sub := Text(path.components[i]);
      if sub in packages {
        includePackage := true;
      }
    }
    return includePackage;
  }

  /** `filter_by_suffix`: true for no suffixes, false without a file name, else whether the name contains a suffix. */
  method FilterBySuffix(path: Path, suffixes: seq<string>) returns (r: bool)
    ensures r <==> |suffixes| == 0 || NameHasSuffix(path, suffixes)
  {
    if |suffixes| == 0 {
      return true;
    }

    var name := FileName(path);
    if name.None? {
      return false;
    }

    var fileName := name.value;
    for j := 0 to |suffixes|
      invariant forall k :: 0 <= k < j ==> !Contains(fileName, suffixes[k])
    {
      if Contains(fileName, suffixes[j]) {
        return true;
      }
    }
    return false;
  }

  /** `FileFilter::allow`, with the grep search given as its outcome. */
  method Allow(filter: Filter, path: Path, grep: GrepOutcome) returns (r: bool)
    ensures |filter.grep| > 0 ==> (r <==> grep == Searched(true))
    ensures |filter.grep| == 0 && |filter.packages| == 0 && |filter.suffixes| == 0 ==> r
    ensures |filter.grep| == 0 && |filter.packages| > 0 ==> (r <==> InPackages(path, filter.packages))
    ensures |filter.grep| == 0 && |filter.packages| == 0 && |filter.suffixes| > 0 ==> (r <==> NameHasSuffix(path, filter.suffixes))
  {
    if |filter.grep| > 0 {
      match grep
      case Searched(hasMatch) => return hasMatch;
      case InvalidPattern => return false;
    }

    if |filter.packages| == 0 && |filter.suffixes| == 0 {
      return true;
    }

    if |filter.packages| > 0 {
      r := FilterByPackages(path, filter.packages);
      return;
    }

    if |filter.suffixes| > 0 {
      r := FilterBySuffix(path, filter.suffixes);
      return;
    }

    return false;
  }

  // ---------------------------------------------------------------------------
  // Properties

  /** `model/CustomModel.java`. */
  function ModelPath(): Path {
    Path([Normal("model"), Normal("CustomModel.java")])
  }

  /** `CustomModel.java` contains `Model`, so the suffix `Model` accepts it. */
  lemma SuffixAcceptsModel()
    ensures NameHasSuffix(ModelPath(), ["Model"])
  {
    var name := "CustomModel.java";
    assert FileName(ModelPath()) == Some(name);
    assert name[6..11] == "Model";
    assert MatchAt(name, ["Model"][0], 6);
  }

  /** `CustomController.java` has no `M`, so it cannot contain `Model`. */
  lemma SuffixRejectsController()
    ensures !NameHasSuffix(Path([Normal("controller"), Normal("CustomController.java")]), ["Model"])
  {
    var path := Path([Normal("controller"), Normal("CustomController.java")]);
    var name := "CustomController.java";
    assert FileName(path) == Some(name);
    assert forall i :: 0 <= i < |name| ==> name[i] != 'M';
    forall i | 0 <= i <= |name| ensures !MatchAt(name, "Model", i) {
      if i + 5 <= |name| {
        assert name[i..i + 5][0] == name[i] != "Model"[0];
      }
    }
  }

  /** A path is in package `model` when a component is exactly `model`, and not in `controller`. */
  lemma PackageIsAComponent()
    ensures InPackages(ModelPath(), ["model"])
    ensures !InPackages(ModelPath(), ["controller"])
  {
    assert Text(ModelPath().components[0]) == "model";
    assert Text(ModelPath().components[1]) == "CustomModel.java";
  }

  /** A package name is matched against whole components, not against parts of the file name. */
  lemma PackageIsNotASubstring()
    ensures !InPackages(ModelPath(), ["Model"])
  {
    assert Text(ModelPath().components[0]) == "model";
    assert Text(ModelPath().components[1]) == "CustomModel.java";
    assert "model" != "Model";
    assert |"CustomModel.java"| != |"Model"|;
  }

  /** A path ending in `..` has no file name, so a suffix filter rejects it whatever the suffixes. */
  lemma NoFileNameNoSuffix(path: Path, suffixes: seq<string>)
    requires |path.components| > 0 && path.components[|path.components| - 1] == ParentDir
    ensures !NameHasSuffix(path, suffixes)
  {
  }
}
