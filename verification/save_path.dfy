/**
 * Where the record is saved at the end of a session. `save_to` is either the
 * flag False (no file), another boolean, or a path; a path that is an
 * existing directory gets a file named after the start time inside it, any
 * other path is the file itself. Paths are sequences of components, the
 * last one being the name; whether a path is a directory is a question to
 * the file system, so it is a parameter here.
 */
module SavePath {
  import opened Registers

  type Path = seq<string>

  /** The `save_to` argument: a boolean flag or a path. */
  datatype SaveTo = Flag(b: bool) | PathArg(path: Path)

  /**
   * What the saving step does: create `makeDir` (exist_ok), then write the
   * CSV to `file`, with the frame's index as a first column or without it.
   */
  datatype Destination = Destination(makeDir: Path, file: Path, writeIndex: bool)

  /** The last component of a path, or "" for a path without components. */
  function Name(p: Path): string {
    if p == [] then "" else p[|p| - 1]
  }

  /** The path without its last component; a path without components is its own parent. */
  function Parent(p: Path): Path {
    if p == [] then [] else p[..|p| - 1]
  }

  /** `s.rfind(c)`: the index of the last `c` in `s`, or -1. */
  function RFind(s: string, c: char): (i: int)
    ensures -1 <= i < |s|
    ensures i >= 0 ==> s[i] == c && forall k :: i < k < |s| ==> s[k] != c
    ensures i == -1 ==> c !in s
    decreases |s|
  {
    if s == [] then -1
    else if s[|s| - 1] == c then |s| - 1
    else RFind(s[..|s| - 1], c)
  }

  /** The `suffix` of a path name: from its last dot, unless that dot is first or last. */
  function Suffix(name: string): (s: string)
    ensures |s| <= |name| && s == name[|name| - |s|..]
    ensures s == [] || (|s| >= 2 && s[0] == '.' && '.' !in s[1..])
  {
    var i := RFind(name, '.');
    if 0 < i < |name| - 1 then name[i..] else ""
  }

  /** `with_suffix(suffix)` on a path whose suffix argument is well formed: replace or add the suffix of the name. */
  function WithSuffix(p: Path, suffix: string): Result<Path> {
    var name := Name(p);
    if name == "" then Err(ValueError)
    else Ok(Parent(p) + [name[..|name| - |Suffix(name)|] + suffix])
  }

  /** A name with no dot has no suffix, so `with_suffix` appends. */
  lemma WithSuffixNoDot(p: Path, name: string, suffix: string)
    requires name != "" && '.' !in name
    ensures WithSuffix(p + [name], suffix) == Ok(p + [name + suffix])
  {
    assert Name(p + [name]) == name && Parent(p + [name]) == p;
    assert Suffix(name) == "";
    assert name[..|name|] == name;
  }

  /**
   * `with_suffix` keeps the parent, the new name carries exactly the given
   * suffix (a dot followed by at least one character that is not a dot), and
   * an empty name is refused.
   */
  lemma WithSuffixSuffix(p: Path, suffix: string)
    requires |suffix| >= 2 && suffix[0] == '.' && '.' !in suffix[1..]
    ensures WithSuffix(p, suffix).Err? <==> Name(p) == ""
    ensures WithSuffix(p, suffix).Ok? ==>
              var q := WithSuffix(p, suffix).value;
              Parent(q) == Parent(p) && Suffix(Name(q)) == suffix
  {
    var name := Name(p);
    if name != "" {
      var oldSuffix := Suffix(name);
      var stem := name[..|name| - |oldSuffix|];
      assert |stem| > 0;
      var q := Parent(p) + [stem + suffix];
      assert Parent(q) == Parent(p);
      var n := stem + suffix;
      assert n[|stem|] == '.';
      forall k | |stem| < k < |n|
        ensures n[k] != '.'
      {
        assert n[k] == suffix[1..][k - |stem| - 1];
      }
      assert RFind(n, '.') == |stem|;
      assert n[|stem|..] == suffix;
    }
  }

  /**
   * The saving step of the live-plotting logger: nothing for False; inside
   * a directory, the start time plus ".csv"; otherwise the path itself after
   * creating its parent. Neither writes the index. Any other boolean has no
   * `is_dir`.
   */
  function LiveDestination(saveTo: SaveTo, isDir: bool, startTime: string): (r: Result<Option<Destination>>)
    ensures saveTo == Flag(false) <==> r == Ok(None)
    ensures saveTo == Flag(true) <==> r.Err?
    ensures r.Ok? && r.value.Some? ==>
              var d := r.value.value;
              !d.writeIndex && Parent(d.file) == d.makeDir &&
              (if isDir then d.file == saveTo.path + [startTime + ".csv"] else d.file == saveTo.path)
  {
    match saveTo
    case Flag(b) => if b then Err(AttributeError("is_dir")) else Ok(None)
    case PathArg(path) =>
      if isDir then
        assert Parent(path + [startTime + ".csv"]) == path;
        Ok(Some(Destination(path, path + [startTime + ".csv"], false)))
      else Ok(Some(Destination(Parent(path), path, false)))
  }

  /** `p / segment`: pathlib drops an empty segment, so joining "" gives the path itself. */
  function Join(p: Path, segment: string): (q: Path)
    ensures segment == "" ==> q == p
    ensures segment != "" ==> Parent(q) == p && Name(q) == segment
  {
    if segment == "" then p else p + [segment]
  }

  /**
   * The saving step of the fixed-count logger: the same choice, but the file
   * for a directory is `(path / start time).with_suffix(".csv")` and is
   * written with the index. With an empty start time the join adds nothing,
   * so the file is the directory's own name with ".csv", beside it.
   */
  function LoggerDestination(saveTo: SaveTo, isDir: bool, startTime: string): (r: Result<Option<Destination>>)
    ensures saveTo == Flag(false) <==> r == Ok(None)
    ensures r.Err? <==> saveTo == Flag(true) || (saveTo.PathArg? && isDir && startTime == "" && Name(saveTo.path) == "")
    ensures r.Ok? && r.value.Some? ==>
              var d := r.value.value;
              && d.writeIndex == isDir
              && (isDir ==> d.makeDir == saveTo.path)
              && (!isDir ==> d.file == saveTo.path && d.makeDir == Parent(saveTo.path))
              && (isDir && startTime != "" ==> Parent(d.file) == saveTo.path)
              && (isDir && startTime == "" ==> Parent(d.file) == Parent(saveTo.path))
  {
    match saveTo
    case Flag(b) => if b then Err(AttributeError("is_dir")) else Ok(None)
    case PathArg(path) =>
      if isDir then
        match WithSuffix(Join(path, startTime), ".csv")
        case Err(e) => Err(e)
        case Ok(file) => Ok(Some(Destination(path, file, true)))
      else Ok(Some(Destination(Parent(path), path, false)))
  }

  /** A directory `d` and an empty start time: the file is `d.csv` next to `d`, and nothing fails. */
  lemma LoggerDestinationEmptyStartTime()
    ensures LoggerDestination(PathArg(["data", "d"]), true, "") ==
            Ok(Some(Destination(["data", "d"], ["data", "d.csv"], true)))
  {
    assert Join(["data", "d"], "") == ["data"] + ["d"];
    WithSuffixNoDot(["data"], "d", ".csv");
    assert "d" + ".csv" == "d.csv";
    assert ["data"] + ["d.csv"] == ["data", "d.csv"];
    assert WithSuffix(Join(["data", "d"], ""), ".csv") == Ok(["data", "d.csv"]);
  }

  /**
   * For a start time formatted without a dot (as "%Y_%m_%d_%H_%M_%S" always
   * is), both loggers save to the same file; they differ only in whether the
   * index is written, and only for a directory.
   */
  lemma DestinationsAgree(saveTo: SaveTo, isDir: bool, startTime: string)
    requires startTime != "" && '.' !in startTime
    ensures LoggerDestination(saveTo, isDir, startTime).Ok? <==> LiveDestination(saveTo, isDir, startTime).Ok?
    ensures LoggerDestination(saveTo, isDir, startTime).Ok? ==>
              var a := LoggerDestination(saveTo, isDir, startTime).value;
              var b := LiveDestination(saveTo, isDir, startTime).value;
              a.Some? == b.Some? &&
              (a.Some? ==> a.value.file == b.value.file && a.value.makeDir == b.value.makeDir &&
                           a.value.writeIndex == isDir && !b.value.writeIndex)
  {
    if saveTo.PathArg? && isDir {
      WithSuffixNoDot(saveTo.path, startTime, ".csv");
    }
  }
}
