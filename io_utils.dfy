/** app/utils/io_utils.py: reading the non-blank lines of a text file, and
    the value conversion applied before a dictionary is dumped to YAML. */
module IoUtils {
  import opened Common
  import opened Text
  import opened Options

  /** The exceptions reading a text file raises: `FileNotFoundError` from
      the existence check, `IsADirectoryError` from opening a directory. */
  datatype IoError = FileNotFound(path: string) | IsADirectory(path: string)

  /** `Path(text)`: the empty text names the current directory `.`. */
  function PathOf(text: string): (p: string)
    ensures p != []
    ensures text != [] ==> p == text
  {
    if text == [] then "." else text
  }

  /** What `Path(text)` names on disk, if it exists. */
  function NodeAt(files: Files, text: string): (n: Option<Node>)
    ensures PathOf(text) == "." ==> n == Some(Directory)
    ensures PathOf(text) != "." ==> (n.Some? <==> PathOf(text) in files)
  {
    var p := PathOf(text);
    if p == "." then Some(Directory) else if p in files then Some(files[p]) else None
  }

  /** `Path(text).exists()` */
  predicate Exists(files: Files, text: string) {
    NodeAt(files, text).Some?
  }

  /** What one line contributes to `[line.strip() for line in f if line.strip()]`. */
  function KeepLine(line: string): Option<string> {
    if NonBlank(line) then Some(Strip(line)) else None
  }

  function KeptLines(lines: seq<string>): (kept: seq<Option<string>>)
    ensures |kept| == |lines| && forall i :: 0 <= i < |lines| ==> kept[i] == KeepLine(lines[i])
  {
    seq(|lines|, i requires 0 <= i < |lines| => KeepLine(lines[i]))
  }

  /** The stripped non-blank lines, in file order. */
  function StrippedNonBlank(lines: seq<string>): seq<string> {
    Present(KeptLines(lines))
  }

  /** A line that is non-empty and neither starts nor ends with whitespace. */
  predicate Clean(x: string) {
    x != [] && !IsSpace(x[0]) && !IsSpace(x[|x| - 1])
  }

  /** `load_lines_from_file`: a missing path raises `FileNotFoundError`, a
      directory raises `IsADirectoryError` when opened; otherwise the
      stripped non-blank lines of the file. */
  function LoadLinesFromFile(files: Files, path: string): (r: Result<seq<string>, IoError>)
    ensures r.Ok? <==> Exists(files, path) && NodeAt(files, path).value.TextFile?
    ensures !Exists(files, path) ==> r == Err(FileNotFound(path))
    ensures Exists(files, path) && NodeAt(files, path).value.Directory? ==> r == Err(IsADirectory(PathOf(path)))
    ensures r.Ok? ==> r.value == StrippedNonBlank(NodeAt(files, path).value.lines)
  {
    match NodeAt(files, path)
    case None => Err(FileNotFound(path))
    case Some(Directory) => Err(IsADirectory(PathOf(path)))
    case Some(TextFile(lines)) => Ok(StrippedNonBlank(lines))
  }

  /** The empty path is `.`, which exists and is a directory: reading it
      always raises `IsADirectoryError`, never `FileNotFoundError`. */
  lemma EmptyPathIsDirectory(files: Files)
    ensures Exists(files, "")
    ensures LoadLinesFromFile(files, "") == Err(IsADirectory("."))
  {
  }

  /** No returned line is empty or has leading or trailing whitespace. */
  lemma StrippedNonBlankClean(lines: seq<string>)
    ensures forall x :: x in StrippedNonBlank(lines) ==> Clean(x)
  {
    var kept := KeptLines(lines);
    forall x | x in StrippedNonBlank(lines) ensures Clean(x) {
      PresentMember(kept, x);
      var i :| 0 <= i < |kept| && kept[i] == Some(x);
      assert NonBlank(lines[i]);
    }
  }

  /** Exactly the non-blank lines are kept, each stripped, in file order: line
      `i` lands at its rank, and a later line lands later. */
  lemma StrippedNonBlankExact(lines: seq<string>, i: nat, j: nat)
    requires i < j < |lines| && NonBlank(lines[i])
    ensures var r := StrippedNonBlank(lines); var kept := KeptLines(lines);
            Rank(kept, i) < |r| && r[Rank(kept, i)] == Strip(lines[i])
            && (NonBlank(lines[j]) ==> Rank(kept, i) < Rank(kept, j) < |r|)
  {
    PresentOrder(KeptLines(lines), i, j);
  }

  /** One returned line per non-blank input line. */
  lemma StrippedNonBlankCount(lines: seq<string>)
    ensures |StrippedNonBlank(lines)| == |set i | 0 <= i < |lines| && NonBlank(lines[i])|
  {
    var kept := KeptLines(lines);
    PresentCount(kept);
    assert (set i | 0 <= i < |kept| && kept[i].Some?) == (set i | 0 <= i < |lines| && NonBlank(lines[i]));
  }

  /** Lines that are already clean come back unchanged. */
  lemma {:induction false} CleanLinesUnchanged(lines: seq<string>)
    requires forall x :: x in lines ==> Clean(x)
    ensures StrippedNonBlank(lines) == lines
    decreases |lines|
  {
    if lines != [] {
      var n := |lines| - 1;
      var init := lines[..n];
      assert forall x :: x in init ==> x in lines;
      CleanLinesUnchanged(init);
      assert Clean(lines[n]) by { assert lines[n] in lines; }
      CleanLastKept(lines);
      assert init + [lines[n]] == lines;
    }
  }

  /** A clean last line is kept as it is, after the lines before it. */
  lemma CleanLastKept(lines: seq<string>)
    requires lines != [] && Clean(lines[|lines| - 1])
    ensures StrippedNonBlank(lines) == StrippedNonBlank(lines[..|lines| - 1]) + [lines[|lines| - 1]]
  {
    var n := |lines| - 1;
    var kept := KeptLines(lines);
    assert kept[..n] == KeptLines(lines[..n]);
    StripUnchanged(lines[n]);
    assert kept[n] == Some(lines[n]);
  }

  /** Filtering twice is filtering once. */
  lemma StrippedNonBlankIdempotent(lines: seq<string>)
    ensures StrippedNonBlank(StrippedNonBlank(lines)) == StrippedNonBlank(lines)
  {
    StrippedNonBlankClean(lines);
    CleanLinesUnchanged(StrippedNonBlank(lines));
  }

  // ----- save_dict_to_yaml -----

  /** The values a configuration dictionary holds. */
  datatype Value =
    | PathValue(path: string)
    | StringValue(text: string)
    | IntValue(i: int)
    | BoolValue(b: bool)
    | NoneValue
    | ListValue(items: seq<Value>)

  /** `str(v) if isinstance(v, Path) else v`; a path's text is its `str`. */
  function Serializable(v: Value): Value {
    if v.PathValue? then StringValue(v.path) else v
  }

  /** The dictionary comprehension applied before dumping: every key kept in
      order, top-level paths turned into strings. */
  function SerializableData(data: seq<(string, Value)>): (r: seq<(string, Value)>)
    ensures |r| == |data|
  {
    seq(|data|, i requires 0 <= i < |data| => (data[i].0, Serializable(data[i].1)))
  }

  /** Every key is kept, in order; a path value becomes the string of its
      path; every other value is unchanged; no top-level path remains. */
  lemma SerializableDataSpec(data: seq<(string, Value)>)
    ensures var r := SerializableData(data);
            && (forall i :: 0 <= i < |data| ==> r[i].0 == data[i].0)
            && (forall i :: 0 <= i < |data| && data[i].1.PathValue? ==> r[i].1 == StringValue(data[i].1.path))
            && (forall i :: 0 <= i < |data| && !data[i].1.PathValue? ==> r[i].1 == data[i].1)
            && (forall i :: 0 <= i < |r| ==> !r[i].1.PathValue?)
  {
  }

  /** Converting a converted dictionary changes nothing. */
  lemma SerializableDataIdempotent(data: seq<(string, Value)>)
    ensures SerializableData(SerializableData(data)) == SerializableData(data)
  {
  }
}
