/**
 * The local-file browser (`Localfiles`): the path guard and name dispatch
 * of `case_get`, the listing of a directory into files and directories,
 * and the first lines or rows of a JSON or CSV file. The directory and the
 * file contents are inputs: `os.listdir` with `os.path.isfile`, and the
 * lines `readline` returns or the rows `csv.DictReader` yields.
 */
module Localfiles {
  import opened Wrappers
  import opened Strings

  /** The exceptions the browser raises. */
  datatype LocalError =
    | InvalidPathContained   // InvalidPathContainedError
    | NotSupportedFileType   // NotSupportedFileTypeError
    | NotSupportedCommand    // NotSupporteCommandError, raised by case_default
    | NoSuchAttribute(name: string)
    | WrongArguments         // case_get itself, reached as "case_" + "get", called with one argument
    | DecodeError            // json.loads on a line that is not JSON

  // ---------------------------------------------------------------------------
  // case_get
  // ---------------------------------------------------------------------------

  /** The handlers `case_get` can reach. */
  datatype Handler = GetList | GetInfo | GetSample | Delete

  function HandlerName(h: Handler): string {
    match h
    case GetList => "case_get_list"
    case GetInfo => "case_get_info"
    case GetSample => "case_get_sample"
    case Delete => "case_delete"
  }

  /** The path guard: no path, or the substring "../" anywhere. */
  predicate Rejected(path: Option<string>) {
    path.None? || Contains(path.value, "../")
  }

  /**
   * `case_get`: the guard first, then the attribute named "case_" + case.
   * `case_default` and `case_get` are attributes too; calling the first
   * raises, calling the second with one argument is a TypeError.
   */
  function CaseGet(command: string, path: Option<string>): (r: Result<Handler, LocalError>)
    ensures Rejected(path) ==> r == Err(InvalidPathContained)
    ensures r.Ok? ==> !Rejected(path) && HandlerName(r.value) == "case_" + command
    ensures !Rejected(path) && r.Err? ==>
      forall h: Handler :: HandlerName(h) != "case_" + command
  {
    if Rejected(path) then Err(InvalidPathContained)
    else
      var name := "case_" + command;
      if name == "case_get_list" then Ok(GetList)
      else if name == "case_get_info" then Ok(GetInfo)
      else if name == "case_get_sample" then Ok(GetSample)
      else if name == "case_delete" then Ok(Delete)
      else if name == "case_default" then Err(NotSupportedCommand)
      else if name == "case_get" then Err(WrongArguments)
      else Err(NoSuchAttribute(name))
  }

  /** `sub` is a prefix of no suffix of `s`. */
  lemma {:induction false} NotContains(s: string, sub: string)
    requires forall i :: 0 <= i <= |s| ==> !StartsWith(s[i..], sub)
    ensures !Contains(s, sub)
    decreases |s|
  {
    assert s[0..] == s;
    if |s| > 0 {
      forall i | 0 <= i <= |s[1..]|
        ensures !StartsWith(s[1..][i..], sub)
      {
        assert s[1..][i..] == s[i + 1..];
      }
      NotContains(s[1..], sub);
    }
  }

  /** What it takes for a string to start with "../". */
  lemma StartsWithParent(t: string)
    ensures StartsWith(t, "../") <==> |t| >= 3 && t[0] == '.' && t[1] == '.' && t[2] == '/'
  {
    if |t| >= 3 {
      assert t[..3][0] == t[0] && t[..3][1] == t[1] && t[..3][2] == t[2];
    }
  }

  /** The guard is a substring test: a trailing "/.." passes, "/../" does not. */
  lemma GuardIsLiteral()
    ensures CaseGet("get_list", Some("/..")) == Ok(GetList)
    ensures CaseGet("get_list", Some("/../etc")) == Err(InvalidPathContained)
  {
    var s := "/..";
    forall i | 0 <= i <= |s| ensures !StartsWith(s[i..], "../") {
      StartsWithParent(s[i..]);
      if i == 0 {
        assert s[i..][0] == '/';
      }
    }
    NotContains(s, "../");
    ContainsAt("/../etc", "../", 1);
    assert "case_" + "get_list" == "case_get_list";
  }

  /** An unknown case is an AttributeError naming the attribute looked up. */
  lemma UnknownCase()
    ensures CaseGet("list", Some("/data")) == Err(NoSuchAttribute("case_list"))
  {
    var s := "/data";
    forall i | 0 <= i <= |s| ensures !StartsWith(s[i..], "../") {
      StartsWithParent(s[i..]);
      if i < |s| {
        assert s[i..][0] == s[i] && s[i] != '.';
      }
    }
    NotContains(s, "../");
    assert "case_" + "list" == "case_list";
  }

  // ---------------------------------------------------------------------------
  // case_get_list
  // ---------------------------------------------------------------------------

  /** One name `os.listdir` returns, and whether `os.path.isfile` holds for it. */
  datatype Entry = Entry(name: string, isFile: bool)

  predicate Hidden(name: string) {
    StartsWith(name, ".")
  }

  /** The first list of `case_get_list`: visible files, in listing order. */
  function Files(entries: seq<Entry>): (r: seq<string>)
    ensures forall n :: n in r <==> exists e :: e in entries && e.name == n && e.isFile && !Hidden(n)
  {
    if entries == [] then []
    else
      assert forall e :: e in entries <==> e == entries[0] || e in entries[1..];
      var e := entries[0];
      (if e.isFile && !Hidden(e.name) then [e.name] else []) + Files(entries[1..])
  }

  /** The second list of `case_get_list`: visible non-files, in listing order. */
  function Dirs(entries: seq<Entry>): (r: seq<string>)
    ensures forall n :: n in r <==> exists e :: e in entries && e.name == n && !e.isFile && !Hidden(n)
  {
    if entries == [] then []
    else
      assert forall e :: e in entries <==> e == entries[0] || e in entries[1..];
      var e := entries[0];
      (if !e.isFile && !Hidden(e.name) then [e.name] else []) + Dirs(entries[1..])
  }

  /** `case_get_list`: the visible files and the visible directories. */
  function CaseGetList(entries: seq<Entry>): (seq<string>, seq<string>) {
    (Files(entries), Dirs(entries))
  }

  /**
   * The listing partitions the visible entries: each lands in the list its
   * kind says, and a hidden name lands in neither.
   */
  lemma ListingPartitions(entries: seq<Entry>)
    ensures forall e :: e in entries && !Hidden(e.name) ==>
      (e.isFile ==> e.name in CaseGetList(entries).0) && (!e.isFile ==> e.name in CaseGetList(entries).1)
    ensures forall n :: Hidden(n) ==> n !in CaseGetList(entries).0 && n !in CaseGetList(entries).1
    ensures |Files(entries)| + |Dirs(entries)| <= |entries|
  {
    FilesAndDirsCount(entries);
  }

  lemma {:induction false} FilesAndDirsCount(entries: seq<Entry>)
    ensures |Files(entries)| + |Dirs(entries)| <= |entries|
  {
    if entries != [] {
      FilesAndDirsCount(entries[1..]);
    }
  }

  // ---------------------------------------------------------------------------
  // case_get_sample
  // ---------------------------------------------------------------------------

  /** A sample: a parsed JSON line, or a CSV row as its (header, value) pairs. */
  datatype Sample<J> = JsonLine(value: J) | CsvRow(fields: seq<(string, string)>)

  /**
   * What `readline` returns on its k-th call: the k-th line (with its line
   * break, so a blank line is not empty), or "" at end of file.
   */
  function ReadLine(lines: seq<string>, k: nat): string {
    if k < |lines| then lines[k] else ""
  }

  /** Prepend samples already taken to the outcome of the rest of the file. */
  function Prepend<J>(taken: seq<Sample<J>>, rest: Result<seq<Sample<J>>, LocalError>): Result<seq<Sample<J>>, LocalError> {
    match rest
    case Ok(s) => Ok(taken + s)
    case Err(e) => Err(e)
  }

  lemma PrependEmpty<J>(r: Result<seq<Sample<J>>, LocalError>)
    ensures Prepend([], r) == r
  {
    if r.Ok? {
      assert [] + r.value == r.value;
    }
  }

  lemma PrependAssoc<J>(a: seq<Sample<J>>, b: seq<Sample<J>>, r: Result<seq<Sample<J>>, LocalError>)
    ensures Prepend(a, Prepend(b, r)) == Prepend(a + b, r)
  {
    if r.Ok? {
      assert a + (b + r.value) == a + b + r.value;
    }
  }

  /**
   * The JSON samples: with `budget` samples left, read a line; stop at the
   * end of the budget or of the file, and raise on a line that is not JSON.
   */
  function JsonSamples<J>(lines: seq<string>, parse: string -> Option<J>, budget: nat): Result<seq<Sample<J>>, LocalError>
    decreases |lines|
  {
    if budget == 0 || lines == [] || lines[0] == "" then Ok([])
    else
      match parse(lines[0])
      case None => Err(DecodeError)
      case Some(j) => Prepend([JsonLine(j)], JsonSamples(lines[1..], parse, budget - 1))
  }

  /**
   * At most `budget` samples, the parsed first lines in file order, and the
   * reading stops only at the budget or at the end of the file.
   */
  lemma {:induction false} JsonSamplesShape<J>(lines: seq<string>, parse: string -> Option<J>, budget: nat)
    requires JsonSamples(lines, parse, budget).Ok?
    ensures var s := JsonSamples(lines, parse, budget).value;
      |s| <= budget && |s| <= |lines|
      && (forall i :: 0 <= i < |s| ==> lines[i] != "" && parse(lines[i]).Some? && s[i] == JsonLine(parse(lines[i]).value))
      && (|s| == budget || |s| == |lines| || lines[|s|] == "")
    decreases |lines|
  {
    if !(budget == 0 || lines == [] || lines[0] == "") {
      JsonSamplesShape(lines[1..], parse, budget - 1);
      var rest := JsonSamples(lines[1..], parse, budget - 1).value;
      forall i | 1 <= i < 1 + |rest| ensures lines[i] == lines[1..][i - 1] {
      }
    }
  }

  /** The CSV samples: a row per remaining budget, stopping at an empty row. */
  function CsvSamples<J>(rows: seq<seq<(string, string)>>, budget: nat): seq<Sample<J>>
    decreases |rows|
  {
    if budget == 0 || rows == [] || rows[0] == [] then []
    else [CsvRow(rows[0])] + CsvSamples(rows[1..], budget - 1)
  }

  /** At most `budget` rows, the first rows of the file in order. */
  lemma {:induction false} CsvSamplesShape<J>(rows: seq<seq<(string, string)>>, budget: nat)
    ensures var s := CsvSamples<J>(rows, budget);
      |s| <= budget && |s| <= |rows|
      && (forall i :: 0 <= i < |s| ==> s[i] == CsvRow(rows[i]))
      && (|s| == budget || |s| == |rows| || rows[|s|] == [])
    decreases |rows|
  {
    if !(budget == 0 || rows == [] || rows[0] == []) {
      CsvSamplesShape<J>(rows[1..], budget - 1);
    }
  }

  class Localfiles {
    const sampleNum: nat

    constructor ()
      ensures sampleNum == 5
    {
      sampleNum := 5;
    }

    /**
     * `case_get_sample`: only ".json" and ".csv" files; a JSON file is
     * read line by line, a CSV file row by row, `sampleNum` at most.
     */
    method CaseGetSample<J>(path: string, lines: seq<string>, rows: seq<seq<(string, string)>>,
                            parse: string -> Option<J>) returns (r: Result<seq<Sample<J>>, LocalError>)
      ensures !(EndsWith(path, ".json") || EndsWith(path, ".csv")) ==> r == Err(NotSupportedFileType)
      ensures EndsWith(path, ".json") ==> r == JsonSamples(lines, parse, sampleNum)
      ensures !EndsWith(path, ".json") && EndsWith(path, ".csv") ==> r == Ok(CsvSamples(rows, sampleNum))
    {
      if !(EndsWith(path, ".json") || EndsWith(path, ".csv")) {
        return Err(NotSupportedFileType);
      }
      var limit: int := sampleNum;
      var samples: seq<Sample<J>> := [];
      if EndsWith(path, ".json") {
        var k := 0;
        assert lines[0..] == lines;
        PrependEmpty(JsonSamples(lines, parse, sampleNum));
        while true
          invariant 0 <= limit && limit + k == sampleNum && k <= |lines|
          invariant Prepend(samples, JsonSamples(lines[k..], parse, limit)) == JsonSamples(lines, parse, sampleNum)
          decreases limit
        {
          limit := limit - 1;
          var line := ReadLine(lines, k);
          if limit < 0 || line == "" {
            assert samples + [] == samples;
            break;
          }
          assert lines[k..][0] == line && lines[k..][1..] == lines[k + 1..];
          var loaded := parse(line);
          if loaded.None? {
            return Err(DecodeError);
          }
          PrependAssoc(samples, [JsonLine(loaded.value)], JsonSamples(lines[k + 1..], parse, limit));
          samples := samples + [JsonLine(loaded.value)];
          k := k + 1;
        }
      } else {
        var i := 0;
        assert rows[0..] == rows;
        while i < |rows|
          invariant 0 <= i <= |rows|
          invariant 0 <= limit && limit + i == sampleNum
          invariant samples + CsvSamples(rows[i..], limit) == CsvSamples(rows, sampleNum)
        {
          limit := limit - 1;
          if limit < 0 || rows[i] == [] {
            assert samples + [] == samples;
            break;
          }
          assert rows[i..][0] == rows[i] && rows[i..][1..] == rows[i + 1..];
          assert samples + [CsvRow(rows[i])] + CsvSamples(rows[i + 1..], limit)
              == samples + ([CsvRow(rows[i])] + CsvSamples(rows[i + 1..], limit));
          samples := samples + [CsvRow(rows[i])];
          i := i + 1;
        }
        assert samples + [] == samples;
      }
      return Ok(samples);
    }
  }
}
