/** The single-file entry point of the Objective-C scanner: it checks that the
    path names a regular file, scans it into a fresh index and insists that
    the index then holds exactly one source file. The parser is not
    modelled; what it registers in the index for the file is an input. */
module SingleFileScan {

  /** The kinds of source entity the index can be queried for. */
  datatype Kind = ProjectKind | FileKind | UnitKind

  /** An entity of the measured hierarchy: its kind and its key. */
  datatype SourceCode = SourceCode(kind: Kind, key: string)

  /** The two failures of scanSingleFile: an argument that is not a regular
      file, and an index that holds other than one source file. */
  datatype ScanError = IllegalArgument(file: string) | IllegalState(found: nat)

  datatype Result<T> = Ok(value: T) | Err(error: ScanError)

  /** The project entity every scan session starts from. */
  const ProjectName := "Objective-C Project"
  const Project := SourceCode(ProjectKind, ProjectName)

  /** Every entry of an index is stored under its own key. */
  predicate KeyedByKey(m: map<string, SourceCode>) {
    forall k :: k in m ==> m[k].key == k
  }

  /** The keys of a list of entities. */
  function KeysOf(s: seq<SourceCode>): set<string> {
    set i | 0 <= i < |s| :: s[i].key
  }

  /** No entity after position `i` of `s` has the key of `s[i]`. */
  predicate LastWithKey(s: seq<SourceCode>, i: int)
    requires 0 <= i < |s|
  {
    forall j :: i < j < |s| ==> s[j].key != s[i].key
  }

  lemma KeysOfCons(s: seq<SourceCode>)
    requires s != []
    ensures KeysOf(s) == {s[0].key} + KeysOf(s[1..])
  {
    forall k | k in KeysOf(s) ensures k in {s[0].key} + KeysOf(s[1..]) {
      var i :| 0 <= i < |s| && s[i].key == k;
      if i > 0 { assert s[1..][i - 1] == s[i]; }
    }
    forall k | k in KeysOf(s[1..]) ensures k in KeysOf(s) {
      var i :| 0 <= i < |s[1..]| && s[1..][i].key == k;
      assert s[i + 1] == s[1..][i];
    }
  }

  lemma LastWithKeyHead(s: seq<SourceCode>)
    requires s != [] && LastWithKey(s, 0)
    ensures s[0].key !in KeysOf(s[1..])
  {
    forall j | 0 <= j < |s[1..]| ensures s[1..][j].key != s[0].key {
      assert s[1..][j] == s[j + 1];
    }
  }

  lemma LastWithKeyTail(s: seq<SourceCode>, i: int)
    requires 0 < i < |s| && LastWithKey(s, i)
    ensures s[1..][i - 1] == s[i] && LastWithKey(s[1..], i - 1)
  {
    forall j | i - 1 < j < |s[1..]| ensures s[1..][j].key != s[1..][i - 1].key {
      assert s[1..][j] == s[j + 1];
    }
  }

  /** Indexes the entities of `s` in order, each under its key; an entity
      replaces whatever was stored under the same key before it, so each key
      ends up holding the last entity of `s` registered under it. */
  function Put(m: map<string, SourceCode>, s: seq<SourceCode>): (r: map<string, SourceCode>)
    ensures r.Keys == m.Keys + KeysOf(s)
    ensures KeyedByKey(m) ==> KeyedByKey(r)
    ensures forall k :: k in m && k !in KeysOf(s) ==> r[k] == m[k]
    ensures forall k :: k in KeysOf(s) ==> r[k] in s
    ensures forall i :: 0 <= i < |s| && LastWithKey(s, i) ==> r[s[i].key] == s[i]
    decreases |s|
  {
    if s == [] then m
    else
      var r := Put(m[s[0].key := s[0]], s[1..]);
      KeysOfCons(s);
      assert forall i :: 0 <= i < |s| && LastWithKey(s, i) ==> r[s[i].key] == s[i] by {
        forall i | 0 <= i < |s| && LastWithKey(s, i) ensures r[s[i].key] == s[i] {
          if i == 0 { LastWithKeyHead(s); } else { LastWithKeyTail(s, i); }
        }
      }
      r
  }

  /** search(new QueryByType(kind)): the indexed entities of that kind, each
      the one stored under its own key. */
  function Query(m: map<string, SourceCode>, kind: Kind): (r: set<SourceCode>)
    ensures forall e :: e in r <==> e in m.Values && e.kind == kind
    ensures KeyedByKey(m) ==> forall e :: e in r ==> e.key in m && m[e.key] == e
  {
    set k | k in m && m[k].kind == kind :: m[k]
  }

  /** The index a scan session starts with. */
  function Root(): (r: map<string, SourceCode>)
    ensures KeyedByKey(r) && r.Keys == {ProjectName} && Query(r, FileKind) == {}
  {
    map[ProjectName := Project]
  }

  /** The index of a scan session: the entities registered so far, by key. */
  class SourceIndex {
    var entities: map<string, SourceCode>

    constructor (project: SourceCode)
      ensures entities == map[project.key := project]
    {
      entities := map[project.key := project];
    }

    /** Registers the entities of one scanned file, a later entity replacing
        an earlier one with the same key. */
    method Index(added: seq<SourceCode>)
      modifies this
      ensures entities == Put(old(entities), added)
    {
      entities := Put(entities, added);
    }
  }

  /** The file system as the scan sees it: the paths that name regular
      files, and the files the parser has read so far. */
  class FileSystem {
    const regularFiles: set<string>
    var read: seq<string>

    constructor (regularFiles: set<string>)
      ensures this.regularFiles == regularFiles && read == []
    {
      this.regularFiles := regularFiles;
      read := [];
    }

    /** The parser reads one file. */
    method Read(path: string)
      modifies this
      ensures read == old(read) + [path]
    {
      read := read + [path];
    }
  }

  /** Visitors (checks) a caller hands to the scanner; `visited` lists the
      files they have been run over. */
  class Visitors {
    var visited: seq<string>

    constructor ()
      ensures visited == []
    {
      visited := [];
    }

    /** The visitors are run over one file. */
    method Visit(file: string)
      modifies this
      ensures visited == old(visited) + [file]
    {
      visited := visited + [file];
    }
  }

  /** A scanner: a fresh index rooted at the project, and the caller's
      visitors when they have been registered with it (null when not). */
  class AstScanner {
    const index: SourceIndex
    const checks: Visitors?

    constructor (checks: Visitors?)
      ensures fresh(index)
      ensures index.entities == Root()
      ensures this.checks == checks
    {
      index := new SourceIndex(Project);
      this.checks := checks;
    }

    /** scanFile: the parser reads the file, the registered visitors are run
        over it, and the entities `produced` for it, which the parser is not
        modelled to compute, are registered in the index. */
    method ScanFile(file: string, produced: seq<SourceCode>, fs: FileSystem)
      modifies index, fs, checks
      ensures index.entities == Put(old(index.entities), produced)
      ensures fs.read == old(fs.read) + [file]
      ensures checks != null ==> checks.visited == old(checks.visited) + [file]
    {
      fs.Read(file);
      if checks != null {
        checks.Visit(file);
      }
      index.Index(produced);
    }
  }

  /** The outcome scanSingleFile promises: an argument error for a path that
      is not a regular file; otherwise the one source file the query finds,
      or a state error with the number it found. */
  ghost predicate ScanOutcome(file: string, isFile: bool, produced: seq<SourceCode>, r: Result<SourceCode>) {
    var found := Query(Put(Root(), produced), FileKind);
    (!isFile ==> r == Err(IllegalArgument(file)))
    && (isFile && |found| == 1 ==> r.Ok? && found == {r.value})
    && (isFile && |found| != 1 ==> r == Err(IllegalState(|found|)))
  }

  /** scanSingleFile as written: `create` never registers the visitors it is
      given, so the scan leaves them untouched. `produced` stands for what
      scanning the file registers in the index. */
  method ScanSingleFile(file: string, fs: FileSystem, produced: seq<SourceCode>, visitors: Visitors)
    returns (r: Result<SourceCode>)
    modifies fs
    ensures ScanOutcome(file, file in fs.regularFiles, produced, r)
    ensures r.Ok? ==> r.value.kind == FileKind && r.value in produced
    ensures file !in fs.regularFiles ==> unchanged(fs)
    ensures file in fs.regularFiles ==> fs.read == old(fs.read) + [file]
    ensures unchanged(visitors)
  {
    if file !in fs.regularFiles {
      return Err(IllegalArgument(file));
    }
    var scanner := new AstScanner(null);
    scanner.ScanFile(file, produced, fs);
    r := CheckOneFile(scanner.index.entities);
  }

  /** scanSingleFile with the visitors registered with the scanner, as a
      helper for testing checks needs: they are run over the scanned file. */
  method ScanSingleFileWithChecks(file: string, fs: FileSystem, produced: seq<SourceCode>, visitors: Visitors)
    returns (r: Result<SourceCode>)
    modifies fs, visitors
    ensures ScanOutcome(file, file in fs.regularFiles, produced, r)
    ensures r.Ok? ==> r.value.kind == FileKind && r.value in produced
    ensures file !in fs.regularFiles ==> unchanged(fs, visitors)
    ensures file in fs.regularFiles ==> fs.read == old(fs.read) + [file]
    ensures file in fs.regularFiles ==> visitors.visited == old(visitors.visited) + [file]
  {
    if file !in fs.regularFiles {
      return Err(IllegalArgument(file));
    }
    var scanner := new AstScanner(visitors);
    scanner.ScanFile(file, produced, fs);
    r := CheckOneFile(scanner.index.entities);
  }

  /** The check after the scan: exactly one source file in the index. */
  method CheckOneFile(entities: map<string, SourceCode>) returns (r: Result<SourceCode>)
    ensures |Query(entities, FileKind)| == 1 ==> r.Ok? && Query(entities, FileKind) == {r.value}
    ensures |Query(entities, FileKind)| != 1 ==> r == Err(IllegalState(|Query(entities, FileKind)|))
  {
    var sources := Query(entities, FileKind);
    if |sources| != 1 {
      return Err(IllegalState(|sources|));
    }
    var e :| e in sources;
    assert sources == {e} by {
      assert |sources - {e}| == 0;
    }
    return Ok(e);
  }

  /** The visitors given to scanSingleFile are not run over a regular file
      that it scans and accepts. */
  method VisitorsNotRun() returns (r: Result<SourceCode>, visited: seq<string>, read: seq<string>)
    ensures r == Ok(SourceCode(FileKind, "a.m")) && read == ["a.m"] && visited == []
  {
    var fs := new FileSystem({"a.m"});
    var checks := new Visitors();
    OnlyFile(SourceCode(FileKind, "a.m"), [SourceCode(FileKind, "a.m")]);
    r := ScanSingleFile("a.m", fs, [SourceCode(FileKind, "a.m")], checks);
    visited, read := checks.visited, fs.read;
  }

  /** With the visitors registered, the same scan runs them over the file. */
  method VisitorsRun() returns (r: Result<SourceCode>, visited: seq<string>, read: seq<string>)
    ensures r == Ok(SourceCode(FileKind, "a.m")) && read == ["a.m"] && visited == ["a.m"]
  {
    var fs := new FileSystem({"a.m"});
    var checks := new Visitors();
    OnlyFile(SourceCode(FileKind, "a.m"), [SourceCode(FileKind, "a.m")]);
    r := ScanSingleFileWithChecks("a.m", fs, [SourceCode(FileKind, "a.m")], checks);
    visited, read := checks.visited, fs.read;
  }

  /** A scan that registers no source file leaves the query empty. */
  lemma NoFileRejected(units: seq<SourceCode>)
    requires forall u :: u in units ==> u.kind != FileKind
    ensures Query(Put(Root(), units), FileKind) == {}
  {
    var m := Put(Root(), units);
    forall k | k in m ensures m[k].kind != FileKind {
      if k in KeysOf(units) { assert m[k] in units; }
    }
  }

  /** A scan that registers one source file and finer units under other keys
      is answered with exactly that file, also when the file is registered a
      second time, since re-indexing replaces it. */
  lemma OneFileAccepted(file: SourceCode, units: seq<SourceCode>)
    requires file.kind == FileKind && file.key != ProjectName
    requires forall u :: u in units ==> u.kind != FileKind && u.key != file.key
    ensures Query(Put(Root(), [file] + units), FileKind) == {file}
    ensures Query(Put(Root(), [file, file] + units), FileKind) == {file}
  {
    OnlyFile(file, [file] + units);
    OnlyFile(file, [file, file] + units);
  }

  /** The query answer when every source file registered is `file`, stored
      under a key that no later entity takes. */
  lemma OnlyFile(file: SourceCode, s: seq<SourceCode>)
    requires file in s && file.kind == FileKind && file.key != ProjectName
    requires forall u :: u in s ==> u == file || (u.kind != FileKind && u.key != file.key)
    ensures Query(Put(Root(), s), FileKind) == {file}
  {
    var m := Put(Root(), s);
    assert file.key in KeysOf(s) by {
      var i :| 0 <= i < |s| && s[i] == file;
    }
    assert m[file.key] == file by { assert m[file.key] in s; }
    forall e | e in Query(m, FileKind) ensures e == file {
      var k :| k in m && m[k] == e;
      if k in KeysOf(s) { assert m[k] in s; }
    }
  }

  /** Two source files under different keys give a count of two. */
  lemma TwoFilesRejected(f1: SourceCode, f2: SourceCode)
    requires f1.kind == FileKind && f2.kind == FileKind
    requires f1.key != f2.key && f1.key != ProjectName && f2.key != ProjectName
    ensures |Query(Put(Root(), [f1, f2]), FileKind)| == 2
  {
    var m := Put(Root(), [f1, f2]);
    assert LastWithKey([f1, f2], 1);
    assert m[f2.key] == f2;
    assert m == Put(Root()[f1.key := f1], [f2]);
    assert m[f1.key] == f1;
    var q := Query(m, FileKind);
    forall e | e in q ensures e == f1 || e == f2 {
      var k :| k in m && m[k] == e;
      if k in KeysOf([f1, f2]) { assert m[k] in [f1, f2]; }
    }
    assert q == {f1, f2};
  }
}
