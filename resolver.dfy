/** Finding the program a command name refers to (checkPath, runProgFromPath,
    progExists).  The file system is a map from path names to what `stat`
    reports about them; the PATH variable is an optional string. */
module Resolver {
  import opened Basics
  import Strtok

  /** The file type stat reports (stat follows symbolic links, so a link is
      never seen as such). */
  datatype Kind = Reg | Dir | CharDevice | BlockDevice | Fifo | Socket

  type FileSystem = map<string, Kind>

  /** The S_IFMT bits of st_mode for each file type. */
  function Mode(k: Kind): bv32
  {
    match k
    case Reg => 0x8000
    case Dir => 0x4000
    case CharDevice => 0x2000
    case BlockDevice => 0x6000
    case Fifo => 0x1000
    case Socket => 0xC000
  }

  const S_IFDIR: bv32 := 0x4000
  const S_IFREG: bv32 := 0x8000

  /** progExists: the name exists and its mode is tested bit by bit, first
      for S_IFDIR (false) and then for S_IFREG (true).  Block devices and
      sockets carry the S_IFDIR bit and so are rejected as directories; a
      character device or a FIFO has neither bit and falls off the end of
      the C++ function without a return value, taken here as false.  Only a
      regular file is accepted. */
  function ProgExists(fs: FileSystem, name: string): (r: bool)
    ensures r <==> name in fs && fs[name] == Reg
  {
    if name !in fs then false
    else if Mode(fs[name]) & S_IFDIR != 0 then false
    else if Mode(fs[name]) & S_IFREG != 0 then true
    else false
  }

  const PathSeparators: set<char> := {':'}

  /** The directories listed in PATH, split on ':' with empty fields
      skipped; no directories when PATH is unset. */
  function PathDirs(path: Option<string>): (dirs: seq<string>)
    ensures path.None? ==> dirs == []
    ensures forall i :: 0 <= i < |dirs| ==> |dirs[i]| > 0 && ':' !in dirs[i]
  {
    match path
    case None => []
    case Some(p) =>
      Strtok.SplitTokens(p, PathSeparators);
      Strtok.Split(p, PathSeparators)
  }

  /** The file tried for `name` in directory `dir`. */
  function Candidate(dir: string, name: string): string
  {
    dir + "/" + name
  }

  /** The index of the first directory, from `from` on, that holds `name`
      as a regular file. */
  function FirstHit(fs: FileSystem, dirs: seq<string>, name: string, from: nat): (r: Option<nat>)
    requires from <= |dirs|
    ensures r.Some? ==> from <= r.value < |dirs| && ProgExists(fs, Candidate(dirs[r.value], name))
    ensures r.Some? ==> forall j :: from <= j < r.value ==> !ProgExists(fs, Candidate(dirs[j], name))
    ensures r.None? ==> forall j :: from <= j < |dirs| ==> !ProgExists(fs, Candidate(dirs[j], name))
    decreases |dirs| - from
  {
    if from == |dirs| then None
    else if ProgExists(fs, Candidate(dirs[from], name)) then Some(from)
    else FirstHit(fs, dirs, name, from + 1)
  }

  /** The first PATH candidate for `name` that is a regular file. */
  function FirstInPath(fs: FileSystem, path: Option<string>, name: string): Option<string>
  {
    var dirs := PathDirs(path);
    match FirstHit(fs, dirs, name, 0)
    case Some(i) => Some(Candidate(dirs[i], name))
    case None => None
  }

  /** checkPath: whether some PATH directory holds `name` as a regular file. */
  method CheckPath(fs: FileSystem, path: Option<string>, progName: string) returns (found: bool)
    ensures found <==> FirstInPath(fs, path, progName).Some?
    ensures found <==> exists i :: 0 <= i < |PathDirs(path)| && ProgExists(fs, Candidate(PathDirs(path)[i], progName))
    ensures path.None? ==> !found
  {
    if path.None? {
      return false;
    }
    var dirs := Strtok.Split(path.value, PathSeparators);
    assert dirs == PathDirs(path);
    var i := 0;
    while i < |dirs|
      invariant i <= |dirs|
      invariant FirstHit(fs, dirs, progName, i) == FirstHit(fs, dirs, progName, 0)
    {
      if ProgExists(fs, Candidate(dirs[i], progName)) {
        return true;
      }
      i := i + 1;
    }
    return false;
  }

  /** What runProgFromPath does: with PATH unset it reports "Error accessing
      PATH variable"; otherwise it runs the first candidate found, and when
      there is none it falls off the end of the C++ function, taken here as
      false. */
  datatype PathSearch = NoPathVariable | NotInPath | FoundAt(candidate: string)

  /** runProgFromPath's search: the directories of PATH are tried in order
      and the first that holds the program as a regular file is chosen. */
  method RunProgFromPath(fs: FileSystem, path: Option<string>, progName: string) returns (s: PathSearch)
    ensures path.None? <==> s == NoPathVariable
    ensures s.FoundAt? <==> FirstInPath(fs, path, progName).Some?
    ensures s.FoundAt? ==> Some(s.candidate) == FirstInPath(fs, path, progName)
  {
    if path.None? {
      return NoPathVariable;
    }
    var dirs := Strtok.Split(path.value, PathSeparators);
    assert dirs == PathDirs(path);
    var i := 0;
    while i < |dirs|
      invariant i <= |dirs|
      invariant FirstHit(fs, dirs, progName, i) == FirstHit(fs, dirs, progName, 0)
    {
      var candidate := Candidate(dirs[i], progName);
      if ProgExists(fs, candidate) {
        return FoundAt(candidate);
      }
      i := i + 1;
    }
    return NotInPath;
  }

  /** The program external dispatch runs for `name`: the first PATH
      candidate if there is one, otherwise the name itself taken as a path
      if it is a regular file. */
  function Resolve(fs: FileSystem, path: Option<string>, name: string): (r: Option<string>)
    ensures r.Some? ==> ProgExists(fs, r.value)
    ensures r.None? <==> FirstInPath(fs, path, name).None? && !ProgExists(fs, name)
    ensures FirstInPath(fs, path, name).Some? ==> r == FirstInPath(fs, path, name)
  {
    match FirstInPath(fs, path, name)
    case Some(c) => Some(c)
    case None => if ProgExists(fs, name) then Some(name) else None
  }

  /** The search order: PATH directories first, in order, the first regular
      file winning; the name itself only when no directory holds it; and
      nothing found through PATH when PATH is unset. */
  lemma ResolutionOrder(fs: FileSystem, path: Option<string>, name: string)
    ensures var dirs := PathDirs(path);
      Resolve(fs, path, name).Some? <==>
        (exists i :: 0 <= i < |dirs| && ProgExists(fs, Candidate(dirs[i], name))) || ProgExists(fs, name)
    ensures var dirs := PathDirs(path);
      forall i ::
        (0 <= i < |dirs| && ProgExists(fs, Candidate(dirs[i], name)) &&
         forall j :: 0 <= j < i ==> !ProgExists(fs, Candidate(dirs[j], name))) ==>
        Resolve(fs, path, name) == Some(Candidate(dirs[i], name))
    ensures path.None? ==> Resolve(fs, path, name) == (if ProgExists(fs, name) then Some(name) else None)
  {
    var dirs := PathDirs(path);
    var hit := FirstHit(fs, dirs, name, 0);
    forall i | 0 <= i < |dirs| && ProgExists(fs, Candidate(dirs[i], name)) &&
        (forall j :: 0 <= j < i ==> !ProgExists(fs, Candidate(dirs[j], name)))
      ensures Resolve(fs, path, name) == Some(Candidate(dirs[i], name))
    {
      assert hit.Some?;
      assert hit.value == i;
    }
  }

  /** A PATH match always shadows the literal name: the name itself is never
      what runs when some PATH directory holds a regular file of that name. */
  lemma PathShadowsLiteral(fs: FileSystem, path: Option<string>, name: string)
    requires FirstInPath(fs, path, name).Some?
    ensures Resolve(fs, path, name) != Some(name)
  {
    var dirs := PathDirs(path);
    var i := FirstHit(fs, dirs, name, 0).value;
    assert |Candidate(dirs[i], name)| > |name|;
  }
}
