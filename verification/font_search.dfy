/**
 * Locating a font file for a family name: every configured directory in
 * order, and within a directory every extension in order; the first path
 * that exists wins. The filesystem is abstract: `fileExists` stands for
 * `File.exists?` and `join` for `File.join`.
 */
module FontSearch {
  import opened Results

  const Extensions: seq<string> := [".ttf", ".dfont", ".ttc"]

  /** The file names tried in each directory, in extension order. */
  function FileNames(family: string): (names: seq<string>)
    ensures |names| == |Extensions|
    ensures forall e | 0 <= e < |names| :: names[e] == family + Extensions[e]
  {
    [family + Extensions[0], family + Extensions[1], family + Extensions[2]]
  }

  /** The candidate paths inside one directory, in the order they are tried. */
  function DirCandidates(dir: string, names: seq<string>, join: (string, string) -> string): (c: seq<string>)
    ensures |c| == |names|
    ensures forall e | 0 <= e < |names| :: c[e] == join(dir, names[e])
  {
    seq(|names|, e requires 0 <= e < |names| => join(dir, names[e]))
  }

  /** Every candidate path, directory-major: all of the first directory's, then the next. */
  function Candidates(dirs: seq<string>, names: seq<string>, join: (string, string) -> string): seq<string>
  {
    if |dirs| == 0 then []
    else DirCandidates(dirs[0], names, join) + Candidates(dirs[1..], names, join)
  }

  /** `cands[k]` exists and no candidate before it does. */
  predicate FirstExistingAt(cands: seq<string>, fileExists: string -> bool, k: int) {
    && 0 <= k < |cands|
    && fileExists(cands[k])
    && forall j | 0 <= j < k :: !fileExists(cands[j])
  }

  predicate NoneExists(cands: seq<string>, fileExists: string -> bool) {
    forall j | 0 <= j < |cands| :: !fileExists(cands[j])
  }

  /** The reference meaning of a search: the first existing candidate, or nothing. */
  predicate IsFirstExisting(cands: seq<string>, fileExists: string -> bool, r: Option<string>) {
    && (r.None? <==> NoneExists(cands, fileExists))
    && (r.Some? ==> exists k | 0 <= k < |cands| :: FirstExistingAt(cands, fileExists, k) && r.value == cands[k])
  }

  /** The inner loop: try each file name in one directory. */
  function SearchNames(dir: string, names: seq<string>, fileExists: string -> bool,
                       join: (string, string) -> string): (r: Option<string>)
    ensures IsFirstExisting(DirCandidates(dir, names, join), fileExists, r)
    decreases |names|
  {
    if |names| == 0 then None
    else
      var file := join(dir, names[0]);
      if fileExists(file) then
        assert FirstExistingAt(DirCandidates(dir, names, join), fileExists, 0);
        Some(file)
      else
        var r := SearchNames(dir, names[1..], fileExists, join);
        var c, c' := DirCandidates(dir, names, join), DirCandidates(dir, names[1..], join);
        assert c == [file] + c';
        FirstExistingAfterMiss(file, c', fileExists);
        r
  }

  /** The outer loop: try each directory in turn. */
  function SearchDirs(dirs: seq<string>, names: seq<string>, fileExists: string -> bool,
                      join: (string, string) -> string): (r: Option<string>)
    ensures IsFirstExisting(Candidates(dirs, names, join), fileExists, r)
    decreases |dirs|
  {
    if |dirs| == 0 then None
    else
      var here := SearchNames(dirs[0], names, fileExists, join);
      ConcatFirstExisting(DirCandidates(dirs[0], names, join), Candidates(dirs[1..], names, join),
                          fileExists, here, SearchDirs(dirs[1..], names, fileExists, join));
      if here.Some? then here else SearchDirs(dirs[1..], names, fileExists, join)
  }

  /**
   * The path of the first font file for `family` found across `dirs`, or
   * `None` when no candidate exists anywhere.
   */
  function FontFileForFamily(dirs: seq<string>, family: string, fileExists: string -> bool,
                             join: (string, string) -> string): (r: Option<string>)
    ensures IsFirstExisting(Candidates(dirs, FileNames(family), join), fileExists, r)
    ensures r.Some? ==> fileExists(r.value)
  {
    SearchDirs(dirs, FileNames(family), fileExists, join)
  }

  /** A miss at the head of the list shifts the first hit by one place. */
  lemma FirstExistingAfterMiss(file: string, rest: seq<string>, fileExists: string -> bool)
    requires !fileExists(file)
    ensures forall r :: IsFirstExisting(rest, fileExists, r) ==> IsFirstExisting([file] + rest, fileExists, r)
  {
    var c := [file] + rest;
    forall r | IsFirstExisting(rest, fileExists, r)
      ensures IsFirstExisting(c, fileExists, r)
    {
      if r.Some? {
        var k :| 0 <= k < |rest| && FirstExistingAt(rest, fileExists, k) && r.value == rest[k];
        assert FirstExistingAt(c, fileExists, k + 1);
      }
      assert NoneExists(c, fileExists) <==> NoneExists(rest, fileExists) by {
        if NoneExists(rest, fileExists) {
          forall j | 0 <= j < |c| ensures !fileExists(c[j]) {
            if j > 0 { assert c[j] == rest[j - 1]; }
          }
        }
        if NoneExists(c, fileExists) {
          forall j | 0 <= j < |rest| ensures !fileExists(rest[j]) {
            assert rest[j] == c[j + 1];
          }
        }
      }
    }
  }

  /** First-hit search over a concatenation: the first part's hit, else the second part's. */
  lemma ConcatFirstExisting(a: seq<string>, b: seq<string>, fileExists: string -> bool,
                            ra: Option<string>, rb: Option<string>)
    requires IsFirstExisting(a, fileExists, ra)
    requires IsFirstExisting(b, fileExists, rb)
    ensures IsFirstExisting(a + b, fileExists, if ra.Some? then ra else rb)
  {
    var c := a + b;
    if ra.Some? {
      var k :| 0 <= k < |a| && FirstExistingAt(a, fileExists, k) && ra.value == a[k];
      assert FirstExistingAt(c, fileExists, k);
      assert !NoneExists(c, fileExists) by { assert c[k] == a[k]; }
    } else {
      assert NoneExists(a, fileExists);
      if rb.Some? {
        var k :| 0 <= k < |b| && FirstExistingAt(b, fileExists, k) && rb.value == b[k];
        assert c[|a| + k] == b[k];
        forall j | 0 <= j < |a| + k ensures !fileExists(c[j]) {
          if j >= |a| { assert c[j] == b[j - |a|]; }
        }
        assert FirstExistingAt(c, fileExists, |a| + k);
        assert !NoneExists(c, fileExists);
      } else {
        forall j | 0 <= j < |c| ensures !fileExists(c[j]) {
          if j >= |a| { assert c[j] == b[j - |a|]; }
        }
      }
    }
  }

  /**
   * If some candidate in directory `i` exists, the search finds a file, and
   * that file is a candidate of directory `i` or of an earlier one.
   */
  lemma {:induction false} EarlierDirectoryWins(dirs: seq<string>, names: seq<string>,
                                                fileExists: string -> bool,
                                                join: (string, string) -> string, i: nat)
    requires i < |dirs|
    requires !NoneExists(DirCandidates(dirs[i], names, join), fileExists)
    ensures SearchDirs(dirs, names, fileExists, join).Some?
    ensures exists j | 0 <= j <= i ::
              SearchDirs(dirs, names, fileExists, join).value in DirCandidates(dirs[j], names, join)
  {
    var here := SearchNames(dirs[0], names, fileExists, join);
    var r := SearchDirs(dirs, names, fileExists, join);
    if here.Some? {
      var k :| 0 <= k < |names| && FirstExistingAt(DirCandidates(dirs[0], names, join), fileExists, k)
               && here.value == DirCandidates(dirs[0], names, join)[k];
      assert r.value in DirCandidates(dirs[0], names, join);
    } else {
      assert i > 0;
      EarlierDirectoryWins(dirs[1..], names, fileExists, join, i - 1);
      var j :| 0 <= j <= i - 1 && r.value in DirCandidates(dirs[1..][j], names, join);
      assert dirs[1..][j] == dirs[j + 1];
      assert r.value in DirCandidates(dirs[j + 1], names, join);
    }
  }
}
