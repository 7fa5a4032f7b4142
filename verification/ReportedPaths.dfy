/** The paths a watcher reports: which files they concern (core/src/live.rs, `touches_ignore_rules`;
    core/src/lib.rs, `file_id_in_scope`). */
module ReportedPaths {
  import opened Basics
  import opened CodeModel

  const MAX_TARGETED_PATHS := 128

  const IGNORE_RULE_FILES: set<string> := {".gitignore", ".ignore", ".ccmignore"}

  function FileName(path: FileId): string
    decreases |path|
  {
    if '/' in path then FileName(AfterFirstSlash(path)) else path
  }

  function AfterFirstSlash(path: FileId): (rest: FileId)
    requires '/' in path
    ensures |rest| < |path|
  {
    if path[0] == '/' then path[1..] else AfterFirstSlash(path[1..])
  }

  predicate TouchesIgnoreRules(paths: seq<FileId>) {
    exists i :: 0 <= i < |paths| && FileName(paths[i]) in IGNORE_RULE_FILES
  }

  /** A file is in scope if it is one of the paths or lies under one. */
  predicate InScope(f: FileId, paths: seq<FileId>) {
    exists i :: 0 <= i < |paths| && (f == paths[i] || paths[i] + "/" <= f)
  }

  // ---------------------------------------------------------------- what they mean

  /** One of the paths is the file, or a directory above it. */
  ghost predicate IsReported(paths: seq<FileId>, f: FileId) {
    exists p :: p in paths && (f == p || p + "/" <= f)
  }

  /** One of the paths is that of an ignore file. */
  ghost predicate ReportsRules(paths: seq<FileId>) {
    exists p, name :: p in paths && name in {".gitignore", ".ignore", ".ccmignore"} && IsFileNamed(p, name)
  }

  ghost predicate IsFileNamed(path: FileId, name: string) {
    path == name || EndsWith(path, "/" + name)
  }

  lemma FilesAreReported(paths: seq<FileId>, f: FileId)
    ensures InScope(f, paths) <==> IsReported(paths, f)
  {
    if InScope(f, paths) {
      var i :| 0 <= i < |paths| && (f == paths[i] || paths[i] + "/" <= f);
      assert paths[i] in paths;
    }
    if IsReported(paths, f) {
      var p :| p in paths && (f == p || p + "/" <= f);
      var i :| 0 <= i < |paths| && paths[i] == p;
    }
  }

  /** The name of a file is what follows the last slash of its path. */
  lemma {:induction false} NameIsLast(path: FileId, name: string)
    requires '/' !in name
    ensures FileName(path) == name <==> IsFileNamed(path, name)
    decreases |path|
  {
    EndsBehindSlash(path, name);
    if '/' in path {
      AfterSlash(path);
      NameIsLast(AfterFirstSlash(path), name);
      SameName(path[..|path| - |AfterFirstSlash(path)| - 1], AfterFirstSlash(path), name);
    }
  }

  lemma EndsBehindSlash(path: FileId, name: string)
    ensures EndsWith(path, "/" + name) ==> '/' in path
  {
    if EndsWith(path, "/" + name) {
      assert path[|path| - |"/" + name|..][0] == '/';
    }
  }

  lemma {:induction false} AfterSlash(path: FileId)
    requires '/' in path
    ensures var rest := AfterFirstSlash(path);
      |rest| < |path| && path == path[..|path| - |rest| - 1] + "/" + rest && '/' !in path[..|path| - |rest| - 1]
  {
    if path[0] != '/' {
      AfterSlash(path[1..]);
      var rest := AfterFirstSlash(path[1..]);
      assert path[..|path| - |rest| - 1] == [path[0]] + path[1..][..|path[1..]| - |rest| - 1];
    }
  }

  lemma SameName(directory: string, rest: FileId, name: string)
    requires '/' !in directory && '/' !in name
    ensures IsFileNamed(directory + "/" + rest, name) <==> IsFileNamed(rest, name)
  {
    BehindDirectory(directory, rest, "/" + name);
    var path := directory + "/" + rest;
    assert path[|directory|] == '/' && path[|directory|..] == "/" + rest;
    if rest != name { assert rest == ("/" + rest)[1..] && name == ("/" + name)[1..]; }
  }

  /** What ends in `tail` ends in it behind the directory, or is the directory and the tail. */
  lemma BehindDirectory(directory: string, rest: string, tail: string)
    requires '/' !in directory && tail != [] && tail[0] == '/'
    ensures EndsWith(directory + "/" + rest, tail) <==> EndsWith(rest, tail) || "/" + rest == tail
  {
    var path, k := directory + "/" + rest, |directory|;
    assert path[k..] == "/" + rest && path[k + 1..] == rest;
    if |tail| <= |path| {
      var at := |path| - |tail|;
      if at < k {
        assert path[at] == directory[at];
      } else if at > k {
        assert path[at..] == rest[at - k - 1..];
      }
    }
  }

  lemma RulesAreReported(paths: seq<FileId>)
    ensures TouchesIgnoreRules(paths) <==> ReportsRules(paths)
  {
    forall p, name | p in paths && name in {".gitignore", ".ignore", ".ccmignore"}
      ensures FileName(p) == name <==> IsFileNamed(p, name)
    {
      NameIsLast(p, name);
    }
    hide FileName, IsFileNamed;
    if TouchesIgnoreRules(paths) {
      var i :| 0 <= i < |paths| && FileName(paths[i]) in IGNORE_RULE_FILES;
      assert IsFileNamed(paths[i], FileName(paths[i]));
    }
    if ReportsRules(paths) {
      var p, name :| p in paths && name in {".gitignore", ".ignore", ".ccmignore"} && IsFileNamed(p, name);
      var i :| 0 <= i < |paths| && paths[i] == p;
      assert FileName(paths[i]) == name;
    }
  }
}
