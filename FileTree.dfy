/** The recursive directory walk that collects extern files (listFiles).
    A java.io.File is seen only through what the walk asks of it: whether
    isFile() holds, its name, and otherwise the entries listFiles() returns,
    or null. */
module FileTree {
  import opened Results
  import opened Paths

  /** Each entry carries its getPath() as given; the model does not tie a
      child's path to its parent's path and its name. */
  datatype Entry =
      /** isFile() holds. */
    | RegularFile(path: string, name: string)
      /** isFile() fails and listFiles() returns these entries. */
    | Directory(path: string, children: seq<Entry>)
      /** isFile() fails and listFiles() returns null: a missing path, an
          unreadable directory, or something that is neither file nor directory. */
    | Unlistable(path: string)

  /** A regular file whose name ends in ".js": the files the walk keeps. */
  predicate IsJsFile(f: Entry)
  {
    f.RegularFile? && EndsWith(f.name, ".js")
  }

  /** The paths the walk appends for the entries of one listing, in listing
      order, descending into every entry that is not a regular file. */
  function WalkAll(entries: seq<Entry>): seq<string>
    decreases entries
  {
    if entries == [] then []
    else
      var last := entries[|entries| - 1];
      WalkAll(entries[..|entries| - 1]) +
        match last
        case RegularFile(path, name) => if EndsWith(name, ".js") then [path] else []
        case Directory(_, children) => WalkAll(children)
        case Unlistable(_) => []
  }

  /** The paths the walk appends when it is started on `directory`. A regular
      file or an unlistable entry has no listing and contributes nothing. */
  function Walk(directory: Entry): seq<string>
  {
    if directory.Directory? then WalkAll(directory.children) else []
  }

  /** `f` occurs in a listing of `entries`, or in a listing below one of them. */
  ghost predicate InListing(entries: seq<Entry>, f: Entry)
    decreases entries
  {
    exists i :: 0 <= i < |entries| && (entries[i] == f || Contains(entries[i], f))
  }

  /** `f` occurs somewhere in the tree below `e`. */
  ghost predicate Contains(e: Entry, f: Entry)
    decreases e
  {
    e.Directory? && InListing(e.children, f)
  }

  lemma {:induction false} WalkAllComplete(entries: seq<Entry>, f: Entry)
    requires InListing(entries, f) && IsJsFile(f)
    ensures f.path in WalkAll(entries)
    decreases entries
  {
    var i :| 0 <= i < |entries| && (entries[i] == f || Contains(entries[i], f));
    var n := |entries| - 1;
    assert entries[..n] + [entries[n]] == entries;
    if i < n {
      assert entries[..n][i] == entries[i];
      WalkAllComplete(entries[..n], f);
    } else if entries[n] != f {
      WalkAllComplete(entries[n].children, f);
    }
  }

  lemma {:induction false} WalkAllSound(entries: seq<Entry>, p: string)
    requires p in WalkAll(entries)
    ensures exists f :: InListing(entries, f) && IsJsFile(f) && f.path == p
    decreases entries
  {
    var n := |entries| - 1;
    var last := entries[n];
    if p in WalkAll(entries[..n]) {
      WalkAllSound(entries[..n], p);
      var f :| InListing(entries[..n], f) && IsJsFile(f) && f.path == p;
      var i :| 0 <= i < n && (entries[..n][i] == f || Contains(entries[..n][i], f));
      assert entries[i] == entries[..n][i];
      assert InListing(entries, f);
    } else if last.RegularFile? {
      assert InListing(entries, last);
    } else {
      WalkAllSound(last.children, p);
      var f :| InListing(last.children, f) && IsJsFile(f) && f.path == p;
      assert Contains(last, f);
      assert InListing(entries, f);
    }
  }

  /** listFiles keeps exactly the paths of the regular files in the tree whose
      name ends in ".js"; nothing below an unlistable entry is reached. */
  lemma WalkExact(directory: Entry, p: string)
    ensures p in Walk(directory) <==> exists f :: Contains(directory, f) && IsJsFile(f) && f.path == p
  {
    if p in Walk(directory) {
      WalkAllSound(directory.children, p);
    }
    if f :| Contains(directory, f) && IsJsFile(f) && f.path == p {
      WalkAllComplete(directory.children, f);
    }
  }

  /** listFiles(foundFiles, directory): appends to the accumulator the walk of
      one directory, recursing into each entry that is not a regular file. */
  method ListFilesInto(foundFiles: seq<string>, directory: Entry) returns (found: seq<string>)
    ensures found == foundFiles + Walk(directory)
    decreases directory
  {
    found := foundFiles;
    if directory.Directory? {
      var files := directory.children;
      var i := 0;
      while i < |files|
        invariant 0 <= i <= |files|
        invariant found == foundFiles + WalkAll(files[..i])
      {
        var file := files[i];
        assert files[..i + 1][..i] == files[..i];
        if file.RegularFile? {
          if EndsWith(file.name, ".js") {
            found := found + [file.path];
          }
        } else {
          found := ListFilesInto(found, file);
        }
        i := i + 1;
      }
      assert files[..i] == files;
    }
  }

  /** listFiles(directory): a fresh accumulator; a null directory contributes nothing. */
  method ListFiles(directory: Option<Entry>) returns (found: seq<string>)
    ensures directory.None? ==> found == []
    ensures directory.Some? ==> found == Walk(directory.value)
  {
    found := [];
    if directory.Some? {
      found := ListFilesInto(found, directory.value);
    }
  }
}
