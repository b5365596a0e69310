/**
 * `list_uploaded_files` in `backend/app/routes/files.py`: the regular files
 * of the upload directory, each as `uploaded_files/<name>` with every
 * backslash turned into `/`. The directory listing is an input; a missing
 * directory is `None`.
 */
module Files {
  import opened Wrappers
  import opened Text

  /** One entry of the directory listing; directories have `isFile == false`. */
  datatype DirEntry = DirEntry(name: string, isFile: bool)

  const UploadDir: string := "uploaded_files"
  const ListedPrefix: string := UploadDir + "/"

  /** The path listed for a file called `name`. */
  function ListedPath(name: string): (p: string)
    ensures |p| == |ListedPrefix| + |name|
    ensures IsPrefix(ListedPrefix, p)
    ensures '\\' !in p
  {
    ReplaceChar(ListedPrefix + name, '\\', '/')
  }

  /** The number of regular files in a listing. */
  function FileCount(entries: seq<DirEntry>): nat {
    if |entries| == 0 then 0
    else FileCount(entries[..|entries| - 1]) + (if entries[|entries| - 1].isFile then 1 else 0)
  }

  /** The list comprehension over an existing directory. */
  function ListedFiles(entries: seq<DirEntry>): seq<string> {
    if |entries| == 0 then []
    else
      var last := entries[|entries| - 1];
      ListedFiles(entries[..|entries| - 1]) + (if last.isFile then [ListedPath(last.name)] else [])
  }

  /** The route's answer: `[]` when the directory is missing. */
  function ListUploadedFiles(listing: Option<seq<DirEntry>>): (r: seq<string>)
    ensures listing.None? ==> r == []
  {
    match listing
    case None => []
    case Some(entries) => ListedFiles(entries)
  }

  /** Exactly one path per regular file. */
  lemma {:induction false} OnePathPerFile(entries: seq<DirEntry>)
    ensures |ListedFiles(entries)| == FileCount(entries)
    decreases |entries|
  {
    if |entries| > 0 {
      OnePathPerFile(entries[..|entries| - 1]);
    }
  }

  /**
   * Every listed path is a regular file of the listing under the upload
   * directory, and every regular file is listed, in listing order.
   */
  lemma {:induction false} ListedFilesExact(entries: seq<DirEntry>, p: string)
    ensures p in ListedFiles(entries) <==>
      exists i :: 0 <= i < |entries| && entries[i].isFile && p == ListedPath(entries[i].name)
    decreases |entries|
  {
    if |entries| > 0 {
      var init := entries[..|entries| - 1];
      var last := entries[|entries| - 1];
      ListedFilesExact(init, p);
      if p in ListedFiles(init) {
        var i :| 0 <= i < |init| && init[i].isFile && p == ListedPath(init[i].name);
        assert entries[i] == init[i];
      }
      if exists i :: 0 <= i < |entries| && entries[i].isFile && p == ListedPath(entries[i].name) {
        var i :| 0 <= i < |entries| && entries[i].isFile && p == ListedPath(entries[i].name);
        if i < |init| {
          assert init[i] == entries[i];
        }
      }
    }
  }

  /** Directories never appear: a listing without regular files gives `[]`. */
  lemma {:induction false} DirectoriesExcluded(entries: seq<DirEntry>)
    requires forall i :: 0 <= i < |entries| ==> !entries[i].isFile
    ensures ListedFiles(entries) == []
    decreases |entries|
  {
    if |entries| > 0 {
      DirectoriesExcluded(entries[..|entries| - 1]);
    }
  }

  /** The listing of two runs of entries is the listing of each, in order. */
  lemma {:induction false} ListedFilesAppend(a: seq<DirEntry>, b: seq<DirEntry>)
    ensures ListedFiles(a + b) == ListedFiles(a) + ListedFiles(b)
    decreases |b|
  {
    if |b| == 0 {
      assert a + b == a;
    } else {
      var init := b[..|b| - 1];
      ListedFilesAppend(a, init);
      assert (a + b)[..|a + b| - 1] == a + init;
    }
  }

  /** A directory anywhere in the listing leaves the listed paths unchanged. */
  lemma DirectoryIgnored(a: seq<DirEntry>, d: DirEntry, b: seq<DirEntry>)
    requires !d.isFile
    ensures ListedFiles(a + [d] + b) == ListedFiles(a + b)
  {
    ListedFilesAppend(a + [d], b);
    ListedFilesAppend(a, b);
    assert (a + [d])[..|a + [d]| - 1] == a;
  }

  /** Every listed path starts with `uploaded_files/` and holds no backslash. */
  lemma ListedPathsNormalised(listing: Option<seq<DirEntry>>, p: string)
    requires p in ListUploadedFiles(listing)
    ensures IsPrefix(ListedPrefix, p) && '\\' !in p
  {
    var entries := listing.value;
    ListedFilesExact(entries, p);
  }

  /** A name without backslashes is listed unchanged after the prefix. */
  lemma PlainNameListedVerbatim(name: string)
    requires '\\' !in name
    ensures ListedPath(name) == ListedPrefix + name
  {
    var s := ListedPrefix + name;
    assert forall i :: 0 <= i < |s| ==> s[i] != '\\' by {
      forall i | 0 <= i < |s|
        ensures s[i] != '\\'
      {
        if i >= |ListedPrefix| {
          assert s[i] == name[i - |ListedPrefix|];
        }
      }
    }
  }
}
