/**
 * The `/upload` route of `backend/app/routes/upload.py`. An uploaded file is
 * saved under a name not yet used in the upload directory: the original
 * name if it is free, otherwise `base(k).ext` for the least free k >= 1.
 * The file is then loaded and indexed; any failure becomes an HTTP 500
 * response whose detail starts with `Error processing file: `.
 */
module Upload {
  import opened Wrappers
  import opened Text
  import opened Schema
  import Loader

  const UploadDir: string := "uploaded_files"

  /** `f"{base}({counter}){ext}"`. */
  function Candidate(base: string, k: nat, ext: string): string {
    base + "(" + NatToString(k) + ")" + ext
  }

  /** A candidate is longer than the name it was made from, so never equal to it. */
  lemma CandidateLonger(base: string, k: nat, ext: string)
    ensures |Candidate(base, k, ext)| > |base + ext|
  {
  }

  /** Different counters give different candidates. */
  lemma CandidateInjective(base: string, j: nat, k: nat, ext: string)
    requires Candidate(base, j, ext) == Candidate(base, k, ext)
    ensures j == k
  {
    var cj, ck := Candidate(base, j, ext), Candidate(base, k, ext);
    var dj, dk := NatToString(j), NatToString(k);
    assert |dj| == |dk|;
    assert cj[|base| + 1..|base| + 1 + |dj|] == dj;
    assert ck[|base| + 1..|base| + 1 + |dk|] == dk;
    NatToStringInjective(j, k);
  }

  /**
   * `name` is what the renaming loop settles on: a name not in `existing`,
   * which is `filename` itself when that is free, and otherwise the first
   * free candidate `base(k).ext`, every earlier candidate being taken.
   */
  ghost predicate IsUniqueName(existing: set<string>, filename: string, name: string) {
    var (base, ext) := SplitExt(filename);
    name !in existing
    && (filename !in existing ==> name == filename)
    && (filename in existing ==>
          exists k: nat :: k >= 1 && name == Candidate(base, k, ext)
            && forall j: nat :: 1 <= j < k ==> Candidate(base, j, ext) in existing)
  }

  /** The rule picks exactly one name. */
  lemma IsUniqueNameDeterministic(existing: set<string>, filename: string, a: string, b: string)
    requires IsUniqueName(existing, filename, a) && IsUniqueName(existing, filename, b)
    ensures a == b
  {
    var (base, ext) := SplitExt(filename);
    if filename in existing {
      var ka: nat :| ka >= 1 && a == Candidate(base, ka, ext)
        && forall j: nat :: 1 <= j < ka ==> Candidate(base, j, ext) in existing;
      var kb: nat :| kb >= 1 && b == Candidate(base, kb, ext)
        && forall j: nat :: 1 <= j < kb ==> Candidate(base, j, ext) in existing;
    }
  }

  /** The names the loop has found taken before trying its `m`-th name (the original is the first). */
  ghost function Tried(filename: string, base: string, ext: string, m: nat): set<string>
    decreases m
  {
    if m == 0 then {}
    else if m == 1 then {filename}
    else Tried(filename, base, ext, m - 1) + {Candidate(base, m - 1, ext)}
  }

  /** Later candidates have not been tried yet. */
  lemma {:induction false} CandidateNotTried(filename: string, base: string, ext: string, m: nat, k: nat)
    requires base + ext == filename && k >= m
    ensures Candidate(base, k, ext) !in Tried(filename, base, ext, m)
    decreases m
  {
    if m == 1 {
      CandidateLonger(base, k, ext);
    } else if m > 1 {
      CandidateNotTried(filename, base, ext, m - 1, k);
      if Candidate(base, k, ext) == Candidate(base, m - 1, ext) {
        CandidateInjective(base, k, m - 1, ext);
      }
    }
  }

  /** `get_unique_filename(directory, filename)` over the names in the directory. */
  method GetUniqueFilename(existing: set<string>, filename: string) returns (name: string)
    ensures IsUniqueName(existing, filename, name)
    ensures name !in existing
    ensures filename !in existing ==> name == filename
  {
    var (base, ext) := SplitExt(filename);
    var counter: nat := 1;
    name := filename;
    ghost var tried: set<string> := {};
    while name in existing
      invariant counter >= 1
      invariant name == if counter == 1 then filename else Candidate(base, counter - 1, ext)
      invariant tried == Tried(filename, base, ext, counter - 1)
      invariant tried <= existing
      invariant counter > 1 ==> filename in existing
      invariant forall j: nat :: 1 <= j < counter - 1 ==> Candidate(base, j, ext) in existing
      decreases |existing - tried|
    {
      if counter > 1 {
        CandidateNotTried(filename, base, ext, counter - 1, counter - 1);
      }
      assert name !in tried;
      assert existing - (tried + {name}) < existing - tried;
      tried := tried + {name};
      name := Candidate(base, counter, ext);
      counter := counter + 1;
    }
    if filename in existing {
      assert counter > 1;
      assert name == Candidate(base, counter - 1, ext);
    }
  }

  datatype UploadResponse = UploadResponse(status: string, message: string, fileName: string)

  datatype HttpError = HttpError(statusCode: nat, detail: string)

  const ErrorPrefix: string := "Error processing file: "
  const SuccessMessage: string := "File uploaded and vectorstore created"

  /** `os.path.join(UPLOAD_DIR, name)`. */
  function SavedPath(name: string): string {
    UploadDir + "/" + name
  }

  /**
   * The answer once the file is saved under `name`: it is loaded and indexed,
   * and the first of the two to fail turns the answer into a 500 whose detail
   * carries that error's message. `index` is the splitting, embedding and
   * saving of the vector store, with the message of the error it raises, if any.
   */
  function Processed(disk: Loader.Disk, index: seq<Document> -> Option<string>, name: string)
    : (r: Result<UploadResponse, HttpError>)
    ensures var docs := Loader.FileDocuments(disk, SavedPath(name));
      && (r.Success? <==> docs.Success? && index(docs.value).None?)
      && (r.Success? ==> r.value == UploadResponse("success", SuccessMessage, name))
      && (docs.Failure? ==> r == Failure(HttpError(500, ErrorPrefix + docs.error.message)))
      && (docs.Success? && index(docs.value).Some? ==> r == Failure(HttpError(500, ErrorPrefix + index(docs.value).value)))
  {
    var docs := Loader.FileDocuments(disk, SavedPath(name));
    if docs.Failure? then Failure(HttpError(500, ErrorPrefix + docs.error.message))
    else if index(docs.value).Some? then Failure(HttpError(500, ErrorPrefix + index(docs.value).value))
    else Success(UploadResponse("success", SuccessMessage, name))
  }

  /**
   * How `shutil.copyfileobj` into the opened file ends: every byte written,
   * or an error after the first `written` bytes reached the file.
   */
  datatype WriteOutcome = Written | WriteFailed(written: nat, message: string)

  /** The bytes a write leaves in the file. */
  function Kept(content: seq<bv8>, outcome: WriteOutcome): (kept: seq<bv8>)
    ensures kept <= content
    ensures outcome.Written? ==> kept == content
    ensures outcome.WriteFailed? ==> |kept| == if outcome.written < |content| then outcome.written else |content|
  {
    if outcome.Written? || outcome.written >= |content| then content else content[..outcome.written]
  }

  /** The upload directory: the bytes saved under each name. */
  class UploadDirectory {
    var files: map<string, seq<bv8>>

    constructor ()
      ensures files == map[]
    {
      files := map[];
    }

    /**
     * `upload_file(file)`: save the bytes under a fresh name, then load the
     * saved file and index it. `open` gives the message of the error that
     * opening a path for writing raises, if any, and `write` how copying the
     * bytes into the opened file ends. A failed open creates nothing; a failed
     * write leaves the bytes written so far under the name. The file stays
     * saved when loading or indexing fails.
     */
    method UploadFile(disk: Loader.Disk, open: string -> Option<string>, write: (string, seq<bv8>) -> WriteOutcome,
                      index: seq<Document> -> Option<string>, filename: string, content: seq<bv8>)
      returns (r: Result<UploadResponse, HttpError>)
      modifies this
      ensures exists name ::
        && IsUniqueName(old(files.Keys), filename, name)
        && (open(SavedPath(name)).Some? ==>
              files == old(files) && r == Failure(HttpError(500, ErrorPrefix + open(SavedPath(name)).value)))
        && (open(SavedPath(name)).None? ==>
              files == old(files)[name := Kept(content, write(SavedPath(name), content))])
        && (open(SavedPath(name)).None? && write(SavedPath(name), content).WriteFailed? ==>
              r == Failure(HttpError(500, ErrorPrefix + write(SavedPath(name), content).message)))
        && (open(SavedPath(name)).None? && write(SavedPath(name), content).Written? ==>
              r == Processed(disk, index, name))
      ensures r.Success? ==> IsUniqueName(old(files.Keys), filename, r.value.fileName)
    {
      var uniqueFilename := GetUniqueFilename(files.Keys, filename);
      var filePath := SavedPath(uniqueFilename);
      var openError := open(filePath);
      if openError.Some? {
        return Failure(HttpError(500, ErrorPrefix + openError.value));
      }
      var outcome := write(filePath, content);
      files := files[uniqueFilename := Kept(content, outcome)];
      if outcome.WriteFailed? {
        return Failure(HttpError(500, ErrorPrefix + outcome.message));
      }
      var docs := Loader.FileDocuments(disk, filePath);
      if docs.Failure? {
        return Failure(HttpError(500, ErrorPrefix + docs.error.message));
      }
      var indexError := index(docs.value);
      if indexError.Some? {
        return Failure(HttpError(500, ErrorPrefix + indexError.value));
      }
      return Success(UploadResponse("success", SuccessMessage, uniqueFilename));
    }
  }
}
