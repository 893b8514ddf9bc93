/**
 * File uploads: the numbering of successive archives for one upload key,
 * the file names and paths they are saved under, and the lookups of the
 * most recent one. The `FileUpload` table is a sequence of rows in
 * insertion order; matching uses SQLite's `LIKE`, whose `_` matches any
 * one character, whose `%` matches any run, and which ignores the case of
 * ASCII letters.
 */
module Uploads {
  import opened Outcomes
  import opened Text
  import opened Dicts

  /** A `FileUpload` row; `uploadedAt` is the time already in "%Y-%m-%d %H:%M:%S" form. */
  datatype Upload = Upload(fileName: string, filePath: string, submissionNumber: int,
                           uploadedAt: string, containedFiles: seq<string>)

  // ---------------------------------------------------------------------------
  // LIKE

  /** `s LIKE p` without an escape character. */
  predicate Like(s: string, p: string)
    decreases |s| + |p|
  {
    if p == [] then s == []
    else if p[0] == '%' then Like(s, p[1..]) || (s != [] && Like(s[1..], p))
    else if p[0] == '_' then s != [] && Like(s[1..], p[1..])
    else s != [] && LowerChar(s[0]) == LowerChar(p[0]) && Like(s[1..], p[1..])
  }

  /** `%` alone matches every string. */
  lemma {:induction false} LikeAny(s: string)
    ensures Like(s, "%")
  {
    if s != [] {
      LikeAny(s[1..]);
    }
  }

  /** The pattern `"<key>_%"` used to find the uploads of `key`. */
  function KeyPattern(key: string): string {
    key + "_%"
  }

  /** Every name built as `"<key>_<rest>"` matches the key's pattern, whatever the key contains. */
  lemma {:induction false} LikeKeyName(key: string, rest: string)
    ensures Like(key + "_" + rest, KeyPattern(key))
  {
    var s, p := key + "_" + rest, KeyPattern(key);
    if key == [] {
      assert s[1..] == rest && p[1..] == "%";
      LikeAny(rest);
    } else {
      assert s[1..] == key[1..] + "_" + rest && p[1..] == KeyPattern(key[1..]);
      LikeKeyName(key[1..], rest);
      if key[0] == '%' {
        assert Like(s[1..], p[1..]);
        assert Like(s[1..], p);
      }
    }
  }

  /**
   * `_` in the pattern is a wildcard: the uploads of key "k1" are counted
   * among those of key "k", so is a name with any character after the key,
   * and the case of letters is ignored; the key alone does not match.
   */
  lemma WildcardMatches()
    ensures Like("k1_5.zip", KeyPattern("k"))
    ensures Like("K_1.zip", KeyPattern("k"))
    ensures Like("k.zip", KeyPattern("k"))
    ensures !Like("k", KeyPattern("k"))
  {
    var s := "k1_5.zip";
    LikeAny(s[2..]);
    assert s[2..] == "_5.zip";
    var t := "K_1.zip";
    LikeAny(t[2..]);
    assert t[2..] == "1.zip";
    var u := "k.zip";
    LikeAny(u[2..]);
    assert u[1..] == ".zip" && u[2..] == "zip";
  }

  // ---------------------------------------------------------------------------
  // Lookups

  predicate MatchesKey(row: Upload, key: string) {
    Like(row.fileName, KeyPattern(key))
  }

  /**
   * The first row of `filter(file_name LIKE "<key>_%").order_by(submission_number
   * desc)`: a matching row with the highest number, the earliest stored
   * among equals.
   */
  function Latest(rows: seq<Upload>, key: string): (r: Option<Upload>)
    ensures r.None? <==> forall j :: 0 <= j < |rows| ==> !MatchesKey(rows[j], key)
    ensures r.Some? ==> r.value in rows && MatchesKey(r.value, key)
    ensures r.Some? ==> forall j :: 0 <= j < |rows| && MatchesKey(rows[j], key) ==>
      rows[j].submissionNumber <= r.value.submissionNumber
  {
    if rows == [] then None
    else
      var rest := Latest(rows[1..], key);
      assert forall j :: 1 <= j < |rows| ==> rows[j] == rows[1..][j - 1];
      if MatchesKey(rows[0], key) && (rest.None? || rest.value.submissionNumber <= rows[0].submissionNumber) then
        Some(rows[0])
      else rest
  }

  /** `get_latest_submission_number`: the highest number among the key's uploads, 0 when there is none. */
  function LatestSubmissionNumber(rows: seq<Upload>, key: string): int {
    match Latest(rows, key)
    case Some(u) => u.submissionNumber
    case None => 0
  }

  /** `get_most_recent_file`: the path or the name of the latest upload, `None` without one. */
  function MostRecentFile(rows: seq<Upload>, key: string, path: bool): (r: Option<string>)
    ensures r.None? <==> forall j :: 0 <= j < |rows| ==> !MatchesKey(rows[j], key)
    ensures r.Some? ==> exists u :: (u in rows && MatchesKey(u, key) &&
      r.value == (if path then u.filePath else u.fileName) &&
      u.submissionNumber == LatestSubmissionNumber(rows, key))
  {
    match Latest(rows, key)
    case Some(u) => Some(if path then u.filePath else u.fileName)
    case None => None
  }

  /** The upload time of the key's latest upload, if any. */
  function RecentStamp(rows: seq<Upload>, key: string): Option<string> {
    match Latest(rows, key)
    case Some(u) => Some(u.uploadedAt)
    case None => None
  }

  // ---------------------------------------------------------------------------
  // Names and paths

  /** `os.path.join(dir, name)`: an absolute name replaces the directory. */
  function PathJoin(dir: string, name: string): (r: string)
    ensures |name| > 0 && name[0] == '/' ==> r == name
    ensures |r| >= |name| && r[|r| - |name|..] == name
  {
    if |name| > 0 && name[0] == '/' then name
    else if dir == [] || dir[|dir| - 1] == '/' then dir + name
    else dir + "/" + name
  }

  /** The archive name of submission `n` of `key`. */
  function ArchiveName(key: string, n: int, ext: string): string {
    key + "_" + IntToString(n) + "." + ext
  }

  /** `construct_file_save_path`: the next archive, always with the .zip extension. */
  function ConstructFileSavePath(rows: seq<Upload>, dir: string, key: string): string {
    PathJoin(dir, ArchiveName(key, LatestSubmissionNumber(rows, key) + 1, "zip"))
  }

  /** The archive extension: the configured upload format, "zip" when none is set. */
  function Extension(format: Option<string>): string {
    format.GetOr("zip")
  }

  /**
   * The uploads table with its directory and the configured archive format.
   */
  class UploadTable {
    var rows: seq<Upload>
    var uploadDir: string
    var format: Option<string>

    constructor (dir: string, format: Option<string>)
      ensures rows == [] && uploadDir == dir && this.format == format
    {
      rows, uploadDir, this.format := [], dir, format;
    }

    /**
     * `save_uploaded_file`: `safeNames` are the `secure_filename` forms of the
     * uploaded files' names, in upload order. Files whose safe name is empty
     * are skipped, the rest go into the archive numbered one past the latest,
     * and one row records it.
     */
    method SaveUploadedFile(key: string, safeNames: seq<string>, now: string) returns (path: string)
      modifies this`rows
      ensures var n := LatestSubmissionNumber(old(rows), key) + 1;
        var name := ArchiveName(key, n, Extension(format));
        path == PathJoin(uploadDir, name) &&
        rows == old(rows) + [Upload(name, path, n, now, NonEmpty(safeNames))]
    {
      var next := LatestSubmissionNumber(rows, key) + 1;
      var name := ArchiveName(key, next, Extension(format));
      path := PathJoin(uploadDir, name);
      var inner: seq<string> := [];
      var i := 0;
      while i < |safeNames|
        invariant 0 <= i <= |safeNames|
        invariant inner == NonEmpty(safeNames[..i])
      {
        assert safeNames[..i + 1][..i] == safeNames[..i];
        if safeNames[i] != "" {
          inner := inner + [safeNames[i]];
        }
        i := i + 1;
      }
      assert safeNames[..i] == safeNames;
      rows := rows + [Upload(name, path, next, now, inner)];
    }

    /**
     * `get_most_recent_uploads`: every requested key, each with the time of
     * its latest upload or `None`.
     */
    method MostRecentUploads(keys: seq<string>) returns (uploads: Dict<Option<string>>)
      ensures Valid(uploads)
      ensures forall k :: Get(uploads, k) == if k in keys then Some(RecentStamp(rows, k)) else None
    {
      uploads := [];
      var i := 0;
      while i < |keys|
        invariant 0 <= i <= |keys|
        invariant Valid(uploads)
        invariant forall k :: Get(uploads, k) == if k in keys[..i] then Some(RecentStamp(rows, k)) else None
      {
        var key := keys[i];
        ValidPut(uploads, key, RecentStamp(rows, key));
        GetPutEvery(uploads, key, RecentStamp(rows, key));
        assert forall k :: k in keys[..i + 1] <==> k in keys[..i] || k == key by {
          assert keys[..i + 1] == keys[..i] + [key];
        }
        uploads := Put(uploads, key, RecentStamp(rows, key));
        i := i + 1;
      }
      assert keys[..i] == keys;
    }
  }

  /** The safe names kept for the archive: the non-empty ones, in order. */
  function NonEmpty(names: seq<string>): (r: seq<string>)
    ensures forall x :: x in r <==> x in names && x != ""
    ensures |r| <= |names|
  {
    if names == [] then []
    else
      var init := NonEmpty(names[..|names| - 1]);
      var last := names[|names| - 1];
      assert forall x :: x in names <==> x in names[..|names| - 1] || x == last by {
        assert names == names[..|names| - 1] + [last];
      }
      if last == "" then init else init + [last]
  }

  // ---------------------------------------------------------------------------
  // Properties

  /**
   * After a save, the key's latest number is one more than before: the new
   * row matches the key's pattern and outnumbers every row that did.
   */
  lemma SaveAdvancesNumber(rows: seq<Upload>, key: string, ext: string, path: string, now: string, files: seq<string>)
    ensures var n := LatestSubmissionNumber(rows, key) + 1;
      LatestSubmissionNumber(rows + [Upload(ArchiveName(key, n, ext), path, n, now, files)], key) == n
  {
    var n := LatestSubmissionNumber(rows, key) + 1;
    var row := Upload(ArchiveName(key, n, ext), path, n, now, files);
    var rows' := rows + [row];
    assert ArchiveName(key, n, ext) == key + "_" + (IntToString(n) + "." + ext);
    LikeKeyName(key, IntToString(n) + "." + ext);
    assert MatchesKey(rows'[|rows|], key);
  }

  /**
   * Saving with a format other than "zip" names the archive differently
   * from the path `construct_file_save_path` announces for it.
   */
  lemma SavePathIgnoresFormat(rows: seq<Upload>, dir: string, key: string, ext: string)
    requires ext != "zip"
    ensures ConstructFileSavePath(rows, dir, key) !=
      PathJoin(dir, ArchiveName(key, LatestSubmissionNumber(rows, key) + 1, ext))
  {
    var n := LatestSubmissionNumber(rows, key) + 1;
    var a, b := ArchiveName(key, n, "zip"), ArchiveName(key, n, ext);
    var pre := key + "_" + IntToString(n) + ".";
    assert a == pre + "zip" && b == pre + ext;
    assert a[0] == b[0] by {
      if key == [] {
        assert a[0] == '_' && b[0] == '_';
      } else {
        assert a[0] == key[0] && b[0] == key[0];
      }
    }
    assert a[|pre|..] == "zip" && b[|pre|..] == ext;
  }
}
