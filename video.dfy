/**
 * The naming helpers of the video model: where a TMK signature file is
 * written, the program name TMK files carry, and the bucket they are
 * uploaded to.
 */
module Video {
  import opened Wrappers
  import opened Strings

  /** The model's working directory. */
  const DIRECTORY: string := "./video_files"

  /** The program name written into every TMK file. */
  const TMK_PROGRAM_NAME: string := "PrestoVideoEncoder"

  const TMK_SUFFIX: string := ".tmk"
  const BUCKET_SUFFIX: string := "tmk-videos"
  const LOCAL_PREFIX: string := "local-"

  /** `tmk_file_path(filename)`: the file's TMK signature path in the directory. */
  function TmkFilePath(directory: string, filename: string): (path: string)
    ensures |path| == |directory| + 1 + |filename| + 4
    ensures EndsWith(path, TMK_SUFFIX)
  {
    directory + "/" + filename + TMK_SUFFIX
  }

  /** The file name can be read back from its path: the path determines it. */
  lemma TmkFilePathInverse(directory: string, filename: string)
    ensures var path := TmkFilePath(directory, filename);
      path[..|directory|] == directory && path[|directory|] == '/'
      && path[|directory| + 1..|path| - 4] == filename
  {
    var path := TmkFilePath(directory, filename);
    assert path == directory + ("/" + filename + TMK_SUFFIX);
  }

  /** A file `f` in the model's working directory has its signature at `./video_files/f.tmk`. */
  lemma TmkFilePathInDirectory(filename: string)
    ensures TmkFilePath(DIRECTORY, filename) == "./video_files/" + filename + ".tmk"
    ensures TmkFilePath(DIRECTORY, filename)[..14] == "./video_files/"
  {
    var path := TmkFilePath(DIRECTORY, filename);
    assert path == "./video_files/" + (filename + ".tmk");
  }

  /** `tmk_program_name()`. */
  function TmkProgramName(): (name: string)
    ensures name == "PrestoVideoEncoder"
    ensures |name| > 0 && ' ' !in name
  {
    TMK_PROGRAM_NAME
  }

  /**
   * The bucket prefix: the queue prefix with `.` replaced by `__` and then
   * `_` by `-`; an absent or empty prefix gives `local-`.
   */
  function TmkPrefix(queuePrefix: Option<string>): string {
    var dashed := Replace(Replace(if queuePrefix.Some? then queuePrefix.value else "", ".", "__"), "_", "-");
    if dashed == "" then LOCAL_PREFIX else dashed
  }

  /** `tmk_bucket()`: the bucket TMK files are uploaded to, for the `QUEUE_PREFIX` setting. */
  function TmkBucket(queuePrefix: Option<string>): (bucket: string)
    ensures queuePrefix.None? || queuePrefix.value == "" ==> bucket == "local-tmk-videos"
    ensures EndsWith(bucket, BUCKET_SUFFIX)
    ensures '.' !in bucket && '_' !in bucket
  {
    var s := if queuePrefix.Some? then queuePrefix.value else "";
    ReplaceCharRemoves(s, '.', "__");
    ReplaceCharKeepsAbsent(Replace(s, ".", "__"), '_', "-", '.');
    ReplaceCharRemoves(Replace(s, ".", "__"), '_', "-");
    TmkPrefix(queuePrefix) + BUCKET_SUFFIX
  }

  /** Each character as the prefix renders it: `.` becomes `--`, `_` becomes `-`, the rest stay. */
  function DashedChar(c: char): string {
    if c == '.' then "--" else if c == '_' then "-" else [c]
  }

  /** The prefix rendering, character by character: the reference the two replacements are checked against. */
  function Dashed(s: string): (r: string)
    ensures |r| >= |s|
  {
    if s == [] then [] else DashedChar(s[0]) + Dashed(s[1..])
  }

  /** The two replacements together render each character on its own. */
  lemma {:induction false} ReplacementsDashed(s: string)
    ensures Replace(Replace(s, ".", "__"), "_", "-") == Dashed(s)
    decreases |s|
  {
    if s != [] {
      var c, rest := s[0], s[1..];
      assert s == [c] + rest;
      ReplaceCharConcat([c], rest, '.', "__");
      ReplaceCharConcat(Replace([c], ".", "__"), Replace(rest, ".", "__"), '_', "-");
      ReplacementsDashed(rest);
      if c == '.' {
        assert Replace([c], ".", "__") == "__";
        assert Replace("__", "_", "-") == "--";
      } else if c == '_' {
        assert Replace([c], ".", "__") == [c];
        assert Replace([c], "_", "-") == "-";
      } else {
        assert Replace([c], ".", "__") == [c];
        assert Replace([c], "_", "-") == [c];
      }
    }
  }

  /** A non-empty queue prefix gives its character-by-character rendering followed by `tmk-videos`. */
  lemma TmkBucketOfPrefix(prefix: string)
    requires prefix != ""
    ensures TmkBucket(Some(prefix)) == Dashed(prefix) + BUCKET_SUFFIX
  {
    ReplacementsDashed(prefix);
  }
}
