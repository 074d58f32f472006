/**
 * The local file system as the program uses it (read_file_if_exists and
 * write_file in chatgpt/chatgpt.py): a map from path to file contents.
 * Files are read in Python's text mode, whose universal-newline translation
 * turns "\r\n" and a lone "\r" into "\n".
 */
module FileStore {
  import opened Wrappers

  /** The text a text-mode read returns for the stored characters s. */
  function UniversalNewlines(s: string): (r: string)
    ensures |r| <= |s|
    ensures |r| == 0 <==> |s| == 0
    ensures forall i :: 0 <= i < |r| ==> r[i] != '\r'
    decreases |s|
  {
    if |s| == 0 then ""
    else if s[0] == '\r' then "\n" + UniversalNewlines(if |s| > 1 && s[1] == '\n' then s[2..] else s[1..])
    else [s[0]] + UniversalNewlines(s[1..])
  }

  /** Text comes back from a read exactly as written if and only if it holds no carriage return. */
  lemma {:induction false} UniversalNewlinesIdentityIff(s: string)
    ensures UniversalNewlines(s) == s <==> '\r' !in s
    decreases |s|
  {
    if |s| > 0 && s[0] != '\r' {
      UniversalNewlinesIdentityIff(s[1..]);
      assert s == [s[0]] + s[1..];
    }
    if '\r' in s {
      var i :| 0 <= i < |s| && s[i] == '\r';
      assert |UniversalNewlines(s)| != |s| || UniversalNewlines(s)[i] != s[i];
    }
  }

  /** Reading a file twice over (as when a read value is written back) changes nothing more. */
  lemma UniversalNewlinesIdempotent(s: string)
    ensures UniversalNewlines(UniversalNewlines(s)) == UniversalNewlines(s)
  {
    UniversalNewlinesIdentityIff(UniversalNewlines(s));
  }

  /**
   * read_file_if_exists over the contents `files`: the file's text, or None
   * (never a failure) for a missing path.
   */
  function ReadFileIfExists(files: map<string, string>, path: string): (r: Option<string>)
    ensures r.None? <==> path !in files
    ensures r.Some? ==> '\r' !in r.value && (r.value == "" <==> files[path] == "")
  {
    if path in files then Some(UniversalNewlines(files[path])) else None
  }

  /** The file system: the contents of every existing file, by path. */
  class FileSystem {
    var files: map<string, string>

    constructor (initial: map<string, string>)
      ensures files == initial
    {
      files := initial;
    }

    /**
     * write_file: the path now holds exactly the content, every other path is
     * as before, and reading the path back gives the content with its line
     * endings normalised (the content itself when it has no "\r").
     */
    method WriteFile(path: string, content: string)
      modifies this
      ensures files == old(files)[path := content]
      ensures ReadFileIfExists(files, path) == Some(UniversalNewlines(content))
      ensures '\r' !in content ==> ReadFileIfExists(files, path) == Some(content)
      ensures forall p :: p != path ==> ReadFileIfExists(files, p) == ReadFileIfExists(old(files), p)
    {
      files := files[path := content];
      UniversalNewlinesIdentityIff(content);
    }
  }
}
