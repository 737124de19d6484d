/** The plain-text document store of the first tab: file-name rules, and
    saving, loading, deleting and listing `.txt` files in the documents
    directory, which is modelled as a map from entry name to text. */
module TextFiles {
  import opened Wrappers
  import opened Text

  // ---------------------------------------------------------------------------
  // Errors

  /** `TextFileManagerError`; a wrapped system error is carried as its
      description. */
  datatype TextFileManagerError =
    | DocumentsDirectoryNotFound
    | InvalidFileName
    | FileNotFound
    | WriteError(cause: string)
    | AppendError(cause: string)
    | ReadError(cause: string)
    | DeleteError(cause: string)
    | DirectoryListingError(cause: string)

  /** `errorDescription`, the text the alerts show. */
  function ErrorDescription(e: TextFileManagerError): (d: string)
    ensures d != []
    ensures e.WriteError? || e.AppendError? || e.ReadError? || e.DeleteError? || e.DirectoryListingError? ==>
      HasSuffix(d, e.cause)
  {
    match e
    case DocumentsDirectoryNotFound => "Documents directory not found"
    case InvalidFileName => "Invalid file name provided"
    case FileNotFound => "File not found"
    case WriteError(c) => AppendedHasSuffix("Failed to write file: ", c); "Failed to write file: " + c
    case AppendError(c) => AppendedHasSuffix("Failed to append to file: ", c); "Failed to append to file: " + c
    case ReadError(c) => AppendedHasSuffix("Failed to read file: ", c); "Failed to read file: " + c
    case DeleteError(c) => AppendedHasSuffix("Failed to delete file: ", c); "Failed to delete file: " + c
    case DirectoryListingError(c) =>
      AppendedHasSuffix("Failed to list directory contents: ", c); "Failed to list directory contents: " + c
  }

  /** What tells the descriptions apart: the first two characters, and for
      the "Failed to" messages the letter after "Failed to " and the length
      of the text before the cause. */
  lemma DescriptionShape(e: TextFileManagerError)
    ensures var d := ErrorDescription(e);
      && |d| > 10
      && (e.DocumentsDirectoryNotFound? ==> d[0] == 'D')
      && (e.InvalidFileName? ==> d[0] == 'I')
      && (e.FileNotFound? ==> d[0] == 'F' && d[1] == 'i')
      && (e.WriteError? ==> d[0] == 'F' && d[1] == 'a' && d[10] == 'w' && |d| == 22 + |e.cause|)
      && (e.AppendError? ==> d[0] == 'F' && d[1] == 'a' && d[10] == 'a' && |d| == 26 + |e.cause|)
      && (e.ReadError? ==> d[0] == 'F' && d[1] == 'a' && d[10] == 'r' && |d| == 21 + |e.cause|)
      && (e.DeleteError? ==> d[0] == 'F' && d[1] == 'a' && d[10] == 'd' && |d| == 23 + |e.cause|)
      && (e.DirectoryListingError? ==> d[0] == 'F' && d[1] == 'a' && d[10] == 'l' && |d| == 35 + |e.cause|)
  {
  }

  /** Different errors never read the same, so an alert identifies its
      error. */
  lemma ErrorDescriptionInjective(e1: TextFileManagerError, e2: TextFileManagerError)
    requires e1 != e2
    ensures ErrorDescription(e1) != ErrorDescription(e2)
  {
    DescriptionShape(e1);
    DescriptionShape(e2);
  }

  // ---------------------------------------------------------------------------
  // File names

  /** The nine characters a file name may not contain. */
  const InvalidChars: set<char> := {'/', '\\', ':', '*', '?', '"', '<', '>', '|'}

  /** `isValidFileName`: non-empty, none of the nine characters, and nothing
      to trim at either end. */
  predicate IsValidFileName(n: string) {
    n != [] && PassesContainsTests(n) && Trim(n) == n
  }

  /** The nine `contains` tests of `isValidFileName` all fail. */
  predicate PassesContainsTests(n: string) {
    && !Contains(n, "/")
    && !Contains(n, "\\")
    && !Contains(n, ":")
    && !Contains(n, "*")
    && !Contains(n, "?")
    && !Contains(n, "\"")
    && !Contains(n, "<")
    && !Contains(n, ">")
    && !Contains(n, "|")
  }

  /** A one-character needle is contained exactly when that character
      occurs. */
  lemma {:induction false} ContainsChar(s: string, c: char)
    ensures Contains(s, [c]) <==> c in s
    decreases |s|
  {
    if s != [] {
      ContainsChar(s[1..], c);
      assert s == [s[0]] + s[1..];
    }
  }

  /** The nine containment tests together say that no character of the
      name is one of the nine. */
  lemma NoInvalidCharIff(n: string)
    ensures PassesContainsTests(n) <==> forall i :: 0 <= i < |n| ==> n[i] !in InvalidChars
  {
    ContainsChar(n, '/');
    ContainsChar(n, '\\');
    ContainsChar(n, ':');
    ContainsChar(n, '*');
    ContainsChar(n, '?');
    ContainsChar(n, '"');
    ContainsChar(n, '<');
    ContainsChar(n, '>');
    ContainsChar(n, '|');
  }

  /** A name is valid exactly when it is non-empty, has none of the nine
      characters anywhere, and starts and ends with a character that is not
      whitespace or a newline. */
  lemma ValidFileNameIff(n: string)
    ensures IsValidFileName(n) <==>
      && n != []
      && (forall i :: 0 <= i < |n| ==> n[i] !in InvalidChars)
      && !IsWhitespaceOrNewline(n[0]) && !IsWhitespaceOrNewline(n[|n| - 1])
  {
    NoInvalidCharIff(n);
    TrimIsIdentityIff(n);
  }

  /** `sanitizeFileName`: the name cut at each of the nine characters and
      glued back with `_`, which puts `_` in place of each of them. */
  function SanitizeFileName(n: string): (r: string)
    ensures |r| == |n|
    ensures forall i :: 0 <= i < |n| ==> r[i] == if n[i] in InvalidChars then '_' else n[i]
    ensures forall i :: 0 <= i < |r| ==> r[i] !in InvalidChars
  {
    JoinComponentsIsSubstitute(n, InvalidChars, '_');
    assert forall i :: 0 <= i < |n| ==>
        Substitute(n, InvalidChars, '_')[i] == if n[i] in InvalidChars then '_' else n[i] by {
      forall i | 0 <= i < |n| {
        SubstituteAt(n, InvalidChars, '_', i);
      }
    }
    Join(Components(n, InvalidChars), "_")
  }

  /** Sanitizing a name that passed the validity check changes nothing. */
  lemma SanitizeValidIsIdentity(n: string)
    requires IsValidFileName(n)
    ensures SanitizeFileName(n) == n
  {
    ValidFileNameIff(n);
  }

  /** The file a save writes, `<name>.txt`, itself passes the validity check,
      so it can be loaded and deleted under that name. */
  lemma SavedNameIsValid(n: string)
    requires IsValidFileName(n)
    ensures IsValidFileName(n + ".txt")
  {
    ValidFileNameIff(n);
    var m := n + ".txt";
    assert m[0] == n[0] && m[|m| - 1] == 't';
    assert forall i :: 0 <= i < |m| ==> m[i] !in InvalidChars by {
      assert forall i :: 0 <= i < |n| ==> m[i] == n[i];
      assert forall i :: |n| <= i < |m| ==> m[i] == ".txt"[i - |n|];
    }
    ValidFileNameIff(m);
  }

  // ---------------------------------------------------------------------------
  // Listing order

  /** A non-empty set of names has one that sorts first, ignoring case. */
  lemma {:induction false} FirstNameExists(s: set<string>)
    requires s != {}
    ensures exists m :: m in s && forall o :: o in s ==> CaseInsensitiveLeq(m, o)
    decreases |s|
  {
    var x :| x in s;
    if s == {x} {
      LexLeqTotal(Lower(x), Lower(x));
      assert forall o :: o in s ==> o == x;
    } else {
      FirstNameExists(s - {x});
      var m :| m in s - {x} && forall o :: o in s - {x} ==> CaseInsensitiveLeq(m, o);
      LexLeqTotal(Lower(x), Lower(m));
      if CaseInsensitiveLeq(m, x) {
        assert forall o :: o in s ==> CaseInsensitiveLeq(m, o);
      } else {
        forall o | o in s
          ensures CaseInsensitiveLeq(x, o)
        {
          if o != x {
            assert o in s - {x};
            LexLeqTransitive(Lower(x), Lower(m), Lower(o));
          } else {
            LexLeqTotal(Lower(x), Lower(x));
          }
        }
      }
    }
  }

  /** The directory's `.txt` entries. */
  ghost function TextEntries(documents: map<string, string>): set<string> {
    set n | n in documents && HasSuffix(n, ".txt")
  }

  /** `files` lists each `.txt` entry of the directory once, in ascending
      case-insensitive order. */
  ghost predicate ListsTextEntries(files: seq<string>, documents: map<string, string>) {
    && (forall i :: 0 <= i < |files| ==> files[i] in TextEntries(documents))
    && (forall n :: n in TextEntries(documents) ==> n in files)
    && (forall i, j :: 0 <= i < j < |files| ==> files[i] != files[j])
    && (forall i, j :: 0 <= i < j < |files| ==> CaseInsensitiveLeq(files[i], files[j]))
  }

  /** Part way through listing `entries` by repeatedly taking the first of
      the `remaining` ones: `files` holds the others, once each, in order,
      and none sorts after a remaining one. */
  ghost predicate SelectedInOrder(files: seq<string>, remaining: set<string>, entries: set<string>) {
    && remaining <= entries
    && (forall i :: 0 <= i < |files| ==> files[i] in entries && files[i] !in remaining)
    && (forall n :: n in entries ==> n in files || n in remaining)
    && (forall i, j :: 0 <= i < j < |files| ==> files[i] != files[j])
    && (forall i, j :: 0 <= i < j < |files| ==> CaseInsensitiveLeq(files[i], files[j]))
    && (forall i, o :: 0 <= i < |files| && o in remaining ==> CaseInsensitiveLeq(files[i], o))
  }

  /** Taking a first remaining name keeps the selection in order; when
      nothing remains the listing is complete. */
  lemma SelectNext(files: seq<string>, remaining: set<string>, entries: set<string>, m: string)
    requires SelectedInOrder(files, remaining, entries)
    requires m in remaining && forall o :: o in remaining ==> CaseInsensitiveLeq(m, o)
    ensures SelectedInOrder(files + [m], remaining - {m}, entries)
  {
  }

  /** A finished selection lists the directory's `.txt` entries. */
  lemma SelectionComplete(files: seq<string>, documents: map<string, string>)
    requires SelectedInOrder(files, {}, TextEntries(documents))
    ensures ListsTextEntries(files, documents)
  {
  }

  // ---------------------------------------------------------------------------
  // The store

  class TextFileManager {
    /** The documents directory: entry name to its text. */
    var documents: map<string, string>

    /** `init()` once the documents directory is found; the case where it is
        not is the view model's missing manager. */
    constructor(documents: map<string, string>)
      ensures this.documents == documents
    {
      this.documents := documents;
    }

    /** `fileExists(fileName:)`: false for every invalid name; otherwise
        whether the entry is there, which is when a load can succeed. */
    function FileExists(fileName: string): (exists_: bool)
      reads this
      ensures exists_ <==> IsValidFileName(fileName) && fileName in documents
      ensures exists_ <==> LoadTextFile(fileName, None).Success?
    {
      IsValidFileName(fileName) && fileName in documents
    }

    /** `loadTextFile(fileName:)`: the name is used exactly as given, with no
        `.txt` added; it is checked for validity, then for existence, then
        read, and `readError` is the outcome of a read that fails. */
    function LoadTextFile(fileName: string, readError: Option<string>): (r: Result<string, TextFileManagerError>)
      reads this
      ensures !IsValidFileName(fileName) ==> r == Failure(InvalidFileName)
      ensures IsValidFileName(fileName) && fileName !in documents ==> r == Failure(FileNotFound)
      ensures IsValidFileName(fileName) && fileName in documents && readError.Some? ==>
        r == Failure(ReadError(readError.value))
      ensures r.Success? <==> IsValidFileName(fileName) && fileName in documents && readError.None?
      ensures r.Success? ==> r.value == documents[fileName]
    {
      if !IsValidFileName(fileName) then Failure(InvalidFileName)
      else if fileName !in documents then Failure(FileNotFound)
      else if readError.Some? then Failure(ReadError(readError.value))
      else Success(documents[fileName])
    }

    /** `saveTextFile(content:fileName:)`: an invalid name is refused and
        nothing is written; otherwise `<sanitized name>.txt`, which is
        `<name>.txt`, is overwritten with the content, unless the write
        (atomic) fails with `writeError`. */
    method SaveTextFile(content: string, fileName: string, writeError: Option<string>)
      returns (r: Result<Unit, TextFileManagerError>)
      modifies this
      ensures !IsValidFileName(fileName) ==> r == Failure(InvalidFileName)
      ensures IsValidFileName(fileName) && writeError.Some? ==> r == Failure(WriteError(writeError.value))
      ensures r.Success? <==> IsValidFileName(fileName) && writeError.None?
      ensures r.Failure? ==> documents == old(documents)
      ensures r.Success? ==> documents == old(documents)[fileName + ".txt" := content]
    {
      if !IsValidFileName(fileName) {
        return Failure(InvalidFileName);
      }
      var sanitized := SanitizeFileName(fileName);
      SanitizeValidIsIdentity(fileName);
      if writeError.Some? {
        return Failure(WriteError(writeError.value));
      }
      documents := documents[sanitized + ".txt" := content];
      r := Success(Unit);
    }

    /** `appendTextToFile(content:fileName:)`, which the view model calls
        and whose body is not part of this model. `outcome` is what it did:
        the file's whole text afterwards, or the error it reported. A
        failure writes nothing; a success leaves `fileName` holding that
        text and every other entry as it was. */
    method AppendTextToFile(content: string, fileName: string, outcome: Result<string, TextFileManagerError>)
      returns (r: Result<Unit, TextFileManagerError>)
      modifies this
      ensures r.Success? <==> outcome.Success?
      ensures outcome.Failure? ==> r == Failure(outcome.error) && documents == old(documents)
      ensures outcome.Success? ==> documents == old(documents)[fileName := outcome.value]
    {
      match outcome {
        case Failure(error) =>
          r := Failure(error);
        case Success(text) =>
          documents := documents[fileName := text];
          r := Success(Unit);
      }
    }

    /** `deleteTextFile(fileName:)`: validity, then existence, then removal,
        which can fail with `deleteError`; on success only that entry goes. */
    method DeleteTextFile(fileName: string, deleteError: Option<string>)
      returns (r: Result<Unit, TextFileManagerError>)
      modifies this
      ensures !IsValidFileName(fileName) ==> r == Failure(InvalidFileName)
      ensures IsValidFileName(fileName) && fileName !in old(documents) ==> r == Failure(FileNotFound)
      ensures IsValidFileName(fileName) && fileName in old(documents) && deleteError.Some? ==>
        r == Failure(DeleteError(deleteError.value))
      ensures r.Success? <==> IsValidFileName(fileName) && fileName in old(documents) && deleteError.None?
      ensures r.Failure? ==> documents == old(documents)
      ensures r.Success? ==> documents == old(documents) - {fileName} && !FileExists(fileName)
    {
      if !IsValidFileName(fileName) {
        return Failure(InvalidFileName);
      }
      if fileName !in documents {
        return Failure(FileNotFound);
      }
      if deleteError.Some? {
        return Failure(DeleteError(deleteError.value));
      }
      documents := documents - {fileName};
      r := Success(Unit);
    }

    /** `getSavedFiles()`: the directory entries ending in `.txt`, sorted
        ascending ignoring case (names equal but for case in no particular
        order), or the listing failure `listingError`. */
    method GetSavedFiles(listingError: Option<string>) returns (r: Result<seq<string>, TextFileManagerError>)
      ensures listingError.Some? ==> r == Failure(DirectoryListingError(listingError.value))
      ensures listingError.None? ==> r.Success? && ListsTextEntries(r.value, documents)
    {
      if listingError.Some? {
        return Failure(DirectoryListingError(listingError.value));
      }
      var remaining := set n | n in documents && HasSuffix(n, ".txt");
      var files: seq<string> := [];
      while remaining != {}
        invariant SelectedInOrder(files, remaining, TextEntries(documents))
        decreases |remaining|
      {
        FirstNameExists(remaining);
        var m :| m in remaining && forall o :: o in remaining ==> CaseInsensitiveLeq(m, o);
        SelectNext(files, remaining, TextEntries(documents), m);
        files := files + [m];
        remaining := remaining - {m};
      }
      SelectionComplete(files, documents);
      r := Success(files);
    }
  }

  /** What a successful save wrote loads back: `<name>.txt` passes the
      validity check, so reading it gives the saved content. */
  lemma SavedFileLoads(store: TextFileManager, fileName: string, content: string)
    requires IsValidFileName(fileName)
    requires fileName + ".txt" in store.documents && store.documents[fileName + ".txt"] == content
    ensures store.LoadTextFile(fileName + ".txt", None) == Success(content)
    ensures store.FileExists(fileName + ".txt")
  {
    SavedNameIsValid(fileName);
  }
}
