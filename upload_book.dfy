/** The upload form: the dropped file, the title auto-fill, submit enablement and the book it adds. */
module UploadBook {
  import opened Wrappers
  import opened Api
  import opened Text
  import Stores

  /** `name` ends in an extension that starts at `k`: a dot followed by one or more dot-free characters. */
  predicate ExtensionAt(name: string, k: int) {
    && 0 <= k < |name| - 1
    && name[k] == '.'
    && forall i :: k < i < |name| ==> name[i] != '.'
  }

  /** The index where the longest dot-free suffix of `s` starts. */
  function DotFreeSuffixStart(s: string): (j: nat)
    ensures j <= |s|
    ensures forall i :: j <= i < |s| ==> s[i] != '.'
    ensures j > 0 ==> s[j - 1] == '.'
  {
    if s == [] || s[|s| - 1] == '.' then |s|
    else DotFreeSuffixStart(s[..|s| - 1])
  }

  /**
   * `name.replace(/\.[^.]+$/, '')`: the last dot and the non-empty,
   * dot-free text after it are dropped; a name without such an ending
   * (no dot, or a dot at the very end) is kept whole.
   */
  function StripExtension(name: string): (stem: string)
    ensures |stem| <= |name| && stem == name[..|stem|]
    ensures stem != name ==> ExtensionAt(name, |stem|)
    ensures (forall k :: !ExtensionAt(name, k)) ==> stem == name
  {
    var j := DotFreeSuffixStart(name);
    if 0 < j < |name| then name[..j - 1] else name
  }

  /** At most one position can start an extension: it is the last dot. */
  lemma ExtensionUnique(name: string, k: int, m: int)
    requires ExtensionAt(name, k) && ExtensionAt(name, m)
    ensures k == m
  {
  }

  /** Whenever the name has an extension, exactly that extension is what goes. */
  lemma StripExtensionDropsTheExtension(name: string, k: int)
    requires ExtensionAt(name, k)
    ensures StripExtension(name) == name[..k]
  {
    var j := DotFreeSuffixStart(name);
    assert j == k + 1;
  }

  /** `authors || undefined`: the empty string is sent and stored as absent. */
  function OptionalAuthors(authors: string): (a: Option<string>)
    ensures a.None? <==> authors == ""
    ensures a.Some? ==> a.value == authors
  {
    if authors == "" then None else Some(authors)
  }

  datatype Mode = FileMode | TextMode

  /** The request the form sends. */
  datatype UploadRequest =
    | FileUpload(title: string, fileName: string, authors: Option<string>)
    | TextUpload(title: string, authors: Option<string>, rawText: string)

  class UploadForm {
    var mode: Mode
    var title: string
    var authors: string
    var rawText: string
    /** The chosen file, by name. */
    var file: Option<string>
    /** A mutation is in flight. */
    var pending: bool
    /** The page navigated to after a successful upload. */
    var navigated: Option<string>

    constructor ()
      ensures mode == FileMode && title == "" && authors == "" && rawText == ""
      ensures file == None && !pending && navigated == None
    {
      mode, title, authors, rawText := FileMode, "", "", "";
      file, pending, navigated := None, false, None;
    }

    /**
     * `onDrop`: only the first accepted file is taken; the title is filled
     * from its name only while the title is empty; nothing happens for an
     * empty list.
     */
    method OnDrop(accepted: seq<string>)
      modifies this
      ensures accepted == [] ==> unchanged(this)
      ensures accepted != [] ==> file == Some(accepted[0])
      ensures accepted != [] && old(title) == "" ==> title == StripExtension(accepted[0])
      ensures old(title) != "" ==> title == old(title)
      ensures mode == old(mode) && authors == old(authors) && rawText == old(rawText)
      ensures pending == old(pending) && navigated == old(navigated)
    {
      if |accepted| > 0 {
        file := Some(accepted[0]);
        if title == "" {
          title := StripExtension(accepted[0]);
        }
      }
    }

    /**
     * A title with a non-blank character, a file in file mode or non-blank
     * text in text mode, and no upload in flight.
     */
    function CanSubmit(): (ok: bool)
      reads this
      ensures ok <==> !Blank(title) && !pending &&
                      (if mode == FileMode then file.Some? else !Blank(rawText))
    {
      TrimBlank(title);
      TrimBlank(rawText);
      Trim(title) != "" && (if mode == FileMode then file.Some? else |Trim(rawText)| > 0) && !pending
    }

    /** `handleSubmit`, reachable through the enabled submit button: sends the form as typed. */
    method Submit() returns (request: UploadRequest)
      requires CanSubmit()
      modifies this
      ensures pending
      ensures mode == FileMode ==> old(file).Some? && request == FileUpload(title, old(file).value, OptionalAuthors(authors))
      ensures mode == TextMode ==> request == TextUpload(title, OptionalAuthors(authors), rawText)
      ensures title == old(title) && authors == old(authors) && rawText == old(rawText)
      ensures mode == old(mode) && file == old(file) && navigated == old(navigated)
    {
      pending := true;
      if mode == FileMode {
        request := FileUpload(title, file.value, OptionalAuthors(authors));
      } else {
        request := TextUpload(title, OptionalAuthors(authors), rawText);
      }
    }

    /**
     * The mutation settles: on success the book is added to the store under
     * the server's id, with the form's title and its authors or none, and
     * the page goes to its topics; on failure only the pending flag drops.
     */
    method Complete(bookId: Option<string>, store: Stores.BookStore, now: string)
      requires pending
      modifies this, store
      ensures !pending
      ensures title == old(title) && authors == old(authors) && rawText == old(rawText)
      ensures mode == old(mode) && file == old(file)
      ensures bookId.None? ==> navigated == old(navigated) && unchanged(store)
      ensures bookId.Some? ==> navigated == Some("/books/" + bookId.value + "/topics")
      ensures bookId.Some? ==>
        store.all == [Stores.Owned(LocalBook(bookId.value, title, OptionalAuthors(authors), now, []),
                                   Stores.CurrentUserId(store.auth))] + old(store.all)
      ensures bookId.Some? ==> store.Scoped()
    {
      pending := false;
      if bookId.Some? {
        store.AddBook(NewBook(bookId.value, title, OptionalAuthors(authors)), now);
        navigated := Some("/books/" + bookId.value + "/topics");
      }
    }
  }

  /** A few file names and their stems. */
  lemma StemExamples()
    ensures StripExtension("notes.txt") == "notes"
    ensures StripExtension("a.b.pdf") == "a.b"
    ensures StripExtension("file.") == "file."
    ensures StripExtension("README") == "README"
    ensures StripExtension(".bashrc") == ""
  {
    StripExtensionDropsTheExtension("notes.txt", 5);
    StripExtensionDropsTheExtension("a.b.pdf", 3);
    StripExtensionDropsTheExtension(".bashrc", 0);
    assert forall k :: !ExtensionAt("file.", k);
    assert forall k :: !ExtensionAt("README", k);
  }
}
