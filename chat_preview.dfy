/**
 * The one-line preview under each chat in the chat list: a placeholder for
 * unread chats, an extension label for files, the text cut to 60
 * characters otherwise.
 */
module ChatPreview {
  import opened Common

  const UnreadPlaceholder := "Unread message"
  /** Shown for a direct file message that carries no URL. */
  const AttachedFile := "File đính kèm"
  const ShortLimit := 60

  /**
   * `getFileExtensionFromUrl`: the part of the last path segment after its
   * last dot, ignoring the query, followed by " file"; a segment without a
   * dot gives " file" alone, an empty URL gives "".
   */
  function FileExtensionFromUrl(url: string): (r: string)
    ensures url == "" <==> r == ""
    ensures url != "" ==>
              EndsWith(r, " file") && '?' !in r[..|r| - 5] && '/' !in r[..|r| - 5] && '.' !in r[..|r| - 5]
  {
    if url == "" then ""
    else
      var extension := Extension(url);
      assert (extension + " file")[..|extension|] == extension;
      extension + " file"
  }

  /** What follows the last dot of the URL's last path segment, query cut off; empty without a dot. */
  function Extension(url: string): (e: string)
    ensures '?' !in e && '/' !in e && '.' !in e
  {
    var path := BeforeFirst(url, '?');
    var fileName := AfterLast(path, '/');
    AbsentFromSuffix(path, |fileName|, '?');
    if '.' in fileName then
      var extension := AfterLast(fileName, '.');
      AbsentFromSuffix(fileName, |extension|, '?');
      AbsentFromSuffix(fileName, |extension|, '/');
      extension
    else ""
  }

  /** The query is cut off at the first '?'. */
  lemma PathBeforeQuery(dir: string, base: string, ext: string, query: string)
    requires '?' !in dir && '?' !in base && '?' !in ext
    requires query == "" || query[0] == '?'
    ensures BeforeFirst(dir + "/" + base + "." + ext + query, '?') == dir + "/" + base + "." + ext
  {
    var path := dir + "/" + base + "." + ext;
    assert '?' !in path by {
      forall k | 0 <= k < |path| ensures path[k] != '?' {
        if k < |dir| { assert path[k] == dir[k]; }
        else if k == |dir| { }
        else if k < |dir| + 1 + |base| { assert path[k] == base[k - |dir| - 1]; }
        else if k == |dir| + 1 + |base| { }
        else { assert path[k] == ext[k - |dir| - 2 - |base|]; }
      }
    }
    BeforeFirstAt(path, query, '?');
  }

  /** The file name is what follows the last '/'. */
  lemma NameAfterSlash(dir: string, name: string)
    requires '/' !in name
    ensures AfterLast(dir + "/" + name, '/') == name
  {
    AfterLastAt(dir, name, '/');
  }

  /** A dotted name has no '/' when neither of its parts has. */
  lemma DottedNameHasNoSlash(base: string, ext: string)
    requires '/' !in base && '/' !in ext
    ensures '/' !in base + "." + ext
  {
    var name := base + "." + ext;
    forall k | 0 <= k < |name| ensures name[k] != '/' {
      if k < |base| { assert name[k] == base[k]; }
      else if k == |base| { }
      else { assert name[k] == ext[k - |base| - 1]; }
    }
  }

  /** A URL built from a directory, a file name, an extension and a query gives back that extension. */
  lemma FileExtensionRoundTrip(dir: string, base: string, ext: string, query: string)
    requires '?' !in dir && '?' !in base && '/' !in base
    requires '?' !in ext && '/' !in ext && '.' !in ext
    requires query == "" || query[0] == '?'
    ensures FileExtensionFromUrl(dir + "/" + base + "." + ext + query) == ext + " file"
  {
    PathBeforeQuery(dir, base, ext, query);
    var name := base + "." + ext;
    DottedNameHasNoSlash(base, ext);
    assert dir + "/" + base + "." + ext == dir + "/" + name;
    NameAfterSlash(dir, name);
    assert name == base + ['.'] + ext;
    assert name[|base|] == '.';
    AfterLastAt(base, ext, '.');
  }

  /** `shortenLastMessage`: more than 60 characters become the first 57 and "...". */
  function Shorten(message: string): (r: string)
    ensures |r| <= ShortLimit
    ensures |message| <= ShortLimit ==> r == message
    ensures |message| > ShortLimit ==> |r| == ShortLimit && r[..57] == message[..57] && r[57..] == "..."
  {
    if |message| > ShortLimit then message[..57] + "..." else message
  }

  /** A group's last message: a missing content is "". */
  datatype GroupLast = GroupLast(messageType: Option<string>, content: string, fileUrl: string)

  /** `getGroupPreview` */
  function GroupPreview(isUnread: bool, last: Option<GroupLast>): (r: string)
    ensures isUnread ==> r == UnreadPlaceholder
    ensures !isUnread && last.None? ==> r == ""
    ensures !isUnread && last.Some? && last.value.messageType == Some("file") ==>
              r == FileExtensionFromUrl(last.value.fileUrl)
    ensures !isUnread && last.Some? && last.value.messageType == Some("text") ==>
              r == Shorten(last.value.content)
    ensures !isUnread && last.Some? && last.value.messageType != Some("file") && last.value.messageType != Some("text") ==>
              r == ""
  {
    if isUnread then UnreadPlaceholder
    else if last.None? then ""
    else if last.value.messageType == Some("file") then FileExtensionFromUrl(last.value.fileUrl)
    else if last.value.messageType == Some("text") then Shorten(last.value.content)
    else ""
  }

  /**
   * A direct contact's last message: an older plain string, or the
   * structured preview the store now builds.
   */
  datatype DirectLast =
    | Legacy(text: string)
    | Structured(messageType: Option<string>, content: string, fileUrl: string)

  /** `getDirectPreview` */
  function DirectPreview(isUnread: bool, last: Option<DirectLast>): (r: string)
    ensures isUnread ==> r == UnreadPlaceholder
    ensures !isUnread && last.None? ==> r == ""
    ensures !isUnread && last.Some? && last.value.Legacy? ==> r == Shorten(last.value.text)
    ensures !isUnread && last.Some? && last.value.Structured? && last.value.messageType == Some("file") ==>
              r == (if last.value.fileUrl != "" then FileExtensionFromUrl(last.value.fileUrl) else AttachedFile)
    ensures !isUnread && last.Some? && last.value.Structured? && last.value.messageType == Some("text") ==>
              r == Shorten(last.value.content)
    ensures !isUnread && last.Some? && last.value.Structured? && last.value.messageType != Some("file") && last.value.messageType != Some("text") ==>
              r == ""
  {
    if isUnread then UnreadPlaceholder
    else match last
      case None => ""
      case Some(Legacy(text)) => Shorten(text)
      case Some(Structured(messageType, content, fileUrl)) =>
        if messageType == Some("file") then
          (if fileUrl != "" then FileExtensionFromUrl(fileUrl) else AttachedFile)
        else if messageType == Some("text") then Shorten(content)
        else ""
  }
}
