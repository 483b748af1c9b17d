/**
 * The contact or group profile panel: telling images from other shared
 * files, the file name shown for a shared file, and saving an edited group
 * name.
 */
module SidebarProfile {
  import opened Common
  import opened ChatSlice

  /** The extensions `checkIfImage` accepts, in lower case. */
  const ImageExtensions: seq<string> :=
    ["jpg", "jpeg", "png", "gif", "bmp", "tiff", "tif", "webp", "svg", "ico", "heic", "heif", "jfif"]

  /** Whether `path`, in lower case, ends with a dot and one of `exts`. */
  function EndsWithAnyOf(path: string, exts: seq<string>): (r: bool)
    ensures r <==> exists i :: 0 <= i < |exts| && EndsWith(ToLower(path), "." + exts[i])
  {
    if exts == [] then false
    else EndsWith(ToLower(path), "." + exts[0]) || EndsWithAnyOf(path, exts[1..])
  }

  /** `checkIfImage`: the path without its query ends in an image extension, in any letter case. */
  function CheckIfImage(filePath: string): (r: bool)
    ensures r <==> exists i :: 0 <= i < |ImageExtensions| && EndsWith(ToLower(BeforeFirst(filePath, '?')), "." + ImageExtensions[i])
  {
    EndsWithAnyOf(BeforeFirst(filePath, '?'), ImageExtensions)
  }

  /** The query never decides: a path with or without one is judged the same. */
  lemma QueryDoesNotMatter(path: string, query: string)
    requires '?' !in path
    requires query == [] || query[0] == '?'
    ensures CheckIfImage(path + query) == CheckIfImage(path)
  {
    BeforeFirstAt(path, query, '?');
    BeforeFirstAt(path, [], '?');
    assert path + [] == path;
  }

  /** A dotted name has no '?' when neither of its parts has. */
  lemma DottedNameHasNoQuery(base: string, ext: string)
    requires '?' !in base && '?' !in ext
    ensures '?' !in base + "." + ext
  {
    var path := base + "." + ext;
    forall k | 0 <= k < |path| ensures path[k] != '?' {
      if k < |base| { assert path[k] == base[k]; }
      else if k == |base| { }
      else { assert path[k] == ext[k - |base| - 1]; }
    }
  }

  /** Lower-casing a dotted name lower-cases its parts. */
  lemma ToLowerDotted(base: string, ext: string)
    ensures ToLower(base + "." + ext) == ToLower(base) + ("." + ToLower(ext))
  {
    ToLowerAppend(base, "." + ext);
    ToLowerAppend(".", ext);
    assert ToLower(".") == ".";
    assert base + "." + ext == base + ("." + ext);
  }

  /** A file named with an image extension, written in any letter case, is an image. */
  lemma ImageExtensionRecognised(base: string, ext: string, i: nat)
    requires '?' !in base && '?' !in ext
    requires i < |ImageExtensions| && ToLower(ext) == ImageExtensions[i]
    ensures CheckIfImage(base + "." + ext)
  {
    var path := base + "." + ext;
    DottedNameHasNoQuery(base, ext);
    BeforeFirstAt(path, [], '?');
    assert path + [] == path;
    ToLowerDotted(base, ext);
    var low := ToLower(path);
    var tail := "." + ImageExtensions[i];
    assert low == ToLower(base) + tail;
    assert low[|low| - |tail|..] == tail;
  }

  /** The part of `fileName` after its last ')', trimmed; the whole name when it has none. */
  function CleanFileName(fileName: string): (r: string)
    ensures ')' !in fileName ==> r == fileName
    ensures ')' in fileName ==> r == Trim(AfterLast(fileName, ')'))
  {
    if ')' in fileName then Trim(AfterLast(fileName, ')')) else fileName
  }

  /**
   * `getFileNameFromUrl`: the clean name, cut to `maxLength` characters
   * followed by "..." when longer.
   */
  function FileNameFromUrl(fileName: string, maxLength: nat): (r: string)
    ensures fileName == "" ==> r == ""
    ensures |r| <= maxLength + 3
    ensures |CleanFileName(fileName)| <= maxLength ==> r == CleanFileName(fileName)
    ensures |CleanFileName(fileName)| > maxLength ==>
              |r| == maxLength + 3 && r[..maxLength] == CleanFileName(fileName)[..maxLength] && r[maxLength..] == "..."
  {
    if fileName == "" then ""
    else
      var clean := CleanFileName(fileName);
      if |clean| > maxLength then clean[..maxLength] + "..." else clean
  }

  /** The name of a shared file as listed: the last path segment of its URL, at most 81 characters. */
  function SharedFileName(fileUrl: string): (r: string)
    ensures |r| <= 84
  {
    FileNameFromUrl(AfterLast(BeforeFirst(fileUrl, '?'), '/'), 81)
  }

  /** A short name after a last ')' is shown exactly. */
  lemma NameAfterParenShown(prefix: string, name: string, maxLength: nat)
    requires ')' !in name && |name| <= maxLength
    requires name == [] || (!IsSpace(name[0]) && !IsSpace(name[|name| - 1]))
    ensures FileNameFromUrl(prefix + ")" + name, maxLength) == name
  {
    var s := prefix + ")" + name;
    assert s[|prefix|] == ')';
    AfterLastAt(prefix, name, ')');
    TrimOfTrimmed(name);
  }

  // ---------------------------------------------------------------------
  // Saving an edited group name

  /** The request `handleSaveGroupInfo` sends, if any. */
  datatype SaveStep = NothingToSave | SendName(name: string)

  /**
   * The comparison as written: the untrimmed edit is compared with the current
   * name, while the trimmed edit is sent.
   */
  function SaveStepAsWritten(edited: string, profile: ChatData): (r: SaveStep)
    ensures r.SendName? ==> r.name == Trim(edited) && r.name != ""
    ensures r.NothingToSave? <==> Trim(edited) == "" || ("name" in profile.fields && profile.fields["name"] == edited)
  {
    if Trim(edited) != "" && !("name" in profile.fields && profile.fields["name"] == edited)
    then SendName(Trim(edited))
    else NothingToSave
  }

  /** The comparison as intended: the trimmed edit, which is what is sent, is compared with the current name. */
  function SaveGroupStep(edited: string, profile: ChatData): (r: SaveStep)
    ensures r.SendName? ==> r.name == Trim(edited) && r.name != "" && !("name" in profile.fields && profile.fields["name"] == r.name)
    ensures r.NothingToSave? <==> Trim(edited) == "" || ("name" in profile.fields && profile.fields["name"] == Trim(edited))
  {
    if Trim(edited) != "" && !("name" in profile.fields && profile.fields["name"] == Trim(edited))
    then SendName(Trim(edited))
    else NothingToSave
  }

  /** `{ ...profile, name }`: the name set, every other field, the id and the members kept. */
  function Renamed(profile: ChatData, name: string): (r: ChatData)
    ensures r.id == profile.id && r.members == profile.members
    ensures "name" in r.fields && r.fields["name"] == name
    ensures forall k :: k != "name" ==> (k in r.fields <==> k in profile.fields)
    ensures forall k :: k != "name" && k in profile.fields ==> r.fields[k] == profile.fields[k]
  {
    Merge(profile, GroupUpdate(map["name" := Some(name)], None))
  }

  /** The panel after a save: the profile, whether editing goes on, the request sent. */
  datatype SaveOutcome = SaveOutcome(profile: ChatData, editing: bool, sent: Option<string>)

  /**
   * `handleSaveGroupInfo`: with nothing to save editing ends; otherwise the
   * name is sent and, on status 200, set in the profile and editing ends;
   * a failed request (`None` or another status) leaves the panel as it was.
   */
  function SaveGroupInfo(edited: string, profile: ChatData, status: Option<int>): (r: SaveOutcome)
    ensures SaveGroupStep(edited, profile).NothingToSave? ==> r == SaveOutcome(profile, false, None)
    ensures SaveGroupStep(edited, profile).SendName? ==> r.sent == Some(Trim(edited))
    ensures SaveGroupStep(edited, profile).SendName? && status == Some(200) ==>
              !r.editing && r.profile == Renamed(profile, Trim(edited))
    ensures SaveGroupStep(edited, profile).SendName? && status != Some(200) ==> r.editing && r.profile == profile
  {
    match SaveGroupStep(edited, profile)
    case NothingToSave => SaveOutcome(profile, false, None)
    case SendName(name) =>
      if status == Some(200) then SaveOutcome(Renamed(profile, name), false, Some(name))
      else SaveOutcome(profile, true, Some(name))
  }

  /** Saving the same edit again after a successful save finds nothing to save. */
  lemma SaveSettles(edited: string, profile: ChatData)
    ensures var after := SaveGroupInfo(edited, profile, Some(200)).profile;
            SaveGroupStep(edited, after).NothingToSave?
  {
  }

  /**
   * As written, once a name has been sent and stored, saving the same edit
   * again finds nothing to save exactly when the edit had no surrounding spaces.
   */
  lemma AsWrittenSettlesOnlyWhenTrimmed(edited: string, profile: ChatData)
    requires SaveStepAsWritten(edited, profile).SendName?
    ensures SaveStepAsWritten(edited, Renamed(profile, Trim(edited))).NothingToSave? <==> Trim(edited) == edited
  {
  }

  /** As written, an edit differing from the name only by surrounding spaces sends the unchanged name, every time. */
  lemma AsWrittenResendsSameName()
    ensures var profile := ChatData("g", map["name" := "Team"], []);
            SaveStepAsWritten("Team ", profile) == SendName("Team") &&
            SaveStepAsWritten("Team ", Renamed(profile, "Team")) == SendName("Team")
  {
    assert "Team " == "Team" + [' '];
    TrimDropsTrailingSpace("Team", ' ');
    var profile := ChatData("g", map["name" := "Team"], []);
    var after := Renamed(profile, "Team");
    assert |"Team "| != |"Team"|;
    assert after.fields["name"] == "Team";
  }

}
