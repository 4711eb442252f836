/** The upload form (client/src/components/UploadSection.js): picking one
    file, typing a folder and comma-separated tags, and posting them. */
module Upload {
  import opened JsText
  import opened Api

  /** The folder an upload goes to when none is typed. */
  const DefaultFolder: string := "worker_uploads"

  /** A tag as the parser yields it: non-empty, comma-free, and neither
      starting nor ending with whitespace. */
  predicate IsTag(t: string) {
    t != "" && ',' !in t && !IsJsWhitespace(t[0]) && !IsJsWhitespace(t[|t| - 1])
  }

  /** `.filter(tag => tag !== '')`. */
  function DropEmpty(parts: seq<string>): (kept: seq<string>)
    ensures |kept| <= |parts|
    ensures forall k :: 0 <= k < |kept| ==> kept[k] != ""
    ensures (forall k :: 0 <= k < |parts| ==> parts[k] != "") ==> kept == parts
  {
    if parts == [] then []
    else (if parts[0] == "" then [] else [parts[0]]) + DropEmpty(parts[1..])
  }

  /** The filter drops every empty piece and keeps every other piece as often
      as it occurs. */
  lemma {:induction false} DropEmptyContents(parts: seq<string>)
    ensures multiset(DropEmpty(parts)) == multiset(parts)["" := 0]
  {
    if parts != [] {
      DropEmptyContents(parts[1..]);
      assert parts == [parts[0]] + parts[1..];
    }
  }

  /** The filter works piece by piece: filtering a concatenation filters each
      side and keeps their order. */
  lemma {:induction false} DropEmptyAppend(a: seq<string>, b: seq<string>)
    ensures DropEmpty(a + b) == DropEmpty(a) + DropEmpty(b)
    decreases |a|
  {
    if a != [] {
      assert (a + b)[1..] == a[1..] + b;
      DropEmptyAppend(a[1..], b);
    } else {
      assert a + b == b;
    }
  }

  /** `uploadTags.split(',').map(tag => tag.trim()).filter(tag => tag !== '')`:
      every tag it yields is non-empty, holds no comma and is already trimmed. */
  function ParseTags(input: string): (tags: seq<string>)
    ensures forall k :: 0 <= k < |tags| ==> IsTag(tags[k])
  {
    var parts := Split(input, ',');
    var trimmed := seq(|parts|, k requires 0 <= k < |parts| => Trim(parts[k]));
    forall j | 0 <= j < |trimmed| ensures trimmed[j] == "" || IsTag(trimmed[j]) {
      TrimmedPieceIsTag(parts[j]);
    }
    DropEmptyKeepsTags(trimmed);
    DropEmpty(trimmed)
  }

  /** A comma-free piece, once trimmed, is empty or a tag. */
  lemma TrimmedPieceIsTag(piece: string)
    requires ',' !in piece
    ensures Trim(piece) == "" || IsTag(Trim(piece))
  {
    var t := Trim(piece);
    TrimKeepsCharacters(piece);
    forall i | 0 <= i < |t| ensures t[i] != ',' {
      assert t[i] in piece;
    }
  }

  /** Dropping the empty pieces of a list of pieces that are empty or tags
      leaves only tags. */
  lemma {:induction false} DropEmptyKeepsTags(pieces: seq<string>)
    requires forall j :: 0 <= j < |pieces| ==> pieces[j] == "" || IsTag(pieces[j])
    ensures forall k :: 0 <= k < |DropEmpty(pieces)| ==> IsTag(DropEmpty(pieces)[k])
  {
    if pieces != [] {
      DropEmptyKeepsTags(pieces[1..]);
    }
  }

  /** Parsing a comma-join of well-formed tags gives the same tags back. */
  lemma {:induction false} ParseTagsOfJoin(tags: seq<string>)
    requires forall k :: 0 <= k < |tags| ==> IsTag(tags[k])
    ensures ParseTags(Join(tags, ',')) == tags
  {
    var parts := Split(Join(tags, ','), ',');
    var trimmed := seq(|parts|, k requires 0 <= k < |parts| => Trim(parts[k]));
    if tags == [] {
      assert parts == [""];
      assert trimmed == [""];
      assert DropEmpty(trimmed) == [] + DropEmpty([]);
    } else {
      SplitJoin(tags, ',');
      forall k | 0 <= k < |tags| ensures trimmed[k] == tags[k] {
        TrimOfTrimmed(tags[k]);
      }
      assert trimmed == tags;
    }
  }

  /** The tags `handleUpload` parses survive the comma-join `uploadImage`
      sends them as: re-parsing the join yields the same list. */
  lemma TagsRoundTrip(input: string)
    ensures ParseTags(Join(ParseTags(input), ',')) == ParseTags(input)
  {
    ParseTagsOfJoin(ParseTags(input));
  }

  /** The upload form's tags field reads back as exactly the parsed tags, and
      is left out only when no tag was typed. */
  lemma TagsFieldRoundTrip(input: string)
    ensures TagsField(ParseTags(input)).None? <==> ParseTags(input) == []
    ensures TagsField(ParseTags(input)).Some? ==> ParseTags(TagsField(ParseTags(input)).value) == ParseTags(input)
  {
    ParseTagsOfJoin(ParseTags(input));
  }

  /** `uploadFolder.trim() === '' ? 'worker_uploads' : uploadFolder`: a blank
      input selects the default folder, anything else is used untrimmed; the
      folder sent is never blank. */
  function TargetFolder(input: string): (folder: string)
    ensures AllWhitespace(input) ==> folder == DefaultFolder
    ensures !AllWhitespace(input) ==> folder == input
    ensures !AllWhitespace(folder)
  {
    assert DefaultFolder[0] == 'w' && !IsJsWhitespace('w');
    if Trim(input) == "" then DefaultFolder else input
  }

  /** The form `handleUpload` posts for a file and the two inputs: the
      `folder` field is always sent, as the target folder, and the `tags`
      field carries the parsed tags when there are any. */
  function UploadRequest(file: File, folderInput: string, tagsInput: string): (form: UploadForm)
    ensures form.image == file
    ensures form.folder == Some(TargetFolder(folderInput))
    ensures form.tags == TagsField(ParseTags(tagsInput))
  {
    var folder := TargetFolder(folderInput);
    assert folder != "";
    UploadFormFor(file, folder, ParseTags(tagsInput))
  }

  /** One entry of the picker's file list; `originFileObj` may be missing. */
  datatype UploadEntry = UploadEntry(name: string, originFileObj: Option<File>)

  /** The last element of a list, as `list.slice(-1)` keeps it. */
  function LastOnly<T>(list: seq<T>): (kept: seq<T>)
    ensures |kept| == (if list == [] then 0 else 1)
    ensures list != [] ==> kept[0] == list[|list| - 1]
  {
    if list == [] then [] else [list[|list| - 1]]
  }

  /** The state of the upload section. */
  class UploadSection {
    var imageFile: Option<File>
    var uploadFolder: string
    var uploadTags: string
    var isUploading: bool
    var fileList: seq<UploadEntry>

    /** Nothing picked, both inputs empty, not uploading. */
    predicate Cleared()
      reads this
    {
      imageFile == None && uploadFolder == "" && uploadTags == "" && fileList == []
    }

    constructor ()
      ensures Cleared() && !isUploading
    {
      imageFile := None;
      uploadFolder := "";
      uploadTags := "";
      isUploading := false;
      fileList := [];
    }

    /** The picker's change handler: keeps only the last
        picked entry, takes its file, and returns false so that the picker
        never uploads on its own. */
    method HandleFileChange(incoming: seq<UploadEntry>) returns (autoUpload: bool)
      modifies this
      ensures fileList == LastOnly(incoming)
      ensures imageFile == (if incoming == [] then None else incoming[|incoming| - 1].originFileObj)
      ensures !autoUpload
      ensures uploadFolder == old(uploadFolder) && uploadTags == old(uploadTags)
      ensures isUploading == old(isUploading)
    {
      var newFileList := incoming;
      newFileList := newFileList[if |newFileList| > 0 then |newFileList| - 1 else 0..];
      fileList := newFileList;
      if |newFileList| > 0 {
        imageFile := newFileList[0].originFileObj;
      } else {
        imageFile := None;
      }
      autoUpload := false;
    }

    /** The folder input's change handler. */
    method SetUploadFolder(value: string)
      modifies this`uploadFolder
      ensures uploadFolder == value
    {
      uploadFolder := value;
    }

    /** The tags input's change handler. */
    method SetUploadTags(value: string)
      modifies this`uploadTags
      ensures uploadTags == value
    {
      uploadTags := value;
    }

    /** The picker's remove handler: forgets the picked file and empties the
        list, keeping the folder and tags typed so far; an upload attempted
        next posts nothing. */
    method HandleRemove()
      modifies this`imageFile, this`fileList
      ensures imageFile == None && fileList == []
      ensures Cleared() <==> uploadFolder == "" && uploadTags == ""
    {
      imageFile := None;
      fileList := [];
    }

    /** `handleUpload` up to the awaited call: without a file it reports an
        error and posts nothing; otherwise it marks the form busy and posts
        the file with the target folder and the parsed tags. */
    method BeginUpload() returns (form: Option<UploadForm>, toast: Toast)
      modifies this`isUploading
      ensures old(imageFile).None? ==> form == None && toast == Error && isUploading == old(isUploading)
      ensures old(imageFile).Some? ==>
        && form == Some(UploadRequest(imageFile.value, uploadFolder, uploadTags))
        && isUploading && toast == Silent
    {
      if imageFile.None? {
        form, toast := None, Error;
      } else {
        isUploading := true;
        form := Some(UploadRequest(imageFile.value, uploadFolder, uploadTags));
        toast := Silent;
      }
    }

    /** `handleUpload` after the awaited call: on success the parent is told
        (when it gave a callback) and the form is cleared; on failure the
        inputs are kept; either way the form is no longer busy. */
    method EndUpload(outcome: Outcome<string>, hasCallback: bool) returns (notified: bool, toast: Toast)
      modifies this
      ensures !isUploading
      ensures outcome.Ok? ==> Cleared() && notified == hasCallback && toast == Success
      ensures outcome.Failed? ==>
        && imageFile == old(imageFile) && uploadFolder == old(uploadFolder)
        && uploadTags == old(uploadTags) && fileList == old(fileList)
        && !notified && toast == Error
    {
      notified := false;
      if outcome.Ok? {
        toast := Success;
        if hasCallback {
          notified := true;
        }
        imageFile := None;
        uploadFolder := "";
        uploadTags := "";
        fileList := [];
      } else {
        toast := Error;
      }
      isUploading := false;
    }

    /** One click of the upload button, with the service's answer given. */
    method HandleUpload(outcome: Outcome<string>, hasCallback: bool)
      returns (form: Option<UploadForm>, notified: bool, toast: Toast)
      modifies this
      ensures old(imageFile).None? ==>
        && form == None && !notified && toast == Error
        && imageFile == old(imageFile) && uploadFolder == old(uploadFolder)
        && uploadTags == old(uploadTags) && fileList == old(fileList)
        && isUploading == old(isUploading)
      ensures old(imageFile).Some? ==>
        && form == Some(UploadRequest(old(imageFile).value, old(uploadFolder), old(uploadTags)))
        && !isUploading && toast == (if outcome.Ok? then Success else Error)
        && (outcome.Ok? ==> Cleared() && notified == hasCallback)
        && (outcome.Failed? ==> imageFile == old(imageFile) && uploadFolder == old(uploadFolder)
                                && uploadTags == old(uploadTags) && fileList == old(fileList) && !notified)
    {
      ghost var request := if imageFile.Some? then Some(UploadRequest(imageFile.value, uploadFolder, uploadTags)) else None;
      form, toast := BeginUpload();
      assert form == request;
      notified := false;
      if form.Some? {
        notified, toast := EndUpload(outcome, hasCallback);
      }
    }
  }
}
