/** The gallery (client/src/components/GallerySection.js): listing the
    images of a folder or a tag, the folder picker, and the card actions. */
module Gallery {
  import opened JsText
  import opened Api

  /** The label of the first folder option, which lists every image. */
  const AllImagesLabel: string := "所有图片"

  /** An option of the folder picker; a label may be missing. */
  datatype SelectOption = SelectOption(labelText: Option<string>, value: string)

  /** What the folder listing call answered: an array of names, or anything else. */
  datatype FolderListing = FolderArray(names: seq<string>) | NotAnArray

  /** The "all images" entry, whose value selects no folder. */
  const AllImagesOption: SelectOption := SelectOption(Some(AllImagesLabel), "")

  /** The folder picker's options built from a listing: the "all images" entry
      first, then one entry per listed folder, in order, labelled by its name. */
  function FolderOptions(fetched: FolderListing): (options: seq<SelectOption>)
    ensures |options| >= 1 && options[0] == AllImagesOption
    ensures fetched.NotAnArray? ==> |options| == 1
    ensures fetched.FolderArray? ==> |options| == |fetched.names| + 1
  {
    match fetched
    case FolderArray(names) =>
      [AllImagesOption] + seq(|names|, k requires 0 <= k < |names| => SelectOption(Some(names[k]), names[k]))
    case NotAnArray => [AllImagesOption]
  }

  /** Choosing option k + 1 of a listing's options selects the k-th listed
      folder, shown under its own name; the first option selects every image. */
  lemma FolderOptionsSelectListed(names: seq<string>, k: int)
    requires 0 <= k < |names|
    ensures FolderOptions(FolderArray(names))[k + 1].value == names[k]
    ensures FolderOptions(FolderArray(names))[k + 1].labelText == Some(names[k])
    ensures FolderOptions(FolderArray(names))[0].value == ""
  {
  }

  /** The picker's options after one run of the folder-listing effect:
      rebuilt from an answered listing, kept when the call fails. */
  function FoldersAfterLoad(previous: seq<SelectOption>, outcome: Outcome<FolderListing>): (options: seq<SelectOption>)
    ensures outcome.Ok? ==> |options| >= 1 && options[0] == AllImagesOption
    ensures outcome.Failed? ==> options == previous
  {
    if outcome.Ok? then FolderOptions(outcome.value) else previous
  }

  /** The folder-listing call as the component is built: the name it imports
      is not exported by the service module, so the binding is undefined and
      calling it throws a TypeError, which the effect's catch receives. */
  function FetchFoldersAsWritten(): (outcome: Outcome<FolderListing>)
    ensures outcome.Failed?
  {
    Failed("fetchFolders is not a function")
  }

  /** As written, the picker of a fresh gallery never gets an option, not even
      the "all images" entry, whatever the service holds. */
  lemma FolderPickerStaysEmpty()
    ensures FoldersAfterLoad([], FetchFoldersAsWritten()) == []
    ensures AllImagesOption !in FoldersAfterLoad([], FetchFoldersAsWritten())
  {
  }

  /** With a listing call that answers, as the component evidently means,
      a fresh gallery's picker starts with the "all images" entry and offers
      every listed folder under its name, in the service's order. */
  lemma FolderPickerOffersListing(names: seq<string>)
    ensures FoldersAfterLoad([], Ok(FolderArray(names)))[0] == AllImagesOption
    ensures |FoldersAfterLoad([], Ok(FolderArray(names)))| == |names| + 1
    ensures forall k :: 0 <= k < |names| ==>
      FoldersAfterLoad([], Ok(FolderArray(names)))[k + 1] == SelectOption(Some(names[k]), names[k])
  {
  }

  /** `option?.label ?? ''`. */
  function LabelOf(option: Option<SelectOption>): string {
    match option
    case Some(SelectOption(Some(text), _)) => text
    case _ => ""
  }

  /** The picker's `filterOption`: the typed text, lower-cased, occurs in the
      option's label, lower-cased. */
  function FilterOption(input: string, option: Option<SelectOption>): bool {
    Includes(Lower(LabelOf(option)), Lower(input))
  }

  /** An option passes the filter exactly when the lower-cased query occurs
      at some position of its lower-cased label. */
  lemma FilterOptionIff(input: string, option: Option<SelectOption>)
    ensures FilterOption(input, option) <==> exists i :: OccursAt(Lower(LabelOf(option)), Lower(input), i)
  {
    IncludesIff(Lower(LabelOf(option)), Lower(input));
  }

  /** An empty query keeps every option, even one without a label. */
  lemma EmptyQueryKeepsAll(option: Option<SelectOption>)
    ensures FilterOption("", option)
  {
  }

  lemma {:induction false} LowerSlice(s: string, i: int, j: int)
    requires 0 <= i <= j <= |s|
    ensures Lower(s)[i..j] == Lower(s[i..j])
  {
  }

  /** A label that holds the query verbatim passes the filter. */
  lemma FilterKeepsVerbatimMatch(input: string, option: Option<SelectOption>, i: int)
    requires OccursAt(LabelOf(option), input, i)
    ensures FilterOption(input, option)
  {
    var text := LabelOf(option);
    LowerSlice(text, i, i + |input|);
    assert OccursAt(Lower(text), Lower(input), i);
    FilterOptionIff(input, option);
  }

  /** `t` matches the stretch of `s` starting at `i` when letters are
      compared without regard to case. */
  predicate CaselessAt(s: string, t: string, i: int) {
    0 <= i && i + |t| <= |s| && forall j :: 0 <= j < |t| ==> LowerChar(s[i + j]) == LowerChar(t[j])
  }

  lemma OccursLowerIff(s: string, t: string, i: int)
    ensures OccursAt(Lower(s), Lower(t), i) <==> CaselessAt(s, t, i)
  {
    if 0 <= i && i + |t| <= |s| {
      var window := Lower(s)[i..i + |t|];
      if window == Lower(t) {
        forall j | 0 <= j < |t| ensures LowerChar(s[i + j]) == LowerChar(t[j]) {
          assert window[j] == Lower(t)[j];
        }
      }
      if CaselessAt(s, t, i) {
        forall j | 0 <= j < |t| ensures window[j] == Lower(t)[j] {
          assert window[j] == LowerChar(s[i + j]);
        }
      }
    }
  }

  /** An option passes the filter exactly when the query matches some
      stretch of its label with letters compared without regard to case. */
  lemma FilterOptionCaseless(input: string, option: Option<SelectOption>)
    ensures FilterOption(input, option) <==> exists i :: CaselessAt(LabelOf(option), input, i)
  {
    var text := LabelOf(option);
    FilterOptionIff(input, option);
    if FilterOption(input, option) {
      var i :| OccursAt(Lower(text), Lower(input), i);
      OccursLowerIff(text, input, i);
    }
    if exists i :: CaselessAt(text, input, i) {
      var i :| CaselessAt(text, input, i);
      OccursLowerIff(text, input, i);
    }
  }

  /** The filter ignores the case of the query. */
  lemma FilterIgnoresQueryCase(input: string, option: Option<SelectOption>)
    ensures FilterOption(Lower(input), option) == FilterOption(input, option)
  {
    LowerIdempotent(input);
  }

  /** A card's title: `public_id.split('/').pop()`, the part after the last
      `/`, or the whole id when it holds none. */
  function CardTitle(publicId: string): (title: string)
    ensures '/' !in title
    ensures |title| <= |publicId| && title == publicId[|publicId| - |title|..]
    ensures title == publicId || publicId[|publicId| - |title| - 1] == '/'
  {
    SplitLastIsSuffix(publicId, '/');
    var parts := Split(publicId, '/');
    parts[|parts| - 1]
  }

  /** An id without `/` is its own title. */
  lemma CardTitleOfPlainId(publicId: string)
    requires '/' !in publicId
    ensures CardTitle(publicId) == publicId
  {
  }

  /** The state of the gallery, with the pieces of application state it
      writes through its props (folder, selection, detail dialog). */
  class GallerySection {
    var images: seq<Image>
    var loading: bool
    var error: Option<string>
    var folderInput: string
    var searchTagInput: string
    var folders: seq<SelectOption>
    // application state passed in as props and setters
    var currentFolder: string
    var selectedPublicId: Option<string>
    var originalImageUrl: Option<string>
    var isDetailModalOpen: bool

    constructor (folder: string)
      ensures images == [] && loading && error == None
      ensures folderInput == "" && searchTagInput == "" && folders == []
      ensures currentFolder == folder && selectedPublicId == None && originalImageUrl == None
      ensures !isDetailModalOpen
    {
      images := [];
      loading := true;
      error := None;
      folderInput := "";
      searchTagInput := "";
      folders := [];
      currentFolder := folder;
      selectedPublicId := None;
      originalImageUrl := None;
      isDetailModalOpen := false;
    }

    /** `fetchAndDisplayImages` up to the awaited call: shows the spinner and
        clears the error. */
    method BeginFetch(folder: string, tag: string) returns (query: ImagesQuery)
      modifies this`loading, this`error
      ensures loading && error == None
      ensures query == ImagesQuery(folder, tag)
    {
      loading := true;
      error := None;
      query := ImagesQuery(folder, tag);
    }

    /** `fetchAndDisplayImages` after the awaited call: on success the images
        and the current folder follow the request; on failure the list is
        emptied and the error kept, the folder untouched; the spinner stops
        either way. */
    method EndFetch(folder: string, outcome: Outcome<seq<Image>>) returns (toast: Toast)
      modifies this`images, this`currentFolder, this`error, this`loading
      ensures !loading
      ensures outcome.Ok? ==>
        images == outcome.value && currentFolder == folder && error == old(error) && toast == Silent
      ensures outcome.Failed? ==>
        images == [] && error == Some(outcome.message) && currentFolder == old(currentFolder) && toast == Error
    {
      match outcome {
        case Ok(fetchedImages) =>
          images := fetchedImages;
          currentFolder := folder;
          toast := Silent;
        case Failed(message) =>
          toast := Error;
          error := Some(message);
          images := [];
      }
      loading := false;
    }

    /** One complete `fetchAndDisplayImages(folder, tag)`, with the service's
        answer given. */
    method FetchAndDisplayImages(folder: string, tag: string, outcome: Outcome<seq<Image>>)
      returns (query: ImagesQuery, toast: Toast)
      modifies this`images, this`currentFolder, this`error, this`loading
      ensures query == ImagesQuery(folder, tag) && !loading
      ensures outcome.Ok? ==> images == outcome.value && currentFolder == folder && error == None
      ensures outcome.Failed? ==>
        images == [] && error == Some(outcome.message) && currentFolder == old(currentFolder)
      ensures toast == (if outcome.Ok? then Silent else Error)
    {
      query := BeginFetch(folder, tag);
      toast := EndFetch(folder, outcome);
    }

    /** The folder-listing effect: on success the picker's options are rebuilt
        from the answer; on failure they are kept. */
    method LoadFolders(outcome: Outcome<FolderListing>) returns (toast: Toast)
      modifies this`folders
      ensures folders == FoldersAfterLoad(old(folders), outcome)
      ensures outcome.Ok? ==> folders == FolderOptions(outcome.value) && toast == Silent
      ensures outcome.Failed? ==> folders == old(folders) && toast == Error
    {
      if outcome.Ok? {
        folders := FolderOptions(outcome.value);
        toast := Silent;
      } else {
        toast := Error;
      }
    }

    /** The folder-listing effect as the component is written: the listing
        call it imports is not among the service module's exports, so the
        call fails, the error toast shows and the picker keeps no options. */
    method LoadFoldersAsWritten() returns (toast: Toast)
      modifies this`folders
      ensures folders == FoldersAfterLoad(old(folders), FetchFoldersAsWritten())
      ensures folders == old(folders) && toast == Error
    {
      toast := LoadFolders(FetchFoldersAsWritten());
    }

    /** Clicking a card selects its image and opens the detail dialog. */
    method HandleImageClick(image: Image)
      modifies this`selectedPublicId, this`originalImageUrl, this`isDetailModalOpen
      ensures selectedPublicId == Some(image.publicId) && originalImageUrl == Some(image.secureUrl)
      ensures isDetailModalOpen
    {
      selectedPublicId := Some(image.publicId);
      originalImageUrl := Some(image.secureUrl);
      isDetailModalOpen := true;
    }

    /** Deleting a card's image: nothing happens unless the user confirms; a
        confirmed delete that succeeds shows a success toast, clears the
        selection and reloads the current folder (whose own failure shows a
        second, error toast); one that fails shows an error toast and changes
        nothing. */
    method HandleDeleteImage(publicId: string, confirmed: bool, deleted: Outcome<()>, reload: Outcome<seq<Image>>)
      returns (deleteCall: Option<string>, toast: Toast, reloadQuery: Option<ImagesQuery>, reloadToast: Toast)
      modifies this
      ensures !confirmed ==> deleteCall == None && reloadQuery == None && toast == Silent && reloadToast == Silent
      ensures confirmed ==> deleteCall == Some(publicId)
      ensures confirmed && deleted.Failed? ==> toast == Error && reloadToast == Silent
      ensures confirmed && deleted.Ok? ==> toast == Success && reloadToast == (if reload.Ok? then Silent else Error)
      ensures (!confirmed || deleted.Failed?) ==>
        && reloadQuery == None
        && images == old(images) && loading == old(loading) && error == old(error)
        && currentFolder == old(currentFolder)
        && selectedPublicId == old(selectedPublicId) && originalImageUrl == old(originalImageUrl)
      ensures confirmed && deleted.Ok? ==>
        && selectedPublicId == None && originalImageUrl == None
        && reloadQuery == Some(ImagesQuery(old(currentFolder), ""))
        && !loading
        && (reload.Ok? ==> images == reload.value && currentFolder == old(currentFolder) && error == None)
        && (reload.Failed? ==> images == [] && error == Some(reload.message) && currentFolder == old(currentFolder))
      ensures folderInput == old(folderInput) && searchTagInput == old(searchTagInput)
      ensures folders == old(folders) && isDetailModalOpen == old(isDetailModalOpen)
    {
      deleteCall, toast, reloadQuery, reloadToast := None, Silent, None, Silent;
      if !confirmed {
        return;
      }
      deleteCall := Some(publicId);
      if deleted.Ok? {
        toast := Success;
        selectedPublicId := None;
        originalImageUrl := None;
        var query;
        query, reloadToast := FetchAndDisplayImages(currentFolder, "", reload);
        reloadQuery := Some(query);
      } else {
        toast := Error;
      }
    }

    /** The tag search box: an empty value only warns; any other value lists
        every folder's images carrying that tag. */
    method HandleTagSearch(value: string, outcome: Outcome<seq<Image>>)
      returns (query: Option<ImagesQuery>, toast: Toast)
      modifies this`images, this`currentFolder, this`error, this`loading
      ensures value == "" ==>
        && query == None && toast == Warning
        && images == old(images) && currentFolder == old(currentFolder)
        && error == old(error) && loading == old(loading)
      ensures value != "" ==> query == Some(ImagesQuery("", value)) && !loading
      ensures value != "" && outcome.Ok? ==>
        images == outcome.value && currentFolder == "" && error == None && toast == Silent
      ensures value != "" && outcome.Failed? ==>
        images == [] && error == Some(outcome.message) && currentFolder == old(currentFolder) && toast == Error
    {
      if value != "" {
        var q;
        q, toast := FetchAndDisplayImages("", value, outcome);
        query := Some(q);
      } else {
        query, toast := None, Warning;
      }
    }

    /** Picking a folder in the picker lists it and clears the tag search. */
    method HandleFolderSelect(value: string, outcome: Outcome<seq<Image>>) returns (query: ImagesQuery, toast: Toast)
      modifies this`images, this`currentFolder, this`error, this`loading, this`searchTagInput
      ensures query == ImagesQuery(value, "") && searchTagInput == "" && !loading
      ensures outcome.Ok? ==> images == outcome.value && currentFolder == value && error == None
      ensures outcome.Failed? ==>
        images == [] && error == Some(outcome.message) && currentFolder == old(currentFolder)
      ensures toast == (if outcome.Ok? then Silent else Error)
    {
      query, toast := FetchAndDisplayImages(value, "", outcome);
      searchTagInput := "";
    }

    /** The jump button lists the typed folder and clears both inputs. */
    method HandleJump(outcome: Outcome<seq<Image>>) returns (query: ImagesQuery, toast: Toast)
      modifies this`images, this`currentFolder, this`error, this`loading, this`searchTagInput, this`folderInput
      ensures query == ImagesQuery(old(folderInput), "") && !loading
      ensures folderInput == "" && searchTagInput == ""
      ensures outcome.Ok? ==> images == outcome.value && currentFolder == old(folderInput) && error == None
      ensures outcome.Failed? ==>
        images == [] && error == Some(outcome.message) && currentFolder == old(currentFolder)
      ensures toast == (if outcome.Ok? then Silent else Error)
    {
      query, toast := FetchAndDisplayImages(folderInput, "", outcome);
      folderInput := "";
      searchTagInput := "";
    }

    /** The clear-search button empties the tag search and lists every image. */
    method HandleClearSearch(outcome: Outcome<seq<Image>>) returns (query: ImagesQuery, toast: Toast)
      modifies this`images, this`currentFolder, this`error, this`loading, this`searchTagInput
      ensures query == ImagesQuery("", "") && searchTagInput == "" && !loading
      ensures outcome.Ok? ==> images == outcome.value && currentFolder == "" && error == None
      ensures outcome.Failed? ==>
        images == [] && error == Some(outcome.message) && currentFolder == old(currentFolder)
      ensures toast == (if outcome.Ok? then Silent else Error)
    {
      searchTagInput := "";
      query, toast := FetchAndDisplayImages("", "", outcome);
    }

    /** The folder input's change handler. */
    method SetFolderInput(value: string)
      modifies this`folderInput
      ensures folderInput == value
    {
      folderInput := value;
    }

    /** The tag search input's change handler. */
    method SetSearchTagInput(value: string)
      modifies this`searchTagInput
      ensures searchTagInput == value
    {
      searchTagInput := value;
    }
  }
}
