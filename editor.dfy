/** The image editor (client/src/components/ImageEditorSection.js): a panel
    of controls that build a map from effect name to that effect's
    parameters, which is sent to the service to obtain a preview URL, and
    which can be reset or saved back as a new image. */
module Editor {
  import opened JsText
  import opened Api

  // ---------------------------------------------------------------------------
  // The transformation map

  /** A parameter value as the controls produce it: a slider or number
      (in tenths, so that the DPR steps of 0.1 are exact), the text of an
      input or select, `null` from a cleared number input, or a boolean. */
  datatype Value = Bool(b: bool) | Number(tenths: int) | Str(s: string) | Null

  /** Effect name to (parameter name to value). */
  type Params = map<string, Value>
  type Transformations = map<string, Params>

  /** `updateTransformation(effect, param, value)` on the map: with no
      parameter name, `false` removes the effect and any other value turns
      it on with no parameters; with a parameter name, the effect is created
      when absent and only that parameter is written. No other effect
      changes. */
  function Updated(m: Transformations, effect: string, param: Option<string>, v: Value): (r: Transformations)
    ensures forall e :: e != effect ==> (e in r <==> e in m)
    ensures forall e :: e != effect && e in m ==> r[e] == m[e]
    ensures param.None? && v == Bool(false) ==> effect !in r
    ensures param.None? && v != Bool(false) ==> effect in r && r[effect] == map[]
    ensures param.Some? ==> effect in r && param.value in r[effect] && r[effect][param.value] == v
    ensures param.Some? ==> forall q :: q != param.value ==>
      (q in r[effect] <==> effect in m && q in m[effect])
    ensures param.Some? ==> forall q :: q != param.value && q in r[effect] ==> r[effect][q] == m[effect][q]
  {
    match param
    case None => if v == Bool(false) then m - {effect} else m[effect := map[]]
    case Some(p) =>
      var params := if effect in m then m[effect] else map[];
      m[effect := params[p := v]]
  }

  /** Switching a parameterless effect on and then off, from a map without
      it, gives the map back. */
  lemma ToggleOnOffRestores(m: Transformations, effect: string)
    requires effect !in m
    ensures Updated(Updated(m, effect, None, Bool(true)), effect, None, Bool(false)) == m
  {
    var r := Updated(Updated(m, effect, None, Bool(true)), effect, None, Bool(false));
    assert r.Keys == m.Keys;
  }

  /** Switching off an effect that is not in the map changes nothing. */
  lemma SwitchOffAbsentIsNoOp(m: Transformations, effect: string)
    requires effect !in m
    ensures Updated(m, effect, None, Bool(false)) == m
  {
    assert Updated(m, effect, None, Bool(false)).Keys == m.Keys;
  }

  /** Writing the same parameter twice keeps only the second value. */
  lemma LastWriteWins(m: Transformations, effect: string, param: string, first: Value, second: Value)
    ensures Updated(Updated(m, effect, Some(param), first), effect, Some(param), second)
         == Updated(m, effect, Some(param), second)
  {
    var once := Updated(m, effect, Some(param), second);
    var twice := Updated(Updated(m, effect, Some(param), first), effect, Some(param), second);
    assert twice[effect] == once[effect];
    assert twice.Keys == once.Keys;
  }

  /** Updates of two different effects do not interfere: either order gives
      the same map. */
  lemma DifferentEffectsCommute(m: Transformations, e1: string, p1: Option<string>, v1: Value,
                                e2: string, p2: Option<string>, v2: Value)
    requires e1 != e2
    ensures Updated(Updated(m, e1, p1, v1), e2, p2, v2) == Updated(Updated(m, e2, p2, v2), e1, p1, v1)
  {
    var a := Updated(Updated(m, e1, p1, v1), e2, p2, v2);
    var b := Updated(Updated(m, e2, p2, v2), e1, p1, v1);
    assert a.Keys == b.Keys;
    forall e | e in a ensures a[e] == b[e] {
      if e == e1 {
        assert a[e] == Updated(m, e1, p1, v1)[e];
      } else if e == e2 {
        assert b[e] == Updated(m, e2, p2, v2)[e];
      }
    }
  }

  // ---------------------------------------------------------------------------
  // The control catalogue

  /** The buttons that switch a parameterless effect on and off. */
  datatype Toggle =
    | Improve | AutoBrightness | AutoColor | AutoContrast | Sharpen | Vibrance | Upscale | Enhance
    | Cartoonify | Sepia | Vignette | PixelateEffect | Grayscale
    | RemoveBackground | Shadow | BlurFaces | PixelateFaces

  /** The effect each toggle button switches. */
  function ToggleEffect(t: Toggle): string {
    match t
    case Improve => "improve"
    case AutoBrightness => "auto_brightness"
    case AutoColor => "auto_color"
    case AutoContrast => "auto_contrast"
    case Sharpen => "sharpen"
    case Vibrance => "e_vibrance"
    case Upscale => "upscale"
    case Enhance => "enhance"
    case Cartoonify => "cartoonify"
    case Sepia => "sepia"
    case Vignette => "vignette"
    case PixelateEffect => "pixelate"
    case Grayscale => "grayscale"
    case RemoveBackground => "remove_background"
    case Shadow => "shadow"
    case BlurFaces => "e_blur_faces"
    case PixelateFaces => "e_pixelate_faces"
  }

  /** The sliders, number inputs, text inputs and selects that write one
      parameter of one effect. */
  datatype Setting =
    | Brightness | Contrast | Saturation | FillLight | FillLightBlend | Opacity
    | ReplaceColorFrom | ReplaceColorTo | ReplaceColorTolerance
    | CropMode | CropWidth | CropHeight | CropGravity | Quality | Dpr
    | BlurStrength | PixelateStrength

  /** The effect a setting writes to. */
  function SettingEffect(s: Setting): string {
    match s
    case Brightness => "e_brightness"
    case Contrast => "e_contrast"
    case Saturation => "e_saturation"
    case FillLight | FillLightBlend => "e_fill_light"
    case Opacity => "o"
    case ReplaceColorFrom | ReplaceColorTo | ReplaceColorTolerance => "e_replace_color"
    case CropMode | CropWidth | CropHeight | CropGravity => "c"
    case Quality => "q"
    case Dpr => "dpr"
    case BlurStrength => "e_blur"
    case PixelateStrength => "e_pixelate"
  }

  /** The parameter of that effect a setting writes. */
  function SettingParam(s: Setting): string {
    match s
    case Brightness | Contrast | Saturation | FillLight | Opacity | Quality => "level"
    case FillLightBlend => "blend"
    case ReplaceColorFrom => "from_color"
    case ReplaceColorTo => "to_color"
    case ReplaceColorTolerance => "tolerance"
    case CropMode => "crop_mode"
    case CropWidth => "width"
    case CropHeight => "height"
    case CropGravity => "gravity"
    case Dpr => "value"
    case BlurStrength | PixelateStrength => "strength"
  }

  const ArtEffect: string := "e_art"
  const FormatEffect: string := "f"

  /** Every toggle switches its own effect. */
  lemma ToggleEffectsDistinct(t: Toggle, u: Toggle)
    requires t != u
    ensures ToggleEffect(t) != ToggleEffect(u)
  {
  }

  /** Every setting writes its own slot, so no control overwrites another's
      value. */
  lemma SettingSlotsDistinct(s: Setting, u: Setting)
    requires s != u
    ensures SettingEffect(s) != SettingEffect(u) || SettingParam(s) != SettingParam(u)
  {
  }

  /** No toggle switches an effect that a setting writes parameters of, so
      switching one on never wipes those parameters. */
  lemma ToggleEffectsAreParameterless(t: Toggle, s: Setting)
    ensures ToggleEffect(t) != SettingEffect(s)
  {
  }

  /** The art-filter and format selects write effects of their own. */
  lemma SelectEffectsAreSeparate(t: Toggle, s: Setting)
    ensures ToggleEffect(t) != ArtEffect && ToggleEffect(t) != FormatEffect
    ensures SettingEffect(s) != ArtEffect && SettingEffect(s) != FormatEffect
  {
  }

  /** The value a fresh selection and a reset give each setting: sliders at
      0 except opacity and quality at 100 and DPR at 1, texts and selects empty. */
  function DefaultSetting(s: Setting): Value {
    match s
    case Opacity | Quality => Number(1000)
    case Dpr => Number(10)
    case ReplaceColorFrom | ReplaceColorTo | CropMode | CropWidth | CropHeight | CropGravity => Str("")
    case _ => Number(0)
  }

  /** Every toggle button off. */
  const AllTogglesOff: map<Toggle, bool> := map t: Toggle :: false

  /** Every setting at its default. */
  const DefaultSettings: map<Setting, Value> := map s: Setting :: DefaultSetting(s)

  // ---------------------------------------------------------------------------
  // Apply and save decisions

  /** What applying a map does. */
  datatype ApplyStep = Skip | ShowOriginal | CallService

  /** `handleApplyTransformations`'s guards: nothing without a selected image,
      the original for an empty map, a service call otherwise. */
  function ApplyStepFor(selected: Option<string>, t: Transformations): (step: ApplyStep)
    ensures step == Skip <==> !Truthy(selected)
    ensures step == ShowOriginal <==> Truthy(selected) && |t| == 0
    ensures step == CallService <==> Truthy(selected) && |t| > 0
  {
    if !Truthy(selected) then Skip
    else if t == map[] then ShowOriginal
    else CallService
  }

  /** The folder a save goes to when the id has none. */
  const DefaultSaveFolder: string := "worker_uploads"

  /** Group 1 of `publicId.match(/(.*)\/[^/]+$/)`, or None when there is no
      match. The match needs a last `/` followed by at least one character;
      `.` does not cross a line terminator, so the group runs from just after
      the last line terminator before that `/` up to it. */
  function FolderMatch(publicId: string): (group: Option<string>)
    ensures group.Some? <==> 0 <= LastIndexOf(publicId, '/') < |publicId| - 1
    ensures group.Some? ==>
      var slash := LastIndexOf(publicId, '/');
      && |group.value| <= slash
      && group.value == publicId[slash - |group.value|..slash]
      && (forall k :: 0 <= k < |group.value| ==> !IsLineTerminator(group.value[k]))
      && (|group.value| == slash || IsLineTerminator(publicId[slash - |group.value| - 1]))
  {
    var slash := LastIndexOf(publicId, '/');
    if slash < 0 || slash == |publicId| - 1 then None
    else
      var start := LastLineBreak(publicId[..slash]) + 1;
      assert publicId[..slash][start..] == publicId[start..slash];
      Some(publicId[start..slash])
  }

  /** `folderMatch ? folderMatch[1] : 'worker_uploads'`. */
  function SaveFolder(publicId: string): string {
    match FolderMatch(publicId)
    case Some(group) => group
    case None => DefaultSaveFolder
  }

  /** For an id on one line, the save folder is everything before the last
      `/` when a non-empty last segment follows it, and the default folder
      otherwise. */
  lemma SaveFolderOfOneLineId(publicId: string)
    requires forall k :: 0 <= k < |publicId| ==> !IsLineTerminator(publicId[k])
    ensures var slash := LastIndexOf(publicId, '/');
      && (0 <= slash < |publicId| - 1 ==> SaveFolder(publicId) == publicId[..slash])
      && (slash < 0 || slash == |publicId| - 1 ==> SaveFolder(publicId) == DefaultSaveFolder)
  {
    var slash := LastIndexOf(publicId, '/');
    if 0 <= slash < |publicId| - 1 {
      assert forall k :: 0 <= k < slash ==> !IsLineTerminator(publicId[..slash][k]);
      assert LastLineBreak(publicId[..slash]) == -1;
    }
  }

  /** The save folder and the gallery's card title split a one-line id with
      a folder exactly at its last `/`. */
  lemma SaveFolderAndTitleRebuildId(publicId: string, title: string)
    requires forall k :: 0 <= k < |publicId| ==> !IsLineTerminator(publicId[k])
    requires FolderMatch(publicId).Some?
    requires '/' !in title && |title| < |publicId|
    requires title == publicId[|publicId| - |title|..] && publicId[|publicId| - |title| - 1] == '/'
    ensures SaveFolder(publicId) + "/" + title == publicId
  {
    SaveFolderOfOneLineId(publicId);
    var slash := LastIndexOf(publicId, '/');
    assert slash == |publicId| - |title| - 1;
    assert publicId == publicId[..slash] + "/" + publicId[slash + 1..];
  }

  /** What pressing save does. */
  datatype SaveStep = RefuseSave | SaveTo(folder: string)

  /** `handleSaveTransformedImage`'s guards: a save needs a selected image
      and a preview that is set and differs from the original; it goes to
      the folder of the selected id. */
  function SaveStepFor(selected: Option<string>, transformed: Option<string>, original: Option<string>): (step: SaveStep)
    ensures step.SaveTo? <==> Truthy(selected) && Truthy(transformed) && transformed != original
    ensures step.SaveTo? ==> step.folder == SaveFolder(selected.value)
  {
    if !Truthy(selected) then RefuseSave
    else if !Truthy(transformed) || transformed == original then RefuseSave
    else SaveTo(SaveFolder(selected.value))
  }

  /** A `applyTransformations(publicId, transformations)` request. */
  datatype TransformRequest = TransformRequest(publicId: string, transformations: Transformations)

  /** A `saveTransformedImage(imageUrl, folder)` request. */
  datatype SaveRequest = SaveRequest(imageUrl: string, folder: string)

  // ---------------------------------------------------------------------------
  // The editor's state

  /** The editor's state. The source keeps one state variable per control;
      here the seventeen toggle buttons' states form one map and the
      seventeen setting controls' values another, each keyed by the control. */
  class ImageEditorSection {
    // application state passed in as props
    var selectedPublicId: Option<string>
    var originalImageUrl: Option<string>

    var transformedImageUrl: Option<string>
    var currentTransformations: Transformations
    var toggles: map<Toggle, bool>
    var settings: map<Setting, Value>
    var artFilter: string
    var format: string
    var qualityAuto: bool
    var dprAuto: bool

    /** Every control has a state. */
    ghost predicate Valid()
      reads this
    {
      (forall t: Toggle :: t in toggles) && (forall s: Setting :: s in settings)
    }

    /** Every control at its default: toggles off, settings at
        `DefaultSetting`, selects empty, automatic quality and DPR off. */
    predicate ControlsAtDefaults()
      reads this
    {
      && toggles == AllTogglesOff && settings == DefaultSettings
      && artFilter == "" && format == "" && !qualityAuto && !dprAuto
    }

    /** The editor as a new selection and a reset leave it: controls at their
        defaults, no transformation, the preview showing the original. */
    predicate IsReset()
      reads this
    {
      ControlsAtDefaults() && currentTransformations == map[]
      && transformedImageUrl == originalImageUrl
    }

    constructor (id: Option<string>, url: Option<string>)
      ensures Valid()
      ensures selectedPublicId == id && originalImageUrl == url && IsReset()
    {
      selectedPublicId, originalImageUrl := id, url;
      new;
      RestoreDefaults();
    }

    /** The setter sequence shared by the selection-change effect and the
        reset button. */
    method RestoreDefaults()
      modifies this`transformedImageUrl, this`currentTransformations, this`toggles, this`settings,
              this`artFilter, this`format, this`qualityAuto, this`dprAuto
      ensures Valid() && IsReset()
    {
      transformedImageUrl := originalImageUrl;
      currentTransformations := map[];
      toggles := AllTogglesOff;
      settings := DefaultSettings;
      artFilter := "";
      format := "";
      qualityAuto := false;
      dprAuto := false;
    }

    /** The effect run when the selected image changes: every control back to
        its default and the preview on the new original. */
    method SelectionChanged(id: Option<string>, url: Option<string>)
      modifies this
      ensures Valid()
      ensures selectedPublicId == id && originalImageUrl == url
      ensures IsReset()
    {
      selectedPublicId, originalImageUrl := id, url;
      RestoreDefaults();
    }

    /** The reset button: without a selected image it only warns; otherwise
        it restores the same state a new selection gets. Resetting an editor
        that is already reset changes nothing. */
    method HandleResetAllEffects() returns (toast: Toast)
      requires Valid()
      modifies this`transformedImageUrl, this`currentTransformations, this`toggles, this`settings,
              this`artFilter, this`format, this`qualityAuto, this`dprAuto
      ensures Valid()
      ensures !Truthy(selectedPublicId) ==> unchanged(this) && toast == Warning
      ensures Truthy(selectedPublicId) ==> IsReset() && toast == Silent
      ensures old(IsReset()) ==> unchanged(this)
    {
      if !Truthy(selectedPublicId) {
        toast := Warning;
        return;
      }
      ghost var wasReset := IsReset();
      RestoreDefaults();
      toast := Silent;
      if wasReset {
        assert old(toggles) == toggles && old(settings) == settings;
      }
    }

    /** `updateTransformation`: copies the map, edits the copy and stores it. */
    method UpdateTransformation(effect: string, param: Option<string>, v: Value)
      modifies this`currentTransformations
      ensures currentTransformations == Updated(old(currentTransformations), effect, param, v)
    {
      var next := currentTransformations;
      if param.None? {
        if v == Bool(false) {
          next := next - {effect};
        } else {
          next := next[effect := map[]];
        }
      } else {
        if effect !in next {
          next := next[effect := map[]];
        }
        next := next[effect := next[effect][param.value := v]];
      }
      currentTransformations := next;
    }

    /** A toggle button: flips its control and switches its effect to match. */
    method HandleToggle(t: Toggle)
      requires Valid()
      modifies this`toggles, this`currentTransformations
      ensures Valid()
      ensures toggles == old(toggles)[t := !old(toggles)[t]]
      ensures currentTransformations
           == Updated(old(currentTransformations), ToggleEffect(t), None, Bool(toggles[t]))
    {
      var on := !toggles[t];
      toggles := toggles[t := on];
      UpdateTransformation(ToggleEffect(t), None, Bool(on));
    }

    /** A slider, number input, text input or one of the crop selects: stores
        the value in its control and writes it as its parameter, even when it
        is empty. */
    method HandleSetting(s: Setting, v: Value)
      requires Valid()
      modifies this`settings, this`currentTransformations
      ensures Valid()
      ensures settings == old(settings)[s := v]
      ensures currentTransformations
           == Updated(old(currentTransformations), SettingEffect(s), Some(SettingParam(s)), v)
    {
      settings := settings[s := v];
      UpdateTransformation(SettingEffect(s), Some(SettingParam(s)), v);
    }

    /** The art-filter select: a choice sets `e_art.filter`; clearing it
        removes `e_art` altogether. */
    method HandleArtFilterChange(choice: string)
      modifies this`artFilter, this`currentTransformations
      ensures artFilter == choice
      ensures choice != "" ==>
        currentTransformations == Updated(old(currentTransformations), ArtEffect, Some("filter"), Str(choice))
      ensures choice == "" ==> currentTransformations == old(currentTransformations) - {ArtEffect}
    {
      artFilter := choice;
      if choice != "" {
        UpdateTransformation(ArtEffect, Some("filter"), Str(choice));
      } else {
        var next := currentTransformations;
        next := next - {ArtEffect};
        currentTransformations := next;
      }
    }

    /** The format select: a choice sets `f.format`; clearing it removes `f`
        altogether. */
    method HandleFormatChange(choice: string)
      modifies this`format, this`currentTransformations
      ensures format == choice
      ensures choice != "" ==>
        currentTransformations == Updated(old(currentTransformations), FormatEffect, Some("format"), Str(choice))
      ensures choice == "" ==> currentTransformations == old(currentTransformations) - {FormatEffect}
    {
      format := choice;
      if choice != "" {
        UpdateTransformation(FormatEffect, Some("format"), Str(choice));
      } else {
        var next := currentTransformations;
        next := next - {FormatEffect};
        currentTransformations := next;
      }
    }

    /** The automatic-quality box: checking it writes `q.level = 'auto'`;
        unchecking it writes back the slider's value. */
    method HandleQualityAutoChange(checked: bool)
      requires Valid()
      modifies this`qualityAuto, this`currentTransformations
      ensures qualityAuto == checked
      ensures currentTransformations == Updated(old(currentTransformations), "q", Some("level"),
                                                if checked then Str("auto") else settings[Quality])
    {
      qualityAuto := checked;
      if checked {
        UpdateTransformation("q", Some("level"), Str("auto"));
      } else {
        UpdateTransformation("q", Some("level"), settings[Quality]);
      }
    }

    /** The automatic-DPR box: checking it writes `dpr.value = 'auto'`;
        unchecking it writes back the slider's value. */
    method HandleDprAutoChange(checked: bool)
      requires Valid()
      modifies this`dprAuto, this`currentTransformations
      ensures dprAuto == checked
      ensures currentTransformations == Updated(old(currentTransformations), "dpr", Some("value"),
                                                if checked then Str("auto") else settings[Dpr])
    {
      dprAuto := checked;
      if checked {
        UpdateTransformation("dpr", Some("value"), Str("auto"));
      } else {
        UpdateTransformation("dpr", Some("value"), settings[Dpr]);
      }
    }

    /** `handleApplyTransformations(t)`: nothing without a selected image; the
        original for an empty map; otherwise the service's preview URL, or,
        when the call fails, an alert and the preview left as it was. */
    method HandleApplyTransformations(t: Transformations, outcome: Outcome<string>)
      returns (request: Option<TransformRequest>, toast: Toast)
      modifies this`transformedImageUrl
      ensures ApplyStepFor(selectedPublicId, t) == Skip ==>
        request == None && transformedImageUrl == old(transformedImageUrl) && toast == Silent
      ensures ApplyStepFor(selectedPublicId, t) == ShowOriginal ==>
        request == None && transformedImageUrl == originalImageUrl && toast == Silent
      ensures ApplyStepFor(selectedPublicId, t) == CallService ==>
        && request == Some(TransformRequest(selectedPublicId.value, t))
        && (outcome.Ok? ==> transformedImageUrl == Some(outcome.value) && toast == Silent)
        && (outcome.Failed? ==> transformedImageUrl == old(transformedImageUrl) && toast == Error)
    {
      request, toast := None, Silent;
      match ApplyStepFor(selectedPublicId, t) {
        case Skip =>
        case ShowOriginal =>
          transformedImageUrl := originalImageUrl;
        case CallService =>
          request := Some(TransformRequest(selectedPublicId.value, t));
          if outcome.Ok? {
            transformedImageUrl := Some(outcome.value);
          } else {
            toast := Error;
          }
      }
    }

    /** `handleSaveTransformedImage`: refused with a warning unless an image is
        selected and its preview is set and differs from the original;
        otherwise the preview is saved into the selected id's folder and, on
        success, the gallery is asked to refresh. The editor itself does not
        change. */
    method HandleSaveTransformedImage(outcome: Outcome<()>)
      returns (request: Option<SaveRequest>, refreshGallery: bool, toast: Toast)
      ensures !Truthy(selectedPublicId) ==> request == None && !refreshGallery && toast == Warning
      ensures !Truthy(transformedImageUrl) || transformedImageUrl == originalImageUrl ==>
        request == None && !refreshGallery && toast == Warning
      ensures Truthy(selectedPublicId) && Truthy(transformedImageUrl) && transformedImageUrl != originalImageUrl ==>
        && request == Some(SaveRequest(transformedImageUrl.value, SaveFolder(selectedPublicId.value)))
        && refreshGallery == outcome.Ok?
        && toast == (if outcome.Ok? then Success else Error)
    {
      match SaveStepFor(selectedPublicId, transformedImageUrl, originalImageUrl) {
        case RefuseSave =>
          request, refreshGallery, toast := None, false, Warning;
        case SaveTo(folder) =>
          request := Some(SaveRequest(transformedImageUrl.value, folder));
          refreshGallery := outcome.Ok?;
          toast := if outcome.Ok? then Success else Error;
      }
    }
  }
}
