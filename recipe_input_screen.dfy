/**
 * src/screens/RecipeInputScreen/RecipeInputScreen.tsx: the input-kind badge, the submit
 * classification and the handlers that keep text and image apart. Whether `new URL`
 * accepts a string is a parameter.
 */
module RecipeInputScreen {
  import opened Wrappers
  import opened Ascii
  import opened DbTypes
  import RecipeStore

  /** The shortest text accepted as a recipe. */
  const MinTextLength: nat := 20
  /** The largest picked image accepted, in bytes (10 MB). */
  const MaxImageBytes: int := 10 * 1024 * 1024

  datatype InputKind = KindText | KindUrl | KindImage

  /** `startsWith('http://') || startsWith('https://')`. */
  predicate HasUrlPrefix(s: string) {
    StartsWith(s, "http://") || StartsWith(s, "https://")
  }

  /** Mentions one of the four video and social hosts. */
  predicate HasKnownHost(s: string) {
    Contains(s, "youtube.com") || Contains(s, "youtu.be") ||
    Contains(s, "tiktok.com") || Contains(s, "instagram.com")
  }

  /** The URL test, with the prefix checks made on `prefixView` and the host checks on
      `hostView`: the badge passes the lower-cased text as both, submit passes the
      lower-cased text and the text as typed. */
  predicate UrlLike(prefixView: string, hostView: string)
    ensures UrlLike(prefixView, hostView) ==> 7 <= |prefixView| || 8 <= |hostView|
  {
    HasUrlPrefix(prefixView) || HasKnownHost(hostView)
  }

  /** The badge: image, URL, text or nothing. */
  function DetectType(text: string, imageUri: Option<string>): (r: Option<InputKind>)
    ensures r == Some(KindImage) <==> Truthy(imageUri)
    ensures r.None? <==> !Truthy(imageUri) && Trim(text) == []
    ensures r == Some(KindUrl) ==> UrlLike(ToLower(Trim(text)), ToLower(Trim(text)))
    ensures r == Some(KindText) ==> !UrlLike(ToLower(Trim(text)), ToLower(Trim(text)))
  {
    if Truthy(imageUri) then Some(KindImage)
    else
      var trimmed := Trim(text);
      if trimmed == [] then None
      else if UrlLike(ToLower(trimmed), ToLower(trimmed)) then Some(KindUrl)
      else Some(KindText)
  }

  /** The string handed to `new URL`: the text itself when it starts with "http". */
  function UrlCandidate(trimmed: string): (r: string)
    ensures StartsWith(r, "http")
    ensures |trimmed| <= |r| && r[|r| - |trimmed|..] == trimmed
  {
    if StartsWith(trimmed, "http") then trimmed else "https://" + trimmed
  }

  /** How a submit ends: an input to stage, or one of the three alerts. */
  datatype SubmitOutcome = Staged(input: RawInput) | InvalidUrl | TooShort | NoInput

  /** handleSubmit's decision. */
  function ClassifySubmit(text: string, imageUri: Option<string>, mimeType: Option<string>,
                          urlParses: string -> bool): (r: SubmitOutcome)
    ensures r.NoInput? <==> !Truthy(imageUri) && Trim(text) == []
    ensures r.Staged? && r.input.ImageInput? <==> Truthy(imageUri)
    ensures r.InvalidUrl? ==> !urlParses(UrlCandidate(Trim(text)))
    ensures r.TooShort? ==> 0 < |Trim(text)| < MinTextLength
    ensures r.Staged? && r.input.TextInput? ==> MinTextLength <= |r.input.content|
    ensures r.Staged? && !r.input.ImageInput? ==> r.input.content == Trim(text)
  {
    if Truthy(imageUri) then Staged(ImageInput(imageUri.value, mimeType))
    else
      var trimmed := Trim(text);
      if trimmed == [] then NoInput
      else if UrlLike(ToLower(trimmed), trimmed) then
        if urlParses(UrlCandidate(trimmed)) then Staged(UrlInput(trimmed)) else InvalidUrl
      else if |trimmed| < MinTextLength then TooShort
      else Staged(TextInput(trimmed))
  }

  /** An attached image wins over any text, for the badge and for submit. */
  lemma ImageWins(text: string, imageUri: Option<string>, mimeType: Option<string>,
                  urlParses: string -> bool)
    requires Truthy(imageUri)
    ensures DetectType(text, imageUri) == Some(KindImage)
    ensures ClassifySubmit(text, imageUri, mimeType, urlParses) == Staged(ImageInput(imageUri.value, mimeType))
  {
  }

  /** Without an image, blank text stages nothing and shows no badge. */
  lemma BlankIsNoInput(text: string, imageUri: Option<string>, mimeType: Option<string>,
                       urlParses: string -> bool)
    requires !Truthy(imageUri)
    ensures ClassifySubmit(text, imageUri, mimeType, urlParses) == NoInput <==> Trim(text) == []
    ensures DetectType(text, imageUri) == None <==> Trim(text) == []
  {
  }

  /** Whatever is staged from text is the trimmed text: non-empty, with no whitespace at
      either end. */
  lemma StagedTextIsTrimmed(text: string, imageUri: Option<string>, mimeType: Option<string>,
                            urlParses: string -> bool)
    requires var o := ClassifySubmit(text, imageUri, mimeType, urlParses);
             o.Staged? && !o.input.ImageInput?
    ensures var c := ClassifySubmit(text, imageUri, mimeType, urlParses).input.content;
            c == Trim(text) && c != [] && !IsWhitespace(c[0]) && !IsWhitespace(c[|c| - 1])
  {
  }

  /** Text that does not look like a URL is staged exactly when it has at least 20
      characters after trimming, and is otherwise rejected as too short. */
  lemma TextRule(text: string, imageUri: Option<string>, mimeType: Option<string>,
                 urlParses: string -> bool)
    requires !Truthy(imageUri) && Trim(text) != [] && !UrlLike(ToLower(Trim(text)), Trim(text))
    ensures ClassifySubmit(text, imageUri, mimeType, urlParses) ==
              if |Trim(text)| >= MinTextLength then Staged(TextInput(Trim(text))) else TooShort
  {
  }

  /** URL-like text is staged as a URL exactly when its candidate parses, and never falls
      through to the text rule. */
  lemma UrlRule(text: string, imageUri: Option<string>, mimeType: Option<string>,
                urlParses: string -> bool)
    requires !Truthy(imageUri) && Trim(text) != [] && UrlLike(ToLower(Trim(text)), Trim(text))
    ensures ClassifySubmit(text, imageUri, mimeType, urlParses) ==
              if urlParses(UrlCandidate(Trim(text))) then Staged(UrlInput(Trim(text))) else InvalidUrl
  {
  }

  /** A host mentioned in `s` is still mentioned once `s` is lower-cased. */
  lemma {:induction false} KnownHostLowered(s: string)
    requires HasKnownHost(s)
    ensures HasKnownHost(ToLower(s))
  {
    if Contains(s, "youtube.com") {
      ContainsLowered(s, "youtube.com");
    } else if Contains(s, "youtu.be") {
      ContainsLowered(s, "youtu.be");
    } else if Contains(s, "tiktok.com") {
      ContainsLowered(s, "tiktok.com");
    } else {
      ContainsLowered(s, "instagram.com");
    }
  }

  /** Every text submit treats as a URL carries the URL badge. */
  lemma {:induction false} SubmitUrlIsDetectedUrl(text: string, imageUri: Option<string>,
                                                   mimeType: Option<string>, urlParses: string -> bool)
    ensures var o := ClassifySubmit(text, imageUri, mimeType, urlParses);
            o == InvalidUrl || (o.Staged? && o.input.UrlInput?) ==> DetectType(text, imageUri) == Some(KindUrl)
  {
    var t := Trim(text);
    if !Truthy(imageUri) && t != [] && !HasUrlPrefix(ToLower(t)) && HasKnownHost(t) {
      KnownHostLowered(t);
    }
  }

  /** The badge and submit disagree on upper-case hosts: "YOUTU.BE" shows the URL badge but
      is submitted through the text rule and rejected as too short. */
  lemma UpperCaseHostMismatch(urlParses: string -> bool)
    ensures DetectType("YOUTU.BE", None) == Some(KindUrl)
    ensures ClassifySubmit("YOUTU.BE", None, None, urlParses) == TooShort
  {
    TrimTrimmed("YOUTU.BE");
    LowerUpperHost();
    LowerHostKnown();
    UpperHostUnknown();
    MismatchOn("YOUTU.BE", urlParses);
  }

  /** A short trimmed text whose host is recognised only after lower-casing. */
  lemma MismatchOn(s: string, urlParses: string -> bool)
    requires s != [] && Trim(s) == s && |s| < MinTextLength
    requires !HasUrlPrefix(ToLower(s)) && HasKnownHost(ToLower(s)) && !HasKnownHost(s)
    ensures DetectType(s, None) == Some(KindUrl)
    ensures ClassifySubmit(s, None, None, urlParses) == TooShort
  {
  }

  lemma LowerUpperHost()
    ensures ToLower("YOUTU.BE") == "youtu.be"
    ensures !HasUrlPrefix("youtu.be")
  {
    assert "youtu.be"[0] != "http://"[0];
  }

  lemma LowerHostKnown()
    ensures HasKnownHost("youtu.be")
  {
    assert OccursAt("youtu.be", "youtu.be", 0);
  }

  lemma UpperHostUnknown()
    ensures !HasKnownHost("YOUTU.BE")
  {
    var s := "YOUTU.BE";
    NotContainsWithoutFirst(s, "youtube.com");
    NotContainsWithoutFirst(s, "youtu.be");
    NotContainsWithoutFirst(s, "tiktok.com");
    NotContainsWithoutFirst(s, "instagram.com");
  }

  /** What the image picker gave back. */
  datatype PickResult =
    | PickFailed
    | PickCanceled
    | Picked(uri: string, mimeType: Option<string>, fileSize: Option<int>)

  /** `asset.fileSize && asset.fileSize > 10 MB`. */
  predicate TooLarge(fileSize: Option<int>) {
    fileSize.Some? && fileSize.value != 0 && fileSize.value > MaxImageBytes
  }

  /** What the clipboard read gave back. */
  datatype ClipboardRead = ClipboardFailed | ClipboardText(content: string)

  class Screen {
    var textInput: string
    var imageUri: Option<string>
    var imageMimeType: Option<string>
    var detectedType: Option<InputKind>
    const store: RecipeStore.Store

    constructor(store: RecipeStore.Store)
      ensures this.store == store
      ensures textInput == "" && imageUri == None && imageMimeType == None && detectedType == None
    {
      this.store := store;
      textInput, imageUri, imageMimeType, detectedType := "", None, None, None;
    }

    /** The effect that runs after `textInput` or `imageUri` changed. */
    method RunDetectEffect()
      modifies this
      ensures detectedType == DetectType(textInput, imageUri)
      ensures textInput == old(textInput) && imageUri == old(imageUri) && imageMimeType == old(imageMimeType)
    {
      if Truthy(imageUri) {
        detectedType := Some(KindImage);
      } else {
        var trimmed := Trim(textInput);
        if trimmed != [] {
          var lower := ToLower(trimmed);
          detectedType := if UrlLike(lower, lower) then Some(KindUrl) else Some(KindText);
        } else {
          detectedType := None;
        }
      }
    }

    /** handleSubmit: stages the classified input in the recipe store, or shows an alert and
        leaves the store alone. The screen's own state does not change. */
    method HandleSubmit(urlParses: string -> bool) returns (outcome: SubmitOutcome)
      modifies store
      ensures outcome == ClassifySubmit(textInput, imageUri, imageMimeType, urlParses)
      ensures outcome.Staged? ==> store.rawInput == Some(outcome.input) && store.error == None
      ensures !outcome.Staged? ==> store.rawInput == old(store.rawInput) && store.error == old(store.error)
      ensures store.loading == old(store.loading)
    {
      var input: Option<RawInput> := None;
      if Truthy(imageUri) {
        input := Some(ImageInput(imageUri.value, imageMimeType));
      } else if Trim(textInput) != [] {
        var trimmed := Trim(textInput);
        if UrlLike(ToLower(trimmed), trimmed) {
          if !urlParses(UrlCandidate(trimmed)) {
            return InvalidUrl;
          }
          input := Some(UrlInput(trimmed));
        } else {
          if |trimmed| < MinTextLength {
            return TooShort;
          }
          input := Some(TextInput(trimmed));
        }
      }
      if input.None? {
        return NoInput;
      }
      store.SetRawInput(input.value);
      outcome := Staged(input.value);
    }

    /** The text field's onChangeText: non-empty text drops the image (its MIME type stays). */
    method HandleChangeText(text: string)
      modifies this
      ensures textInput == text && imageMimeType == old(imageMimeType) && detectedType == old(detectedType)
      ensures imageUri == if text != "" then None else old(imageUri)
    {
      textInput := text;
      if text != "" {
        imageUri := None;
      }
    }

    /** handleCamera and handleLibrary: an accepted image replaces the text; a failure, a
        cancel or an image over 10 MB changes nothing. */
    method HandlePickedImage(result: PickResult)
      modifies this
      ensures detectedType == old(detectedType)
      ensures result.Picked? && !TooLarge(result.fileSize) ==>
                imageUri == Some(result.uri) && imageMimeType == result.mimeType && textInput == ""
      ensures !(result.Picked? && !TooLarge(result.fileSize)) ==>
                imageUri == old(imageUri) && imageMimeType == old(imageMimeType) && textInput == old(textInput)
    {
      match result
      case Picked(uri, mime, size) =>
        if TooLarge(size) {
          return;
        }
        imageUri, imageMimeType, textInput := Some(uri), mime, "";
      case _ =>
    }

    /** handlePaste: non-empty clipboard text replaces the text and drops the image. */
    method HandlePaste(read: ClipboardRead)
      modifies this
      ensures detectedType == old(detectedType)
      ensures read.ClipboardText? && read.content != "" ==>
                textInput == read.content && imageUri == None && imageMimeType == None
      ensures !(read.ClipboardText? && read.content != "") ==>
                textInput == old(textInput) && imageUri == old(imageUri) && imageMimeType == old(imageMimeType)
    {
      if read.ClipboardText? && read.content != "" {
        textInput, imageUri, imageMimeType := read.content, None, None;
      }
    }

    /** handleClear: empties the screen and the staged store input. */
    method HandleClear()
      modifies this, store
      ensures textInput == "" && imageUri == None && imageMimeType == None && detectedType == old(detectedType)
      ensures store.rawInput == None && store.error == None && store.loading == old(store.loading)
    {
      textInput, imageUri, imageMimeType := "", None, None;
      store.ClearInput();
    }
  }
}
