/** The post composer (src/components/CreatePost.jsx): text inputs, one image or video
    that is checked when picked, a validator, and a submit handler that uploads the file
    before it creates the post. */
module CreatePost {
  import opened Common
  import opened Forms
  import R2Upload
  import Storage

  /** The names the component's dictionaries use. */
  datatype Field = Title | Content | Tag | Location | Image | Api

  const MediaTypes: seq<string> := ["image/*", "video/*"]
  const MaxMediaBytes: nat := 10 * 1024 * 1024

  const InvalidMediaText: string := "Please select a valid image or video file"
  const MediaTooLargeText: string := "File size should be less than 10MB"
  const ImageRequiredText: string := "Please select an image"
  const CreateFailedText: string := "Failed to create post. Please try again."

  // ---------------------------------------------------------------------------
  // Picking a file
  // ---------------------------------------------------------------------------

  /** The message `handleImageChange` reports for a picked file, if any: the type is checked
      first, then the size. */
  function MediaError(file: R2Upload.File): (r: Option<string>)
    ensures !R2Upload.ValidateFileType(Some(file), MediaTypes) ==> r == Some(InvalidMediaText)
    ensures R2Upload.ValidateFileType(Some(file), MediaTypes) && file.size > MaxMediaBytes ==> r == Some(MediaTooLargeText)
    ensures r.None? <==> R2Upload.ValidateFileType(Some(file), MediaTypes) && file.size <= MaxMediaBytes
  {
    if !R2Upload.ValidateFileType(Some(file), MediaTypes) then Some(InvalidMediaText)
    else if file.size > MaxMediaBytes then Some(MediaTooLargeText)
    else None
  }

  /** A file is accepted exactly when its declared type starts `image/` or `video/` and it has
      at most 10 MiB; an oversized file of another type gets the type message. */
  lemma MediaAcceptance(file: R2Upload.File)
    ensures MediaError(file).None?
        <==> (StartsWith(file.mimeType, "image/") || StartsWith(file.mimeType, "video/")) && file.size <= MaxMediaBytes
    ensures !StartsWith(file.mimeType, "image/") && !StartsWith(file.mimeType, "video/")
            ==> MediaError(file) == Some(InvalidMediaText)
  {
    R2Upload.ValidateDefaultMediaTypes(file);
  }

  // ---------------------------------------------------------------------------
  // Validation
  // ---------------------------------------------------------------------------

  /** The title: not blank, then at least 3 and at most 100 characters counted on the raw
      text (the message for the upper bound says "less than 100" although 100 passes). */
  function TitleError(t: string): (r: Option<string>)
    ensures TrimmedEmpty(t) ==> r == Some("Title is required")
    ensures !TrimmedEmpty(t) && |t| < 3 ==> r == Some("Title must be at least 3 characters")
    ensures !TrimmedEmpty(t) && |t| > 100 ==> r == Some("Title must be less than 100 characters")
    ensures r.None? <==> !TrimmedEmpty(t) && 3 <= |t| <= 100
  {
    if TrimmedEmpty(t) then Some("Title is required")
    else if |t| < 3 then Some("Title must be at least 3 characters")
    else if |t| > 100 then Some("Title must be less than 100 characters")
    else None
  }

  /** The description: not blank, then at least 10 characters counted on the raw text. */
  function ContentError(c: string): (r: Option<string>)
    ensures TrimmedEmpty(c) ==> r == Some("Description is required")
    ensures !TrimmedEmpty(c) && |c| < 10 ==> r == Some("Description must be at least 10 characters")
    ensures r.None? <==> !TrimmedEmpty(c) && |c| >= 10
  {
    if TrimmedEmpty(c) then Some("Description is required")
    else if |c| < 10 then Some("Description must be at least 10 characters")
    else None
  }

  /** The image is required when there is neither a file nor a preview. */
  function ImageError(file: Option<R2Upload.File>, preview: Option<string>): (r: Option<string>)
    ensures r.None? <==> file.Some? || Truthy(preview)
    ensures r.Some? ==> r.value == ImageRequiredText
  {
    if file.None? && !Truthy(preview) then Some(ImageRequiredText) else None
  }

  /** `validateForm`'s checks, in order. */
  function PostChecks(form: map<Field, string>, file: Option<R2Upload.File>, preview: Option<string>)
    : seq<(Field, Option<string>)>
  {
    [(Title, TitleError(FieldValue(form, Title))), (Content, ContentError(FieldValue(form, Content))),
     (Image, ImageError(file, preview))]
  }

  /** The `newErrors` dictionary `validateForm` builds. */
  function PostErrors(form: map<Field, string>, file: Option<R2Upload.File>, preview: Option<string>): map<Field, string> {
    Collect(PostChecks(form, file, preview))
  }

  /** Each field's entry is its own check's message; tag, location and `api` never appear. */
  lemma PostErrorsPerField(form: map<Field, string>, file: Option<R2Upload.File>, preview: Option<string>)
    ensures var errs := PostErrors(form, file, preview);
      var t := FieldValue(form, Title);
      var c := FieldValue(form, Content);
      && (Title in errs <==> TitleError(t).Some?) && (Title in errs ==> errs[Title] == TitleError(t).value)
      && (Content in errs <==> ContentError(c).Some?) && (Content in errs ==> errs[Content] == ContentError(c).value)
      && (Image in errs <==> ImageError(file, preview).Some?) && (Image in errs ==> errs[Image] == ImageRequiredText)
      && Tag !in errs && Location !in errs && Api !in errs
  {
    var checks := PostChecks(form, file, preview);
    assert DistinctFields(checks);
    CollectLookup(checks, 0);
    CollectLookup(checks, 1);
    CollectLookup(checks, 2);
    CollectAbsent(checks, Tag);
    CollectAbsent(checks, Location);
    CollectAbsent(checks, Api);
  }

  /** The form passes exactly when the title and description are within their bounds and
      there is a file or a preview. */
  lemma PostErrorsEmpty(form: map<Field, string>, file: Option<R2Upload.File>, preview: Option<string>)
    ensures var t := FieldValue(form, Title);
      var c := FieldValue(form, Content);
      |PostErrors(form, file, preview)| == 0
      <==> !TrimmedEmpty(t) && 3 <= |t| <= 100 && !TrimmedEmpty(c) && |c| >= 10 && (file.Some? || Truthy(preview))
  {
    var checks := PostChecks(form, file, preview);
    CollectEmptyThree(checks[0], checks[1], checks[2]);
    assert checks == [checks[0], checks[1], checks[2]];
  }

  /** Blank text fails even when long enough, while a short title padded with spaces passes:
      the length bounds count the untrimmed text. */
  lemma RawLengthCounts()
    ensures TitleError("   ") == Some("Title is required")
    ensures TitleError("  a") == None
  {
    assert IsSpace("   "[0]) && IsSpace("   "[1]) && IsSpace("   "[2]);
    assert !IsSpace("  a"[2]);
  }

  // ---------------------------------------------------------------------------
  // Submitting
  // ---------------------------------------------------------------------------

  /** The object sent to `postsAPI.create`; `image` is the stored filename, or null. */
  datatype PostPayload = PostPayload(title: string, content: string, tag: string, location: string,
                                     image: Option<string>)

  /** The outside calls a submission makes, in order. */
  datatype Call =
    | UploadCall(file: R2Upload.File, prefix: string)
    | CreateCall(payload: PostPayload)

  /** What `uploadFileToR2` sees besides its arguments: the clock, the random text, the
      configured relay URL and the relay's answer. */
  datatype UploadContext = UploadContext(now: R2Upload.DateFields, random36: string, uploadBase: Option<string>,
                                         fetch: R2Upload.FetchResult)

  /** What `postsAPI.create` does: answers, or throws with a message. */
  datatype CreateOutcome = Created | CreateFailed(message: Option<string>)

  function Payload(form: map<Field, string>, image: Option<string>): (p: PostPayload)
    ensures p.title == FieldValue(form, Title) && p.content == FieldValue(form, Content)
    ensures p.tag == FieldValue(form, Tag) && p.location == FieldValue(form, Location) && p.image == image
  {
    PostPayload(FieldValue(form, Title), FieldValue(form, Content), FieldValue(form, Tag), FieldValue(form, Location), image)
  }

  /** The upload's result for this file and prefix in this context. */
  function UploadResult(file: R2Upload.File, prefix: string, ctx: UploadContext): Result<string, R2Upload.R2Error> {
    R2Upload.UploadFileToR2(Some(file), prefix, ctx.now, ctx.random36, ctx.uploadBase, ctx.fetch).result
  }

  class CreatePostForm {
    var formData: map<Field, string>
    var imagePreview: Option<string>
    var imageFile: Option<R2Upload.File>
    var isLoading: bool
    var errors: map<Field, string>

    constructor ()
      ensures formData == map[Title := "", Content := "", Tag := "", Location := ""]
      ensures imagePreview.None? && imageFile.None? && !isLoading && errors == map[]
    {
      formData := map[Title := "", Content := "", Tag := "", Location := ""];
      imagePreview := None;
      imageFile := None;
      isLoading := false;
      errors := map[];
    }

    /** `handleChange`: sets the named input and clears that field's shown message. */
    method HandleChange(name: Field, value: string)
      modifies this
      ensures formData == old(formData)[name := value]
      ensures errors == ClearError(old(errors), name)
      ensures imagePreview == old(imagePreview) && imageFile == old(imageFile) && isLoading == old(isLoading)
    {
      formData := formData[name := value];
      if name in errors && errors[name] != "" {
        errors := errors[name := ""];
      }
    }

    /** `handleImageChange`: a rejected file sets the `image` message and changes nothing
        else; an accepted one becomes `imageFile` and clears the message. No file picked
        changes nothing. */
    method HandleImageChange(picked: Option<R2Upload.File>)
      modifies this
      ensures formData == old(formData) && imagePreview == old(imagePreview) && isLoading == old(isLoading)
      ensures picked.None? ==> imageFile == old(imageFile) && errors == old(errors)
      ensures picked.Some? && MediaError(picked.value).Some? ==>
                imageFile == old(imageFile) && errors == old(errors)[Image := MediaError(picked.value).value]
      ensures picked.Some? && MediaError(picked.value).None? ==>
                imageFile == picked && errors == old(errors)[Image := ""]
    {
      if picked.Some? {
        var file := picked.value;
        if !R2Upload.ValidateFileType(Some(file), MediaTypes) {
          errors := errors[Image := InvalidMediaText];
          return;
        }
        if file.size > MaxMediaBytes {
          errors := errors[Image := MediaTooLargeText];
          return;
        }
        imageFile := picked;
        errors := errors[Image := ""];
      }
    }

    /** The preview reader's `onloadend`: the data URL becomes the preview. */
    method OnPreviewLoaded(dataUrl: string)
      modifies this
      ensures imagePreview == Some(dataUrl)
      ensures formData == old(formData) && imageFile == old(imageFile) && errors == old(errors) && isLoading == old(isLoading)
    {
      imagePreview := Some(dataUrl);
    }

    /** `handleRemoveImage`: drops both the file and its preview. */
    method HandleRemoveImage()
      modifies this
      ensures imageFile.None? && imagePreview.None?
      ensures formData == old(formData) && errors == old(errors) && isLoading == old(isLoading)
    {
      imageFile := None;
      imagePreview := None;
    }

    /** `validateForm`: replaces `errors` with the dictionary the checks build and reports
        whether it is empty. */
    method ValidateForm() returns (ok: bool)
      modifies this
      ensures errors == PostErrors(formData, imageFile, imagePreview)
      ensures ok <==> |errors| == 0
      ensures formData == old(formData) && imageFile == old(imageFile) && imagePreview == old(imagePreview)
      ensures isLoading == old(isLoading)
    {
      var newErrors := PostErrors(formData, imageFile, imagePreview);
      errors := newErrors;
      ok := |newErrors| == 0;
    }

    /** The body of `handleSubmit` after validation passed. The file, if any, is uploaded
        under the stored user id (or `post`) first; a failed upload ends the submission with
        its message as `errors.api` and no post created; otherwise the post is created with
        the uploaded filename as its image, or none without a file. The form ends not
        loading on every path. Returns the calls made, in order. */
    method Send(storage: Storage.LocalStorage, ctx: UploadContext, create: CreateOutcome) returns (calls: seq<Call>)
      modifies this
      ensures formData == old(formData) && imageFile == old(imageFile) && imagePreview == old(imagePreview)
      ensures !isLoading
      ensures imageFile.None? ==>
                calls == [CreateCall(Payload(formData, None))]
                && errors == (if create.Created? then map[] else map[Api := OrElse(create.message, CreateFailedText)])
      ensures imageFile.Some? ==>
                var prefix := OrElse(storage.GetItem("userId"), "post");
                var uploaded := UploadResult(imageFile.value, prefix, ctx);
                && (uploaded.Err? ==> calls == [UploadCall(imageFile.value, prefix)]
                                      && errors == map[Api := OrElse(Some(R2Upload.Message(uploaded.error)), CreateFailedText)])
                && (uploaded.Ok? ==> calls == [UploadCall(imageFile.value, prefix), CreateCall(Payload(formData, Some(uploaded.value)))]
                                     && errors == (if create.Created? then map[] else map[Api := OrElse(create.message, CreateFailedText)]))
    {
      isLoading := true;
      errors := map[];
      var form := formData;
      var image, failure;
      calls, image, failure := UploadImage(storage, ctx);
      if failure.Some? {
        errors := map[Api := failure.value];
        isLoading := false;
        return;
      }
      calls := calls + [CreateCall(Payload(form, image))];
      if create.CreateFailed? {
        errors := map[Api := OrElse(create.message, CreateFailedText)];
      }
      isLoading := false;
    }

    /** The upload part of `handleSubmit`: without a file nothing is uploaded; with one, it
        is uploaded under the stored user id (or "post"), giving either its stored filename or the
        message the form shows. */
    method UploadImage(storage: Storage.LocalStorage, ctx: UploadContext)
      returns (calls: seq<Call>, image: Option<string>, failure: Option<string>)
      ensures imageFile.None? ==> calls == [] && image.None? && failure.None?
      ensures imageFile.Some? ==>
                var prefix := OrElse(storage.GetItem("userId"), "post");
                var uploaded := UploadResult(imageFile.value, prefix, ctx);
                && calls == [UploadCall(imageFile.value, prefix)]
                && (uploaded.Err? ==> image.None? && failure == Some(OrElse(Some(R2Upload.Message(uploaded.error)), CreateFailedText)))
                && (uploaded.Ok? ==> image == Some(uploaded.value) && failure.None?)
    {
      calls, image, failure := [], None, None;
      var file := imageFile;
      if file.Some? {
        var prefix := OrElse(storage.GetItem("userId"), "post");
        calls := [UploadCall(file.value, prefix)];
        var uploaded := UploadResult(file.value, prefix, ctx);
        if uploaded.Err? {
          failure := Some(OrElse(Some(R2Upload.Message(uploaded.error)), CreateFailedText));
        } else {
          image := Some(uploaded.value);
        }
      }
    }

    /** `handleSubmit`: an invalid form makes no call and keeps its messages; a valid one is
        sent as `Send` describes. */
    method HandleSubmit(storage: Storage.LocalStorage, ctx: UploadContext, create: CreateOutcome)
      returns (calls: seq<Call>)
      modifies this
      ensures formData == old(formData) && imageFile == old(imageFile) && imagePreview == old(imagePreview)
      ensures |PostErrors(formData, imageFile, imagePreview)| != 0 ==>
                calls == [] && errors == PostErrors(formData, imageFile, imagePreview) && isLoading == old(isLoading)
      ensures |PostErrors(formData, imageFile, imagePreview)| == 0 ==> !isLoading
      ensures |PostErrors(formData, imageFile, imagePreview)| == 0 && imageFile.None? ==>
                calls == [CreateCall(Payload(formData, None))]
                && errors == (if create.Created? then map[] else map[Api := OrElse(create.message, CreateFailedText)])
      ensures |PostErrors(formData, imageFile, imagePreview)| == 0 && imageFile.Some? ==>
                var prefix := OrElse(storage.GetItem("userId"), "post");
                var uploaded := UploadResult(imageFile.value, prefix, ctx);
                && (uploaded.Err? ==> calls == [UploadCall(imageFile.value, prefix)]
                                      && errors == map[Api := OrElse(Some(R2Upload.Message(uploaded.error)), CreateFailedText)])
                && (uploaded.Ok? ==> calls == [UploadCall(imageFile.value, prefix), CreateCall(Payload(formData, Some(uploaded.value)))]
                                     && errors == (if create.Created? then map[] else map[Api := OrElse(create.message, CreateFailedText)]))
    {
      var ok := ValidateForm();
      if !ok {
        return [];
      }
      calls := Send(storage, ctx, create);
    }

    /** `handleCancel`: asks for confirmation exactly when there is a preview, a title or a
        description, and leaves the page unless the question was declined. */
    method HandleCancel(confirmed: bool) returns (asked: bool, leaves: bool)
      ensures asked <==> Truthy(imagePreview) || FieldValue(formData, Title) != "" || FieldValue(formData, Content) != ""
      ensures leaves <==> !asked || confirmed
    {
      asked := Truthy(imagePreview) || FieldValue(formData, Title) != "" || FieldValue(formData, Content) != "";
      leaves := !asked || confirmed;
    }
  }
}
