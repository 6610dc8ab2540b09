/** The post/edit form: its initial contents, the reset when the listing
    being edited changes, the image upload handlers (file input and drop),
    image removal, the location picker and submission. The upload itself is
    the storage service's: each handler receives its outcome, and the random
    part of the stored file's name, as parameters. */
module PostItemModal {
  import opened Common
  import opened Text
  import opened Types

  /** The location an empty form starts from. */
  const DefaultLocation := Location(37.4275, -122.1697)
  const DefaultCategory := "Books"
  const DefaultCondition := LikeNew

  /** The contents of an empty form. */
  const EmptyForm := ListingDraft("", "", "", DefaultCategory, DefaultCondition, [], DefaultLocation)

  /** The `useState` initialiser: each field of the listing being edited, or
      its default through `||`. Of the fields that can be falsy, only the
      category's fallback differs from the field: an empty category becomes
      "Books". */
  function InitialForm(edit: Option<Listing>): (f: ListingDraft)
    ensures edit.None? ==> f == EmptyForm
    ensures edit.Some? ==> f == DraftOf(edit.value).(category := if edit.value.category == "" then DefaultCategory else edit.value.category)
  {
    match edit
    case None => EmptyForm
    case Some(l) =>
      ListingDraft(
        if l.title != "" then l.title else "",
        if l.description != "" then l.description else "",
        if l.price != "" then l.price else "",
        if l.category != "" then l.category else DefaultCategory,
        l.condition,
        l.images,
        l.location)
  }

  /** The effect run whenever the listing being edited changes: copy its
      seven fields exactly, or reset to the defaults. */
  function ResetForm(edit: Option<Listing>): ListingDraft
  {
    match edit
    case None => EmptyForm
    case Some(l) => DraftOf(l)
  }

  /** The initialiser and the effect agree except on a listing whose
      category is empty. */
  lemma InitialAgreesWithReset(edit: Option<Listing>)
    ensures InitialForm(edit) == ResetForm(edit) <==> !(edit.Some? && edit.value.category == "")
  {
  }

  // ---------------------------------------------------------------------
  // Uploads
  // ---------------------------------------------------------------------

  /** The browser's constraint validation of the form: the title,
      description and price inputs carry `required`, so an empty value in
      any of them blocks the submit event. */
  predicate FilledIn(d: ListingDraft)
  {
    d.title != "" && d.description != "" && d.price != ""
  }

  /** A file offered by the file input or a drop. */
  datatype File = File(name: string, mimeType: string)

  /** The storage service's answer to an upload: the public URL of the
      stored object, or an error. */
  datatype UploadResult = Uploaded(publicUrl: string) | UploadFailed

  /** The type guard: only `image/...` files are uploaded. */
  predicate IsImage(f: File)
  {
    StartsWith(f.mimeType, "image/")
  }

  /** `name.split('.').pop()`: the text after the last '.', or the whole
      name when it has none. */
  function FileExtension(name: string): (ext: string)
    ensures '.' !in ext
    ensures |ext| <= |name| && ext == name[|name| - |ext|..]
    ensures |ext| < |name| ==> name[|name| - |ext| - 1] == '.'
  {
    if name == [] then []
    else if name[|name| - 1] == '.' then []
    else FileExtension(name[..|name| - 1]) + [name[|name| - 1]]
  }

  /** The object path: `listings/<random>.<extension>`. */
  function UploadPath(random: string, fileName: string): string
  {
    "listings/" + random + "." + FileExtension(fileName)
  }

  /** The extension of a name ending in '.' and a dot-free extension is that
      extension. */
  lemma {:induction false} ExtensionAfterDot(prefix: string, ext: string)
    requires '.' !in ext
    ensures FileExtension(prefix + "." + ext) == ext
    decreases |ext|
  {
    var name := prefix + "." + ext;
    if ext == [] {
      assert name[|name| - 1] == '.';
    } else {
      var last := ext[|ext| - 1];
      assert name[..|name| - 1] == prefix + "." + ext[..|ext| - 1];
      ExtensionAfterDot(prefix, ext[..|ext| - 1]);
      assert ext[..|ext| - 1] + [last] == ext;
    }
  }

  /** The stored object lies under `listings/` and keeps the uploaded file's
      extension, whatever the random part is. */
  lemma UploadPathKeepsExtension(random: string, fileName: string)
    ensures StartsWith(UploadPath(random, fileName), "listings/")
    ensures FileExtension(UploadPath(random, fileName)) == FileExtension(fileName)
  {
    var ext := FileExtension(fileName);
    var prefix := "listings/" + random;
    ExtensionAfterDot(prefix, ext);
    StartsWithAppend("listings/", random);
    StartsWithExtend(prefix, ".", "listings/");
    StartsWithExtend(prefix + ".", ext, "listings/");
  }

  /** The form's state. */
  class PostForm {
    /** The `editListing` prop last rendered with. */
    var editListing: Option<Listing>
    var formData: ListingDraft
    var uploadProgress: Option<real>
    var isDragging: bool

    /** Mounting the form: the `useState` initialiser, then the effect. */
    constructor (edit: Option<Listing>)
      ensures editListing == edit
      ensures formData == ResetForm(edit)
      ensures uploadProgress == None && !isDragging
    {
      editListing := edit;
      formData := InitialForm(edit);
      uploadProgress := None;
      isDragging := false;
      new;
      EditListingChanged(edit);
    }

    /** The effect on `editListing`. */
    method EditListingChanged(edit: Option<Listing>)
      modifies this`formData
      ensures formData == ResetForm(edit)
    {
      formData := ResetForm(edit);
    }

    /** A re-render with `editListing` (the form stays mounted while hidden):
        React re-runs the effect only when the prop changes, so a form
        reopened for a new listing after an earlier new listing, with the
        prop `null` both times, still holds the earlier draft. */
    method ReceiveEditListing(edit: Option<Listing>)
      modifies this`editListing, this`formData
      ensures editListing == edit
      ensures edit == old(editListing) ==> formData == old(formData)
      ensures edit != old(editListing) ==> formData == ResetForm(edit)
    {
      if edit != editListing {
        editListing := edit;
        EditListingChanged(edit);
      }
    }

    /** The upload both handlers share once they hold one file: the type
        guard, then the upload, then `images := [publicUrl]` on success;
        the progress indicator is cleared however the upload ends. Returns
        the path uploaded to, or `None` when nothing was uploaded. */
    method UploadImage(file: File, random: string, result: UploadResult) returns (path: Option<string>)
      modifies this`formData, this`uploadProgress
      ensures !IsImage(file) ==> path == None && formData == old(formData) && uploadProgress == old(uploadProgress)
      ensures IsImage(file) ==> path == Some(UploadPath(random, file.name)) && uploadProgress == None
      ensures IsImage(file) && result.Uploaded? ==> formData == old(formData).(images := [result.publicUrl])
      ensures result.UploadFailed? ==> formData == old(formData)
    {
      if !IsImage(file) {
        return None;
      }
      path := Some(UploadPath(random, file.name));
      StoreUpload(result);
    }

    /** The `try`/`finally` around the upload: progress is shown while it
        runs, a successful upload replaces the images with its public URL,
        and the indicator is cleared however it ends. */
    method StoreUpload(result: UploadResult)
      modifies this`formData, this`uploadProgress
      ensures uploadProgress == None
      ensures formData == if result.Uploaded? then old(formData).(images := [result.publicUrl]) else old(formData)
    {
      uploadProgress := Some(0.0);
      if result.Uploaded? {
        formData := formData.(images := [result.publicUrl]);
      }
      uploadProgress := None;
    }

    /** `handleFileInputChange`: the first selected file, if any. */
    method HandleFileInput(files: seq<File>, random: string, result: UploadResult) returns (path: Option<string>)
      modifies this`formData, this`uploadProgress
      ensures files == [] ==> path == None && formData == old(formData) && uploadProgress == old(uploadProgress)
      ensures files != [] && !IsImage(files[0]) ==>
                path == None && formData == old(formData) && uploadProgress == old(uploadProgress)
      ensures files != [] && IsImage(files[0]) ==>
                path == Some(UploadPath(random, files[0].name)) && uploadProgress == None &&
                formData == (if result.Uploaded? then old(formData).(images := [result.publicUrl]) else old(formData))
    {
      if files == [] {
        return None;
      }
      path := UploadImage(files[0], random, result);
    }

    /** `handleDrop`: clears the highlight; an empty drop is ignored and of
        several files only the first is considered. */
    method HandleDrop(files: seq<File>, random: string, result: UploadResult) returns (path: Option<string>)
      modifies this`formData, this`uploadProgress, this`isDragging
      ensures !isDragging
      ensures files == [] ==> path == None && formData == old(formData) && uploadProgress == old(uploadProgress)
      ensures files != [] && !IsImage(files[0]) ==>
                path == None && formData == old(formData) && uploadProgress == old(uploadProgress)
      ensures files != [] && IsImage(files[0]) ==>
                path == Some(UploadPath(random, files[0].name)) && uploadProgress == None &&
                formData == (if result.Uploaded? then old(formData).(images := [result.publicUrl]) else old(formData))
    {
      isDragging := false;
      if |files| == 0 {
        return None;
      }
      var file := files[0];
      path := UploadImage(file, random, result);
    }

    method HandleDragEnter()
      modifies this`isDragging
      ensures isDragging
    {
      isDragging := true;
    }

    method HandleDragLeave()
      modifies this`isDragging
      ensures !isDragging
    {
      isDragging := false;
    }

    /** The remove button on the preview. */
    method RemoveImage()
      modifies this`formData
      ensures formData == old(formData).(images := [])
    {
      formData := formData.(images := []);
    }

    /** A click on the location picker's map. */
    method PickLocation(lat: real, lng: real)
      modifies this`formData
      ensures formData == old(formData).(location := Location(lat, lng))
    {
      formData := formData.(location := Location(lat, lng));
    }

    /** The text inputs and the category select: each replaces its field.
        The title, description and price inputs are `required`, which
        `FilledIn` states. */
    method EditTitle(v: string)
      modifies this`formData
      ensures formData == old(formData).(title := v)
    {
      formData := formData.(title := v);
    }

    method EditDescription(v: string)
      modifies this`formData
      ensures formData == old(formData).(description := v)
    {
      formData := formData.(description := v);
    }

    method EditPrice(v: string)
      modifies this`formData
      ensures formData == old(formData).(price := v)
    {
      formData := formData.(price := v);
    }

    method EditCategory(v: string)
      modifies this`formData
      ensures formData == old(formData).(category := v)
    {
      formData := formData.(category := v);
    }

    method EditCondition(c: Condition)
      modifies this`formData
      ensures formData == old(formData).(condition := c)
    {
      formData := formData.(condition := c);
    }

    /** A submit of the form: the browser's validation of the `required`
        inputs blocks it while the title, description or price is empty;
        otherwise `handleSubmit` hands the current form to `onSubmit`
        unchanged. */
    method Submit() returns (submitted: Option<ListingDraft>)
      ensures submitted.Some? <==> formData.title != "" && formData.description != "" && formData.price != ""
      ensures submitted.Some? ==> submitted.value == formData && FilledIn(submitted.value)
    {
      if !FilledIn(formData) {
        return None;
      }
      submitted := Some(formData);
    }
  }
}
