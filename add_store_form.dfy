/**
 * The new-store form (src/components/add-store-form.tsx): a schema on the store name and the
 * optional logo file, and a submit that builds a fresh multipart form from the validated values
 * and sends it to the store service.
 */
module AddStoreForm {
  import opened Wrappers
  import opened Seqs
  import opened Types
  import opened StoreService

  /** One megabyte, the largest accepted logo. */
  const MaxFileSize: int := 1024 * 1024

  const AcceptedImageTypes: seq<string> := ["image/jpeg", "image/jpg", "image/png", "image/webp"]

  const NameRequired := "Store name is required"
  const FileTooLarge := "File size must be less than 1MB"
  const UnsupportedFormat := "Only .jpg, .jpeg, .png and .webp formats are supported."

  /** The schema's three rules: a non-empty name; a chosen file no larger than 1 MB and of an accepted type. */
  predicate StoreValid(name: string, picture: Option<File>) {
    name != ""
    && (picture.Some? ==> picture.value.size <= MaxFileSize && picture.value.mimeType in AcceptedImageTypes)
  }

  lemma MessagesDistinct()
    ensures NameRequired != FileTooLarge && NameRequired != UnsupportedFormat && FileTooLarge != UnsupportedFormat
  {
    assert |NameRequired| == 22 && |FileTooLarge| == 31 && |UnsupportedFormat| == 55;
  }

  /**
   * The messages the schema reports, name first. The two file checks are independent refinements:
   * an oversized file of the wrong type reports both; no file reports neither.
   */
  function StoreErrors(name: string, picture: Option<File>): (r: seq<string>)
    ensures r == [] <==> StoreValid(name, picture)
    ensures NameRequired in r <==> name == ""
    ensures FileTooLarge in r <==> picture.Some? && picture.value.size > MaxFileSize
    ensures UnsupportedFormat in r <==> picture.Some? && picture.value.mimeType !in AcceptedImageTypes
    ensures name == "" ==> r[0] == NameRequired
    ensures NoDuplicates(r)
  {
    MessagesDistinct();
    (if |name| < 1 then [NameRequired] else []) +
    (if picture.Some? && !(picture.value.size <= MaxFileSize) then [FileTooLarge] else []) +
    (if picture.Some? && picture.value.mimeType !in AcceptedImageTypes then [UnsupportedFormat] else [])
  }

  /** The multipart body: the name always, then the logo only when a file was chosen. */
  function StoreForm(name: string, picture: Option<File>): (r: FormData)
    ensures FormKeys(r) == if picture.Some? then ["name", "picture"] else ["name"]
    ensures r[0].1 == FieldText(name)
    ensures picture.Some? ==> r[1].1 == FieldFile(picture.value)
  {
    [("name", FieldText(name))] + (if picture.Some? then [("picture", FieldFile(picture.value))] else [])
  }

  class StoreFormState {
    var isLoading: bool
    var selectedFile: Option<File>

    constructor ()
      ensures !isLoading && selectedFile.None?
    {
      isLoading, selectedFile := false, None;
    }

    /** `handleFileChange`: the first chosen file, or none when the list is empty. */
    method HandleFileChange(files: seq<File>)
      modifies this`selectedFile
      ensures selectedFile == if files == [] then None else Some(files[0])
    {
      selectedFile := if files == [] then None else Some(files[0]);
    }

    /**
     * `onSubmit`. An invalid form sends nothing and reports the schema's messages; a valid one
     * appends the name and, if chosen, the logo to a fresh form and creates the store. The parent
     * is told only when the creation succeeds. Loading is down again on every path.
     */
    method OnSubmit(name: string, succeeded: bool) returns (call: Option<StoreOp>, errors: seq<string>, notified: bool)
      modifies this`isLoading
      ensures errors == StoreErrors(name, old(selectedFile))
      ensures call.None? <==> errors != []
      ensures call.Some? ==> call.value == CreateStore(StoreForm(name, old(selectedFile)))
      ensures notified <==> call.Some? && succeeded
      ensures !isLoading
    {
      isLoading := true;
      errors := StoreErrors(name, selectedFile);
      if errors != [] {
        call, notified := None, false;
      } else {
        var form: FormData := [];
        form := form + [("name", FieldText(name))];
        if selectedFile.Some? {
          form := form + [("picture", FieldFile(selectedFile.value))];
        }
        call := Some(CreateStore(form));
        notified := succeeded;
      }
      isLoading := false;
    }
  }
}
