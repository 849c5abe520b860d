/** The registration form (`app/onboard/page.tsx`): the validation schema as a checker
    over `ArtistFormData`, and the simulated submission as explicit state steps. */
module OnboardPage {
  import opened Types

  /** The message the schema reports for a field; at most one per field, the
      `required` test ahead of the `min` test. */
  datatype FieldError =
    | NameRequired | NameTooShort
    | BioRequired | BioTooShort
    | CategoryRequired | CategoryItemRequired
    | LanguagesRequired | LanguageItemRequired
    | FeeRangeRequired
    | LocationRequired | LocationTooShort

  /** The schema's conditions, field by field. */
  predicate IsValid(d: ArtistFormData)
  {
    && |d.name| >= 2
    && |d.bio| >= 50
    && |d.category| >= 1 && (forall i :: 0 <= i < |d.category| ==> d.category[i] != "")
    && |d.languages| >= 1 && (forall i :: 0 <= i < |d.languages| ==> d.languages[i] != "")
    && d.feeRange != ""
    && |d.location| >= 2
  }

  /** `string().required(..).min(n, ..)`. */
  function TextErrors(s: string, min: nat, required: FieldError, tooShort: FieldError): seq<FieldError>
  {
    if |s| == 0 then [required] else if |s| < min then [tooShort] else []
  }

  /** `array().of(string().required()).min(1, ..).required()`. */
  function ListErrors(xs: seq<string>, required: FieldError, itemRequired: FieldError): seq<FieldError>
  {
    if |xs| == 0 then [required]
    else if exists i :: 0 <= i < |xs| && xs[i] == "" then [itemRequired]
    else []
  }

  /** The schema's fields, in order: name, bio, category, languages, fee range, location. */
  type Field = k: nat | k < 6

  /** The field an error belongs to. */
  function FieldOf(e: FieldError): Field
  {
    match e
    case NameRequired | NameTooShort => 0
    case BioRequired | BioTooShort => 1
    case CategoryRequired | CategoryItemRequired => 2
    case LanguagesRequired | LanguageItemRequired => 3
    case FeeRangeRequired => 4
    case LocationRequired | LocationTooShort => 5
  }

  /** What the schema reports for one field. */
  function FieldErrors(d: ArtistFormData, k: Field): (r: seq<FieldError>)
    ensures |r| <= 1
    ensures forall e :: e in r ==> FieldOf(e) == k
  {
    match k
    case 0 => TextErrors(d.name, 2, NameRequired, NameTooShort)
    case 1 => TextErrors(d.bio, 50, BioRequired, BioTooShort)
    case 2 => ListErrors(d.category, CategoryRequired, CategoryItemRequired)
    case 3 => ListErrors(d.languages, LanguagesRequired, LanguageItemRequired)
    case 4 => if d.feeRange == "" then [FeeRangeRequired] else []
    case 5 => TextErrors(d.location, 2, LocationRequired, LocationTooShort)
  }

  /** What the resolver reports for the form's data, in the schema's field order. */
  function Validate(d: ArtistFormData): seq<FieldError>
  {
    FieldErrors(d, 0) + FieldErrors(d, 1) + FieldErrors(d, 2)
    + FieldErrors(d, 3) + FieldErrors(d, 4) + FieldErrors(d, 5)
  }

  /** An error is reported exactly when its own field reports it. */
  lemma ReportedByItsField(d: ArtistFormData, e: FieldError)
    ensures e in Validate(d) <==> e in FieldErrors(d, FieldOf(e))
  {
  }

  /** The resolver accepts exactly the data the schema describes, and reports at most one
      error per field. */
  lemma ValidateAcceptsExactlyValid(d: ArtistFormData)
    ensures Validate(d) == [] <==> IsValid(d)
    ensures |Validate(d)| <= 6
  {
  }

  /** Each `required` error is reported exactly when its text field is empty, and each
      `min` error exactly when the text is present but short. */
  lemma ValidateReportsTextCauses(d: ArtistFormData)
    ensures NameRequired in Validate(d) <==> d.name == ""
    ensures NameTooShort in Validate(d) <==> |d.name| == 1
    ensures BioRequired in Validate(d) <==> d.bio == ""
    ensures BioTooShort in Validate(d) <==> 0 < |d.bio| < 50
    ensures LocationRequired in Validate(d) <==> d.location == ""
    ensures LocationTooShort in Validate(d) <==> |d.location| == 1
  {
    ReportedByItsField(d, NameRequired);
    ReportedByItsField(d, NameTooShort);
    ReportedByItsField(d, BioRequired);
    ReportedByItsField(d, BioTooShort);
    ReportedByItsField(d, LocationRequired);
    ReportedByItsField(d, LocationTooShort);
  }

  /** A list error is reported exactly when the list is empty, an item error exactly when
      the list holds an empty entry, and the fee error exactly when no fee is chosen. */
  lemma ValidateReportsListCauses(d: ArtistFormData)
    ensures CategoryRequired in Validate(d) <==> d.category == []
    ensures CategoryItemRequired in Validate(d) <==> d.category != [] && "" in d.category
    ensures LanguagesRequired in Validate(d) <==> d.languages == []
    ensures LanguageItemRequired in Validate(d) <==> d.languages != [] && "" in d.languages
    ensures FeeRangeRequired in Validate(d) <==> d.feeRange == ""
  {
    ReportedByItsField(d, CategoryRequired);
    ReportedByItsField(d, CategoryItemRequired);
    ReportedByItsField(d, LanguagesRequired);
    ReportedByItsField(d, LanguageItemRequired);
    ReportedByItsField(d, FeeRangeRequired);
  }

  /** `defaultValues`. */
  function DefaultFormData(): ArtistFormData
  {
    ArtistFormData("", "", [], [], "", "", None)
  }

  /** The empty form fails, on every required field. */
  lemma DefaultFormFails()
    ensures !IsValid(DefaultFormData())
    ensures Validate(DefaultFormData())
            == [NameRequired, BioRequired, CategoryRequired, LanguagesRequired, FeeRangeRequired, LocationRequired]
  {
  }

  /** No upper bound on the bio: the "/500" under it is only a counter. */
  lemma NoBioMaximum(d: ArtistFormData, more: string)
    requires IsValid(d)
    ensures IsValid(d.(bio := d.bio + more))
  {
  }

  /** The fee range is only required to be non-empty, not to be one of the listed ranges,
      and the image plays no part. */
  lemma FeeRangeNotCheckedAgainstList(d: ArtistFormData, fee: string, image: Option<FileRef>)
    requires IsValid(d) && fee != ""
    ensures IsValid(d.(feeRange := fee, profileImage := image))
  {
  }

  /** The page's state: the two submission flags, the picked image, the form's data and
      the errors shown under the fields. */
  class View {
    var isSubmitting: bool
    var isSubmitted: bool
    var profileImage: Option<FileRef>
    var data: ArtistFormData
    var errors: seq<FieldError>

    /** Never submitting and submitted at once, and the picked image is the form's image:
        the page sets the two together and nothing else writes either. */
    predicate Valid()
      reads this
    {
      !(isSubmitting && isSubmitted) && data.profileImage == profileImage
    }

    constructor ()
      ensures Valid()
      ensures !isSubmitting && !isSubmitted && profileImage == None
      ensures data == DefaultFormData() && errors == []
    {
      isSubmitting, isSubmitted := false, false;
      profileImage := None;
      data := DefaultFormData();
      errors := [];
    }

    /** `disabled={isSubmitting}` on the submit button. */
    function SubmitDisabled(): bool
      reads this
    {
      isSubmitting
    }

    /** `if (isSubmitted)`: the success card replaces the form. */
    function ShowsSuccess(): bool
      reads this
    {
      isSubmitted
    }

    /** Typing in a field, or a `setValue` from a select or multi-select; none of them
        writes the image. */
    method Edit(d: ArtistFormData)
      requires Valid() && d.profileImage == data.profileImage
      modifies this
      ensures Valid()
      ensures data == d
      ensures isSubmitting == old(isSubmitting) && isSubmitted == old(isSubmitted)
      ensures profileImage == old(profileImage) && errors == old(errors)
    {
      data := d;
    }

    /** The submit button: `handleSubmit(onSubmit)` up to the simulated API call. Invalid
        data only shows the errors; valid data starts the submission. The button is
        disabled while submitting, and the form is not shown once submitted. */
    method Submit()
      requires Valid()
      modifies this
      ensures Valid()
      ensures data == old(data) && profileImage == old(profileImage)
      ensures old(SubmitDisabled() || ShowsSuccess()) ==>
                isSubmitting == old(isSubmitting) && isSubmitted == old(isSubmitted) && errors == old(errors)
      ensures !old(SubmitDisabled() || ShowsSuccess()) && IsValid(data) ==>
                isSubmitting && !isSubmitted && errors == [] && SubmitDisabled()
      ensures !old(SubmitDisabled() || ShowsSuccess()) && !IsValid(data) ==>
                !isSubmitting && !isSubmitted && errors == Validate(data) && errors != []
    {
      if !isSubmitting && !isSubmitted {
        ValidateAcceptsExactlyValid(data);
        if IsValid(data) {
          errors := [];
          isSubmitting := true;
        } else {
          errors := Validate(data);
        }
      }
    }

    /** The simulated API call returns: `setIsSubmitting(false); setIsSubmitted(true)`. */
    method ApiCallSettles()
      requires Valid()
      modifies this
      ensures Valid()
      ensures !isSubmitting && isSubmitted
      ensures data == old(data) && profileImage == old(profileImage) && errors == old(errors)
    {
      isSubmitting := false;
      isSubmitted := true;
    }

    /** The reset timer fires: back to the empty form with no image. */
    method ResetTimerFires()
      requires Valid()
      modifies this
      ensures Valid()
      ensures !isSubmitted && isSubmitting == old(isSubmitting)
      ensures data == DefaultFormData() && profileImage == None && errors == []
    {
      isSubmitted := false;
      data := DefaultFormData();
      errors := [];
      profileImage := None;
    }

    /** `handleImageUpload`: only a picked file changes anything. */
    method UploadImage(file: Option<FileRef>)
      requires Valid()
      modifies this
      ensures Valid()
      ensures file.Some? ==> profileImage == file && data == old(data).(profileImage := file)
      ensures file.None? ==> profileImage == old(profileImage) && data == old(data)
      ensures isSubmitting == old(isSubmitting) && isSubmitted == old(isSubmitted) && errors == old(errors)
    {
      if file.Some? {
        profileImage := file;
        data := data.(profileImage := file);
      }
    }
  }

  /** One registration from start to finish: the (submitting, submitted) flags run through
      idle, submitting, submitted and idle again, and the form ends empty. */
  method SubmissionCycle(d: ArtistFormData) returns (phases: seq<(bool, bool)>, final: ArtistFormData)
    requires IsValid(d)
    ensures phases == [(false, false), (true, false), (false, true), (false, false)]
    ensures final == DefaultFormData()
  {
    var page := new View();
    page.UploadImage(d.profileImage);
    page.Edit(d);
    phases := [(page.isSubmitting, page.isSubmitted)];
    page.Submit();
    phases := phases + [(page.isSubmitting, page.isSubmitted)];
    page.ApiCallSettles();
    phases := phases + [(page.isSubmitting, page.isSubmitted)];
    page.ResetTimerFires();
    phases := phases + [(page.isSubmitting, page.isSubmitted)];
    final := page.data;
  }
}
