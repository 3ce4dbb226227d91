/**
 * The artist-onboarding wizard: the validation schema as a predicate, the
 * completion percentage, the three sections and the fields each one
 * validates, and the wizard's own state (current section, attached image,
 * submission status) updated by its handlers.
 */
module Onboarding {
  import opened Wrappers
  import opened Text
  import opened Seqs

  datatype Field = Name | Bio | Categories | Languages | FeeRange | Location

  /** The six top-level fields, in the order the progress computation lists them. */
  const AllFields: seq<Field> := [Name, Bio, Categories, Languages, FeeRange, Location]

  datatype FormData = FormData(
    name: string,
    bio: string,
    categories: seq<string>,
    languages: seq<string>,
    feeRange: string,
    location: string)

  /** The form's default values. */
  const EmptyForm: FormData := FormData("", "", [], [], "", "")

  /** The fee ranges the select offers; the schema does not check membership. */
  const FeeRanges: seq<string> := [
    "\U{20B9}5,000 - \U{20B9}10,000", "\U{20B9}10,000 - \U{20B9}15,000",
    "\U{20B9}15,000 - \U{20B9}25,000", "\U{20B9}25,000 - \U{20B9}35,000",
    "\U{20B9}35,000 - \U{20B9}50,000", "\U{20B9}50,000 - \U{20B9}75,000",
    "\U{20B9}75,000 - \U{20B9}1,00,000", "\U{20B9}1,00,000+"]

  /** The category values the multi-select offers; the schema does not check membership. */
  const CategoryValues: seq<string> :=
    ["singer", "dancer", "speaker", "dj", "musician", "comedian", "magician", "actor", "poet", "other"]

  // ---------------------------------------------------------------------
  // The schema
  // ---------------------------------------------------------------------

  /** One field's rule in the schema (a required string must be non-empty). */
  predicate FieldValid(d: FormData, field: Field) {
    match field
    case Name => 2 <= |d.name| <= 50
    case Bio => 50 <= |d.bio| <= 500
    case Categories => 1 <= |d.categories| <= 3
    case Languages => 1 <= |d.languages| <= 5
    case FeeRange => d.feeRange != ""
    case Location => |d.location| >= 3
  }

  /** The whole schema: every field passes its rule. */
  predicate SchemaValid(d: FormData) {
    forall field | field in AllFields :: FieldValid(d, field)
  }

  /** The schema spelled out field by field. */
  lemma SchemaValidIff(d: FormData)
    ensures SchemaValid(d) <==>
      && 2 <= |d.name| <= 50
      && 50 <= |d.bio| <= 500
      && 1 <= |d.categories| <= 3
      && 1 <= |d.languages| <= 5
      && d.feeRange != ""
      && |d.location| >= 3
  {
    assert FieldValid(d, Name) && FieldValid(d, Bio) && FieldValid(d, Categories)
        && FieldValid(d, Languages) && FieldValid(d, FeeRange) && FieldValid(d, Location)
        ==> SchemaValid(d);
  }

  /** Values outside the offered option lists still pass the schema. */
  lemma SchemaIgnoresOptionLists()
    ensures var d := FormData("Jo", "A classical vocalist performing at weddings and events.",
                              ["juggler"], ["klingon"], "priceless", "Goa");
            SchemaValid(d) && d.feeRange !in FeeRanges && d.categories[0] !in CategoryValues
  {
    var d := FormData("Jo", "A classical vocalist performing at weddings and events.",
                      ["juggler"], ["klingon"], "priceless", "Goa");
    SchemaValidIff(d);
    assert d.feeRange !in FeeRanges by {
      forall i | 0 <= i < |FeeRanges| ensures FeeRanges[i] != d.feeRange {
        assert FeeRanges[i][0] != d.feeRange[0];
      }
    }
    assert d.categories[0] !in CategoryValues by {
      forall i | 0 <= i < |CategoryValues| ensures CategoryValues[i] != d.categories[0] {
        assert CategoryValues[i][0] != d.categories[0][0];
      }
    }
  }

  // ---------------------------------------------------------------------
  // Completion progress
  // ---------------------------------------------------------------------

  /** A list field is filled when non-empty, a string field when non-blank. */
  predicate IsFilled(d: FormData, field: Field) {
    match field
    case Name => !IsBlank(d.name)
    case Bio => !IsBlank(d.bio)
    case Categories => |d.categories| > 0
    case Languages => |d.languages| > 0
    case FeeRange => !IsBlank(d.feeRange)
    case Location => !IsBlank(d.location)
  }

  /** The filter callback of `calculateProgress`, for one form state. */
  function FilledTest(d: FormData): Field -> bool {
    field => IsFilled(d, field)
  }

  function FilledCount(d: FormData): (k: nat)
    ensures k <= |AllFields|
  {
    |Filter(AllFields, FilledTest(d))|
  }

  /**
   * `calculateProgress`: the filled share of the six fields as a percentage,
   * rounded to the nearest integer.
   */
  function Progress(d: FormData): (p: nat)
    ensures p in {0, 17, 33, 50, 67, 83, 100}
    ensures -3 <= 6 * p - 100 * FilledCount(d) <= 3
  {
    RoundedSixths(FilledCount(d));
    (200 * FilledCount(d) + 6) / 12
  }

  /** `Math.round(k / 6 * 100)` for each possible count of filled fields. */
  lemma RoundedSixths(k: nat)
    requires k <= 6
    ensures (200 * k + 6) / 12 in {0, 17, 33, 50, 67, 83, 100}
    ensures -3 <= 6 * ((200 * k + 6) / 12) - 100 * k <= 3
  {
    if k == 0 { assert (200 * k + 6) / 12 == 0; }
    else if k == 1 { assert (200 * k + 6) / 12 == 17; }
    else if k == 2 { assert (200 * k + 6) / 12 == 33; }
    else if k == 3 { assert (200 * k + 6) / 12 == 50; }
    else if k == 4 { assert (200 * k + 6) / 12 == 67; }
    else if k == 5 { assert (200 * k + 6) / 12 == 83; }
    else { assert (200 * k + 6) / 12 == 100; }
  }

  /** 100% exactly when all six fields are filled, 0% exactly when none is. */
  lemma ProgressExtremes(d: FormData)
    ensures Progress(d) == 100 <==> forall i :: 0 <= i < |AllFields| ==> IsFilled(d, AllFields[i])
    ensures Progress(d) == 0 <==> forall i :: 0 <= i < |AllFields| ==> !IsFilled(d, AllFields[i])
  {
    FilterKeepsAllIff(AllFields, FilledTest(d));
    FilterKeepsNoneIff(AllFields, FilledTest(d));
  }

  /** More filled fields never show less progress. */
  lemma ProgressMonotone(d: FormData, e: FormData)
    requires FilledCount(d) <= FilledCount(e)
    ensures Progress(d) <= Progress(e)
  {
  }

  /** The fields of the first section, then those of the other two, in the order `AllFields` lists them. */
  const PersonalFields: seq<Field> := [Name, Bio, Categories]
  const OtherFields: seq<Field> := [Languages, FeeRange, Location]

  /** The filled count splits over the two halves of the field list. */
  lemma FilledCountSplit(d: FormData)
    ensures FilledCount(d) == |Filter(PersonalFields, FilledTest(d))| + |Filter(OtherFields, FilledTest(d))|
  {
    assert AllFields == PersonalFields + OtherFields;
    FilterAppend(PersonalFields, OtherFields, FilledTest(d));
  }

  lemma FirstHalfFilled(d: FormData)
    requires !IsBlank(d.name) && !IsBlank(d.bio) && |d.categories| > 0
    ensures |Filter(PersonalFields, FilledTest(d))| == 3
  {
    var p := FilledTest(d);
    assert p(Name) && p(Bio) && p(Categories);
    FilterKeepsAll(PersonalFields, p);
  }

  lemma SecondHalfEmpty(d: FormData)
    requires d.languages == [] && d.feeRange == "" && d.location == ""
    ensures |Filter(OtherFields, FilledTest(d))| == 0
  {
    EmptyIsBlank();
    var p := FilledTest(d);
    assert !p(Languages) && !p(FeeRange) && !p(Location);
    FilterKeepsNoneIff(OtherFields, p);
  }

  /** Three filled fields (name, bio, categories) and three empty ones show 50%. */
  lemma ThreeFieldsGiveHalf(d: FormData)
    requires !IsBlank(d.name) && !IsBlank(d.bio) && |d.categories| > 0
    requires d.languages == [] && d.feeRange == "" && d.location == ""
    ensures Progress(d) == 50
  {
    FilledCountSplit(d);
    FirstHalfFilled(d);
    SecondHalfEmpty(d);
  }

  /** A form can pass the schema and still show less than 100%: a blank name of two spaces. */
  lemma ValidFormMayShowIncomplete()
    ensures var d := FormData("  ", "A classical vocalist performing at weddings and events.",
                              ["singer"], ["hindi"], "priceless", "Goa");
            SchemaValid(d) && Progress(d) < 100
  {
    var d := FormData("  ", "A classical vocalist performing at weddings and events.",
                      ["singer"], ["hindi"], "priceless", "Goa");
    SchemaValidIff(d);
    assert IsBlank(d.name) by {
      BlankIffAllSpace(d.name);
    }
    ProgressExtremes(d);
    assert AllFields[0] == Name;
  }

  // ---------------------------------------------------------------------
  // Sections
  // ---------------------------------------------------------------------

  /** The index of the last section ("Profile & Location"). */
  const LastSection: int := 2

  /** `getSectionFields`: the fields the "Next" button validates in each section. */
  function SectionFields(section: int): (r: seq<Field>)
    ensures r != [] <==> 0 <= section <= LastSection
    ensures NoDuplicates(r)
  {
    if section == 0 then [Name, Bio]
    else if section == 1 then [Categories, Languages, FeeRange]
    else if section == 2 then [Location]
    else []
  }

  /** Every field belongs to exactly one section. */
  lemma SectionsPartitionFields(field: Field)
    ensures exists s :: 0 <= s <= LastSection && field in SectionFields(s)
    ensures forall s, t :: field in SectionFields(s) && field in SectionFields(t) ==> s == t
  {
    match field
    case Name => assert field in SectionFields(0);
    case Bio => assert field in SectionFields(0);
    case Categories => assert field in SectionFields(1);
    case Languages => assert field in SectionFields(1);
    case FeeRange => assert field in SectionFields(1);
    case Location => assert field in SectionFields(2);
  }

  /** `trigger(getSectionFields(section))`: every field of the section passes its rule. */
  predicate SectionValid(d: FormData, section: int) {
    forall field | field in SectionFields(section) :: FieldValid(d, field)
  }

  /** The schema holds exactly when each of the three sections validates. */
  lemma SchemaIffAllSections(d: FormData)
    ensures SchemaValid(d) <==> SectionValid(d, 0) && SectionValid(d, 1) && SectionValid(d, 2)
  {
    if SectionValid(d, 0) && SectionValid(d, 1) && SectionValid(d, 2) {
      forall field | field in AllFields ensures FieldValid(d, field) {
        SectionsPartitionFields(field);
      }
    }
  }

  /** The section after "Next": one further, only from a valid section before the last. */
  function NextIndex(d: FormData, section: int): (r: int)
    ensures r == section || r == section + 1
    ensures r == section + 1 <==> SectionValid(d, section) && section < LastSection
    ensures 0 <= section <= LastSection ==> 0 <= r <= LastSection
  {
    if SectionValid(d, section) && section < LastSection then section + 1 else section
  }

  /** The section after "Previous": one back, unless already on the first; no validation. */
  function PrevIndex(section: int): (r: int)
    ensures r == if section > 0 then section - 1 else section
    ensures 0 <= section <= LastSection ==> 0 <= r <= LastSection
  {
    if section > 0 then section - 1 else section
  }

  /** "Previous" undoes a "Next" that advanced. */
  lemma PrevUndoesNext(d: FormData, section: int)
    requires 0 <= section && NextIndex(d, section) != section
    ensures PrevIndex(NextIndex(d, section)) == section
  {
  }

  /** "Next" undoes a "Previous" when the section returned to validates. */
  lemma NextUndoesPrev(d: FormData, section: int)
    requires 0 < section <= LastSection && SectionValid(d, section - 1)
    ensures NextIndex(d, PrevIndex(section)) == section
  {
  }

  /** From the first section a bio shorter than 50 characters blocks "Next". */
  lemma ShortBioBlocksFirstSection(d: FormData)
    requires |d.bio| < 50
    ensures NextIndex(d, 0) == 0
  {
    assert Bio in SectionFields(0);
  }

  // ---------------------------------------------------------------------
  // Images
  // ---------------------------------------------------------------------

  datatype ImageFile = ImageFile(name: string, size: int, mimeType: string)

  /** Why an attachment was refused (each shown as a blocking alert). */
  datatype ImageRejection = TooLarge | NotAnImage

  const MaxImageBytes: int := 5 * 1024 * 1024

  /** The upload checks, in order: size first, then the `image/` type prefix. */
  function CheckImage(file: ImageFile): (r: Option<ImageRejection>)
    ensures r == Some(TooLarge) <==> file.size > MaxImageBytes
    ensures r == Some(NotAnImage) <==> file.size <= MaxImageBytes && !StartsWith(file.mimeType, "image/")
    ensures r.None? <==> file.size <= MaxImageBytes && StartsWith(file.mimeType, "image/")
  {
    if file.size > MaxImageBytes then Some(TooLarge)
    else if !StartsWith(file.mimeType, "image/") then Some(NotAnImage)
    else None
  }

  // ---------------------------------------------------------------------
  // Submission
  // ---------------------------------------------------------------------

  datatype SubmitStatus = Idle | Success | Error

  /** How the simulated call of the routed form ends: it completes or throws. */
  datatype SubmitOutcome = Completed | Threw

  /** How the mock API call of the second copy ends: a response, or an exception. */
  datatype ApiOutcome = Responded(success: bool, message: string) | Failed

  const CreatedMessage: string :=
    "Your artist profile has been created successfully! We'll review your application and get back to you within 24 hours."
  const CreateErrorMessage: string := "An error occurred while creating your profile. Please try again."
  const RejectedResponseMessage: string := "Failed to create profile. Please try again."
  const ApiErrorMessage: string := "An error occurred. Please try again."

  /** The wizard's component state; the form values are owned by the form library. */
  class Wizard {
    var values: FormData
    var currentSection: int
    var profileImage: Option<ImageFile>
    var imagePreview: Option<string>
    var isSubmitting: bool
    var submitStatus: SubmitStatus
    var submitMessage: string

    /** The section index always names one of the three sections. */
    ghost predicate Valid()
      reads this
    {
      0 <= currentSection <= LastSection
    }

    constructor ()
      ensures Valid()
      ensures values == EmptyForm && currentSection == 0
      ensures profileImage == None && imagePreview == None
      ensures !isSubmitting && submitStatus == Idle && submitMessage == ""
    {
      values := EmptyForm;
      currentSection := 0;
      profileImage := None;
      imagePreview := None;
      isSubmitting := false;
      submitStatus := Idle;
      submitMessage := "";
    }

    /** The user edits the form; the wizard's own state is untouched. */
    method EditValues(d: FormData)
      modifies this`values
      ensures values == d
    {
      values := d;
    }

    /** `nextSection`: validate the current section's fields, then advance if allowed. */
    method NextSection() returns (advanced: bool)
      requires Valid()
      modifies this`currentSection
      ensures Valid()
      ensures advanced <==> SectionValid(values, old(currentSection)) && old(currentSection) < LastSection
      ensures currentSection == NextIndex(values, old(currentSection))
    {
      var fieldsValid := SectionValid(values, currentSection);
      advanced := fieldsValid && currentSection < LastSection;
      if advanced {
        currentSection := currentSection + 1;
      }
    }

    /** `prevSection`: step back without validating. */
    method PrevSection()
      requires Valid()
      modifies this`currentSection
      ensures Valid()
      ensures currentSection == PrevIndex(old(currentSection))
    {
      if currentSection > 0 {
        currentSection := currentSection - 1;
      }
    }

    /**
     * `handleImageUpload`: `file` is the chosen file (if any) and `preview`
     * the data URL the file reader produces for it. A refused file leaves the
     * previous image in place.
     */
    method HandleImageUpload(file: Option<ImageFile>, preview: string) returns (alert: Option<ImageRejection>)
      modifies this`profileImage, this`imagePreview
      ensures file.None? ==> alert.None?
      ensures file.Some? ==> alert == CheckImage(file.value)
      ensures file.None? || alert.Some? ==>
                profileImage == old(profileImage) && imagePreview == old(imagePreview)
      ensures file.Some? && alert.None? ==> profileImage == file && imagePreview == Some(preview)
    {
      alert := None;
      if file.Some? {
        if file.value.size > MaxImageBytes {
          alert := Some(TooLarge);
          return;
        }
        if !StartsWith(file.value.mimeType, "image/") {
          alert := Some(NotAnImage);
          return;
        }
        profileImage := file;
        imagePreview := Some(preview);
      }
    }

    /** `removeImage`: drop both the file and its preview. */
    method RemoveImage()
      modifies this`profileImage, this`imagePreview
      ensures profileImage == None && imagePreview == None
    {
      profileImage := None;
      imagePreview := None;
    }

    /** The "Create Profile" button is shown on the last section and enabled when idle and valid. */
    predicate SubmitEnabled()
      reads this
    {
      currentSection >= LastSection && !isSubmitting && SchemaValid(values)
    }

    /**
     * Submitting the form: the form library runs the whole schema and calls
     * `onSubmit` only when it holds, which marks the form as submitting.
     */
    method BeginSubmit() returns (started: bool)
      modifies this`isSubmitting, this`submitStatus
      ensures started <==> SchemaValid(values)
      ensures started ==> isSubmitting && submitStatus == Idle
      ensures !started ==> isSubmitting == old(isSubmitting) && submitStatus == old(submitStatus)
      ensures old(SubmitEnabled()) ==> started
      ensures started ==> !SubmitEnabled()
    {
      started := SchemaValid(values);
      if started {
        isSubmitting := true;
        submitStatus := Idle;
      }
    }

    /** The end of `onSubmit` in the routed form: success, or error when the call throws. */
    method FinishSubmit(outcome: SubmitOutcome)
      requires isSubmitting
      modifies this`isSubmitting, this`submitStatus, this`submitMessage
      ensures !isSubmitting
      ensures outcome == Completed ==> submitStatus == Success && submitMessage == CreatedMessage
      ensures outcome == Threw ==> submitStatus == Error && submitMessage == CreateErrorMessage
    {
      match outcome {
      case Completed =>
        submitStatus := Success;
        submitMessage := CreatedMessage;
      case Threw =>
        submitStatus := Error;
        submitMessage := CreateErrorMessage;
      }
      isSubmitting := false;
    }

    /** The end of `onSubmit` in the second copy, which branches on the response's `success`. */
    method FinishApiSubmit(outcome: ApiOutcome)
      requires isSubmitting
      modifies this`isSubmitting, this`submitStatus, this`submitMessage
      ensures !isSubmitting
      ensures outcome.Responded? && outcome.success ==> submitStatus == Success && submitMessage == outcome.message
      ensures outcome.Responded? && !outcome.success ==>
                submitStatus == Error && submitMessage == RejectedResponseMessage
      ensures outcome.Failed? ==> submitStatus == Error && submitMessage == ApiErrorMessage
    {
      match outcome {
      case Responded(success, message) =>
        if success {
          submitStatus := Success;
          submitMessage := message;
        } else {
          submitStatus := Error;
          submitMessage := RejectedResponseMessage;
        }
      case Failed =>
        submitStatus := Error;
        submitMessage := ApiErrorMessage;
      }
      isSubmitting := false;
    }
  }
}
