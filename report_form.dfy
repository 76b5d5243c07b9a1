/**
 * The emergency-report form: ten text fields and the chosen images, updated
 * one field at a time, submitted through a simulated call, and reset to the
 * initial state by the timer that follows a success.
 */
module ReportForm {

  /** The `name` attributes of the form's text inputs. */
  datatype Field =
    | EmergencyType | Severity | Location | Latitude | Longitude
    | Description | ContactName | ContactPhone | ContactEmail | PeopleAffected

  /** A chosen image file (only its name is kept). */
  datatype File = File(name: string)

  datatype FormData = FormData(
    emergencyType: string,
    severity: string,
    location: string,
    latitude: string,
    longitude: string,
    description: string,
    contactName: string,
    contactPhone: string,
    contactEmail: string,
    peopleAffected: string,
    images: seq<File>
  )

  /** The state the form starts in and is reset to. */
  const InitialForm: FormData := FormData("", "", "", "", "", "", "", "", "", "", [])

  /** `formData[name]` */
  function Get(f: FormData, field: Field): string
  {
    match field
    case EmergencyType => f.emergencyType
    case Severity => f.severity
    case Location => f.location
    case Latitude => f.latitude
    case Longitude => f.longitude
    case Description => f.description
    case ContactName => f.contactName
    case ContactPhone => f.contactPhone
    case ContactEmail => f.contactEmail
    case PeopleAffected => f.peopleAffected
  }

  /** `{ ...prev, [name]: value }`: the named field takes the value; every other field and the images stay. */
  function WithField(f: FormData, field: Field, value: string): (r: FormData)
    ensures Get(r, field) == value
    ensures forall other :: other != field ==> Get(r, other) == Get(f, other)
    ensures r.images == f.images
  {
    match field
    case EmergencyType => f.(emergencyType := value)
    case Severity => f.(severity := value)
    case Location => f.(location := value)
    case Latitude => f.(latitude := value)
    case Longitude => f.(longitude := value)
    case Description => f.(description := value)
    case ContactName => f.(contactName := value)
    case ContactPhone => f.(contactPhone := value)
    case ContactEmail => f.(contactEmail := value)
    case PeopleAffected => f.(peopleAffected := value)
  }

  /** Two forms with the same fields and images are the same form. */
  lemma SameFieldsSameForm(f: FormData, g: FormData)
    requires forall field :: Get(f, field) == Get(g, field)
    requires f.images == g.images
    ensures f == g
  {
    assert Get(f, EmergencyType) == Get(g, EmergencyType);
    assert Get(f, Severity) == Get(g, Severity);
    assert Get(f, Location) == Get(g, Location);
    assert Get(f, Latitude) == Get(g, Latitude);
    assert Get(f, Longitude) == Get(g, Longitude);
    assert Get(f, Description) == Get(g, Description);
    assert Get(f, ContactName) == Get(g, ContactName);
    assert Get(f, ContactPhone) == Get(g, ContactPhone);
    assert Get(f, ContactEmail) == Get(g, ContactEmail);
    assert Get(f, PeopleAffected) == Get(g, PeopleAffected);
  }

  /** Writing a field's own value back changes nothing. */
  lemma WithOwnValue(f: FormData, field: Field)
    ensures WithField(f, field, Get(f, field)) == f
  {
    SameFieldsSameForm(WithField(f, field, Get(f, field)), f);
  }

  /** The later of two writes to one field wins. */
  lemma LastWriteWins(f: FormData, field: Field, v1: string, v2: string)
    ensures WithField(WithField(f, field, v1), field, v2) == WithField(f, field, v2)
  {
    SameFieldsSameForm(WithField(WithField(f, field, v1), field, v2), WithField(f, field, v2));
  }

  /** Writes to two different fields can be made in either order. */
  lemma DifferentFieldsCommute(f: FormData, a: Field, va: string, b: Field, vb: string)
    requires a != b
    ensures WithField(WithField(f, a, va), b, vb) == WithField(WithField(f, b, vb), a, va)
  {
    SameFieldsSameForm(WithField(WithField(f, a, va), b, vb), WithField(WithField(f, b, vb), a, va));
  }

  /** The initial form has every text field empty and no images. */
  lemma InitialFormEmpty(field: Field)
    ensures Get(InitialForm, field) == "" && InitialForm.images == []
  {
  }

  /** The page's state; `resetPending` stands for the scheduled reset timer. */
  class ReportPage {
    var formData: FormData
    var isSubmitting: bool
    var submitSuccess: bool
    var resetPending: bool

    constructor ()
      ensures formData == InitialForm && !isSubmitting && !submitSuccess && !resetPending
    {
      formData, isSubmitting, submitSuccess, resetPending := InitialForm, false, false, false;
    }

    /** `handleChange` for the input named `field`. */
    method HandleChange(field: Field, value: string)
      modifies this`formData
      ensures formData == WithField(old(formData), field, value)
    {
      formData := WithField(formData, field, value);
    }

    /** `handleImageUpload`: the chosen files replace the images; the text fields stay. */
    method HandleImageUpload(files: seq<File>)
      modifies this`formData
      ensures formData == old(formData).(images := files)
      ensures forall field :: Get(formData, field) == Get(old(formData), field)
    {
      formData := formData.(images := files);
    }

    /** The success callback of `getCurrentLocation`, given the two coordinates already formatted. */
    method SetCurrentLocation(latitude: string, longitude: string)
      modifies this`formData
      ensures formData == old(formData).(latitude := latitude, longitude := longitude)
    {
      formData := formData.(latitude := latitude, longitude := longitude);
    }

    /** `handleSubmit` up to the simulated call. */
    method BeginSubmit()
      modifies this`isSubmitting
      ensures isSubmitting
    {
      isSubmitting := true;
    }

    /**
     * The rest of `handleSubmit`. `rejected` says whether the awaited call threw
     * (the simulated one never does); on success the success view shows and the
     * reset is scheduled. Submitting ends either way.
     */
    method CompleteSubmit(rejected: bool)
      modifies this`submitSuccess, this`resetPending, this`isSubmitting
      ensures !isSubmitting
      ensures !rejected ==> submitSuccess && resetPending
      ensures rejected ==> submitSuccess == old(submitSuccess) && resetPending == old(resetPending)
    {
      if !rejected {
        submitSuccess := true;
        resetPending := true;
      }
      isSubmitting := false;
    }

    /** The reset timer: the success view closes and the form returns to its initial state. */
    method ResetTimerFires()
      requires resetPending
      modifies this`submitSuccess, this`formData, this`resetPending
      ensures !submitSuccess && formData == InitialForm && !resetPending
    {
      submitSuccess := false;
      formData := InitialForm;
      resetPending := false;
    }
  }

  /** A successful submission followed by its timer leaves the page as a fresh one. */
  method SubmitAndReset(page: ReportPage)
    modifies page
    ensures page.formData == InitialForm && !page.isSubmitting && !page.submitSuccess && !page.resetPending
  {
    page.BeginSubmit();
    page.CompleteSubmit(false);
    page.ResetTimerFires();
  }
}
