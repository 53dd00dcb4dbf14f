/**
 * The trainer's profile form (src/pages/TrainerProfileForm.jsx): `handleChange` routes an
 * input event by its name, and `validate` fills the error map rule by rule.
 */
module TrainerProfileForm {
  import opened Wrappers
  import opened Strings
  import opened ListView
  import opened FormEvents
  import opened ErrorMaps

  /** `formData`; `photo` is the chosen file, by name. */
  datatype TrainerForm = TrainerForm(
    name: string, email: string, phone: string, specialty: string, experience: string,
    certifications: string, bio: string, hourlyRate: string, availability: seq<string>,
    photo: Option<string>, socialLinks: map<string, string>)

  const InitialForm: TrainerForm := TrainerForm(
    "", "", "", "", "", "", "", "", [], None, map["instagram" := "", "facebook" := "", "website" := ""])

  const WeeklyAvailability: seq<string> := ["Mon", "Tue", "Wed", "Thu", "Fri", "Sat", "Sun"]

  /** The branch of `handleChange` an event takes, tested in the handler's order. */
  datatype Branch = ToAvailability | ToSocial | ToPhoto | ToField

  function Route(e: InputEvent): Branch {
    if e.isCheckbox && e.name == "availability" then ToAvailability
    else if StartsWith(e.name, "socialLinks.") then ToSocial
    else if e.name == "photo" then ToPhoto
    else ToField
  }

  const TextFields: set<string> :=
    {"name", "email", "phone", "specialty", "experience", "certifications", "bio", "hourlyRate"}

  /** `{ ...prev, [name]: value }` for the form's text fields. */
  function SetField(f: TrainerForm, name: string, value: string): (r: TrainerForm)
    ensures name == "name" ==> r == f.(name := value)
    ensures name == "email" ==> r == f.(email := value)
    ensures name == "phone" ==> r == f.(phone := value)
    ensures name == "specialty" ==> r == f.(specialty := value)
    ensures name == "experience" ==> r == f.(experience := value)
    ensures name == "certifications" ==> r == f.(certifications := value)
    ensures name == "bio" ==> r == f.(bio := value)
    ensures name == "hourlyRate" ==> r == f.(hourlyRate := value)
    ensures name !in TextFields ==> r == f
    ensures r.availability == f.availability && r.photo == f.photo && r.socialLinks == f.socialLinks
  {
    match name
    case "name" => f.(name := value)
    case "email" => f.(email := value)
    case "phone" => f.(phone := value)
    case "specialty" => f.(specialty := value)
    case "experience" => f.(experience := value)
    case "certifications" => f.(certifications := value)
    case "bio" => f.(bio := value)
    case "hourlyRate" => f.(hourlyRate := value)
    case _ => f
  }

  /** The keys of `validate`'s error object. */
  datatype TrainerField = Name | Email | Specialty | Experience | Certifications | Bio | HourlyRate | Availability

  const NameRequired: string := "Name is required"
  const EmailRequired: string := "Email is required"
  const SpecialtyRequired: string := "Specialty is required"
  const ExperienceRequired: string := "Experience level is required"
  const CertificationsRequired: string := "Certifications are required"
  const BioRequired: string := "Bio is required (min 50 characters)"
  const HourlyRateRequired: string := "Hourly rate is required"
  const AvailabilityRequired: string := "Select at least one available day"

  /**
   * `validate`'s error map. `!x.trim()` is `AllWhite(x)` (`Strings.TrimEmptyIffAllWhite`);
   * `!x` on a string is `x == ""`.
   */
  function TrainerErrors(f: TrainerForm): (errors: map<TrainerField, string>)
    ensures Name in errors <==> AllWhite(f.name)
    ensures Email in errors <==> AllWhite(f.email)
    ensures Specialty in errors <==> f.specialty == []
    ensures Experience in errors <==> f.experience == []
    ensures Certifications in errors <==> AllWhite(f.certifications)
    ensures Bio in errors <==> AllWhite(f.bio)
    ensures HourlyRate in errors <==> f.hourlyRate == []
    ensures Availability in errors <==> f.availability == []
  {
    var e1 := AddIf(map[], AllWhite(f.name), Name, NameRequired);
    var e2 := AddIf(e1, AllWhite(f.email), Email, EmailRequired);
    var e3 := AddIf(e2, f.specialty == [], Specialty, SpecialtyRequired);
    var e4 := AddIf(e3, f.experience == [], Experience, ExperienceRequired);
    var e5 := AddIf(e4, AllWhite(f.certifications), Certifications, CertificationsRequired);
    var e6 := AddIf(e5, AllWhite(f.bio), Bio, BioRequired);
    var e7 := AddIf(e6, f.hourlyRate == [], HourlyRate, HourlyRateRequired);
    AddIf(e7, f.availability == [], Availability, AvailabilityRequired)
  }

  /**
   * The form passes exactly when the four texts are not blank, a specialty, a level and a
   * rate are chosen and some day is ticked.
   */
  lemma TrainerValidIff(f: TrainerForm)
    ensures TrainerErrors(f) == map[] <==>
      && !AllWhite(f.name) && !AllWhite(f.email) && !AllWhite(f.certifications) && !AllWhite(f.bio)
      && f.specialty != [] && f.experience != [] && f.hourlyRate != [] && f.availability != []
  {
    var e := TrainerErrors(f);
    if e != map[] {
      var k :| k in e;
    }
  }

  /** Phone, photo and links never fail the form. */
  lemma TrainerErrorsIgnoreOptional(f: TrainerForm, g: TrainerForm)
    requires g == f.(phone := g.phone, photo := g.photo, socialLinks := g.socialLinks)
    ensures TrainerErrors(g) == TrainerErrors(f)
  {
  }

  /** The bio rule looks at blankness only: one visible character passes it, whatever the message says. */
  lemma ShortBioPasses(f: TrainerForm, c: char)
    requires f.bio == [c] && !IsWhite(c)
    ensures Bio !in TrainerErrors(f) && |f.bio| < 50
  {
    assert !IsWhite(f.bio[0]);
  }

  class TrainerProfile {
    var form: TrainerForm
    var errors: map<TrainerField, string>

    constructor ()
      ensures form == InitialForm && errors == map[]
    {
      form := InitialForm;
      errors := map[];
    }

    /** `handleChange`: a day box toggles the day (the box's value), the other branches set one field. */
    method HandleChange(e: InputEvent)
      modifies this`form
      ensures Route(e) == ToAvailability ==>
                form == old(form).(availability := Toggle(old(form).availability, e.value, e.checked))
      ensures Route(e) == ToSocial ==>
                form == old(form).(socialLinks := old(form).socialLinks[Segment(e.name, '.', 1) := e.value])
      ensures Route(e) == ToPhoto ==>
                form == if e.files == [] then old(form) else old(form).(photo := Some(e.files[0]))
      ensures Route(e) == ToField ==> form == SetField(old(form), e.name, e.value)
    {
      match Route(e)
      case ToAvailability =>
        form := form.(availability := Toggle(form.availability, e.value, e.checked));
      case ToSocial =>
        form := form.(socialLinks := form.socialLinks[Segment(e.name, '.', 1) := e.value]);
      case ToPhoto =>
        if e.files != [] {
          form := form.(photo := Some(e.files[0]));
        }
      case ToField =>
        form := SetField(form, e.name, e.value);
    }

    /** `validate`: the rules checked in order, each failure adding its entry. */
    method Validate() returns (ok: bool)
      modifies this`errors
      ensures errors == TrainerErrors(form)
      ensures ok <==> errors == map[]
    {
      var newErrors: map<TrainerField, string> := map[];
      newErrors := AddIf(newErrors, AllWhite(form.name), Name, NameRequired);
      newErrors := AddIf(newErrors, AllWhite(form.email), Email, EmailRequired);
      newErrors := AddIf(newErrors, form.specialty == [], Specialty, SpecialtyRequired);
      newErrors := AddIf(newErrors, form.experience == [], Experience, ExperienceRequired);
      newErrors := AddIf(newErrors, AllWhite(form.certifications), Certifications, CertificationsRequired);
      newErrors := AddIf(newErrors, AllWhite(form.bio), Bio, BioRequired);
      newErrors := AddIf(newErrors, form.hourlyRate == [], HourlyRate, HourlyRateRequired);
      newErrors := AddIf(newErrors, form.availability == [], Availability, AvailabilityRequired);
      assert newErrors == TrainerErrors(form);
      errors := newErrors;
      ok := |newErrors| == 0;
      EmptyMapSize(newErrors);
    }
  }
}
