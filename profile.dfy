/**
 * The trainer's own profile page (src/pages/Profile.jsx): an edit mode, text fields stored
 * as typed, and the two list fields shown as `join(', ')` and read back with
 * `split(',').map(item => item.trim())`.
 */
module Profile {
  import opened Strings

  datatype Social = Social(instagram: string, website: string)

  /** `formData` (`photo` stays `null` on this page and is left out). */
  datatype ProfileForm = ProfileForm(
    name: string, title: string, bio: string, email: string, phone: string, location: string,
    specialties: seq<string>, certifications: seq<string>, experience: string, availability: string,
    social: Social, photoPreview: string)

  const InitialProfile: ProfileForm := ProfileForm(
    "Alex Rivera", "Certified Personal Trainer",
    "Helping clients build strength, confidence, and long-term health through personalized training and nutrition guidance.",
    "alex.rivera@email.com", "+1 (555) 123-4567", "Downtown Gym, New York, NY",
    ["Strength Training", "HIIT", "Nutrition Coaching"], ["NASM-CPT", "ACE Health Coach", "CrossFit Level 1"],
    "8 years", "Mon-Fri 6AM-8PM, Sat 8AM-2PM", Social("@alex_trainstrue", "alextrainstrue.com"),
    "https://via.placeholder.com/150")

  /** `value.split(',').map(item => item.trim())`. */
  function ParseList(value: string): (r: seq<string>)
    ensures |r| == CountChar(value, ',') + 1
    ensures forall k :: 0 <= k < |r| ==> r[k] == Trim(Split(value, ',')[k]) && IsTrimmed(r[k]) && ',' !in r[k]
  {
    var parts := Split(value, ',');
    seq(|parts|, k requires 0 <= k < |parts| => Trim(parts[k]))
  }

  /** `items.join(', ')`: what the list boxes show. */
  function ListText(items: seq<string>): string {
    Join(items, ", ")
  }

  /** Each padded item trims back to the item. */
  lemma TrimPadded(items: seq<string>, k: nat)
    requires k < |items| && IsTrimmed(items[k])
    ensures Trim(PadTail(items, " ")[k]) == items[k]
  {
    if k == 0 {
      TrimOfTrimmed(items[0]);
    } else {
      assert AllWhite(" ");
      TrimAfterWhite(" ", items[k]);
    }
  }

  /** The text of the list box splits on its commas into the items, each after the first behind a space. */
  lemma ListTextSplits(items: seq<string>)
    requires |items| > 0
    requires forall k :: 0 <= k < |items| ==> ',' !in items[k]
    ensures Split(ListText(items), ',') == PadTail(items, " ")
  {
    var padded := PadTail(items, " ");
    assert ", " == [','] + " ";
    JoinPadded(items, ',', " ");
    forall k | 0 <= k < |padded| ensures ',' !in padded[k] {
      if k > 0 {
        assert padded[k] == " " + items[k];
      }
    }
    SplitJoin(padded, ',');
  }

  /** Text that splits into the padded items parses back to the items. */
  lemma ParsePadded(text: string, items: seq<string>)
    requires forall k :: 0 <= k < |items| ==> IsTrimmed(items[k])
    requires Split(text, ',') == PadTail(items, " ")
    ensures ParseList(text) == items
  {
    var r := ParseList(text);
    forall k | 0 <= k < |items| ensures r[k] == items[k] {
      TrimPadded(items, k);
    }
  }

  /** A list of trimmed items without commas survives being shown and read back. */
  lemma ListRoundTrip(items: seq<string>)
    requires |items| > 0
    requires forall k :: 0 <= k < |items| ==> ',' !in items[k] && IsTrimmed(items[k])
    ensures ParseList(ListText(items)) == items
  {
    ListTextSplits(items);
    ParsePadded(ListText(items), items);
  }

  /** Clearing a list box leaves a list of one empty item, not an empty list. */
  lemma ClearedListHasOneItem()
    ensures ParseList("") == [""]
  {
    var r := ParseList("");
    assert |r| == 1;
    assert r[0] == Trim("");
  }

  /** `{ ...formData, [name]: value }` for the text fields. */
  function SetField(f: ProfileForm, name: string, value: string): (r: ProfileForm)
    ensures name == "name" ==> r == f.(name := value)
    ensures name == "title" ==> r == f.(title := value)
    ensures name == "bio" ==> r == f.(bio := value)
    ensures name == "email" ==> r == f.(email := value)
    ensures name == "phone" ==> r == f.(phone := value)
    ensures name == "location" ==> r == f.(location := value)
    ensures name == "experience" ==> r == f.(experience := value)
    ensures name == "availability" ==> r == f.(availability := value)
    ensures name !in {"name", "title", "bio", "email", "phone", "location", "experience", "availability"} ==> r == f
    ensures r.specialties == f.specialties && r.certifications == f.certifications && r.social == f.social
  {
    match name
    case "name" => f.(name := value)
    case "title" => f.(title := value)
    case "bio" => f.(bio := value)
    case "email" => f.(email := value)
    case "phone" => f.(phone := value)
    case "location" => f.(location := value)
    case "experience" => f.(experience := value)
    case "availability" => f.(availability := value)
    case _ => f
  }

  class ProfilePage {
    var isEditing: bool
    var form: ProfileForm

    constructor ()
      ensures !isEditing && form == InitialProfile
    {
      isEditing := false;
      form := InitialProfile;
    }

    /** `handleEdit`. */
    method Edit()
      modifies this`isEditing
      ensures isEditing
    {
      isEditing := true;
    }

    /** `handleClose`: leaves edit mode and keeps every edit made so far. */
    method Close()
      modifies this`isEditing
      ensures !isEditing && form == old(form)
    {
      isEditing := false;
    }

    /** `handleSave` (the confirmation alert is not modelled). */
    method Save()
      modifies this`isEditing
      ensures !isEditing && form == old(form)
    {
      isEditing := false;
    }

    /** `handleChange`: the two list fields are parsed, any other field is stored as typed. */
    method HandleChange(name: string, value: string)
      modifies this`form
      ensures name == "specialties" ==> form == old(form).(specialties := ParseList(value))
      ensures name == "certifications" ==> form == old(form).(certifications := ParseList(value))
      ensures name != "specialties" && name != "certifications" ==> form == SetField(old(form), name, value)
    {
      if name == "specialties" || name == "certifications" {
        var items := ParseList(value);
        if name == "specialties" {
          form := form.(specialties := items);
        } else {
          form := form.(certifications := items);
        }
      } else {
        form := SetField(form, name, value);
      }
    }

    /** The Instagram box: only `social.instagram` changes. */
    method EditInstagram(value: string)
      modifies this`form
      ensures form == old(form).(social := old(form).social.(instagram := value))
    {
      form := form.(social := form.social.(instagram := value));
    }

    /** The website box: only `social.website` changes. */
    method EditWebsite(value: string)
      modifies this`form
      ensures form == old(form).(social := old(form).social.(website := value))
    {
      form := form.(social := form.social.(website := value));
    }

    /** The photo reader's `onload`: the preview becomes the file's data URL. */
    method PhotoLoaded(dataUrl: string)
      modifies this`form
      ensures form == old(form).(photoPreview := dataUrl)
    {
      form := form.(photoPreview := dataUrl);
    }
  }
}
