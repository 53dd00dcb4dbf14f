/**
 * The gym owner's profile form (src/pages/GymProfileForm.jsx): one `handleChange` that
 * routes an input event by its name, and `validate`, which fills the error map rule by rule.
 */
module GymProfileForm {
  import opened Wrappers
  import opened Strings
  import opened Numbers
  import opened ListView
  import opened FormEvents
  import opened ErrorMaps

  /** One row of `membershipPlans`; `kind` is the plan's `type`. */
  datatype MembershipPlan = MembershipPlan(kind: string, price: string)

  /** `formData`; `hours` and `socialLinks` are the keyed objects of the form. */
  datatype GymForm = GymForm(
    gymName: string, ownerName: string, email: string, phone: string,
    address: string, city: string, state: string, zipCode: string, description: string,
    facilities: seq<string>, amenities: seq<string>, classTypes: seq<string>,
    membershipPlans: seq<MembershipPlan>, hours: map<string, string>, photos: seq<string>,
    website: string, socialLinks: map<string, string>)

  const Days: seq<string> := ["Mon", "Tue", "Wed", "Thu", "Fri", "Sat", "Sun"]

  const InitialForm: GymForm := GymForm(
    "", "", "", "", "", "", "", "", "", [], [], [],
    [MembershipPlan("Monthly", ""), MembershipPlan("Annual", ""), MembershipPlan("Drop-in", "")],
    map["Mon" := "", "Tue" := "", "Wed" := "", "Thu" := "", "Fri" := "", "Sat" := "", "Sun" := ""],
    [], "", map["instagram" := "", "facebook" := "", "youtube" := ""])

  const FacilitiesOptions: seq<string> :=
    ["Free Weights", "Cardio Machines", "Functional Training", "Pool", "Sauna", "Locker Rooms"]
  const AmenitiesOptions: seq<string> := ["Towels", "Parking", "Wi-Fi", "Showers", "Cafe", "Childcare"]
  const ClassTypesOptions: seq<string> := ["Yoga", "HIIT", "CrossFit", "Pilates", "Zumba", "Spin", "Strength"]

  /** The branch of `handleChange` an event takes, tested in the handler's order. */
  datatype Branch = ToFacilities | ToAmenities | ToClassTypes | ToPlans | ToHours | ToPhotos | ToSocial | ToField

  function Route(e: InputEvent): Branch {
    if e.isCheckbox && StartsWith(e.name, "facilities") then ToFacilities
    else if e.isCheckbox && StartsWith(e.name, "amenities") then ToAmenities
    else if e.isCheckbox && StartsWith(e.name, "classTypes") then ToClassTypes
    else if StartsWith(e.name, "membershipPlans.") then ToPlans
    else if StartsWith(e.name, "hours.") then ToHours
    else if e.name == "photos" then ToPhotos
    else if StartsWith(e.name, "socialLinks.") then ToSocial
    else ToField
  }

  /** The item a checkbox toggles, as the handler reads it: `name.split('-')[1]`. */
  function ToggleItemAsWritten(name: string): string {
    Segment(name, '-', 1)
  }

  /** The item a checkbox toggles, as intended: everything after the first `-` of its name. */
  function ToggleItem(name: string): (item: string)
    ensures '-' in name ==> exists k :: 0 <= k < |name| && name[k] == '-' && '-' !in name[..k] && item == name[k + 1..]
    ensures '-' !in name ==> item == "undefined"
    decreases |name|
  {
    if name == [] then "undefined"
    else if name[0] == '-' then
      assert '-' !in name[..0];
      name[1..]
    else
      var item := ToggleItem(name[1..]);
      assert '-' in name ==> '-' in name[1..];
      if '-' in name then
        var k :| 0 <= k < |name[1..]| && name[1..][k] == '-' && '-' !in name[1..][..k] && item == name[1..][k + 1..];
        assert name[..k + 1] == [name[0]] + name[1..][..k];
        item
      else item
  }

  /** The box for `option` is named `prefix-option`; the intended reading gives the option back. */
  lemma ToggleItemOfOption(prefix: string, option: string)
    requires '-' !in prefix
    ensures ToggleItem(prefix + "-" + option) == option
  {
    var name := prefix + "-" + option;
    assert name[|prefix|] == '-' && name[..|prefix|] == prefix;
    var k :| 0 <= k < |name| && name[k] == '-' && '-' !in name[..k] && ToggleItem(name) == name[k + 1..];
    assert k == |prefix|;
    assert name[|prefix| + 1..] == option;
  }

  /** The handler's reading gives the option back exactly when the option has no `-` of its own. */
  lemma ToggleItemAsWrittenIff(prefix: string, option: string)
    requires '-' !in prefix
    ensures ToggleItemAsWritten(prefix + "-" + option) == option <==> '-' !in option
  {
    assert prefix + "-" + option == prefix + ['-'] + option;
    SplitAtSep(prefix, '-', option);
    var parts := Split(option, '-');
    if '-' !in option {
      SplitNoSep(option, '-');
    } else {
      assert '-' !in parts[0];
    }
  }

  /** The handler's reading of `prefix-option` is the option cut at its own first `-`. */
  lemma ToggleItemAsWrittenCuts(prefix: string, head: string, tail: string)
    requires '-' !in prefix && '-' !in head
    ensures ToggleItemAsWritten(prefix + "-" + head + "-" + tail) == head
  {
    assert prefix + "-" + head + "-" + tail == prefix + ['-'] + (head + ['-'] + tail);
    SplitAtSep(prefix, '-', head + ['-'] + tail);
    SplitAtSep(head, '-', tail);
  }

  /** The handler stores the amenity "Wi-Fi" as "Wi". */
  lemma WiFiStoredAsWi(name: string)
    requires name == "amenities-Wi-Fi"
    ensures ToggleItemAsWritten(name) == "Wi"
  {
    var prefix, head, tail := "amenities", "Wi", "Fi";
    assert name == prefix + "-" + head + "-" + tail;
    ToggleItemAsWrittenCuts(prefix, head, tail);
  }

  /** So ticking the "Wi-Fi" box never makes its `includes('Wi-Fi')` test true. */
  lemma WiFiNeverTicked(name: string, amenities: seq<string>)
    requires name == "amenities-Wi-Fi"
    ensures "Wi-Fi" in Toggle(amenities, ToggleItemAsWritten(name), true) <==> "Wi-Fi" in amenities
  {
    WiFiStoredAsWi(name);
    var r := Toggle(amenities, "Wi", true);
    assert r == amenities + ["Wi"];
    assert "Wi" != "Wi-Fi";
  }

  /** With the intended reading every option of the three lists round-trips through its box name. */
  lemma OptionsRoundTrip()
    ensures forall o :: o in FacilitiesOptions ==> ToggleItem("facilities-" + o) == o
    ensures forall o :: o in AmenitiesOptions ==> ToggleItem("amenities-" + o) == o
    ensures forall o :: o in ClassTypesOptions ==> ToggleItem("classTypes-" + o) == o
  {
    forall o | o in FacilitiesOptions ensures ToggleItem("facilities-" + o) == o {
      assert "facilities-" + o == "facilities" + "-" + o;
      ToggleItemOfOption("facilities", o);
    }
    forall o | o in AmenitiesOptions ensures ToggleItem("amenities-" + o) == o {
      assert "amenities-" + o == "amenities" + "-" + o;
      ToggleItemOfOption("amenities", o);
    }
    forall o | o in ClassTypesOptions ensures ToggleItem("classTypes-" + o) == o {
      assert "classTypes-" + o == "classTypes" + "-" + o;
      ToggleItemOfOption("classTypes", o);
    }
  }

  /** A property key used as an array index: only the canonical decimal text of a number. */
  function PlanIndex(text: string): (r: Option<nat>)
    ensures r.Some? ==> NatToDecimal(r.value) == text
  {
    if text != [] && AllDigits(text) && (text[0] != '0' || |text| == 1) then
      CanonicalDigits(text);
      Some(DecimalValue(text))
    else None
  }

  /** Digits without a leading zero are what `NatToDecimal` prints for their value. */
  lemma {:induction false} CanonicalDigits(text: string)
    requires text != [] && AllDigits(text) && (text[0] != '0' || |text| == 1)
    ensures NatToDecimal(DecimalValue(text)) == text
    decreases |text|
  {
    if |text| > 1 {
      var front := text[..|text| - 1];
      CanonicalDigits(front);
      var n := DecimalValue(text);
      assert n / 10 == DecimalValue(front) && n % 10 == DigitValue(text[|text| - 1]);
      assert DecimalValue(front) > 0;
      assert DigitChar(n % 10) == text[|text| - 1];
      assert text == front + [text[|text| - 1]];
    } else {
      assert DigitChar(DigitValue(text[0])) == text[0];
    }
  }

  /** Every index the plan inputs print is read back. */
  lemma PlanIndexOfDecimal(k: nat)
    ensures PlanIndex(NatToDecimal(k)) == Some(k)
  {
    var t := NatToDecimal(k);
    DecimalRoundTrip(k);
    if t[0] == '0' {
      assert k == 0;
      assert t == "0";
    }
  }

  /** `newPlans[index][field] = value`: one field of one plan changes. */
  function SetPlanField(plans: seq<MembershipPlan>, index: nat, field: string, value: string): (r: seq<MembershipPlan>)
    requires index < |plans|
    ensures |r| == |plans|
    ensures forall j :: 0 <= j < |plans| && j != index ==> r[j] == plans[j]
    ensures field == "type" ==> r[index] == plans[index].(kind := value)
    ensures field == "price" ==> r[index] == plans[index].(price := value)
    ensures field != "type" && field != "price" ==> r == plans
  {
    match field
    case "type" => plans[index := plans[index].(kind := value)]
    case "price" => plans[index := plans[index].(price := value)]
    case _ => plans
  }

  const TextFields: set<string> :=
    {"gymName", "ownerName", "email", "phone", "address", "city", "state", "zipCode", "description", "website"}

  /** `{ ...prev, [name]: value }` for the form's text fields. */
  function SetField(f: GymForm, name: string, value: string): (r: GymForm)
    ensures name == "gymName" ==> r == f.(gymName := value)
    ensures name == "ownerName" ==> r == f.(ownerName := value)
    ensures name == "email" ==> r == f.(email := value)
    ensures name == "phone" ==> r == f.(phone := value)
    ensures name == "address" ==> r == f.(address := value)
    ensures name == "city" ==> r == f.(city := value)
    ensures name == "state" ==> r == f.(state := value)
    ensures name == "zipCode" ==> r == f.(zipCode := value)
    ensures name == "description" ==> r == f.(description := value)
    ensures name == "website" ==> r == f.(website := value)
    ensures name !in TextFields ==> r == f
  {
    match name
    case "gymName" => f.(gymName := value)
    case "ownerName" => f.(ownerName := value)
    case "email" => f.(email := value)
    case "phone" => f.(phone := value)
    case "address" => f.(address := value)
    case "city" => f.(city := value)
    case "state" => f.(state := value)
    case "zipCode" => f.(zipCode := value)
    case "description" => f.(description := value)
    case "website" => f.(website := value)
    case _ => f
  }

  const GymNameRequired: string := "Gym name is required"
  const OwnerNameRequired: string := "Owner name is required"
  const EmailRequired: string := "Email is required"
  const AddressRequired: string := "Address is required"
  const CityRequired: string := "City is required"
  const DescriptionRequired: string := "Description is required (min 50 characters)"
  const FacilityRequired: string := "Select at least one facility"
  const PhotoRequired: string := "Upload at least one photo of the gym"

  /** The description rule: blank after trimming, or fewer than 50 characters as typed. */
  predicate DescriptionFails(d: string) {
    AllWhite(d) || |d| < 50
  }

  /** The keys of `validate`'s error object. */
  datatype GymField = GymName | OwnerName | Email | Address | City | Description | Facilities | Photos

  /** `validate`'s error map. */
  function GymErrors(f: GymForm): (errors: map<GymField, string>)
    ensures GymName in errors <==> AllWhite(f.gymName)
    ensures OwnerName in errors <==> AllWhite(f.ownerName)
    ensures Email in errors <==> AllWhite(f.email)
    ensures Address in errors <==> AllWhite(f.address)
    ensures City in errors <==> AllWhite(f.city)
    ensures Description in errors <==> DescriptionFails(f.description)
    ensures Facilities in errors <==> f.facilities == []
    ensures Photos in errors <==> f.photos == []
  {
    var e1 := AddIf(map[], AllWhite(f.gymName), GymName, GymNameRequired);
    var e2 := AddIf(e1, AllWhite(f.ownerName), OwnerName, OwnerNameRequired);
    var e3 := AddIf(e2, AllWhite(f.email), Email, EmailRequired);
    var e4 := AddIf(e3, AllWhite(f.address), Address, AddressRequired);
    var e5 := AddIf(e4, AllWhite(f.city), City, CityRequired);
    var e6 := AddIf(e5, DescriptionFails(f.description), Description, DescriptionRequired);
    var e7 := AddIf(e6, |f.facilities| == 0, Facilities, FacilityRequired);
    AddIf(e7, |f.photos| == 0, Photos, PhotoRequired)
  }

  /**
   * The form passes exactly when the five names are not blank, the description is not
   * blank and has at least 50 characters, and there is a facility and a photo; phone,
   * state, zip code, amenities, class types, plans, hours, website and links never fail it.
   */
  lemma GymValidIff(f: GymForm)
    ensures GymErrors(f) == map[] <==>
      && !AllWhite(f.gymName) && !AllWhite(f.ownerName) && !AllWhite(f.email)
      && !AllWhite(f.address) && !AllWhite(f.city)
      && !AllWhite(f.description) && |f.description| >= 50
      && f.facilities != [] && f.photos != []
  {
    var e := GymErrors(f);
    if e != map[] {
      var k :| k in e;
    }
  }

  /** The fields `validate` does not read do not change its verdict. */
  lemma GymErrorsIgnoreOptional(f: GymForm, g: GymForm)
    requires g == f.(phone := g.phone, state := g.state, zipCode := g.zipCode, amenities := g.amenities,
                     classTypes := g.classTypes, membershipPlans := g.membershipPlans, hours := g.hours,
                     website := g.website, socialLinks := g.socialLinks)
    ensures GymErrors(g) == GymErrors(f)
  {
  }

  class GymProfile {
    var form: GymForm
    var errors: map<GymField, string>

    constructor ()
      ensures form == InitialForm && errors == map[]
    {
      form := InitialForm;
      errors := map[];
    }

    /**
     * `handleChange`. A checkbox toggles `name.split('-')[1]`, as the handler reads it. `ok` is
     * false when the plan branch names no existing plan, where the handler throws before any
     * state changes.
     */
    method HandleChange(e: InputEvent) returns (ok: bool)
      modifies this`form
      ensures Route(e) != ToPlans ==> ok
      ensures Route(e) == ToFacilities ==>
                form == old(form).(facilities := Toggle(old(form).facilities, ToggleItemAsWritten(e.name), e.checked))
      ensures Route(e) == ToAmenities ==>
                form == old(form).(amenities := Toggle(old(form).amenities, ToggleItemAsWritten(e.name), e.checked))
      ensures Route(e) == ToClassTypes ==>
                form == old(form).(classTypes := Toggle(old(form).classTypes, ToggleItemAsWritten(e.name), e.checked))
      ensures Route(e) == ToPlans ==>
                var index := PlanIndex(Segment(e.name, '.', 1));
                && (ok <==> index.Some? && index.value < |old(form).membershipPlans|)
                && (ok ==> form == old(form).(membershipPlans :=
                      SetPlanField(old(form).membershipPlans, index.value, Segment(e.name, '.', 2), e.value)))
                && (!ok ==> form == old(form))
      ensures Route(e) == ToHours ==> form == old(form).(hours := old(form).hours[Segment(e.name, '.', 1) := e.value])
      ensures Route(e) == ToPhotos ==> form == old(form).(photos := e.files)
      ensures Route(e) == ToSocial ==>
                form == old(form).(socialLinks := old(form).socialLinks[Segment(e.name, '.', 1) := e.value])
      ensures Route(e) == ToField ==> form == SetField(old(form), e.name, e.value)
    {
      ok := true;
      match Route(e)
      case ToFacilities =>
        form := form.(facilities := Toggle(form.facilities, ToggleItemAsWritten(e.name), e.checked));
      case ToAmenities =>
        form := form.(amenities := Toggle(form.amenities, ToggleItemAsWritten(e.name), e.checked));
      case ToClassTypes =>
        form := form.(classTypes := Toggle(form.classTypes, ToggleItemAsWritten(e.name), e.checked));
      case ToPlans =>
        var index := PlanIndex(Segment(e.name, '.', 1));
        if index.Some? && index.value < |form.membershipPlans| {
          form := form.(membershipPlans := SetPlanField(form.membershipPlans, index.value, Segment(e.name, '.', 2), e.value));
        } else {
          ok := false;
        }
      case ToHours =>
        form := form.(hours := form.hours[Segment(e.name, '.', 1) := e.value]);
      case ToPhotos =>
        form := form.(photos := e.files);
      case ToSocial =>
        form := form.(socialLinks := form.socialLinks[Segment(e.name, '.', 1) := e.value]);
      case ToField =>
        form := SetField(form, e.name, e.value);
    }

    /** `validate`: the rules checked in order, each failure adding its entry. */
    method Validate() returns (ok: bool)
      modifies this`errors
      ensures errors == GymErrors(form)
      ensures ok <==> errors == map[]
    {
      var newErrors: map<GymField, string> := map[];
      newErrors := AddIf(newErrors, AllWhite(form.gymName), GymName, GymNameRequired);
      newErrors := AddIf(newErrors, AllWhite(form.ownerName), OwnerName, OwnerNameRequired);
      newErrors := AddIf(newErrors, AllWhite(form.email), Email, EmailRequired);
      newErrors := AddIf(newErrors, AllWhite(form.address), Address, AddressRequired);
      newErrors := AddIf(newErrors, AllWhite(form.city), City, CityRequired);
      newErrors := AddIf(newErrors, DescriptionFails(form.description), Description, DescriptionRequired);
      newErrors := AddIf(newErrors, |form.facilities| == 0, Facilities, FacilityRequired);
      newErrors := AddIf(newErrors, |form.photos| == 0, Photos, PhotoRequired);
      assert newErrors == GymErrors(form);
      errors := newErrors;
      ok := |newErrors| == 0;
      EmptyMapSize(newErrors);
    }
  }
}
