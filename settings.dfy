/**
 * The studio settings page (src/pages/Settings.jsx): studio details, membership plans
 * edited by id, notification and integration switches, and the reset to defaults.
 */
module Settings {

  datatype StudioInfo = StudioInfo(name: string, location: string, email: string, phone: string, website: string)

  const InitialStudio: StudioInfo :=
    StudioInfo("Urban Fit Studio", "Downtown, New York", "hello@urbanfit.com", "+1 (555) 123-4567", "www.urbanfit.com")

  /** One membership plan; `price` is the number the price box holds. */
  datatype Plan = Plan(
    id: nat, name: string, price: int, interval: string, description: string,
    benefits: seq<string>, enabled: bool, autoRenew: bool)

  const InitialPlans: seq<Plan> := [
    Plan(1, "Basic", 60, "monthly", "Access to gym only",
         ["24/7 Gym Access", "Locker Room", "Free Wi-Fi"], true, true),
    Plan(2, "Premium", 120, "monthly", "Gym + 4 classes/month",
         ["All Basic Features", "4 Group Classes", "Nutrition Guide"], true, true),
    Plan(3, "Elite", 200, "monthly", "Unlimited classes + personal training",
         ["All Premium Features", "Unlimited Classes", "1 Personal Session/month"], true, true)]

  datatype Channel = EmailChannel | SmsChannel
  datatype Notice = Payment | ClassReminder | Newsletter
  datatype Integration = GoogleCalendar | Stripe | Mailchimp | Zoom

  const InitialNotifications: map<(Channel, Notice), bool> := map[
    (EmailChannel, Payment) := true, (EmailChannel, ClassReminder) := true, (EmailChannel, Newsletter) := false,
    (SmsChannel, Payment) := false, (SmsChannel, ClassReminder) := true, (SmsChannel, Newsletter) := false]

  const InitialIntegrations: map<Integration, bool> :=
    map[GoogleCalendar := false, Stripe := true, Mailchimp := false, Zoom := false]

  /** What one control of a plan card does to that plan. */
  datatype PlanEdit =
    | FlipEnabled
    | SetPrice(price: int)
    | SetDescription(text: string)
    | SetBenefits(benefits: seq<string>)
    | FlipAutoRenew

  function ApplyEdit(p: Plan, edit: PlanEdit): (r: Plan)
    ensures r.id == p.id && r.name == p.name && r.interval == p.interval
  {
    match edit
    case FlipEnabled => p.(enabled := !p.enabled)
    case SetPrice(x) => p.(price := x)
    case SetDescription(t) => p.(description := t)
    case SetBenefits(b) => p.(benefits := b)
    case FlipAutoRenew => p.(autoRenew := !p.autoRenew)
  }

  /** `prev.map(p => p.id === id ? edit(p) : p)`: the plans with that id change, no other plan does. */
  function EditPlans(plans: seq<Plan>, id: nat, edit: PlanEdit): (r: seq<Plan>)
    ensures |r| == |plans|
    ensures forall j :: 0 <= j < |plans| ==> r[j].id == plans[j].id
    ensures forall j :: 0 <= j < |plans| && plans[j].id != id ==> r[j] == plans[j]
    ensures forall j :: 0 <= j < |plans| && plans[j].id == id ==> r[j] == ApplyEdit(plans[j], edit)
  {
    seq(|plans|, j requires 0 <= j < |plans| => if plans[j].id == id then ApplyEdit(plans[j], edit) else plans[j])
  }

  /** Flipping a plan's switch twice gives the plans back. */
  lemma FlipTwice(plans: seq<Plan>, id: nat, edit: PlanEdit)
    requires edit == FlipEnabled || edit == FlipAutoRenew
    ensures EditPlans(EditPlans(plans, id, edit), id, edit) == plans
  {
    var once := EditPlans(plans, id, edit);
    var twice := EditPlans(once, id, edit);
    forall j | 0 <= j < |plans| ensures twice[j] == plans[j] {
      if plans[j].id == id {
        assert once[j] == ApplyEdit(plans[j], edit);
      }
    }
  }

  /**
   * The benefit box `i` of the plan card showing `shown`: `newBenefits[i] = value` on a copy of
   * that card's benefits, given to every plan with its id. On the plan shown, only benefit `i` changes.
   */
  function BenefitEdit(shown: Plan, i: nat, value: string): (edit: PlanEdit)
    requires i < |shown.benefits|
    ensures edit.SetBenefits? && |edit.benefits| == |shown.benefits| && edit.benefits[i] == value
    ensures forall k :: 0 <= k < |shown.benefits| && k != i ==> edit.benefits[k] == shown.benefits[k]
  {
    SetBenefits(shown.benefits[i := value])
  }

  /** The price a reset gives a plan, by its name. */
  function DefaultPrice(name: string): int {
    if name == "Basic" then 60 else if name == "Premium" then 120 else 200
  }

  /** The plans part of `handleReset`: default price by name, renewal on, everything else kept. */
  function ResetPlans(plans: seq<Plan>): (r: seq<Plan>)
    ensures |r| == |plans|
    ensures forall j :: 0 <= j < |plans| ==>
              r[j] == plans[j].(price := DefaultPrice(plans[j].name), autoRenew := true)
  {
    seq(|plans|, j requires 0 <= j < |plans| => plans[j].(price := DefaultPrice(plans[j].name), autoRenew := true))
  }

  /** Reset keeps each plan's switch, description and benefits. */
  lemma ResetKeeps(plans: seq<Plan>)
    ensures forall j :: 0 <= j < |plans| ==>
      var r := ResetPlans(plans)[j];
      && r.id == plans[j].id && r.name == plans[j].name && r.enabled == plans[j].enabled
      && r.description == plans[j].description && r.benefits == plans[j].benefits
      && r.price in {60, 120, 200} && r.autoRenew
  {
  }

  /** Resetting twice is resetting once. */
  lemma ResetIdempotent(plans: seq<Plan>)
    ensures ResetPlans(ResetPlans(plans)) == ResetPlans(plans)
  {
    var once := ResetPlans(plans);
    assert forall j :: 0 <= j < |plans| ==> once[j].name == plans[j].name;
  }

  /** The first plans the page shows are already at their defaults. */
  lemma ResetOfInitial()
    ensures ResetPlans(InitialPlans) == InitialPlans
  {
    var r := ResetPlans(InitialPlans);
    assert DefaultPrice(InitialPlans[0].name) == 60;
    assert DefaultPrice(InitialPlans[1].name) == 120;
    assert DefaultPrice(InitialPlans[2].name) == 200;
    assert r[0] == InitialPlans[0] && r[1] == InitialPlans[1] && r[2] == InitialPlans[2];
  }

  /** `{ ...prev, [key]: !prev[key] }`: exactly one switch flips. */
  function Flip<K>(m: map<K, bool>, key: K): (r: map<K, bool>)
    requires key in m
    ensures r.Keys == m.Keys && r[key] == !m[key]
    ensures forall k :: k in m && k != key ==> r[k] == m[k]
  {
    m[key := !m[key]]
  }

  /** Flipping a switch twice gives the switches back. */
  lemma FlipFlipTwice<K>(m: map<K, bool>, key: K)
    requires key in m
    ensures Flip(Flip(m, key), key) == m
  {
    var twice := Flip(Flip(m, key), key);
    assert forall k :: k in m ==> twice[k] == m[k];
  }

  datatype StudioField = StudioName | Location | StudioEmail | Phone | Website

  function SetStudio(s: StudioInfo, field: StudioField, value: string): (r: StudioInfo)
    ensures field == StudioName ==> r == s.(name := value)
    ensures field == Location ==> r == s.(location := value)
    ensures field == StudioEmail ==> r == s.(email := value)
    ensures field == Phone ==> r == s.(phone := value)
    ensures field == Website ==> r == s.(website := value)
  {
    match field
    case StudioName => s.(name := value)
    case Location => s.(location := value)
    case StudioEmail => s.(email := value)
    case Phone => s.(phone := value)
    case Website => s.(website := value)
  }

  class SettingsPage {
    var activeTab: string
    var showToast: bool
    var studio: StudioInfo
    var plans: seq<Plan>
    var notifications: map<(Channel, Notice), bool>
    var integrations: map<Integration, bool>

    /** Every switch the page renders has a value. */
    ghost predicate Valid()
      reads this
    {
      && notifications.Keys == InitialNotifications.Keys
      && integrations.Keys == InitialIntegrations.Keys
    }

    constructor ()
      ensures Valid()
      ensures activeTab == "general" && !showToast && studio == InitialStudio && plans == InitialPlans
      ensures notifications == InitialNotifications && integrations == InitialIntegrations
    {
      activeTab := "general";
      showToast := false;
      studio := InitialStudio;
      plans := InitialPlans;
      notifications := InitialNotifications;
      integrations := InitialIntegrations;
    }

    method SelectTab(tab: string)
      modifies this`activeTab
      ensures activeTab == tab
    {
      activeTab := tab;
    }

    /** One studio text box: `setStudioInfo({ ...studioInfo, field: value })`. */
    method EditStudio(field: StudioField, value: string)
      modifies this`studio
      ensures studio == SetStudio(old(studio), field, value)
    {
      studio := SetStudio(studio, field, value);
    }

    /** One control of the plan card with this id. */
    method EditPlan(id: nat, edit: PlanEdit)
      modifies this`plans
      ensures plans == EditPlans(old(plans), id, edit)
    {
      plans := EditPlans(plans, id, edit);
    }

    /** A notification switch: only `[channel][notice]` flips. */
    method FlipNotification(channel: Channel, notice: Notice)
      requires Valid()
      modifies this`notifications
      ensures Valid()
      ensures notifications == Flip(old(notifications), (channel, notice))
    {
      assert (channel, notice) in InitialNotifications;
      notifications := Flip(notifications, (channel, notice));
    }

    /** An integration switch: only `[app]` flips. */
    method FlipIntegration(app: Integration)
      requires Valid()
      modifies this`integrations
      ensures Valid()
      ensures integrations == Flip(old(integrations), app)
    {
      assert app in InitialIntegrations;
      integrations := Flip(integrations, app);
    }

    /** `handleSave`: only the toast shows (the three-second timer that hides it is not modelled). */
    method Save()
      modifies this`showToast
      ensures showToast
    {
      showToast := true;
    }

    /**
     * `handleReset`, with the answer to the confirmation box as `confirmed`: on yes, studio,
     * switches and integrations return to the first values, and the plans are reset by name;
     * on no, nothing changes.
     */
    method Reset(confirmed: bool)
      requires Valid()
      modifies this`studio, this`plans, this`notifications, this`integrations, this`showToast
      ensures Valid()
      ensures confirmed ==> && studio == InitialStudio && plans == ResetPlans(old(plans))
                            && notifications == InitialNotifications && integrations == InitialIntegrations
                            && showToast
      ensures !confirmed ==> && studio == old(studio) && plans == old(plans) && notifications == old(notifications)
                             && integrations == old(integrations) && showToast == old(showToast)
    {
      if confirmed {
        studio := InitialStudio;
        plans := ResetPlans(plans);
        notifications := InitialNotifications;
        integrations := InitialIntegrations;
        showToast := true;
      }
    }
  }
}
