/** The profile settings page (`frontend/pages/dashboard/profile.tsx`): the form
    record and the three handlers that replace it with an updated copy. */
module ProfileSettings {
  import opened Text

  /** `formData`: the text inputs by input name, the notification switches by kind and
      the display preferences by key. */
  datatype FormData = FormData(fields: map<String, String>, notifications: map<String, bool>,
                               preferences: map<String, String>)

  /** The form as the page first shows it. */
  const INITIAL: FormData := FormData(
    map["firstName" := "John", "lastName" := "Doe", "email" := "john@example.com",
        "phone" := "+1 (555) 123-4567", "company" := "Acme Inc.", "role" := "Investment Analyst"],
    map["email" := true, "push" := true, "sms" := false],
    map["theme" := "light", "language" := "en", "timezone" := "UTC-5"])

  /** E-mail and push notifications start switched on and SMS off; there are no other
      switches. */
  lemma InitialNotifications()
    ensures INITIAL.notifications.Keys == {"email", "push", "sms"}
    ensures INITIAL.notifications["email"] && INITIAL.notifications["push"] && !INITIAL.notifications["sms"]
  {
  }

  /** `handleInputChange`: the named text field gets the typed value; the switches and
      preferences, and every other field, keep theirs. */
  function WithInput(f: FormData, name: String, value: String): (r: FormData)
    requires name != "notifications" && name != "preferences"
    ensures r.notifications == f.notifications && r.preferences == f.preferences
    ensures name in r.fields && r.fields[name] == value
    ensures r.fields.Keys == f.fields.Keys + {name}
    ensures forall k | k in f.fields && k != name :: r.fields[k] == f.fields[k]
  {
    f.(fields := f.fields[name := value])
  }

  /** A later edit of a field overrides an earlier one. */
  lemma InputLastWins(f: FormData, name: String, v1: String, v2: String)
    requires name != "notifications" && name != "preferences"
    ensures WithInput(WithInput(f, name, v1), name, v2) == WithInput(f, name, v2)
  {
    assert WithInput(WithInput(f, name, v1), name, v2).fields == WithInput(f, name, v2).fields;
  }

  /** `!prev.notifications[type]`: a missing switch reads as `undefined`, whose
      negation is `true`. */
  function Flipped(n: map<String, bool>, kind: String): bool {
    !(kind in n && n[kind])
  }

  /** `handleNotificationChange`: the one switch named flips and every other switch,
      field and preference keeps its value; a switch not on the form is added on. */
  function WithNotificationToggled(f: FormData, kind: String): (r: FormData)
    ensures r.fields == f.fields && r.preferences == f.preferences
    ensures r.notifications.Keys == f.notifications.Keys + {kind}
    ensures kind in f.notifications ==> r.notifications[kind] == !f.notifications[kind]
    ensures kind !in f.notifications ==> r.notifications[kind]
    ensures forall k | k in f.notifications && k != kind :: r.notifications[k] == f.notifications[k]
  {
    f.(notifications := f.notifications[kind := Flipped(f.notifications, kind)])
  }

  /** Flipping a switch on the form twice restores the form. */
  lemma ToggleTwiceRestores(f: FormData, kind: String)
    requires kind in f.notifications
    ensures WithNotificationToggled(WithNotificationToggled(f, kind), kind) == f
  {
    var twice := WithNotificationToggled(WithNotificationToggled(f, kind), kind);
    assert twice.notifications == f.notifications;
  }

  /** Flipping a switch that is not on the form twice leaves it on the form, switched
      off. */
  lemma ToggleTwiceAddsOff(f: FormData, kind: String)
    requires kind !in f.notifications
    ensures WithNotificationToggled(WithNotificationToggled(f, kind), kind) == f.(notifications := f.notifications[kind := false])
  {
  }

  /** `handlePreferenceChange`: the named preference gets the value and everything
      else keeps its value. */
  function WithPreference(f: FormData, key: String, value: String): (r: FormData)
    ensures r.fields == f.fields && r.notifications == f.notifications
    ensures key in r.preferences && r.preferences[key] == value
    ensures r.preferences.Keys == f.preferences.Keys + {key}
    ensures forall k | k in f.preferences && k != key :: r.preferences[k] == f.preferences[k]
  {
    f.(preferences := f.preferences[key := value])
  }

  /** Setting a preference to the value it has changes nothing. */
  lemma PreferenceUnchanged(f: FormData, key: String)
    requires key in f.preferences
    ensures WithPreference(f, key, f.preferences[key]) == f
  {
    assert WithPreference(f, key, f.preferences[key]).preferences == f.preferences;
  }

  /** The page, holding the selected tab and the form. */
  class Profile {
    var activeTab: String
    var formData: FormData

    constructor ()
      ensures activeTab == "general" && formData == INITIAL
    {
      activeTab := "general";
      formData := INITIAL;
    }

    /** A tab button: `setActiveTab(tab.id)`. */
    method SelectTab(id: String)
      modifies this
      ensures activeTab == id && formData == old(formData)
    {
      activeTab := id;
    }

    method HandleInputChange(name: String, value: String)
      requires name != "notifications" && name != "preferences"
      modifies this
      ensures formData == WithInput(old(formData), name, value) && activeTab == old(activeTab)
    {
      formData := WithInput(formData, name, value);
    }

    method HandleNotificationChange(kind: String)
      modifies this
      ensures formData == WithNotificationToggled(old(formData), kind) && activeTab == old(activeTab)
    {
      formData := WithNotificationToggled(formData, kind);
    }

    method HandlePreferenceChange(key: String, value: String)
      modifies this
      ensures formData == WithPreference(old(formData), key, value) && activeTab == old(activeTab)
    {
      formData := WithPreference(formData, key, value);
    }
  }
}
