/**
 * The onboarding form: the first profile a new account fills in. Its submit
 * handler checks the required fields, then writes the user document and
 * navigates home, or records why it could not.
 */
module Onboarding {
  import opened Common
  import opened AvailabilityEditor
  import opened Defaults
  import opened Profile

  datatype OnboardingForm = OnboardingForm(
    displayName: string,
    level: Level,
    sports: seq<Sport>,
    zipCode: string,
    bio: string,
    phoneNumber: string,
    availability: Availability)

  /** The form as the page first shows it, seeded from the signed-in account. */
  function InitialForm(user: Option<AuthUser>): (f: OnboardingForm)
    ensures f.sports == [] && f.level == Beginner && f.zipCode == "" && f.bio == ""
    ensures f.availability == DefaultAvailability()
    ensures f.displayName == (if user.Some? then OrElse(user.value.displayName, "") else "")
    ensures f.phoneNumber == (if user.Some? then OrElse(user.value.phoneNumber, "") else "")
  {
    OnboardingForm(
      if user.Some? then OrElse(user.value.displayName, "") else "",
      Beginner, [], "", "",
      if user.Some? then OrElse(user.value.phoneNumber, "") else "",
      DefaultAvailability())
  }

  /** The fields submit insists on: a display name, a zip code and at least one sport. */
  predicate Complete(f: OnboardingForm)
  {
    f.displayName != "" && f.zipCode != "" && |f.sports| != 0
  }

  /** An untouched form has no sport, so submitting it is always rejected. */
  lemma UntouchedFormIsRejected(user: Option<AuthUser>)
    ensures !Complete(InitialForm(user))
  {
  }

  /** The document stored under the account's id in the `users` collection. */
  datatype UserDocument = UserDocument(
    profile: OnboardingForm,
    email: Option<string>,
    photoURL: Option<string>,
    createdAt: string,
    onboardingCompleted: bool)

  /** The form's fields, the account's email and photo, the creation time and the completion flag. */
  function DocumentFor(f: OnboardingForm, user: AuthUser, createdAt: string): (d: UserDocument)
    ensures d.profile == f && d.email == user.email && d.photoURL == user.photoURL
    ensures d.createdAt == createdAt && d.onboardingCompleted
  {
    UserDocument(f, user.email, user.photoURL, createdAt, true)
  }

  const MissingFieldsMessage := "Please fill in all required fields and select at least one sport"
  const SaveFailedMessage := "Failed to save profile"

  class OnboardingPage {
    var form: OnboardingForm
    var loading: bool
    var error: string
    /** The `users` collection, keyed by account id. */
    var users: map<string, UserDocument>

    constructor (user: Option<AuthUser>, users: map<string, UserDocument>)
      ensures form == InitialForm(user) && !loading && error == "" && this.users == users
    {
      form := InitialForm(user);
      loading := false;
      error := "";
      this.users := users;
    }

    /** A sport chip's click handler, the same toggle as on the profile page. */
    method HandleSportToggle(sport: Sport)
      modifies this
      ensures form == old(form).(sports := ToggleSport(old(form.sports), sport))
      ensures loading == old(loading) && error == old(error) && users == old(users)
    {
      form := form.(sports := ToggleSport(form.sports, sport));
    }

    /**
     * `handleSubmit`. `createdAt` is the clock reading and `writeSucceeds`
     * whether the store accepts the document; the result is where the page
     * navigates, if anywhere.
     */
    method HandleSubmit(user: Option<AuthUser>, createdAt: string, writeSucceeds: bool)
      returns (navigateTo: Option<string>)
      modifies this
      ensures form == old(form)
      ensures user.None? ==>
                navigateTo.None? && loading == old(loading) && error == old(error) && users == old(users)
      ensures user.Some? && !Complete(old(form)) ==>
                navigateTo.None? && error == MissingFieldsMessage &&
                loading == old(loading) && users == old(users)
      ensures user.Some? && Complete(old(form)) && writeSucceeds ==>
                navigateTo == Some("/") && error == "" && !loading &&
                users == old(users)[user.value.uid := DocumentFor(old(form), user.value, createdAt)]
      ensures user.Some? && Complete(old(form)) && !writeSucceeds ==>
                navigateTo.None? && error == SaveFailedMessage && !loading && users == old(users)
    {
      navigateTo := None;
      if user.None? {
        return;
      }
      if form.displayName == "" || form.zipCode == "" || |form.sports| == 0 {
        error := MissingFieldsMessage;
        return;
      }
      loading := true;
      error := "";
      if writeSucceeds {
        users := users[user.value.uid := DocumentFor(form, user.value, createdAt)];
        navigateTo := Some("/");
      } else {
        error := SaveFailedMessage;
      }
      loading := false;
    }
  }
}
