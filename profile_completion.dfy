/** The two-step onboarding modal: step 1 collects a phone number, step 2
    the full name and country; submitting writes them to the user's profile
    document with `onboardingCompleted` set. */
module ProfileCompletion {
  import opened Wrappers
  import opened JsText
  import opened Firestore

  const MinPhoneLength := 10

  const InvalidPhoneMessage := "Please enter a valid phone number."
  const MissingFieldsMessage := "Please fill in all fields."
  const CompletedMessage := "Profile completed successfully!"
  const FailedMessage := "Failed to update profile. Please try again."

  /** `!phone || phone.length < 10` is the rejection; the phone widget reports
      `undefined` once cleared. The emptiness test is subsumed by the length test. */
  function PhoneAccepted(phone: Option<string>): (accepted: bool)
    ensures accepted <==> phone.Some? && |phone.value| >= MinPhoneLength
  {
    phone.Some? && phone.value != "" && |phone.value| >= MinPhoneLength
  }

  /** `!fullName.trim() || !country.trim()` is the rejection: a field made only
      of whitespace counts as missing. */
  function DetailsAccepted(fullName: string, country: string): (accepted: bool)
    ensures accepted <==> !AllWhitespace(fullName) && !AllWhitespace(country)
  {
    !IsBlank(fullName) && !IsBlank(country)
  }

  /** Details are accepted exactly when each field has a non-whitespace character. */
  lemma DetailsAcceptedIffVisible(fullName: string, country: string)
    ensures DetailsAccepted(fullName, country) <==>
              (exists i :: 0 <= i < |fullName| && !IsJsWhitespace(fullName[i]))
              && (exists i :: 0 <= i < |country| && !IsJsWhitespace(country[i]))
  {
  }

  /** The fields the modal asks `updateUserDocument` to write; `now` is the client clock. */
  function OnboardingPayload(phone: string, fullName: string, country: string, now: int): (r: Record)
    ensures r.Keys == {"phoneNumber", "displayName", "country", "onboardingCompleted", "updatedAt"}
    ensures r["phoneNumber"] == Str(phone) && r["displayName"] == Str(fullName) && r["country"] == Str(country)
    ensures r["onboardingCompleted"] == Bool(true) && r["updatedAt"] == Date(now)
  {
    map[
      "phoneNumber" := Str(phone),
      "displayName" := Str(fullName),
      "country" := Str(country),
      "onboardingCompleted" := Bool(true),
      "updatedAt" := Date(now)
    ]
  }

  /** The progress bar's width, `(step / 2) * 100` percent. */
  function ProgressPercent(step: int): (percent: int)
    requires step == 1 || step == 2
    ensures 0 < percent <= 100
    ensures percent == 100 <==> step == 2
    ensures percent * 2 == step * 100
  {
    step * 100 / 2
  }

  /** The heading `Step {step} of 2: {title}`. */
  function StepTitle(step: int): (title: string)
    requires step == 1 || step == 2
    ensures title == "Contact Info" <==> step == 1
  {
    ["Contact Info", "Personal Details"][step - 1]
  }

  class ProfileModal {
    var step: int
    var loading: bool
    var phone: Option<string>
    var fullName: string
    var country: string

    /** The step is 1 or 2, and step 2 is reached only with an accepted phone
        (the phone field is on step 1 only). */
    ghost predicate Valid()
      reads this
    {
      (step == 1 || step == 2) && (step == 2 ==> PhoneAccepted(phone))
    }

    /** `fullName` starts as `currentUser?.displayName || ''`. */
    constructor (displayName: Option<string>)
      ensures Valid() && step == 1 && !loading
      ensures phone == Some("") && country == ""
      ensures fullName == if displayName.Some? then displayName.value else ""
    {
      step := 1;
      loading := false;
      phone := Some("");
      fullName := if displayName.Some? then displayName.value else "";
      country := "";
    }

    /** The phone widget, shown on step 1. */
    method SetPhone(value: Option<string>)
      requires step == 1
      modifies this`phone
      ensures phone == value
    {
      phone := value;
    }

    method SetFullName(value: string)
      modifies this`fullName
      ensures fullName == value
    {
      fullName := value;
    }

    method SetCountry(value: string)
      modifies this`country
      ensures country == value
    {
      country := value;
    }

    /** `handleNext`: from step 1, advance exactly when the phone is accepted; at step 2, nothing. */
    method HandleNext() returns (notice: Option<Toast>)
      requires Valid()
      modifies this`step
      ensures Valid()
      ensures old(step) == 1 && PhoneAccepted(phone) ==> step == 2 && notice == None
      ensures old(step) == 1 && !PhoneAccepted(phone) ==>
                step == 1 && notice == Some(ErrorToast(InvalidPhoneMessage))
      ensures old(step) == 2 ==> step == 2 && notice == None
    {
      notice := None;
      if step == 1 {
        if phone.None? || phone.value == "" || |phone.value| < MinPhoneLength {
          notice := Some(ErrorToast(InvalidPhoneMessage));
          return;
        }
        step := 2;
      }
    }

    /** `handleBack`: step down when above 1, otherwise nothing. */
    method HandleBack()
      requires Valid()
      modifies this`step
      ensures Valid()
      ensures step == if old(step) > 1 then old(step) - 1 else old(step)
    {
      if step > 1 {
        step := step - 1;
      }
    }

    /** The first half of `handleSubmit`, from the step-2 button (disabled while loading):
        blank details raise an error and write nothing; otherwise loading starts and the
        payload to write is returned. */
    method HandleSubmit(now: int) returns (payload: Option<Record>, notice: Option<Toast>)
      requires Valid() && step == 2 && !loading
      modifies this`loading
      ensures Valid() && unchanged(this`step, this`phone, this`fullName, this`country)
      ensures payload.Some? <==> DetailsAccepted(fullName, country)
      ensures payload.None? ==> !loading && notice == Some(ErrorToast(MissingFieldsMessage))
      ensures payload.Some? ==> loading && notice == None
      ensures payload.Some? ==> payload.value == OnboardingPayload(phone.value, fullName, country, now)
    {
      if IsBlank(fullName) || IsBlank(country) {
        return None, Some(ErrorToast(MissingFieldsMessage));
      }
      loading := true;
      payload := Some(OnboardingPayload(phone.value, fullName, country, now));
      notice := None;
    }

    /** The `try`/`catch`/`finally` tail of `handleSubmit`: loading ends either way. */
    method SubmitFinished(succeeded: bool) returns (notice: Toast)
      requires loading
      modifies this`loading
      ensures unchanged(this`step, this`phone, this`fullName, this`country)
      ensures !loading
      ensures notice == if succeeded then SuccessToast(CompletedMessage)
                        else ErrorToast(FailedMessage)
    {
      if succeeded {
        notice := SuccessToast(CompletedMessage);
      } else {
        notice := ErrorToast(FailedMessage);
      }
      loading := false;
    }
  }

  /** The whole of `handleSubmit` against the store: `accepted` says whether the
      details passed validation; `writeSucceeds` stands for the backend accepting the
      update and `refreshSucceeds` for the outcome of the profile refresh that follows
      it. Either failing lands in the `catch` with the failure toast. */
  method CompleteProfile(modal: ProfileModal, store: UserStore, uid: string, now: int,
                         writeSucceeds: bool, refreshSucceeds: bool)
    returns (accepted: bool, completed: bool, notice: Toast)
    requires modal.Valid() && modal.step == 2 && !modal.loading
    modifies modal, store
    ensures accepted == DetailsAccepted(modal.fullName, modal.country)
    ensures modal.Valid() && !modal.loading && modal.step == 2
    ensures modal.phone == old(modal.phone) && modal.fullName == old(modal.fullName) && modal.country == old(modal.country)
    ensures !accepted ==> notice == ErrorToast(MissingFieldsMessage) && store.docs == old(store.docs)
    ensures completed <==> accepted && uid in old(store.docs) && writeSucceeds && refreshSucceeds
    ensures completed ==> notice == SuccessToast(CompletedMessage)
    ensures accepted && !completed ==> notice == ErrorToast(FailedMessage)
    ensures !(uid in old(store.docs) && writeSucceeds) ==> store.docs == old(store.docs)
    ensures accepted && uid in old(store.docs) && writeSucceeds ==>
              store.docs == old(store.docs)[uid := MergedInto(old(store.docs), uid,
                UpdatePayload(OnboardingPayload(modal.phone.value, modal.fullName, modal.country, now)))]
  {
    var payload, rejection := modal.HandleSubmit(now);
    accepted := payload.Some?;
    if !accepted {
      return accepted, false, rejection.value;
    }
    var written := store.UpdateUserDocument(uid, payload.value, writeSucceeds);
    completed := written && refreshSucceeds;
    notice := modal.SubmitFinished(completed);
  }

  /** The onboarding patch never names the defaults `createUserDocument` set
      other than the flag and `updatedAt`. */
  lemma OnboardingPatchSparesDefaults(phone: string, fullName: string, country: string, now: int)
    ensures var patch := UpdatePayload(OnboardingPayload(phone, fullName, country, now));
            && patch.Keys * DefaultKeys == {"onboardingCompleted", "updatedAt"}
            && "createdAt" !in patch && "role" !in patch && "earnings" !in patch && "stats" !in patch
  {
  }

  /** A profile created at signup and then completed through the modal is onboarded:
      the flag is set, the entered fields are stored, the server timestamp wins over the
      client date, and the defaults the modal does not touch are still in place. */
  lemma SignupThenOnboarding(docs: map<string, Record>, uid: string, userData: Record,
                             phone: string, fullName: string, country: string, now: int)
    ensures var created := docs[uid := MergedInto(docs, uid, InitialRecord(userData))];
            var r := MergedInto(created, uid, UpdatePayload(OnboardingPayload(phone, fullName, country, now)));
            && r["onboardingCompleted"] == Bool(true)
            && r["phoneNumber"] == Str(phone) && r["displayName"] == Str(fullName) && r["country"] == Str(country)
            && r["updatedAt"] == ServerTimestamp && r["createdAt"] == ServerTimestamp
            && r["role"] == Str("user") && r["earnings"] == ZeroEarnings() && r["stats"] == ZeroStats()
  {
    OnboardingPatchSparesDefaults(phone, fullName, country, now);
    var base := docs[uid := MergedInto(docs, uid, InitialRecord(userData))][uid];
    assert && base["createdAt"] == ServerTimestamp && base["role"] == Str("user")
           && base["earnings"] == ZeroEarnings() && base["stats"] == ZeroStats();
  }
}
