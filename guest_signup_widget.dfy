// The guest sign-up widget (components/guest-signup.tsx): the inline form
// shown for one date. Unlike the page, it checks the per-date marker for
// everyone, does not check the date, and writes no sponsor fields.
module GuestSignupWidget {
  import opened Common
  import opened Text
  import opened Signups

  /** The error line of the widget, by the message it shows. */
  datatype Error = NoError | NameRequired | AlreadyGuest | InsertFailed

  function Message(e: Error): string
  {
    match e
    case NoError => ""
    case NameRequired => "Name is required"
    case AlreadyGuest => "You have already signed up as a guest for this date."
    case InsertFailed => "Failed to sign up. Please try again."
  }

  datatype Decision = Rejected(error: Error) | Accepted(record: Signup)

  /** The document the widget writes: trimmed name, guest flag and date, nothing else. */
  function WidgetRecord(name: string, date: string): (s: Signup)
    ensures s.username == Trim(name) && s.isGuest == Value(true) && s.date == date
    ensures s.userId == Undefined && s.sponsorUserId == Undefined && s.sponsorName == Undefined && s.sponsorEmail == Undefined
  {
    Signup(Undefined, Trim(name), date, Value(true), Undefined, Undefined, Undefined)
  }

  /** The checks of handleSubmit: a blank name (`!name.trim()`), then the marker, whoever is signed in. */
  function Decide(name: string, date: string, storage: map<string, string>): Decision
  {
    if IsBlank(name) then Rejected(NameRequired)
    else if IsSet(storage, GuestMarkerKey(date)) then Rejected(AlreadyGuest)
    else Accepted(WidgetRecord(name, date))
  }

  /** A submit is accepted exactly when the name is not blank and no guest was signed up for the date before; the name is checked first. */
  lemma AcceptedIff(name: string, date: string, storage: map<string, string>)
    ensures Decide(name, date, storage).Accepted? <==> !IsBlank(name) && !IsSet(storage, GuestMarkerKey(date))
    ensures IsBlank(name) ==> Decide(name, date, storage) == Rejected(NameRequired)
    ensures !IsBlank(name) && IsSet(storage, GuestMarkerKey(date)) ==> Decide(name, date, storage) == Rejected(AlreadyGuest)
  {
  }

  /** After one success the marker is "1", so every later submit for that date is refused, whatever the name. */
  lemma SecondSubmitRefused(name: string, date: string, storage: map<string, string>)
    ensures Decide(name, date, storage[GuestMarkerKey(date) := "1"]).Rejected?
  {
    assert IsSet(storage[GuestMarkerKey(date) := "1"], GuestMarkerKey(date));
  }

  class GuestSignupWidget {
    const date: string
    var name: string
    var error: Error
    var loading: bool
    var submitted: bool

    constructor (date: string)
      ensures this.date == date && name == "" && error == NoError && !loading && !submitted
    {
      this.date := date;
      name := "";
      error := NoError;
      loading := false;
      submitted := false;
    }

    /**
     * handleSubmit. `insertFails` is whether the Firestore write rejects.
     * On success the marker for the date is set to "1" and the form is submitted;
     * on a refusal or a failed write the marker is untouched.
     */
    method HandleSubmit(repo: SignupRepository, storage: LocalStorage, insertFails: bool)
      modifies this, repo, storage
      ensures name == old(name)
      ensures var d := Decide(old(name), date, old(storage.items));
        (d.Rejected? ==> error == d.error && repo.records == old(repo.records) && storage.items == old(storage.items) &&
                         loading == old(loading) && submitted == old(submitted)) &&
        (d.Accepted? && insertFails ==> error == InsertFailed && repo.records == old(repo.records) &&
                                        storage.items == old(storage.items) && !loading && submitted == old(submitted)) &&
        (d.Accepted? && !insertFails ==> error == NoError && repo.records == old(repo.records) + [d.record] &&
                                         storage.items == old(storage.items)[GuestMarkerKey(date) := "1"] &&
                                         !loading && submitted)
    {
      ghost var d := Decide(name, date, storage.items);
      error := NoError;
      if IsBlank(name) {
        error := NameRequired;
        return;
      }
      var key := GuestMarkerKey(date);
      if IsSet(storage.items, key) {
        error := AlreadyGuest;
        return;
      }
      var record := WidgetRecord(name, date);
      assert d == Accepted(record);
      loading := true;
      if insertFails {
        error := InsertFailed;
      } else {
        repo.AddSignup(record);
        storage.SetItem(key, "1");
        submitted := true;
      }
      loading := false;
    }
  }
}
