// The guest sign-up page (app/guest-signup/page.tsx): a form that signs up
// one named guest for the date in the address. Its submit handler checks, in
// this order, the name, the date and (for visitors who are not signed in) a
// per-date marker in localStorage, then inserts one guest record.
module GuestSignupPage {
  import opened Common
  import opened Text
  import opened Signups

  /** The error line of the form, by the message it shows. */
  datatype Error = NoError | NameRequired | NoDate | AlreadySponsored | InsertFailed

  function Message(e: Error): string
  {
    match e
    case NoError => ""
    case NameRequired => "Name is required"
    case NoDate => "No date specified."
    case AlreadySponsored => "You have already signed up one guest for this date. Create an account to add more."
    case InsertFailed => "Failed to sign up. Please try again."
  }

  /** What a submit decides before it touches the collection. */
  datatype Decision = Rejected(error: Error) | Accepted(record: Signup)

  /** The document the page writes: trimmed name, guest flag, date, and the sponsor when signed in. */
  function GuestRecord(name: string, date: string, user: Option<User>): (s: Signup)
    ensures s.username == Trim(name) && s.isGuest == Value(true) && s.date == date && s.userId == Undefined
    ensures user.None? ==> s.sponsorUserId == Undefined && s.sponsorName == Undefined && s.sponsorEmail == Null
    ensures user.Some? ==> s.sponsorUserId == Value(user.value.uid) &&
                           s.sponsorName == Value(OrElse(user.value.displayName, "Authenticated User"))
    ensures user.Some? && user.value.email.Some? && user.value.email.value != "" ==> s.sponsorEmail == Value(user.value.email.value)
    ensures user.Some? && (user.value.email.None? || user.value.email.value == "") ==> s.sponsorEmail == Null
  {
    match user
    case None => Signup(Undefined, Trim(name), date, Value(true), Undefined, Undefined, Null)
    case Some(u) =>
      Signup(Undefined, Trim(name), date, Value(true), Value(u.uid), Value(OrElse(u.displayName, "Authenticated User")),
             if u.email.Some? && u.email.value != "" then Value(u.email.value) else Null)
  }

  /**
   * The checks of handleSubmit, in order; the first that fails decides the message.
   * `!name.trim()` is written as "the name is blank", which TrimEmptyIffBlank shows to be the same test.
   */
  function Decide(name: string, date: string, user: Option<User>, hasWindow: bool, storage: map<string, string>): Decision
  {
    if IsBlank(name) then Rejected(NameRequired)
    else if date == "" then Rejected(NoDate)
    else if user.None? && hasWindow && IsSet(storage, GuestMarkerKey(date)) then Rejected(AlreadySponsored)
    else Accepted(GuestRecord(name, date, user))
  }

  /** The checks in order: a blank name, then a missing date, then (anonymous, with a window) the marker; otherwise the guest record. */
  lemma ChecksInOrder(name: string, date: string, user: Option<User>, hasWindow: bool, storage: map<string, string>)
    ensures var d := Decide(name, date, user, hasWindow, storage);
      (IsBlank(name) ==> d == Rejected(NameRequired)) &&
      (!IsBlank(name) && date == "" ==> d == Rejected(NoDate)) &&
      (!IsBlank(name) && date != "" && user.None? && hasWindow && IsSet(storage, GuestMarkerKey(date)) ==>
         d == Rejected(AlreadySponsored)) &&
      (d.Accepted? <==> !IsBlank(name) && date != "" &&
                        !(user.None? && hasWindow && IsSet(storage, GuestMarkerKey(date))))
  {
    TrimEmptyIffBlank(name);
  }

  /** A signed-in sponsor is never held back by the marker: the stored markers do not matter to the decision. */
  lemma SignedInIgnoresMarker(name: string, date: string, u: User, hasWindow: bool, s1: map<string, string>, s2: map<string, string>)
    ensures Decide(name, date, Some(u), hasWindow, s1) == Decide(name, date, Some(u), hasWindow, s2)
    ensures !IsBlank(name) && date != "" ==> Decide(name, date, Some(u), hasWindow, s1).Accepted?
  {
    TrimEmptyIffBlank(name);
  }

  /** An accepted guest has a non-blank name with no surrounding white space. */
  lemma AcceptedNameIsTrimmed(name: string, date: string, user: Option<User>, hasWindow: bool, storage: map<string, string>)
    requires Decide(name, date, user, hasWindow, storage).Accepted?
    ensures var n := Decide(name, date, user, hasWindow, storage).record.username;
      |n| > 0 && !IsBlank(n) && Trim(n) == n
  {
    var d := Decide(name, date, user, hasWindow, storage);
    assert !IsBlank(name);
    assert d.record == GuestRecord(name, date, user);
    assert d.record.username == Trim(name);
    TrimmedNotBlank(name);
    TrimIdempotent(name);
  }

  /** Once an anonymous guest has been signed up for a date, the next anonymous submit for that date is refused, whatever the name. */
  lemma SecondAnonymousSubmitRefused(name: string, date: string, storage: map<string, string>)
    ensures Decide(name, date, None, true, storage[GuestMarkerKey(date) := "1"]).Rejected?
  {
  }

  class GuestSignupPage {
    /** `params.get("date") || ""` */
    const date: string
    const user: Option<User>
    /** `typeof window !== "undefined"` */
    const hasWindow: bool
    var name: string
    /** The message shown under the form. */
    var error: Error
    var loading: bool
    var submitted: bool

    constructor (dateParam: Option<string>, user: Option<User>, hasWindow: bool)
      ensures date == OrElse(dateParam, "") && this.user == user && this.hasWindow == hasWindow
      ensures name == "" && error == NoError && !loading && !submitted
    {
      date := OrElse(dateParam, "");
      this.user := user;
      this.hasWindow := hasWindow;
      name := "";
      error := NoError;
      loading := false;
      submitted := false;
    }

    /**
     * handleSubmit. `insertFails` is whether the Firestore write rejects.
     * A refusal sets the message and writes nothing; a failed write sets the
     * failure message and leaves the marker alone; a successful one stores the
     * record, sets the marker for anonymous visitors and marks the form submitted.
     */
    method HandleSubmit(repo: SignupRepository, storage: LocalStorage, insertFails: bool)
      modifies this, repo, storage
      ensures name == old(name)
      ensures var d := Decide(old(name), date, user, hasWindow, old(storage.items));
        (d.Rejected? ==> error == d.error && repo.records == old(repo.records) && storage.items == old(storage.items) &&
                         loading == old(loading) && submitted == old(submitted)) &&
        (d.Accepted? && insertFails ==> error == InsertFailed && repo.records == old(repo.records) &&
                                        storage.items == old(storage.items) && !loading && submitted == old(submitted)) &&
        (d.Accepted? && !insertFails ==> error == NoError && repo.records == old(repo.records) + [d.record] && !loading && submitted &&
                                         storage.items == (if user.None? && hasWindow
                                                           then old(storage.items)[GuestMarkerKey(date) := "1"]
                                                           else old(storage.items)))
    {
      ghost var d := Decide(name, date, user, hasWindow, storage.items);
      error := NoError;
      if IsBlank(name) {
        assert d == Rejected(NameRequired);
        error := NameRequired;
        return;
      }
      if date == "" {
        assert d == Rejected(NoDate);
        error := NoDate;
        return;
      }
      var key := GuestMarkerKey(date);
      if user.None? && hasWindow && IsSet(storage.items, key) {
        assert d == Rejected(AlreadySponsored);
        error := AlreadySponsored;
        return;
      }
      var record := GuestRecord(name, date, user);
      assert d == Accepted(record);
      loading := true;
      if insertFails {
        error := InsertFailed;
      } else {
        repo.AddSignup(record);
        if user.None? && hasWindow {
          storage.SetItem(key, "1");
        }
        submitted := true;
      }
      loading := false;
    }
  }
}
