// Player sign-ups (lib/signups.ts): an append-only collection of sign-up
// records, counted by date. The Firestore collection is a sequence field;
// the `timestamp` the source adds on insert is not modelled.
module Signups {
  import opened Common

  /**
   * A stored sign-up document. Players are written with a user id; the two
   * guest sign-up forms write `isGuest` and, on the page, the sponsor fields.
   * A field the writer leaves out is `Undefined`.
   */
  datatype Signup = Signup(
    userId: Field<string>,
    username: string,
    date: string,
    isGuest: Field<bool>,
    sponsorUserId: Field<string>,
    sponsorName: Field<string>,
    sponsorEmail: Field<string>)

  /** The document addSignup(userId, username, date) writes. */
  function PlayerSignup(userId: string, username: string, date: string): (s: Signup)
    ensures s.userId == Value(userId) && s.username == username && s.date == date
    ensures s.isGuest == Undefined && s.sponsorUserId == Undefined && s.sponsorName == Undefined && s.sponsorEmail == Undefined
  {
    Signup(Value(userId), username, date, Undefined, Undefined, Undefined, Undefined)
  }

  /** The key under which the guest forms remember a guest sign-up for a date. */
  function GuestMarkerKey(date: string): (key: string)
    ensures |key| == 13 + |date| && key[..13] == "guest_signup_" && key[13..] == date
  {
    "guest_signup_" + date
  }

  /** The records a `where('date', '==', date)` query returns, in stored order. */
  function OnDate(records: seq<Signup>, date: string): (r: seq<Signup>)
    ensures |r| <= |records|
    ensures forall s :: s in r <==> s in records && s.date == date
  {
    if records == [] then []
    else if records[0].date == date then [records[0]] + OnDate(records[1..], date)
    else OnDate(records[1..], date)
  }

  /** getSignupCount: the size of that query's snapshot. */
  function Count(records: seq<Signup>, date: string): nat
  {
    |OnDate(records, date)|
  }

  /** A record on another date does not affect the count; one on this date adds exactly one. */
  lemma {:induction false} CountAfterAppend(records: seq<Signup>, s: Signup, date: string)
    ensures Count(records + [s], date) == Count(records, date) + (if s.date == date then 1 else 0)
  {
    if records != [] {
      assert (records + [s])[1..] == records[1..] + [s];
      CountAfterAppend(records[1..], s, date);
    }
  }

  /** No record matches a date no record carries; every record matches its own date. */
  lemma CountBounds(records: seq<Signup>, date: string)
    ensures Count(records, date) == 0 <==> forall s :: s in records ==> s.date != date
    ensures Count(records, date) <= |records|
  {
    if Count(records, date) != 0 {
      assert OnDate(records, date)[0] in OnDate(records, date);
    }
  }

  class SignupRepository {
    var records: seq<Signup>

    constructor ()
      ensures records == []
    {
      records := [];
    }

    /** addSignup: append the document, with no duplicate check. */
    method AddSignup(s: Signup)
      modifies this
      ensures records == old(records) + [s]
    {
      records := records + [s];
    }

    /** getSignupCount. */
    function GetSignupCount(date: string): nat
      reads this
    {
      Count(records, date)
    }

    /** getSignupCountsForWeek: one query per date, counts pushed in the dates' order. */
    method GetSignupCountsForWeek(dates: seq<string>) returns (counts: seq<nat>)
      ensures |counts| == |dates|
      ensures forall i :: 0 <= i < |dates| ==> counts[i] == Count(records, dates[i])
    {
      counts := [];
      for i := 0 to |dates|
        invariant |counts| == i
        invariant forall j :: 0 <= j < i ==> counts[j] == Count(records, dates[j])
      {
        counts := counts + [GetSignupCount(dates[i])];
      }
    }
  }

  /** Signing up raises the count of its own date by one and leaves every other date's count alone. */
  lemma AddSignupCounts(r: SignupRepository, s: Signup, date: string)
    ensures Count(r.records + [s], date) == r.GetSignupCount(date) + (if s.date == date then 1 else 0)
  {
    CountAfterAppend(r.records, s, date);
  }

  /** Nothing stops the same sign-up being stored twice: it is then counted twice. */
  lemma DuplicatesCounted(records: seq<Signup>, s: Signup)
    ensures Count(records + [s] + [s], s.date) == Count(records, s.date) + 2
  {
    CountAfterAppend(records, s, s.date);
    CountAfterAppend(records + [s], s, s.date);
  }
}
