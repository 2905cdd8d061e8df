/**
 * The visit-booking page: a form of three text fields and an interest-type
 * radio pair. The radio starts at "second-house" and follows the unit model
 * passed in the router's location state. Submitting checks only that the
 * three fields are non-empty (JavaScript truthiness of a string); nothing is
 * sent anywhere, the page shows an alert and on success goes home.
 */
module Booking {

  datatype Option<T> = None | Some(value: T)

  const SecondHouse: string := "second-house"
  const Townhouse: string := "townhouse"
  /** The marker in a model identifier that selects the townhouse interest. */
  const TownhouseMarker: string := "type-t"

  const MissingFieldsAlert: string := "모든 정보를 입력해주세요."
  const ReceivedAlert: string := "예약이 접수되었습니다! 담당자가 곧 연락드립니다."
  const HomeRoute: string := "/"

  /** The values of the two radio inputs. */
  predicate IsRadioValue(v: string) {
    v == SecondHouse || v == Townhouse
  }

  /** A string is truthy in JavaScript exactly when it is not empty. */
  predicate Truthy(s: string) {
    s != ""
  }

  /** `sub` occurs in `s` starting at position `i`. */
  predicate OccursAt(s: string, sub: string, i: int) {
    0 <= i && i + |sub| <= |s| && s[i..i + |sub|] == sub
  }

  /** `s.includes(sub)`: `sub` occurs in `s` at some position. */
  function Contains(s: string, sub: string): (r: bool)
    ensures r <==> exists i :: OccursAt(s, sub, i)
    decreases |s|
  {
    if |sub| > |s| then false
    else if s[..|sub|] == sub then assert OccursAt(s, sub, 0); true
    else ContainsShift(s, sub); Contains(s[1..], sub)
  }

  /** An occurrence in `s` not at position 0 is an occurrence in `s[1..]`, and back. */
  lemma ContainsShift(s: string, sub: string)
    requires |sub| <= |s| && s[..|sub|] != sub
    ensures (exists i :: OccursAt(s, sub, i)) <==> (exists i :: OccursAt(s[1..], sub, i))
  {
    if i :| OccursAt(s, sub, i) {
      assert i != 0;
      assert s[1..][i - 1..i - 1 + |sub|] == s[i..i + |sub|];
      assert OccursAt(s[1..], sub, i - 1);
    }
    if i :| OccursAt(s[1..], sub, i) {
      assert s[i + 1..i + 1 + |sub|] == s[1..][i..i + |sub|];
      assert OccursAt(s, sub, i + 1);
    }
  }

  /** A string lacking one of the letters of `sub` does not contain `sub`. */
  lemma MissingLetterRulesOut(s: string, sub: string, k: nat)
    requires k < |sub|
    requires forall j :: 0 <= j < |s| ==> s[j] != sub[k]
    ensures !Contains(s, sub)
  {
    forall i ensures !OccursAt(s, sub, i) {
      if 0 <= i && i + |sub| <= |s| {
        assert s[i..i + |sub|][k] == s[i + k];
      }
    }
  }

  /** The interest a model identifier selects: "townhouse" when it mentions "type-t". */
  function InterestFor(model: string): (r: string)
    ensures IsRadioValue(r)
    ensures r == Townhouse <==> Contains(model, TownhouseMarker)
  {
    if Contains(model, TownhouseMarker) then Townhouse else SecondHouse
  }

  /** The effect on the location state: only a truthy model changes the interest. */
  function InterestAfter(current: string, model: Option<string>): (r: string)
    ensures IsRadioValue(current) ==> IsRadioValue(r)
    ensures (model.None? || !Truthy(model.value)) ==> r == current
    ensures model.Some? && Truthy(model.value) ==> r == InterestFor(model.value)
  {
    match model
    case Some(m) => if Truthy(m) then InterestFor(m) else current
    case None => current
  }

  /** What pressing the submit button shows, and where it leads. */
  datatype SubmitOutcome = Rejected(alert: string) | Accepted(alert: string, navigateTo: string)

  /**
   * A submission is accepted exactly when name, phone and date are all
   * non-empty; it then shows the confirmation and goes to the home route,
   * and otherwise shows the missing-information alert and stays.
   */
  function Submit(name: string, phone: string, date: string): (o: SubmitOutcome)
    ensures o.Accepted? <==> Truthy(name) && Truthy(phone) && Truthy(date)
    ensures o.Accepted? ==> o.alert == ReceivedAlert && o.navigateTo == HomeRoute
    ensures o.Rejected? ==> o.alert == MissingFieldsAlert
  {
    if !Truthy(name) || !Truthy(phone) || !Truthy(date) then
      Rejected(MissingFieldsAlert)
    else
      Accepted(ReceivedAlert, HomeRoute)
  }

  /** Truthiness is all that is checked: fields of blanks pass. */
  lemma BlankFieldsPass()
    ensures Submit(" ", " ", " ").Accepted?
    ensures Submit("", "010-0000-0000", "2025-01-01").Rejected?
  {
  }

  /** The model identifiers sent from the detail header: only "type-t1" selects "townhouse". */
  lemma ModelIdsSelectInterest()
    ensures InterestFor("type-t1") == Townhouse
    ensures InterestFor("type-a") == SecondHouse
    ensures InterestFor("type-b") == SecondHouse
    ensures InterestFor("type-c") == SecondHouse
  {
    assert OccursAt("type-t1", TownhouseMarker, 0);
    SameLengthDiffers("type-a", TownhouseMarker, 5);
    SameLengthDiffers("type-b", TownhouseMarker, 5);
    SameLengthDiffers("type-c", TownhouseMarker, 5);
  }

  /** A string as long as `sub` contains it only if the two are equal. */
  lemma SameLengthDiffers(s: string, sub: string, k: nat)
    requires |s| == |sub| && k < |s| && s[k] != sub[k]
    ensures !Contains(s, sub)
  {
    forall i ensures !OccursAt(s, sub, i) {
      if 0 <= i && i + |sub| <= |s| {
        assert s[i..i + |sub|][k] == s[k];
      }
    }
  }

  /** The product page's unit models: identifier to display name. */
  const DisplayNames: map<string, string> := map[
    "type-a" := "Type A (스탠다드)",
    "type-b" := "Type B (테라스형)",
    "type-c" := "Type C (패밀리)",
    "type-t1" := "Town T1 (듀플렉스)"]

  predicate IsTownhouseModel(id: string) {
    id == "type-t1"
  }

  /** What the unit dialog's booking button sends as the model, as written: the display name. */
  function DialogModelAsWritten(id: string): string
    requires id in DisplayNames
  {
    DisplayNames[id]
  }

  /** What it evidently means to send: the identifier, as the header's booking button does. */
  function DialogModel(id: string): string
    requires id in DisplayNames
  {
    id
  }

  /** As written, booking from the unit dialog never pre-selects "townhouse", even for the townhouse model. */
  lemma DialogAsWrittenNeverSelectsTownhouse(id: string)
    requires id in DisplayNames
    ensures InterestFor(DialogModelAsWritten(id)) == SecondHouse
  {
    // "type-t" has a lower-case 't'; no display name has one.
    MissingLetterRulesOut(DisplayNames[id], TownhouseMarker, 0);
  }

  /** Sending the identifier, the interest is "townhouse" exactly for the townhouse model. */
  lemma DialogSelectsInterestOfModel(id: string)
    requires id in DisplayNames
    ensures InterestFor(DialogModel(id)) == Townhouse <==> IsTownhouseModel(id)
  {
    ModelIdsSelectInterest();
  }

  /** The page's form state: the four `useState` hooks. */
  class BookingForm {
    var name: string
    var phone: string
    var date: string
    var interestType: string

    predicate Valid()
      reads this
    {
      IsRadioValue(interestType)
    }

    constructor ()
      ensures name == "" && phone == "" && date == "" && interestType == SecondHouse
      ensures Valid()
    {
      name, phone, date := "", "", "";
      interestType := SecondHouse;
    }

    method SetName(value: string)
      modifies this
      ensures name == value && phone == old(phone) && date == old(date) && interestType == old(interestType)
    {
      name := value;
    }

    method SetPhone(value: string)
      modifies this
      ensures phone == value && name == old(name) && date == old(date) && interestType == old(interestType)
    {
      phone := value;
    }

    method SetDate(value: string)
      modifies this
      ensures date == value && name == old(name) && phone == old(phone) && interestType == old(interestType)
    {
      date := value;
    }

    /** A radio's change handler: its `value` attribute becomes the interest. */
    method SelectInterest(value: string)
      requires IsRadioValue(value)
      modifies this
      ensures interestType == value && Valid()
      ensures name == old(name) && phone == old(phone) && date == old(date)
    {
      interestType := value;
    }

    /** The effect that runs when the location state arrives or changes. */
    method ApplyLocationState(model: Option<string>)
      requires Valid()
      modifies this
      ensures interestType == InterestAfter(old(interestType), model) && Valid()
      ensures name == old(name) && phone == old(phone) && date == old(date)
    {
      if model.Some? && model.value != "" {
        if Contains(model.value, TownhouseMarker) {
          interestType := Townhouse;
        } else {
          interestType := SecondHouse;
        }
      }
    }

    /** `handleSubmit`: decides from the three text fields alone, and changes no field. */
    method HandleSubmit() returns (o: SubmitOutcome)
      ensures o == Submit(name, phone, date)
    {
      if name == "" || phone == "" || date == "" {
        o := Rejected(MissingFieldsAlert);
        return;
      }
      o := Accepted(ReceivedAlert, HomeRoute);
    }
  }
}
