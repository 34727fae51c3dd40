/**
 * The two-step membership setup after sign-up: choose a gym category, then
 * give a home address. Each submit is guarded by a validation message; the
 * accepted values go to the session's `setGymCategory` and `setHomeLocation`
 * callbacks, recorded here in order.
 */
module OnboardingSteps {

  const CategoryError: string := "Please select a gym category"
  const AddressError: string := "Please enter your address"

  /** The fixed coordinates sent with every address. */
  const DefaultLat: real := 37.7749
  const DefaultLng: real := -122.4194

  datatype SessionCall =
    | SetGymCategory(category: string)
    | SetHomeLocation(lat: real, lng: real, address: string)

  /** The characters `String.prototype.trim` removes: white space and line
      terminators. */
  predicate IsTrimmed(c: char) {
    c == ' ' || c == '\t' || c == '\n' || c == '\r' || c == '\U{000B}' || c == '\U{000C}' ||
    c == '\U{00A0}' || c == '\U{1680}' || ('\U{2000}' <= c <= '\U{200A}') ||
    c == '\U{2028}' || c == '\U{2029}' || c == '\U{202F}' || c == '\U{205F}' ||
    c == '\U{3000}' || c == '\U{FEFF}'
  }

  /** The text left after removing leading trimmable characters. */
  function TrimStart(s: string): (r: string)
    ensures |r| <= |s|
    ensures r != [] ==> !IsTrimmed(r[0])
  {
    if s == [] then [] else if IsTrimmed(s[0]) then TrimStart(s[1..]) else s
  }

  /** `!address.trim()`: nothing is left once both ends are trimmed, which
      is the case exactly when nothing is left of the leading trim. */
  predicate Blank(s: string) {
    TrimStart(s) == []
  }

  lemma {:induction false} BlankIffAllTrimmed(s: string)
    ensures Blank(s) <==> forall i :: 0 <= i < |s| ==> IsTrimmed(s[i])
  {
    if s != [] {
      BlankIffAllTrimmed(s[1..]);
      if IsTrimmed(s[0]) {
        forall i | 0 <= i < |s| && (forall j :: 0 <= j < |s[1..]| ==> IsTrimmed(s[1..][j]))
          ensures IsTrimmed(s[i])
        {
          if i > 0 {
            assert s[i] == s[1..][i - 1];
          }
        }
      }
    }
  }

  lemma BlankExamples()
    ensures Blank("") && Blank(" \t\n")
    ensures !Blank(" 1 Main St ")
  {
    assert " \t\n"[1..] == "\t\n";
    assert "\t\n"[1..] == "\n";
  }

  /** A session call records a category only when one was chosen, and an
      address only when it is not blank. */
  predicate CallsWellFormed(calls: seq<SessionCall>) {
    forall i :: 0 <= i < |calls| ==>
      (calls[i].SetGymCategory? ==> calls[i].category != "") &&
      (calls[i].SetHomeLocation? ==>
        (!Blank(calls[i].address) && calls[i].lat == DefaultLat && calls[i].lng == DefaultLng))
  }

  class SetupSteps {
    var step: int
    var selectedCategory: string
    var address: string
    var error: string
    /** The session callbacks made so far, oldest first. */
    var calls: seq<SessionCall>
    /** Set when the page moved on to the gym list. */
    var navigatedToGyms: bool

    /** Only the category step (1) and the location step (2) exist, and
        every session call made passed its validation. */
    ghost predicate Valid()
      reads this
    {
      (step == 1 || step == 2) && CallsWellFormed(calls)
    }

    constructor ()
      ensures Valid()
      ensures step == 1 && selectedCategory == "" && address == "" && error == ""
      ensures calls == [] && !navigatedToGyms
    {
      step := 1;
      selectedCategory := "";
      address := "";
      error := "";
      calls := [];
      navigatedToGyms := false;
    }

    /** Choosing a category records it and clears any message. */
    method HandleCategorySelect(category: string)
      requires Valid()
      modifies this
      ensures Valid()
      ensures selectedCategory == category && error == ""
      ensures step == old(step) && address == old(address) && calls == old(calls)
      ensures navigatedToGyms == old(navigatedToGyms)
    {
      selectedCategory := category;
      error := "";
    }

    /** "Continue": without a choice only the message is set; with one the
        category goes to the session and the location step opens. */
    method HandleCategorySubmit()
      requires Valid()
      modifies this
      ensures Valid()
      ensures old(selectedCategory) == "" ==>
        (error == CategoryError && step == old(step) && calls == old(calls))
      ensures old(selectedCategory) != "" ==>
        (step == 2 && calls == old(calls) + [SetGymCategory(old(selectedCategory))] && error == old(error))
      ensures selectedCategory == old(selectedCategory) && address == old(address)
      ensures navigatedToGyms == old(navigatedToGyms)
    {
      if selectedCategory == "" {
        error := CategoryError;
        return;
      }
      calls := calls + [SetGymCategory(selectedCategory)];
      step := 2;
    }

    /** Typing in the address field; the message stays. */
    method EditAddress(text: string)
      requires Valid()
      modifies this
      ensures Valid()
      ensures address == text
      ensures step == old(step) && error == old(error) && selectedCategory == old(selectedCategory)
      ensures calls == old(calls) && navigatedToGyms == old(navigatedToGyms)
    {
      address := text;
    }

    /** "Complete Setup": a blank address only sets the message; otherwise
        the untrimmed address goes to the session with the fixed
        coordinates and the page moves on to the gyms. */
    method HandleLocationSubmit()
      requires Valid()
      modifies this
      ensures Valid()
      ensures Blank(old(address)) ==>
        (error == AddressError && calls == old(calls) && navigatedToGyms == old(navigatedToGyms))
      ensures !Blank(old(address)) ==>
        (calls == old(calls) + [SetHomeLocation(DefaultLat, DefaultLng, old(address))] &&
         navigatedToGyms && error == old(error))
      ensures step == old(step) && address == old(address) && selectedCategory == old(selectedCategory)
    {
      if Blank(address) {
        error := AddressError;
        return;
      }
      calls := calls + [SetHomeLocation(DefaultLat, DefaultLng, address)];
      navigatedToGyms := true;
    }

    /** "Back to Categories" keeps the choice, the address and the message. */
    method BackToCategories()
      requires Valid()
      modifies this
      ensures Valid()
      ensures step == 1
      ensures selectedCategory == old(selectedCategory) && address == old(address) && error == old(error)
      ensures calls == old(calls) && navigatedToGyms == old(navigatedToGyms)
    {
      step := 1;
    }

    /** Indicator k of the progress row (bars 1-3 and circles 1-2). */
    predicate Highlighted(k: int)
      reads this
    {
      step >= k
    }
  }

  /** On both steps the first indicator is lit, the second exactly on the
      location step, and the third never. */
  lemma IndicatorsPerStep(s: SetupSteps)
    requires s.Valid()
    ensures s.Highlighted(1)
    ensures s.Highlighted(2) <==> s.step == 2
    ensures !s.Highlighted(3)
  {
  }

  /** The full happy path: choose, continue, type, complete. */
  method SetupScenario(category: string, home: string) returns (s: SetupSteps)
    requires category != "" && !Blank(home)
    ensures s.calls == [SetGymCategory(category), SetHomeLocation(DefaultLat, DefaultLng, home)]
    ensures s.navigatedToGyms && s.step == 2 && s.error == ""
    ensures CallsWellFormed(s.calls)
  {
    s := new SetupSteps();
    s.HandleCategorySelect(category);
    s.HandleCategorySubmit();
    s.EditAddress(home);
    s.HandleLocationSubmit();
  }
}
