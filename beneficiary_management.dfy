/**
 * Beneficiary management: a searchable list of saved beneficiaries and a
 * five-step "Add Beneficiary" wizard. The component's state cells (`view`,
 * `currentStep`, `searchTerm`, `formData`) are the fields of
 * `BeneficiaryManager`; the beneficiary list itself is a constant that no
 * handler touches.
 */
module BeneficiaryManagement {
  import opened Text

  datatype View = List | Add

  datatype Beneficiary = Beneficiary(
    id: string,
    name: string,
    bankName: string,
    accountNumber: string,
    country: string,
    isFavorite: bool,
    isDefault: bool,
    status: string)

  const Beneficiaries: seq<Beneficiary> := [
    Beneficiary("BEN001", "Microsoft Corporation", "JP Morgan Chase", "****1234", "United States", true, true, "verified"),
    Beneficiary("BEN002", "Shopify Inc.", "Deutsche Bank", "****5678", "Germany", true, false, "verified"),
    Beneficiary("BEN003", "Amazon Web Services", "HSBC", "****9012", "United Kingdom", false, false, "pending")
  ]

  /** The wizard's steps are numbered 1 to 5. */
  const FirstStep: int := 1
  const LastStep: int := 5

  const StepTitles: seq<string> :=
    ["Legal Name", "Bank Details", "Review Summary", "Confirm Details", "Manage Beneficiary"]

  /** The eight fields of the add form. */
  datatype BeneficiaryForm = BeneficiaryForm(
    legalName: string,
    bankName: string,
    accountNumber: string,
    swiftCode: string,
    routingNumber: string,
    address: string,
    country: string,
    currency: string)

  const EmptyForm: BeneficiaryForm := BeneficiaryForm("", "", "", "", "", "", "", "")

  /** The form inputs the wizard's screens render (address and currency have none). */
  datatype FormField = LegalNameField | CountryField | BankNameField | AccountNumberField | SwiftCodeField | RoutingNumberField

  /** The step on whose screen a form input appears. */
  function FieldStep(field: FormField): (step: int)
    ensures FirstStep <= step <= LastStep
  {
    match field
    case LegalNameField | CountryField => 1
    case BankNameField | AccountNumberField | SwiftCodeField | RoutingNumberField => 2
  }

  function WithField(f: BeneficiaryForm, field: FormField, value: string): BeneficiaryForm {
    match field
    case LegalNameField => f.(legalName := value)
    case CountryField => f.(country := value)
    case BankNameField => f.(bankName := value)
    case AccountNumberField => f.(accountNumber := value)
    case SwiftCodeField => f.(swiftCode := value)
    case RoutingNumberField => f.(routingNumber := value)
  }

  /** `handleNext`: one step forward, at most to the last. */
  function NextStep(step: int): (r: int)
    ensures step < LastStep ==> r == step + 1
    ensures step >= LastStep ==> r == step
  {
    if step < LastStep then step + 1 else step
  }

  /** `handleBack`: one step back, at least to the first. */
  function PrevStep(step: int): (r: int)
    ensures step > FirstStep ==> r == step - 1
    ensures step <= FirstStep ==> r == step
  {
    if step > FirstStep then step - 1 else step
  }

  /** `stepTitles[currentStep - 1]`: the title of a step, which always exists. */
  function StepTitle(step: int): (t: string)
    requires FirstStep <= step <= LastStep
    ensures t in StepTitles
  {
    StepTitles[step - 1]
  }

  /** `getStepProgress`: the filled share of the progress bar, in percent. */
  function StepProgress(step: int): (r: real)
    ensures FirstStep <= step <= LastStep ==> 20.0 <= r <= 100.0
    ensures r == 100.0 <==> step == LastStep
  {
    step as real / LastStep as real * 100.0
  }

  /** The Next and Back buttons. */
  datatype NavEvent = NextEvent | BackEvent

  /** The step reached by pressing the buttons in `events`, in order. */
  function Navigate(step: int, events: seq<NavEvent>): int
    decreases |events|
  {
    if events == [] then step
    else
      var after := if events[0] == NextEvent then NextStep(step) else PrevStep(step);
      Navigate(after, events[1..])
  }

  const VerifiedBadge: string := "bg-green-500/20 text-green-400 border-green-500/30"
  const PendingBadge: string := "bg-yellow-500/20 text-yellow-400 border-yellow-500/30"
  const FailedBadge: string := "bg-red-500/20 text-red-400 border-red-500/30"

  /** `getStatusBadge`: the style of a status, with the pending style for any unknown one. */
  function StatusBadge(status: string): (r: string)
    ensures r == VerifiedBadge || r == PendingBadge || r == FailedBadge
    ensures r == VerifiedBadge <==> status == "verified"
    ensures r == FailedBadge <==> status == "failed"
  {
    if status == "verified" then VerifiedBadge
    else if status == "failed" then FailedBadge
    else PendingBadge
  }

  /** The search test: the lower-cased term occurs in the lower-cased name or country. */
  predicate Matches(b: Beneficiary, term: string)
    ensures term == "" ==> Matches(b, term)
    ensures Matches(b, term) ==> |term| <= |b.name| || |term| <= |b.country|
  {
    Contains(Lower(b.name), Lower(term)) || Contains(Lower(b.country), Lower(term))
  }

  /** `beneficiaries.filter(...)`: the entries that match the term, in list order. */
  function Filter(list: seq<Beneficiary>, term: string): (r: seq<Beneficiary>)
    ensures |r| <= |list|
    ensures forall b :: b in r <==> b in list && Matches(b, term)
  {
    if list == [] then []
    else
      var rest := Filter(list[1..], term);
      assert forall b :: b in list <==> b == list[0] || b in list[1..];
      if Matches(list[0], term) then [list[0]] + rest else rest
  }

  /** `r` is `s` with some entries dropped and the rest in their original order. */
  ghost predicate IsSubsequence<T>(r: seq<T>, s: seq<T>)
    decreases |s|
  {
    if r == [] then true
    else if s == [] then false
    else (r[0] == s[0] && IsSubsequence(r[1..], s[1..])) || IsSubsequence(r, s[1..])
  }

  // ---------------------------------------------------------------------------
  // Properties

  /** Under any sequence of Next and Back presses the step stays within 1..5. */
  lemma {:induction false} NavigateInRange(step: int, events: seq<NavEvent>)
    requires FirstStep <= step <= LastStep
    ensures FirstStep <= Navigate(step, events) <= LastStep
    decreases |events|
  {
    if events != [] {
      var after := if events[0] == NextEvent then NextStep(step) else PrevStep(step);
      NavigateInRange(after, events[1..]);
    }
  }

  /** From the first step, four Nexts reach the last step and a fifth changes nothing. */
  lemma NextReachesLast()
    ensures Navigate(FirstStep, [NextEvent, NextEvent, NextEvent, NextEvent]) == LastStep
    ensures Navigate(FirstStep, [NextEvent, NextEvent, NextEvent, NextEvent, NextEvent]) == LastStep
  {
  }

  /** The three known statuses get three different styles; any other gets the pending one. */
  lemma StatusBadgeLookup(status: string)
    ensures StatusBadge("verified") != StatusBadge("pending")
    ensures StatusBadge("pending") != StatusBadge("failed")
    ensures StatusBadge("failed") != StatusBadge("verified")
    ensures status != "verified" && status != "failed" ==> StatusBadge(status) == StatusBadge("pending")
  {
  }

  /** The filtered list keeps the entries' order. */
  lemma {:induction false} FilterIsSubsequence(list: seq<Beneficiary>, term: string)
    ensures IsSubsequence(Filter(list, term), list)
  {
    if list != [] {
      FilterIsSubsequence(list[1..], term);
      var r := Filter(list, term);
      if Matches(list[0], term) {
        assert r[0] == list[0] && r[1..] == Filter(list[1..], term);
      }
    }
  }

  /** Every matching entry is kept as often as it occurs in the list, and no other entry is kept. */
  lemma {:induction false} FilterCounts(list: seq<Beneficiary>, term: string)
    ensures forall b :: multiset(Filter(list, term))[b] == if Matches(b, term) then multiset(list)[b] else 0
  {
    if list != [] {
      FilterCounts(list[1..], term);
      var r, rest := Filter(list, term), Filter(list[1..], term);
      assert list == [list[0]] + list[1..];
      assert multiset(list) == multiset{list[0]} + multiset(list[1..]);
      if Matches(list[0], term) {
        assert r == [list[0]] + rest;
        assert multiset(r) == multiset{list[0]} + multiset(rest);
      } else {
        assert r == rest;
      }
    }
  }

  /** An empty search keeps every entry. */
  lemma {:induction false} FilterEmptyTerm(list: seq<Beneficiary>)
    ensures Filter(list, "") == list
  {
    if list != [] {
      assert Lower("") == "";
      FilterEmptyTerm(list[1..]);
      assert [list[0]] + list[1..] == list;
    }
  }

  /** The search ignores case: a term and its lower-cased form select the same entries. */
  lemma {:induction false} FilterIgnoresCase(list: seq<Beneficiary>, term: string)
    ensures Filter(list, term) == Filter(list, Lower(term))
  {
    LowerIdempotent(term);
    if list != [] {
      FilterIgnoresCase(list[1..], term);
    }
  }

  /** The component's state. */
  class BeneficiaryManager {
    var view: View
    var currentStep: int
    var searchTerm: string
    var formData: BeneficiaryForm

    /** The step is one of the five, so its title exists. */
    ghost predicate Valid()
      reads this
    {
      FirstStep <= currentStep <= LastStep
    }

    constructor ()
      ensures Valid()
      ensures view == List && currentStep == FirstStep && searchTerm == "" && formData == EmptyForm
    {
      view := List;
      currentStep := FirstStep;
      searchTerm := "";
      formData := EmptyForm;
    }

    /** `filteredBeneficiaries`: the entries of the constant list that the search matches. */
    function Filtered(): (r: seq<Beneficiary>)
      reads this
      ensures forall b :: b in r <==> b in Beneficiaries && Matches(b, searchTerm)
    {
      Filter(Beneficiaries, searchTerm)
    }

    /** The "Step n of 5" subtitle's title, `stepTitles[currentStep - 1]`. */
    function CurrentTitle(): (t: string)
      reads this
      requires Valid()
      ensures t in StepTitles
    {
      StepTitle(currentStep)
    }

    /** The search box. */
    method SetSearchTerm(term: string)
      requires Valid() && view == List
      modifies this
      ensures Valid()
      ensures searchTerm == term
      ensures view == old(view) && currentStep == old(currentStep) && formData == old(formData)
    {
      searchTerm := term;
    }

    /** "Add Beneficiary": open the wizard where it was left. */
    method OpenAdd()
      requires Valid() && view == List
      modifies this
      ensures Valid()
      ensures view == Add
      ensures currentStep == old(currentStep) && searchTerm == old(searchTerm) && formData == old(formData)
    {
      view := Add;
    }

    /** The wizard's back arrow: to the list, keeping the step and the form. */
    method CloseAdd()
      requires Valid() && view == Add
      modifies this
      ensures Valid()
      ensures view == List
      ensures currentStep == old(currentStep) && searchTerm == old(searchTerm) && formData == old(formData)
    {
      view := List;
    }

    /** An input of the current step's screen. */
    method EditForm(field: FormField, value: string)
      requires Valid() && view == Add && FieldStep(field) == currentStep
      modifies this
      ensures Valid()
      ensures formData == WithField(old(formData), field, value)
      ensures view == old(view) && currentStep == old(currentStep) && searchTerm == old(searchTerm)
    {
      formData := WithField(formData, field, value);
    }

    /** `handleNext`. */
    method Next()
      requires Valid() && view == Add
      modifies this
      ensures Valid()
      ensures currentStep == NextStep(old(currentStep))
      ensures view == old(view) && searchTerm == old(searchTerm) && formData == old(formData)
    {
      if currentStep < LastStep {
        currentStep := currentStep + 1;
      }
    }

    /** `handleBack`. */
    method Back()
      requires Valid() && view == Add
      modifies this
      ensures Valid()
      ensures currentStep == PrevStep(old(currentStep))
      ensures view == old(view) && searchTerm == old(searchTerm) && formData == old(formData)
    {
      if currentStep > FirstStep {
        currentStep := currentStep - 1;
      }
    }

    /**
     * `handleFinish`: back to the list on step 1 with an empty form. Nothing is added to
     * the list: it shows exactly what it showed before.
     */
    method Finish()
      requires Valid() && view == Add
      modifies this
      ensures Valid()
      ensures view == List && currentStep == FirstStep && formData == EmptyForm
      ensures searchTerm == old(searchTerm) && Filtered() == old(Filtered())
    {
      view := List;
      currentStep := FirstStep;
      formData := EmptyForm;
    }
  }
}
