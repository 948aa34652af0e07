/**
 * The two-step trade-program application form: its field record, the
 * per-step required-field validator, the draft store keyed by business
 * email, and the wizard whose handlers change the form, the step, the
 * error map and the submitted flag.
 */
module FormWizard {
  import opened Wrappers

  // ---------------------------------------------------------------------------
  // The form record
  // ---------------------------------------------------------------------------

  /** The application form. The two optional fields of the record type
    * (roleOther, sourceOther) start as "" and are never removed, so they are
    * plain strings here. */
  datatype FormData = FormData(
    businessEmail: string,
    firstName: string,
    lastName: string,
    companyName: string,
    title: string,
    country: string,
    phone: string,
    streetAddress: string,
    aptSuite: string,
    city: string,
    state: string,
    zipCode: string,
    role: string,
    roleOther: string,
    businessFocus: string,
    website: string,
    source: string,
    sourceOther: string,
    referralEmail: string,
    message: string,
    agreeToTerms: bool,
    subscribeToUpdates: bool)

  /** The name of a form field, as carried by an input's `name` attribute. */
  datatype Field =
    | BusinessEmail | FirstName | LastName | CompanyName | Title
    | Country | Phone | StreetAddress | AptSuite | City | State | ZipCode
    | Role | RoleOther | BusinessFocus | Website | Source | SourceOther
    | ReferralEmail | Message | AgreeToTerms | SubscribeToUpdates

  /** The value held by one field: text for inputs, selects and text areas,
    * a flag for check boxes. */
  datatype Value = Str(s: string) | Bool(b: bool)

  /** The two fields that the markup renders as check boxes. */
  predicate IsCheckbox(name: Field) {
    name == AgreeToTerms || name == SubscribeToUpdates
  }

  /** A value fits a field when it is a flag exactly for the check boxes. */
  predicate Fits(name: Field, v: Value) {
    v.Bool? <==> IsCheckbox(name)
  }

  /** JavaScript falsiness of a field value: the empty string or false. */
  predicate Falsy(v: Value) {
    match v
    case Str(s) => |s| == 0
    case Bool(b) => !b
  }

  function Get(f: FormData, name: Field): (v: Value)
    ensures Fits(name, v)
  {
    match name
    case BusinessEmail => Str(f.businessEmail)
    case FirstName => Str(f.firstName)
    case LastName => Str(f.lastName)
    case CompanyName => Str(f.companyName)
    case Title => Str(f.title)
    case Country => Str(f.country)
    case Phone => Str(f.phone)
    case StreetAddress => Str(f.streetAddress)
    case AptSuite => Str(f.aptSuite)
    case City => Str(f.city)
    case State => Str(f.state)
    case ZipCode => Str(f.zipCode)
    case Role => Str(f.role)
    case RoleOther => Str(f.roleOther)
    case BusinessFocus => Str(f.businessFocus)
    case Website => Str(f.website)
    case Source => Str(f.source)
    case SourceOther => Str(f.sourceOther)
    case ReferralEmail => Str(f.referralEmail)
    case Message => Str(f.message)
    case AgreeToTerms => Bool(f.agreeToTerms)
    case SubscribeToUpdates => Bool(f.subscribeToUpdates)
  }

  /** `{ ...prev, [name]: newValue }`: the named field takes the new value and
    * every other field keeps its old one. */
  function Set(f: FormData, name: Field, v: Value): (g: FormData)
    requires Fits(name, v)
  {
    FormData(
      businessEmail := if name == BusinessEmail then v.s else f.businessEmail,
      firstName := if name == FirstName then v.s else f.firstName,
      lastName := if name == LastName then v.s else f.lastName,
      companyName := if name == CompanyName then v.s else f.companyName,
      title := if name == Title then v.s else f.title,
      country := if name == Country then v.s else f.country,
      phone := if name == Phone then v.s else f.phone,
      streetAddress := if name == StreetAddress then v.s else f.streetAddress,
      aptSuite := if name == AptSuite then v.s else f.aptSuite,
      city := if name == City then v.s else f.city,
      state := if name == State then v.s else f.state,
      zipCode := if name == ZipCode then v.s else f.zipCode,
      role := if name == Role then v.s else f.role,
      roleOther := if name == RoleOther then v.s else f.roleOther,
      businessFocus := if name == BusinessFocus then v.s else f.businessFocus,
      website := if name == Website then v.s else f.website,
      source := if name == Source then v.s else f.source,
      sourceOther := if name == SourceOther then v.s else f.sourceOther,
      referralEmail := if name == ReferralEmail then v.s else f.referralEmail,
      message := if name == Message then v.s else f.message,
      agreeToTerms := if name == AgreeToTerms then v.b else f.agreeToTerms,
      subscribeToUpdates := if name == SubscribeToUpdates then v.b else f.subscribeToUpdates)
  }

  lemma GetSetSame(f: FormData, name: Field, v: Value)
    requires Fits(name, v)
    ensures Get(Set(f, name, v), name) == v
  {
    match name
      case BusinessEmail =>
      case FirstName =>
      case LastName =>
      case CompanyName =>
      case Title =>
      case Country =>
      case Phone =>
      case StreetAddress =>
      case AptSuite =>
      case City =>
      case State =>
      case ZipCode =>
      case Role =>
      case RoleOther =>
      case BusinessFocus =>
      case Website =>
      case Source =>
      case SourceOther =>
      case ReferralEmail =>
      case Message =>
      case AgreeToTerms =>
      case SubscribeToUpdates =>
  }

  /** Setting a field gives it the new value and leaves every other field as
    * it was. */
  lemma SetChangesOnlyNamedField(f: FormData, name: Field, v: Value)
    requires Fits(name, v)
    ensures Get(Set(f, name, v), name) == v
    ensures forall other :: other != name ==> Get(Set(f, name, v), other) == Get(f, other)
  {
    var r := Set(f, name, v);
    GetSetSame(f, name, v);
    forall other | other != name
      ensures Get(r, other) == Get(f, other)
    {
      match other
        case BusinessEmail =>
        case FirstName =>
        case LastName =>
        case CompanyName =>
        case Title =>
        case Country =>
        case Phone =>
        case StreetAddress =>
        case AptSuite =>
        case City =>
        case State =>
        case ZipCode =>
        case Role =>
        case RoleOther =>
        case BusinessFocus =>
        case Website =>
        case Source =>
        case SourceOther =>
        case ReferralEmail =>
        case Message =>
        case AgreeToTerms =>
        case SubscribeToUpdates =>
    }
  }

  /** The value a change event writes: a check box contributes its `checked`
    * state, every other control its `value`. */
  function NewValue(name: Field, value: string, checked: bool): (v: Value)
    ensures Fits(name, v)
  {
    if IsCheckbox(name) then Bool(checked) else Str(value)
  }

  /** INITIAL_DATA: every text field empty and both consents unticked, except
    * that the country is preset to "US". */
  function Initial(): (f: FormData) {
    FormData(
      businessEmail := "", firstName := "", lastName := "", companyName := "",
      title := "", country := "US", phone := "", streetAddress := "",
      aptSuite := "", city := "", state := "", zipCode := "", role := "",
      roleOther := "", businessFocus := "", website := "", source := "",
      sourceOther := "", referralEmail := "", message := "",
      agreeToTerms := false, subscribeToUpdates := false)
  }

  lemma InitialBlankExceptCountry(name: Field)
    ensures Falsy(Get(Initial(), name)) <==> name != Country
    ensures name == Country ==> Get(Initial(), name) == Str("US")
  {
  }

  // ---------------------------------------------------------------------------
  // Validation
  // ---------------------------------------------------------------------------

  const TotalSteps := 2

  /** The fields that some step can report as missing: all but the title,
    * the apartment, the free-text role, the source itself, the referral
    * email and the message, which no step checks. */
  predicate CanBeRequired(name: Field) {
    match name
    case Title | AptSuite | RoleOther | Source | ReferralEmail | Message => false
    case _ => true
  }

  /** Whether validating `step` checks `name` in `f`: the four account fields
    * on step 1; the address, profile and consent fields on step 2, and
    * sourceOther there only when the source is "other"; nothing on any
    * other step. */
  predicate Required(f: FormData, step: int, name: Field) {
    match name
    case BusinessEmail | FirstName | LastName | CompanyName => step == 1
    case Country | Phone | StreetAddress | City | State | ZipCode
       | Role | BusinessFocus | Website | AgreeToTerms | SubscribeToUpdates => step == 2
    case SourceOther => step == 2 && f.source == "other"
    case _ => false
  }

  /** The message shown beside a missing required field. */
  function ErrorMessage(name: Field): (msg: string)
    requires CanBeRequired(name)
    ensures msg != ""
  {
    match name
    case BusinessEmail => "Business Email is required"
    case FirstName => "First Name is required"
    case LastName => "Last Name is required"
    case CompanyName => "Company Name is required"
    case Country => "Country is required"
    case Phone => "Phone is required"
    case StreetAddress => "Address is required"
    case City => "City is required"
    case State => "State is required"
    case ZipCode => "ZIP Code is required"
    case Role => "Role is required"
    case BusinessFocus => "Business focus is required"
    case Website => "Website or social media is required"
    case SourceOther => "Please specify how you heard about us"
    case AgreeToTerms => "You must agree to the terms"
    case SubscribeToUpdates => "Please confirm subscription"
  }

  /** All error messages in a map are non-empty (so every listed field is
    * truthy in the `errors[name]` test of the markup). */
  ghost predicate MessagesPresent(errors: map<Field, string>) {
    forall name :: name in errors ==> errors[name] != ""
  }

  /** A field the step requires and the form leaves empty or unticked. */
  predicate Missing(f: FormData, step: int, name: Field) {
    Required(f, step, name) && Falsy(Get(f, name))
  }

  /** The error map a validation of `step` produces: the standard message for
    * each missing field and no other entry. The step passes exactly when this
    * map is empty. */
  function StepErrors(f: FormData, step: int): (errors: map<Field, string>)
    ensures forall name :: name in errors <==> Missing(f, step, name)
    ensures MessagesPresent(errors)
  {
    map name: Field | Missing(f, step, name) :: ErrorMessage(name)
  }

  /** Step 1 reports exactly the empty ones among email, first name, last
    * name and company name. */
  lemma Step1Reports(f: FormData)
    ensures BusinessEmail in StepErrors(f, 1) <==> f.businessEmail == ""
    ensures FirstName in StepErrors(f, 1) <==> f.firstName == ""
    ensures LastName in StepErrors(f, 1) <==> f.lastName == ""
    ensures CompanyName in StepErrors(f, 1) <==> f.companyName == ""
    ensures forall name :: name in StepErrors(f, 1) ==>
      name == BusinessEmail || name == FirstName || name == LastName || name == CompanyName
  {
    forall name | name in StepErrors(f, 1)
      ensures name == BusinessEmail || name == FirstName || name == LastName || name == CompanyName
    {
      assert Required(f, 1, name);
    }
  }

  /** Step 1 passes iff email, first name, last name and company name are all
    * filled in. */
  lemma Step1Passes(f: FormData)
    ensures StepErrors(f, 1) == map[] <==>
      f.businessEmail != "" && f.firstName != "" && f.lastName != "" && f.companyName != ""
  {
    var errors := StepErrors(f, 1);
    assert BusinessEmail in errors <==> f.businessEmail == "";
    assert FirstName in errors <==> f.firstName == "";
    assert LastName in errors <==> f.lastName == "";
    assert CompanyName in errors <==> f.companyName == "";
    Step1Reports(f);
  }

  /** Step 2 reports each contact and address field exactly when it is
    * empty. */
  lemma Step2ReportsAddress(f: FormData)
    ensures Country in StepErrors(f, 2) <==> f.country == ""
    ensures Phone in StepErrors(f, 2) <==> f.phone == ""
    ensures StreetAddress in StepErrors(f, 2) <==> f.streetAddress == ""
    ensures City in StepErrors(f, 2) <==> f.city == ""
    ensures State in StepErrors(f, 2) <==> f.state == ""
    ensures ZipCode in StepErrors(f, 2) <==> f.zipCode == ""
  {
  }

  /** Step 2 reports each profile field exactly when it is empty. */
  lemma Step2ReportsProfile(f: FormData)
    ensures Role in StepErrors(f, 2) <==> f.role == ""
    ensures BusinessFocus in StepErrors(f, 2) <==> f.businessFocus == ""
    ensures Website in StepErrors(f, 2) <==> f.website == ""
  {
  }

  /** Step 2 reports sourceOther only for an unspecified "other" source and
    * each consent exactly when it is unticked. */
  lemma Step2ReportsFollowUp(f: FormData)
    ensures SourceOther in StepErrors(f, 2) <==> f.source == "other" && f.sourceOther == ""
    ensures AgreeToTerms in StepErrors(f, 2) <==> !f.agreeToTerms
    ensures SubscribeToUpdates in StepErrors(f, 2) <==> !f.subscribeToUpdates
  {
  }

  /** Step 2 reports no field outside the step. */
  lemma Step2ReportsOnlyItsFields(f: FormData)
    ensures forall name :: name in StepErrors(f, 2) ==>
      CanBeRequired(name) && !(name == BusinessEmail || name == FirstName || name == LastName || name == CompanyName)
  {
    forall name | name in StepErrors(f, 2)
      ensures CanBeRequired(name) && !(
        name == BusinessEmail || name == FirstName || name == LastName || name == CompanyName)
    {
      assert Required(f, 2, name);
    }
  }

  /** Step 2 passes iff the nine address and profile fields are filled in,
    * both consents are ticked and a source of "other" is specified. */
  lemma Step2Passes(f: FormData)
    ensures StepErrors(f, 2) == map[] <==>
      && f.country != "" && f.phone != "" && f.streetAddress != "" && f.city != ""
      && f.state != "" && f.zipCode != "" && f.role != "" && f.businessFocus != ""
      && f.website != "" && f.agreeToTerms && f.subscribeToUpdates
      && (f.source == "other" ==> f.sourceOther != "")
  {
    var errors := StepErrors(f, 2);
    Step2ReportsAddress(f);
    Step2ReportsProfile(f);
    Step2ReportsFollowUp(f);
    Step2ReportsOnlyItsFields(f);
    if errors != map[] {
      var name :| name in errors;
      assert Missing(f, 2, name);
    }
  }

  /** A step other than 1 and 2 reports nothing, so it always passes. */
  lemma OtherStepsPass(f: FormData, step: int)
    requires step != 1 && step != 2
    ensures StepErrors(f, step) == map[]
  {
    forall name ensures !Missing(f, step, name) {
      assert !Required(f, step, name);
    }
  }

  /** A source other than "other" never makes sourceOther required, whatever
    * it holds. */
  lemma SourceOtherOnlyWhenOther(f: FormData, text: string)
    requires f.source != "other"
    ensures StepErrors(f.(sourceOther := text), 2) == StepErrors(f, 2)
  {
    var g := f.(sourceOther := text);
    forall name ensures Missing(g, 2, name) <==> Missing(f, 2, name) {
      if name != SourceOther {
        assert Get(g, name) == Get(f, name);
      }
    }
  }

  // The order in which validateStep makes its checks. The branches of the
  // method below follow it, and ErrorsOfFirst is what the first n checks of
  // a step have collected.

  /** How many checks the validation of `step` makes. */
  function CheckCount(step: int): (n: nat) {
    if step == 1 then 4 else if step == 2 then 12 else 0
  }

  /** The position of a field's check within its step. */
  function CheckOrder(name: Field): (i: nat) {
    match name
    case BusinessEmail => 0
    case FirstName => 1
    case LastName => 2
    case CompanyName => 3
    case Country => 0
    case Phone => 1
    case StreetAddress => 2
    case City => 3
    case State => 4
    case ZipCode => 5
    case Role => 6
    case BusinessFocus => 7
    case Website => 8
    case SourceOther => 9
    case AgreeToTerms => 10
    case SubscribeToUpdates => 11
    case _ => 12
  }

  /** The field the `i`-th check of `step` examines. */
  function CheckedField(step: int, i: nat): (name: Field)
    requires i < CheckCount(step)
    ensures CheckOrder(name) == i
  {
    if step == 1 then
      [BusinessEmail, FirstName, LastName, CompanyName][i]
    else
      [Country, Phone, StreetAddress, City, State, ZipCode,
       Role, BusinessFocus, Website, SourceOther, AgreeToTerms, SubscribeToUpdates][i]
  }

  /** The errors the first `n` checks of `step` collect, each check adding the
    * message of its field when that field is missing. */
  function ErrorsOfFirst(f: FormData, step: int, n: nat): (errors: map<Field, string>)
    requires n <= CheckCount(step)
  {
    if n == 0 then map[]
    else
      var errors := ErrorsOfFirst(f, step, n - 1);
      var name := CheckedField(step, n - 1);
      if Missing(f, step, name) then errors[name := ErrorMessage(name)] else errors
  }

  /** The first `n` checks report exactly the missing fields whose check comes
    * before position `n`, each with its standard message. */
  lemma {:induction false} ErrorsOfFirstExactly(f: FormData, step: int, n: nat)
    requires n <= CheckCount(step)
    ensures forall k :: k in ErrorsOfFirst(f, step, n) <==> Missing(f, step, k) && CheckOrder(k) < n
    ensures forall k :: k in ErrorsOfFirst(f, step, n) ==>
      CanBeRequired(k) && ErrorsOfFirst(f, step, n)[k] == ErrorMessage(k)
  {
    if n != 0 {
      ErrorsOfFirstExactly(f, step, n - 1);
    }
  }

  /** Every field a step requires has a check in that step. */
  lemma RequiredIsChecked(f: FormData, step: int, name: Field)
    requires Required(f, step, name)
    ensures CheckOrder(name) < CheckCount(step)
  {
  }

  /** Making every check of a step in order yields the step's error map. */
  lemma AllChecksGiveStepErrors(f: FormData, step: int)
    requires step == 1 || step == 2
    ensures ErrorsOfFirst(f, step, CheckCount(step)) == StepErrors(f, step)
  {
    var errors := ErrorsOfFirst(f, step, CheckCount(step));
    ErrorsOfFirstExactly(f, step, CheckCount(step));
    forall name | Missing(f, step, name) ensures name in errors {
      RequiredIsChecked(f, step, name);
    }
  }

  /** The step-1 branch of validateStep: a message for each empty account
    * field, checked in the order of the form. */
  method AccountAccessErrors(f: FormData) returns (newErrors: map<Field, string>)
    ensures newErrors == StepErrors(f, 1)
  {
    newErrors := map[];
    if f.businessEmail == "" { newErrors := newErrors[BusinessEmail := ErrorMessage(BusinessEmail)]; }
    assert newErrors == ErrorsOfFirst(f, 1, 1);
    if f.firstName == "" { newErrors := newErrors[FirstName := ErrorMessage(FirstName)]; }
    assert newErrors == ErrorsOfFirst(f, 1, 2);
    if f.lastName == "" { newErrors := newErrors[LastName := ErrorMessage(LastName)]; }
    assert newErrors == ErrorsOfFirst(f, 1, 3);
    if f.companyName == "" { newErrors := newErrors[CompanyName := ErrorMessage(CompanyName)]; }
    assert newErrors == ErrorsOfFirst(f, 1, 4);
    AllChecksGiveStepErrors(f, 1);
  }

  /** The first step-2 checks: country and phone. */
  method ContactErrors(f: FormData) returns (newErrors: map<Field, string>)
    ensures newErrors == ErrorsOfFirst(f, 2, 2)
  {
    newErrors := map[];
    if f.country == "" { newErrors := newErrors[Country := ErrorMessage(Country)]; }
    assert newErrors == ErrorsOfFirst(f, 2, 1);
    if f.phone == "" { newErrors := newErrors[Phone := ErrorMessage(Phone)]; }
  }

  /** The next step-2 checks: street address, city, state and ZIP code. */
  method AddressErrors(f: FormData, errors: map<Field, string>) returns (newErrors: map<Field, string>)
    requires errors == ErrorsOfFirst(f, 2, 2)
    ensures newErrors == ErrorsOfFirst(f, 2, 6)
  {
    newErrors := errors;
    if f.streetAddress == "" { newErrors := newErrors[StreetAddress := ErrorMessage(StreetAddress)]; }
    assert newErrors == ErrorsOfFirst(f, 2, 3);
    if f.city == "" { newErrors := newErrors[City := ErrorMessage(City)]; }
    assert newErrors == ErrorsOfFirst(f, 2, 4);
    if f.state == "" { newErrors := newErrors[State := ErrorMessage(State)]; }
    assert newErrors == ErrorsOfFirst(f, 2, 5);
    if f.zipCode == "" { newErrors := newErrors[ZipCode := ErrorMessage(ZipCode)]; }
  }

  /** The step-2 checks of the profile: role, business focus and website. */
  method ProfileErrors(f: FormData, errors: map<Field, string>) returns (newErrors: map<Field, string>)
    requires errors == ErrorsOfFirst(f, 2, 6)
    ensures newErrors == ErrorsOfFirst(f, 2, 9)
  {
    newErrors := errors;
    if f.role == "" { newErrors := newErrors[Role := ErrorMessage(Role)]; }
    assert newErrors == ErrorsOfFirst(f, 2, 7);
    if f.businessFocus == "" { newErrors := newErrors[BusinessFocus := ErrorMessage(BusinessFocus)]; }
    assert newErrors == ErrorsOfFirst(f, 2, 8);
    if f.website == "" { newErrors := newErrors[Website := ErrorMessage(Website)]; }
  }

  /** The last step-2 checks: the free-text source, then the two
    * consents. */
  method FollowUpErrors(f: FormData, errors: map<Field, string>) returns (newErrors: map<Field, string>)
    requires errors == ErrorsOfFirst(f, 2, 9)
    ensures newErrors == ErrorsOfFirst(f, 2, 12)
  {
    newErrors := errors;
    if f.source == "other" && f.sourceOther == "" {
      newErrors := newErrors[SourceOther := ErrorMessage(SourceOther)];
    }
    assert newErrors == ErrorsOfFirst(f, 2, 10);
    if !f.agreeToTerms { newErrors := newErrors[AgreeToTerms := ErrorMessage(AgreeToTerms)]; }
    assert newErrors == ErrorsOfFirst(f, 2, 11);
    if !f.subscribeToUpdates { newErrors := newErrors[SubscribeToUpdates := ErrorMessage(SubscribeToUpdates)]; }
  }

  /** The step-2 branch of validateStep: a message for each missing business
    * field, checked in the order of the form. */
  method BusinessInfoErrors(f: FormData) returns (newErrors: map<Field, string>)
    ensures newErrors == StepErrors(f, 2)
  {
    newErrors := ContactErrors(f);
    newErrors := AddressErrors(f, newErrors);
    newErrors := ProfileErrors(f, newErrors);
    newErrors := FollowUpErrors(f, newErrors);
    AllChecksGiveStepErrors(f, 2);
  }

  // ---------------------------------------------------------------------------
  // Draft store
  // ---------------------------------------------------------------------------

  /** The browser's key-value storage, as far as the form uses it: one form
    * snapshot per business email, last write wins. */
  class DraftStore {
    var drafts: map<string, FormData>

    constructor (saved: map<string, FormData>)
      ensures drafts == saved
    {
      drafts := saved;
    }

    /** saveDraft: stores the snapshot under the email, replacing any
      * earlier one. */
    method SaveDraft(email: string, data: FormData)
      modifies this
      ensures drafts == old(drafts)[email := data]
    {
      drafts := drafts[email := data];
    }

    /** getDraft: the snapshot saved under the email, if any. */
    method GetDraft(email: string) returns (draft: Option<FormData>)
      ensures draft.Some? <==> email in drafts
      ensures draft.Some? ==> draft.value == drafts[email]
    {
      if email in drafts {
        draft := Some(drafts[email]);
      } else {
        draft := None;
      }
    }
  }

  /** The form after the email field loses focus: on step 1, with a non-empty
    * email that has a saved draft, the draft with the email kept as typed;
    * otherwise the form as it was. */
  function Restored(current: FormData, step: int, drafts: map<string, FormData>): (r: FormData)
    ensures r.businessEmail == current.businessEmail
    ensures r != current ==> step == 1 && current.businessEmail in drafts
  {
    var email := current.businessEmail;
    if email != "" && step == 1 && email in drafts then drafts[email].(businessEmail := email)
    else current
  }

  /** A draft saved on leaving step 1 is given back whole, email included,
    * when the same email is later blurred on step 1, whatever the form held
    * in the meantime. */
  lemma SaveThenRestore(snapshot: FormData, current: FormData, drafts: map<string, FormData>)
    requires snapshot.businessEmail != ""
    requires current.businessEmail == snapshot.businessEmail
    ensures Restored(current, 1, drafts[snapshot.businessEmail := snapshot]) == snapshot
  {
  }

  /** Without a draft for the email, or off step 1, a blur changes nothing. */
  lemma RestoreWithoutDraft(current: FormData, step: int, drafts: map<string, FormData>)
    requires current.businessEmail !in drafts || step != 1 || current.businessEmail == ""
    ensures Restored(current, step, drafts) == current
  {
  }

  function Min(a: int, b: int): (m: int) { if a < b then a else b }

  function Max(a: int, b: int): (m: int) { if a < b then b else a }

  // ---------------------------------------------------------------------------
  // The wizard
  // ---------------------------------------------------------------------------

  /** The form component's state: the field values, the current step, the
    * error map and whether the application was submitted, over a draft
    * store that outlives it. */
  class TradeForm {
    var formData: FormData
    var step: int
    var submitted: bool
    var errors: map<Field, string>
    const store: DraftStore

    /** The step stays within 1..TotalSteps and every recorded error has a
      * message. */
    ghost predicate Valid()
      reads this
    {
      1 <= step <= TotalSteps && MessagesPresent(errors)
    }

    constructor (store: DraftStore)
      ensures Valid()
      ensures formData == Initial() && step == 1 && !submitted && errors == map[]
      ensures this.store == store
    {
      formData := Initial();
      step := 1;
      submitted := false;
      errors := map[];
      this.store := store;
    }

    /** handleEmailBlur: restores a saved draft for the typed email. */
    method HandleEmailBlur()
      requires Valid()
      modifies this`formData
      ensures Valid()
      ensures formData == Restored(old(formData), step, store.drafts)
    {
      if formData.businessEmail != "" && step == 1 {
        var draft := store.GetDraft(formData.businessEmail);
        if draft.Some? {
          formData := draft.value.(businessEmail := formData.businessEmail);
        }
      }
    }

    /** handleChange: writes the one field named by the event and drops that
      * field's error, if it had one. */
    method HandleChange(name: Field, value: string, checked: bool)
      requires Valid()
      modifies this`formData, this`errors
      ensures Valid()
      ensures formData == Set(old(formData), name, NewValue(name, value, checked))
      ensures errors == old(errors) - {name}
    {
      formData := Set(formData, name, NewValue(name, value, checked));
      if name in errors && errors[name] != "" {
        errors := errors - {name};
      } else {
        assert name !in errors;
      }
    }

    /** validateStep: collects one message per missing required field of
      * `currentStep`; on failure that collection replaces the error map, on
      * success the error map is left as it was. */
    method ValidateStep(currentStep: int) returns (isValid: bool)
      requires Valid()
      modifies this`errors
      ensures Valid()
      ensures isValid <==> StepErrors(formData, currentStep) == map[]
      ensures errors == if isValid then old(errors) else StepErrors(formData, currentStep)
    {
      var newErrors: map<Field, string> := map[];
      isValid := true;
      if currentStep == 1 {
        newErrors := AccountAccessErrors(formData);
      } else if currentStep == 2 {
        newErrors := BusinessInfoErrors(formData);
      } else {
        OtherStepsPass(formData, currentStep);
      }

      // Object.keys(newErrors).length > 0
      if newErrors != map[] {
        errors := newErrors;
        isValid := false;
      }
    }

    /** handleNext: on a failed validation nothing but the error map changes;
      * otherwise leaving step 1 saves the whole form as the draft of its
      * email, and the step advances, capped at TotalSteps. */
    method HandleNext()
      requires Valid()
      modifies this`errors, this`step, store
      ensures Valid()
      ensures var ok := StepErrors(old(formData), old(step)) == map[];
        && errors == (if ok then old(errors) else StepErrors(old(formData), old(step)))
        && step == (if ok then Min(old(step) + 1, TotalSteps) else old(step))
        && store.drafts == (if ok && old(step) == 1
                            then old(store.drafts)[old(formData).businessEmail := old(formData)]
                            else old(store.drafts))
    {
      var ok := ValidateStep(step);
      if !ok {
        return;
      }
      if step == 1 {
        store.SaveDraft(formData.businessEmail, formData);
      }
      step := Min(step + 1, TotalSteps);
    }

    /** handleBack: one step back without validating, never below step 1. */
    method HandleBack()
      requires Valid()
      modifies this`step
      ensures Valid()
      ensures step == Max(old(step) - 1, 1)
    {
      step := Max(step - 1, 1);
    }

    /** handleSubmit: validates the current step and, when it passes, hands
      * the form to the (always succeeding) submission service and marks the
      * application submitted. */
    method HandleSubmit()
      requires Valid()
      modifies this`errors, this`submitted
      ensures Valid()
      ensures var ok := StepErrors(formData, step) == map[];
        && errors == (if ok then old(errors) else StepErrors(formData, step))
        && submitted == (ok || old(submitted))
    {
      var ok := ValidateStep(step);
      if !ok {
        return;
      }
      submitted := true;
    }

    /** "Return to Home" on the confirmation screen: back to step 1 with the
      * initial form; the error map is not touched. */
    method ReturnToHome()
      requires Valid()
      modifies this`submitted, this`formData, this`step
      ensures Valid()
      ensures !submitted && formData == Initial() && step == 1
    {
      submitted := false;
      formData := Initial();
      step := 1;
    }
  }

  // ---------------------------------------------------------------------------
  // Whole interactions
  // ---------------------------------------------------------------------------

  /** Any run of Next and Back presses (`true` for Next) keeps the wizard
    * valid, so the step never leaves 1..2, and leaves the form data and the
    * submitted flag alone; a run ending in Back ends on step 1, and a run of
    * Next presses alone never moves the step back. */
  method Navigate(form: TradeForm, presses: seq<bool>)
    requires form.Valid()
    modifies form, form.store
    ensures form.Valid()
    ensures form.formData == old(form.formData) && form.submitted == old(form.submitted)
    ensures presses != [] && !presses[|presses| - 1] ==> form.step == 1
    ensures (forall i :: 0 <= i < |presses| ==> presses[i]) ==> form.step >= old(form.step)
  {
    var i := 0;
    while i < |presses|
      invariant 0 <= i <= |presses|
      invariant form.Valid()
      invariant form.formData == old(form.formData) && form.submitted == old(form.submitted)
      invariant i > 0 && !presses[i - 1] ==> form.step == 1
      invariant (forall j :: 0 <= j < i ==> presses[j]) ==> form.step >= old(form.step)
    {
      if presses[i] {
        form.HandleNext();
      } else {
        form.HandleBack();
      }
      i := i + 1;
    }
  }

  /** Completing step 1, editing step-2 fields, going back and leaving the
    * email field restores the form exactly as it was when step 1 was
    * completed: the later edits are replaced by the draft. */
  method ResumeFromDraft(form: TradeForm, name: Field, value: string, checked: bool)
    returns (restored: FormData)
    requires form.Valid() && form.step == 1
    requires StepErrors(form.formData, 1) == map[]
    requires name != BusinessEmail
    modifies form, form.store
    ensures form.Valid()
    ensures restored == old(form.formData) && form.formData == restored && form.step == 1
  {
    ghost var snapshot := form.formData;
    Step1Passes(snapshot);
    form.HandleNext();
    assert form.step == 2;
    form.HandleChange(name, value, checked);
    SetChangesOnlyNamedField(old(form.formData), name, NewValue(name, value, checked));
    assert form.formData.businessEmail == old(form.formData).businessEmail by {
      assert Get(form.formData, BusinessEmail) == Get(old(form.formData), BusinessEmail);
    }
    form.HandleBack();
    SaveThenRestore(snapshot, form.formData, old(form.store.drafts));
    form.HandleEmailBlur();
    restored := form.formData;
  }

  /** A fully valid step 2 submits; "Return to Home" then gives step 1 with
    * the initial form. */
  method SubmitThenReturnHome(form: TradeForm) returns (wasSubmitted: bool)
    requires form.Valid() && form.step == 2
    requires StepErrors(form.formData, 2) == map[]
    modifies form
    ensures form.Valid()
    ensures wasSubmitted
    ensures !form.submitted && form.step == 1 && form.formData == Initial()
  {
    form.HandleSubmit();
    wasSubmitted := form.submitted;
    form.ReturnToHome();
  }
}
