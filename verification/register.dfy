/** Guest registration (src/pages/register.tsx): the form's validation
    schema, and the submit handler that signs the guest up and then inserts
    their profile row.

    A form is a map from field to the text entered; a field the form never
    set is absent. The email-format check is a parameter. */
module Register {
  import opened Wrappers

  datatype FormField =
    | FullName | Address | Email | Password | Phone | CallUpNumber | StateOfOrigin | Lga
    | Gender | DateOfBirth | MaritalStatus | McanRegNo | Institution
    | EmergencyContactName | EmergencyContactAddress | EmergencyContactPhone1 | EmergencyContactPhone2
    | NextOfKinName | NextOfKinAddress | NextOfKinPhone1 | NextOfKinPhone2
    | IslamicKnowledgeLevel | DietaryPreferences | PrayerRequirements

  /** The schema's fields in declaration order. */
  const AllFields: seq<FormField> :=
    [ FullName, Address, Email, Password, Phone, CallUpNumber, StateOfOrigin, Lga,
      Gender, DateOfBirth, MaritalStatus, McanRegNo, Institution,
      EmergencyContactName, EmergencyContactAddress, EmergencyContactPhone1, EmergencyContactPhone2,
      NextOfKinName, NextOfKinAddress, NextOfKinPhone1, NextOfKinPhone2,
      IslamicKnowledgeLevel, DietaryPreferences, PrayerRequirements ]

  function FieldIndex(f: FormField): (i: nat)
    ensures i < |AllFields| && AllFields[i] == f
  {
    match f
    case FullName => 0 case Address => 1 case Email => 2 case Password => 3
    case Phone => 4 case CallUpNumber => 5 case StateOfOrigin => 6 case Lga => 7
    case Gender => 8 case DateOfBirth => 9 case MaritalStatus => 10 case McanRegNo => 11
    case Institution => 12 case EmergencyContactName => 13 case EmergencyContactAddress => 14
    case EmergencyContactPhone1 => 15 case EmergencyContactPhone2 => 16 case NextOfKinName => 17
    case NextOfKinAddress => 18 case NextOfKinPhone1 => 19 case NextOfKinPhone2 => 20
    case IslamicKnowledgeLevel => 21 case DietaryPreferences => 22 case PrayerRequirements => 23
  }

  /** One schema rule: a minimum length, the email format, membership of a
      fixed set, or an optional text. */
  datatype Rule = MinLength(n: nat) | EmailFormat | OneOf(options: seq<string>) | Optional

  const Genders: seq<string> := ["male", "female"]
  const MaritalStatuses: seq<string> := ["single", "married", "divorced", "widowed"]
  const KnowledgeLevels: seq<string> := ["beginner", "intermediate", "advanced"]
  const Diets: seq<string> := ["halal", "vegetarian", "none"]

  /** The schema's rule for each field: only the secondary phones are
      optional, only the email is format-checked, and the four choice
      fields take one of their listed options. */
  function RuleOf(f: FormField): (r: Rule)
    ensures r == Optional <==> IsSecondaryPhone(f)
    ensures r == EmailFormat <==> f == Email
    ensures r.OneOf? <==> f == Gender || f == MaritalStatus || f == IslamicKnowledgeLevel
                          || f == DietaryPreferences
  {
    match f
    case FullName => MinLength(2)
    case Address => MinLength(5)
    case Email => EmailFormat
    case Password => MinLength(8)
    case Phone => MinLength(10)
    case CallUpNumber => MinLength(5)
    case StateOfOrigin => MinLength(2)
    case Lga => MinLength(2)
    case Gender => OneOf(Genders)
    case DateOfBirth => MinLength(1)
    case MaritalStatus => OneOf(MaritalStatuses)
    case McanRegNo => MinLength(1)
    case Institution => MinLength(2)
    case EmergencyContactName => MinLength(2)
    case EmergencyContactAddress => MinLength(5)
    case EmergencyContactPhone1 => MinLength(10)
    case EmergencyContactPhone2 => Optional
    case NextOfKinName => MinLength(2)
    case NextOfKinAddress => MinLength(5)
    case NextOfKinPhone1 => MinLength(10)
    case NextOfKinPhone2 => Optional
    case IslamicKnowledgeLevel => OneOf(KnowledgeLevels)
    case DietaryPreferences => OneOf(Diets)
    case PrayerRequirements => MinLength(1)
  }

  predicate Passes(form: map<FormField, string>, f: FormField, isEmail: string -> bool) {
    match RuleOf(f)
    case MinLength(n) => f in form && |form[f]| >= n
    case EmailFormat => f in form && isEmail(form[f])
    case OneOf(options) => f in form && form[f] in options
    case Optional => true
  }

  /** The fields that fail their rule, in schema order; the form is valid
      exactly when there are none. */
  function Validate(form: map<FormField, string>, isEmail: string -> bool): (failing: seq<FormField>)
    ensures failing == [] <==> forall f: FormField :: Passes(form, f, isEmail)
    ensures forall i :: 0 <= i < |failing| ==> !Passes(form, failing[i], isEmail)
    ensures forall f: FormField :: !Passes(form, f, isEmail) ==> f in failing
  {
    var failing := FailingAmong(AllFields, form, isEmail);
    forall f: FormField | !Passes(form, f, isEmail)
      ensures f in failing
    {
      assert AllFields[FieldIndex(f)] == f;
    }
    assert failing == [] ==> forall f: FormField :: Passes(form, f, isEmail) by {
      if failing == [] {
        forall f: FormField ensures Passes(form, f, isEmail) {
          assert AllFields[FieldIndex(f)] == f;
        }
      }
    }
    failing
  }

  function FailingAmong(fields: seq<FormField>, form: map<FormField, string>, isEmail: string -> bool)
    : (failing: seq<FormField>)
    ensures forall i :: 0 <= i < |failing| ==> !Passes(form, failing[i], isEmail)
    ensures failing == [] <==> forall i :: 0 <= i < |fields| ==> Passes(form, fields[i], isEmail)
    ensures forall i :: 0 <= i < |fields| && !Passes(form, fields[i], isEmail) ==> fields[i] in failing
  {
    if fields == [] then []
    else
      var rest := FailingAmong(fields[1..], form, isEmail);
      assert forall i :: 1 <= i < |fields| ==> fields[i] == fields[1..][i - 1];
      if Passes(form, fields[0], isEmail) then rest else [fields[0]] + rest
  }

  /** A valid form meets every concrete bound of the schema. */
  lemma ValidFormBounds(form: map<FormField, string>, isEmail: string -> bool)
    requires Validate(form, isEmail) == []
    ensures FullName in form && |form[FullName]| >= 2
    ensures Address in form && |form[Address]| >= 5
    ensures Password in form && |form[Password]| >= 8
    ensures Phone in form && |form[Phone]| >= 10
    ensures EmergencyContactPhone1 in form && |form[EmergencyContactPhone1]| >= 10
    ensures NextOfKinPhone1 in form && |form[NextOfKinPhone1]| >= 10
    ensures Email in form && isEmail(form[Email])
    ensures Gender in form && form[Gender] in Genders
    ensures MaritalStatus in form && form[MaritalStatus] in MaritalStatuses
    ensures IslamicKnowledgeLevel in form && form[IslamicKnowledgeLevel] in KnowledgeLevels
    ensures DietaryPreferences in form && form[DietaryPreferences] in Diets
  {
    ValidPasses(form, isEmail, FullName);
    ValidPasses(form, isEmail, Address);
    ValidPasses(form, isEmail, Password);
    ValidPasses(form, isEmail, Phone);
    ValidPasses(form, isEmail, EmergencyContactPhone1);
    ValidPasses(form, isEmail, NextOfKinPhone1);
    ValidPasses(form, isEmail, Email);
    ValidPasses(form, isEmail, Gender);
    ValidPasses(form, isEmail, MaritalStatus);
    ValidPasses(form, isEmail, IslamicKnowledgeLevel);
    ValidPasses(form, isEmail, DietaryPreferences);
  }

  lemma ValidPasses(form: map<FormField, string>, isEmail: string -> bool, f: FormField)
    requires Validate(form, isEmail) == []
    ensures Passes(form, f, isEmail)
  {
  }

  /** The optional secondary phones never make a form invalid. */
  lemma OptionalPhonesNeverFail(form: map<FormField, string>, isEmail: string -> bool)
    ensures EmergencyContactPhone2 !in Validate(form, isEmail)
    ensures NextOfKinPhone2 !in Validate(form, isEmail)
  {
    var failing := Validate(form, isEmail);
    forall i | 0 <= i < |failing|
      ensures failing[i] != EmergencyContactPhone2 && failing[i] != NextOfKinPhone2
    {
      assert !Passes(form, failing[i], isEmail);
    }
  }

  /** The profile column a field is stored in; the password has none.
      Reading the column back gives the field, so each field has a column
      of its own. */
  function Column(f: FormField): (c: Option<string>)
    ensures c.None? <==> f == Password
    ensures c.Some? ==> FieldOfColumn(c.value) == Some(f)
  {
    match f
    case FullName => Some("full_name")
    case Address => Some("address")
    case Email => Some("email")
    case Password => None
    case Phone => Some("phone")
    case CallUpNumber => Some("call_up_number")
    case StateOfOrigin => Some("state_of_origin")
    case Lga => Some("lga")
    case Gender => Some("gender")
    case DateOfBirth => Some("date_of_birth")
    case MaritalStatus => Some("marital_status")
    case McanRegNo => Some("mcan_reg_no")
    case Institution => Some("institution")
    case EmergencyContactName => Some("emergency_contact_name")
    case EmergencyContactAddress => Some("emergency_contact_address")
    case EmergencyContactPhone1 => Some("emergency_contact_phone1")
    case EmergencyContactPhone2 => Some("emergency_contact_phone2")
    case NextOfKinName => Some("next_of_kin_name")
    case NextOfKinAddress => Some("next_of_kin_address")
    case NextOfKinPhone1 => Some("next_of_kin_phone1")
    case NextOfKinPhone2 => Some("next_of_kin_phone2")
    case IslamicKnowledgeLevel => Some("islamic_knowledge_level")
    case DietaryPreferences => Some("dietary_preferences")
    case PrayerRequirements => Some("prayer_requirements")
  }

  /** The field stored in profile column `c`, if any. */
  function FieldOfColumn(c: string): Option<FormField> {
    match c
    case "full_name" => Some(FullName)
    case "address" => Some(Address)
    case "email" => Some(Email)
    case "phone" => Some(Phone)
    case "call_up_number" => Some(CallUpNumber)
    case "state_of_origin" => Some(StateOfOrigin)
    case "lga" => Some(Lga)
    case "gender" => Some(Gender)
    case "date_of_birth" => Some(DateOfBirth)
    case "marital_status" => Some(MaritalStatus)
    case "mcan_reg_no" => Some(McanRegNo)
    case "institution" => Some(Institution)
    case "emergency_contact_name" => Some(EmergencyContactName)
    case "emergency_contact_address" => Some(EmergencyContactAddress)
    case "emergency_contact_phone1" => Some(EmergencyContactPhone1)
    case "emergency_contact_phone2" => Some(EmergencyContactPhone2)
    case "next_of_kin_name" => Some(NextOfKinName)
    case "next_of_kin_address" => Some(NextOfKinAddress)
    case "next_of_kin_phone1" => Some(NextOfKinPhone1)
    case "next_of_kin_phone2" => Some(NextOfKinPhone2)
    case "islamic_knowledge_level" => Some(IslamicKnowledgeLevel)
    case "dietary_preferences" => Some(DietaryPreferences)
    case "prayer_requirements" => Some(PrayerRequirements)
    case _ => None
  }

  /** No two fields share a profile column. */
  lemma ColumnsDistinct(f: FormField, g: FormField)
    ensures Column(f).Some? && Column(f) == Column(g) ==> f == g
  {
  }

  /** A payload cell: text or SQL null. */
  datatype Value = Text(s: string) | Null

  /** The profile row inserted: the auth user's id and one cell per field
      that has a column. */
  datatype ProfilePayload = ProfilePayload(id: string, cells: map<FormField, Value>)

  predicate IsSecondaryPhone(f: FormField) {
    f == EmergencyContactPhone2 || f == NextOfKinPhone2
  }

  /** The form holds every field the schema requires. */
  predicate Complete(form: map<FormField, string>) {
    forall f: FormField :: RuleOf(f) != Optional ==> f in form
  }

  /** The cell for one field: a secondary phone that is absent or empty is
      null (`value || null`); every other field is copied as entered. */
  function Cell(form: map<FormField, string>, f: FormField): (v: Value)
    requires Complete(form)
    ensures IsSecondaryPhone(f) ==> (v == Null <==> f !in form || form[f] == "")
    ensures v.Text? ==> f in form && v.s == form[f]
    ensures !IsSecondaryPhone(f) ==> v == Text(form[f])
  {
    if IsSecondaryPhone(f) then
      if f in form && form[f] != "" then Text(form[f]) else Null
    else
      assert RuleOf(f) != Optional;
      Text(form[f])
  }

  function ProfilePayloadOf(userId: string, form: map<FormField, string>): (p: ProfilePayload)
    requires Complete(form)
    ensures p.id == userId
    ensures forall f: FormField :: f in p.cells <==> Column(f).Some?
    ensures forall f: FormField :: f in p.cells ==> p.cells[f] == Cell(form, f)
  {
    ProfilePayload(userId, map f: FormField | Column(f).Some? :: Cell(form, f))
  }

  /** Reading the entered text back out of a payload cell. */
  function TextOf(v: Value): (s: Option<string>)
    ensures v.Text? <==> s.Some?
  {
    if v.Text? then Some(v.s) else None
  }

  /** The payload keeps every field with a column as entered: reading a
      cell back gives the form's text, except that an empty or absent
      secondary phone reads back as nothing. */
  lemma PayloadRoundTrip(userId: string, form: map<FormField, string>, f: FormField)
    requires Complete(form) && Column(f).Some?
    ensures var p := ProfilePayloadOf(userId, form);
            f in p.cells
            && (f in form && (form[f] != "" || !IsSecondaryPhone(f)) ==> TextOf(p.cells[f]) == Some(form[f]))
            && (IsSecondaryPhone(f) && (f !in form || form[f] == "") ==> TextOf(p.cells[f]) == None)
  {
  }

  /** The sign-up call's outcome: an error, or success with or without a
      user object. */
  datatype SignUp = SignUpFailed(message: string) | SignedUp(user: Option<string>)

  /** What submitting the form did: whether sign-up was asked for, the
      profile row sent to the insert, where the page went, and the error
      shown. */
  datatype Registration = Registration(
    signUpRequested: bool,
    insertAttempt: Option<ProfilePayload>,
    navigation: Option<string>,
    error: Option<string>)

  /** Submitting the form: the schema runs first and an invalid form goes no
      further; a sign-up error stops before the insert; a sign-up without a
      user skips the insert yet reports success; an insert error is shown. */
  function Submit(form: map<FormField, string>, isEmail: string -> bool, signUp: SignUp,
                  insert: Outcome): (r: Registration)
    ensures Validate(form, isEmail) != [] ==> r == Registration(false, None, None, None)
    ensures Validate(form, isEmail) == [] ==> r.signUpRequested
    ensures signUp.SignUpFailed? ==> r.insertAttempt.None? && r.navigation.None?
    ensures r.insertAttempt.Some? ==>
              signUp.SignedUp? && signUp.user.Some? && r.insertAttempt.value.id == signUp.user.value
    ensures Validate(form, isEmail) == [] ==> Complete(form)
    ensures Validate(form, isEmail) == [] && signUp.SignedUp? && signUp.user.Some? ==>
              r.insertAttempt == Some(ProfilePayloadOf(signUp.user.value, form))
    ensures r.navigation == Some("/login") <==>
              Validate(form, isEmail) == [] && signUp.SignedUp? && (signUp.user.None? || insert.Success?)
    ensures r.error.None? <==> Validate(form, isEmail) != [] || r.navigation.Some?
  {
    if Validate(form, isEmail) != [] then Registration(false, None, None, None)
    else
      assert Complete(form) by {
        forall f: FormField | RuleOf(f) != Optional ensures f in form {
          assert Passes(form, f, isEmail);
        }
      }
      match signUp
      case SignUpFailed(message) => Registration(true, None, None, Some(message))
      case SignedUp(None) => Registration(true, None, Some("/login"), None)
      case SignedUp(Some(id)) =>
        var payload := ProfilePayloadOf(id, form);
        match insert
        case Failure(message) => Registration(true, Some(payload), None, Some(message))
        case Success => Registration(true, Some(payload), Some("/login"), None)
  }
}
