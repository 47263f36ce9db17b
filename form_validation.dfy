/** The form state and the submit-time checks shared by the two application
    forms: three required fields, then a contact shaped like an email or a
    phone number. */
module FormValidation {
  import opened Wrappers
  import opened Text

  /** The inputs whose `name` attribute handleChange reads. */
  datatype Field = Cv | MotivationLetter | Contact | Note

  /** The `formData` state; `files` is null until a file is chosen. */
  datatype FormData = FormData(cv: string, motivationLetter: string, contact: string, note: string, files: Option<seq<string>>)

  /** The state the form starts in and is reset to. */
  const EmptyForm: FormData := FormData("", "", "", "", None)

  function Get(f: FormData, field: Field): string {
    match field
    case Cv => f.cv
    case MotivationLetter => f.motivationLetter
    case Contact => f.contact
    case Note => f.note
  }

  /** `{ ...formData, [name]: value }`: only the named field changes. */
  function SetField(f: FormData, field: Field, value: string): (r: FormData)
    ensures Get(r, field) == value
    ensures forall other :: other != field ==> Get(r, other) == Get(f, other)
    ensures r.files == f.files
  {
    match field
    case Cv => f.(cv := value)
    case MotivationLetter => f.(motivationLetter := value)
    case Contact => f.(contact := value)
    case Note => f.(note := value)
  }

  /** A character of the class `[0-9+\- ]`. */
  predicate IsPhoneChar(c: char) {
    ('0' <= c <= '9') || c == '+' || c == '-' || c == ' '
  }

  /** `/^[0-9+\- ]+$/.test(s)`, matched from the left. */
  function MatchesPhonePattern(s: string): (b: bool)
    ensures b <==> s != [] && forall i :: 0 <= i < |s| ==> IsPhoneChar(s[i])
  {
    if s == [] then false
    else IsPhoneChar(s[0]) && (s[1..] == [] || MatchesPhonePattern(s[1..]))
  }

  const REQUIRED_FIELDS: string := "Please fill in all required fields"
  const INVALID_CONTACT: string := "Please enter a valid email or phone number"

  datatype Verdict = Accepted | Rejected(message: string)

  /** The first check: `cv`, `motivationLetter` and `contact` are not empty
      after trimming. */
  function RequiredFilled(f: FormData): (b: bool)
    ensures b <==> !IsBlank(f.cv) && !IsBlank(f.motivationLetter) && !IsBlank(f.contact)
  {
    TrimEmptyIffBlank(f.cv);
    TrimEmptyIffBlank(f.motivationLetter);
    TrimEmptyIffBlank(f.contact);
    !(Trim(f.cv) == [] || Trim(f.motivationLetter) == [] || Trim(f.contact) == [])
  }

  /** The second check: `contact.includes('@')` or the phone pattern matches. */
  function ContactShaped(contact: string): (b: bool)
    ensures b <==> '@' in contact || (contact != [] && forall i :: 0 <= i < |contact| ==> IsPhoneChar(contact[i]))
  {
    ContainsCharIffIn(contact, '@');
    var isEmail := Contains(contact, "@");
    var isPhone := MatchesPhonePattern(contact);
    isEmail || isPhone
  }

  /** The checks of handleSubmit, in their order. */
  function Validate(f: FormData): (v: Verdict)
    ensures v == Accepted <==>
      && !IsBlank(f.cv) && !IsBlank(f.motivationLetter) && !IsBlank(f.contact)
      && ('@' in f.contact || (f.contact != [] && forall i :: 0 <= i < |f.contact| ==> IsPhoneChar(f.contact[i])))
    ensures IsBlank(f.cv) || IsBlank(f.motivationLetter) || IsBlank(f.contact) ==> v == Rejected(REQUIRED_FIELDS)
    ensures !IsBlank(f.cv) && !IsBlank(f.motivationLetter) && !IsBlank(f.contact) && v != Accepted ==> v == Rejected(INVALID_CONTACT)
  {
    if !RequiredFilled(f) then Rejected(REQUIRED_FIELDS)
    else if !ContactShaped(f.contact) then Rejected(INVALID_CONTACT)
    else Accepted
  }

  /** The note and the attached files play no part in validation. */
  lemma ValidateIgnoresNoteAndFiles(f: FormData, note: string, files: Option<seq<string>>)
    ensures Validate(f.(note := note, files := files)) == Validate(f)
  {
  }

  /** A contact such as "+1 555-0100" is phone-shaped. */
  lemma PhoneContactAccepted()
    ensures Validate(FormData("cv", "letter", "+1 555-0100", "", None)) == Accepted
  {
    var contact := "+1 555-0100";
    assert |contact| == 11;
    forall i | 0 <= i < |contact| ensures IsPhoneChar(contact[i]) {
    }
    assert !IsJsWhitespace(contact[0]);
    assert !IsJsWhitespace("cv"[0]) && !IsJsWhitespace("letter"[0]);
  }

  /** A contact such as "abc" is neither an email nor a phone number. */
  lemma WordContactRejected()
    ensures Validate(FormData("cv", "letter", "abc", "", None)) == Rejected(INVALID_CONTACT)
  {
    assert !IsJsWhitespace("abc"[0]) && !IsPhoneChar("abc"[0]) && '@' !in "abc";
    assert !IsJsWhitespace("cv"[0]) && !IsJsWhitespace("letter"[0]);
  }
}
