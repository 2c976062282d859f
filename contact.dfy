/**
 * The contact form: its three input fields, the validator run on submit, and
 * the submit state machine whose two final transitions are the email relay's
 * success and failure replies.
 *
 * Strings are sequences of characters, one character per Unicode scalar value.
 * For text inside the Basic Multilingual Plane this is one character per
 * UTF-16 code unit, so lengths agree with JavaScript's `length` there.
 */
module ContactForm {

  import opened Wrappers

  // ---------------------------------------------------------------------------
  // Characters

  /**
   * The characters JavaScript's regular-expression class `\s` matches. The same
   * set is what `String.prototype.trim` removes: the Unicode space separators,
   * tab, vertical tab, form feed, the byte-order mark and the line terminators.
   */
  predicate IsSpace(c: char)
  {
    || c == '\t' || c == '\n' || c == '\U{000B}' || c == '\U{000C}' || c == '\r'
    || c == ' ' || c == '\U{00A0}' || c == '\U{1680}'
    || ('\U{2000}' <= c <= '\U{200A}')
    || c == '\U{2028}' || c == '\U{2029}' || c == '\U{202F}' || c == '\U{205F}'
    || c == '\U{3000}' || c == '\U{FEFF}'
  }

  predicate IsAsciiLetter(c: char)
  {
    ('A' <= c <= 'Z') || ('a' <= c <= 'z')
  }

  // ---------------------------------------------------------------------------
  // The name pattern `^[A-Za-z\s]+$`

  /** Every character of `s` is in the class `[A-Za-z\s]`. */
  function AllNameChars(s: string): bool
  {
    s == [] || ((IsAsciiLetter(s[0]) || IsSpace(s[0])) && AllNameChars(s[1..]))
  }

  /** The anchored name pattern: one or more characters, all letters or spaces. */
  function NameMatches(s: string): bool
  {
    |s| > 0 && AllNameChars(s)
  }

  /** A name is valid when it is non-empty and made only of ASCII letters and whitespace. */
  ghost predicate ValidName(s: string)
  {
    |s| > 0 && forall i :: 0 <= i < |s| ==> IsAsciiLetter(s[i]) || IsSpace(s[i])
  }

  lemma {:induction false} AllNameCharsIff(s: string)
    ensures AllNameChars(s) <==> forall i :: 0 <= i < |s| ==> IsAsciiLetter(s[i]) || IsSpace(s[i])
  {
    if s != [] {
      AllNameCharsIff(s[1..]);
      assert forall i :: 1 <= i < |s| ==> s[i] == s[1..][i - 1];
    }
  }

  lemma NameMatchesIff(s: string)
    ensures NameMatches(s) <==> ValidName(s)
  {
    AllNameCharsIff(s);
  }

  // ---------------------------------------------------------------------------
  // The email pattern `\S+@\S+\.\S+`, unanchored

  /**
   * The pattern matches with its `@` at `at` and its `.` at `dot`: a non-space
   * character just before the `@`, a run of one or more non-space characters
   * between the `@` and the `.`, and a non-space character just after the `.`.
   * Longer runs on either end are allowed but not needed.
   */
  ghost predicate EmailMatchAt(s: string, at: int, dot: int)
  {
    && 1 <= at && at + 1 < dot && dot + 1 < |s|
    && s[at] == '@' && !IsSpace(s[at - 1])
    && (forall k :: at < k < dot ==> !IsSpace(s[k]))
    && s[dot] == '.' && !IsSpace(s[dot + 1])
  }

  /** Some substring of `s` matches `\S+@\S+\.\S+`. */
  ghost predicate ValidEmail(s: string)
  {
    exists at, dot :: EmailMatchAt(s, at, dot)
  }

  /**
   * Scans the domain part after the `@` at `at`: `s[at + 1..k]` is a run of
   * non-space characters, and the scan looks at `s[k]` for a `.` that ends a
   * non-empty run and is followed by a non-space character.
   */
  function DomainFrom(s: string, at: nat, k: nat): bool
    requires at < k
    decreases |s| - k
  {
    if k >= |s| || IsSpace(s[k]) then false
    else if s[k] == '.' && at + 1 < k && k + 1 < |s| && !IsSpace(s[k + 1]) then true
    else DomainFrom(s, at, k + 1)
  }

  /** Tries every `@` from position `i` on. */
  function EmailFrom(s: string, i: nat): bool
    decreases |s| - i
  {
    if i >= |s| then false
    else if s[i] == '@' && 1 <= i && !IsSpace(s[i - 1]) && DomainFrom(s, i, i + 1) then true
    else EmailFrom(s, i + 1)
  }

  /** The unanchored email pattern. */
  function EmailMatches(s: string): bool
  {
    EmailFrom(s, 0)
  }

  lemma {:induction false} DomainFromIff(s: string, at: nat, k: nat)
    requires 1 <= at < k && at < |s| && s[at] == '@' && !IsSpace(s[at - 1])
    requires forall j :: at < j < k ==> j < |s| && !IsSpace(s[j])
    ensures DomainFrom(s, at, k) <==> exists dot :: k <= dot && EmailMatchAt(s, at, dot)
    decreases |s| - k
  {
    if k >= |s| || IsSpace(s[k]) {
      assert forall dot :: k <= dot && EmailMatchAt(s, at, dot) ==> at < k < dot;
    } else if s[k] == '.' && at + 1 < k && k + 1 < |s| && !IsSpace(s[k + 1]) {
      assert EmailMatchAt(s, at, k);
    } else {
      DomainFromIff(s, at, k + 1);
      if exists dot :: k <= dot && EmailMatchAt(s, at, dot) {
        var dot :| k <= dot && EmailMatchAt(s, at, dot);
        assert dot != k;
      }
    }
  }

  lemma {:induction false} EmailFromIff(s: string, i: nat)
    ensures EmailFrom(s, i) <==> exists at, dot :: i <= at && EmailMatchAt(s, at, dot)
    decreases |s| - i
  {
    if i < |s| {
      EmailFromIff(s, i + 1);
      if s[i] == '@' && 1 <= i && !IsSpace(s[i - 1]) {
        DomainFromIff(s, i, i + 1);
      }
      if exists at, dot :: i <= at && EmailMatchAt(s, at, dot) {
        var at, dot :| i <= at && EmailMatchAt(s, at, dot);
        if at == i {
          DomainFromIff(s, i, i + 1);
        } else {
          assert i + 1 <= at;
        }
      }
    }
  }

  lemma EmailMatchesIff(s: string)
    ensures EmailMatches(s) <==> ValidEmail(s)
  {
    EmailFromIff(s, 0);
  }

  // ---------------------------------------------------------------------------
  // Trimming

  /** `String.prototype.trimStart`: drops the leading whitespace. */
  function TrimStart(s: string): (r: string)
    ensures |r| <= |s| && r == s[|s| - |r|..]
    ensures forall i :: 0 <= i < |s| - |r| ==> IsSpace(s[i])
    ensures r != [] ==> !IsSpace(r[0])
  {
    if s != [] && IsSpace(s[0]) then TrimStart(s[1..]) else s
  }

  /** `String.prototype.trimEnd`: drops the trailing whitespace. */
  function TrimEnd(s: string): (r: string)
    ensures |r| <= |s| && r == s[..|r|]
    ensures forall i :: |r| <= i < |s| ==> IsSpace(s[i])
    ensures r != [] ==> !IsSpace(r[|r| - 1])
  {
    if s != [] && IsSpace(s[|s| - 1]) then TrimEnd(s[..|s| - 1]) else s
  }

  /** `String.prototype.trim`. */
  function Trim(s: string): string
  {
    TrimEnd(TrimStart(s))
  }

  /** Trimming the end of a suffix `s[i..]` keeps a slice of `s` followed only by whitespace. */
  lemma TrimEndOfSuffix(s: string, i: nat)
    requires i <= |s|
    ensures i + |TrimEnd(s[i..])| <= |s|
    ensures TrimEnd(s[i..]) == s[i..i + |TrimEnd(s[i..])|]
    ensures forall k :: i + |TrimEnd(s[i..])| <= k < |s| ==> IsSpace(s[k])
  {
    var t := s[i..];
    var r := TrimEnd(t);
    assert r == t[..|r|];
    forall k | i + |r| <= k < |s|
      ensures IsSpace(s[k])
    {
      assert s[k] == t[k - i];
    }
  }

  /**
   * Trimming keeps exactly the stretch of `s` from its first to its last
   * non-space character: everything cut away is whitespace, and what remains
   * neither starts nor ends with whitespace.
   */
  lemma TrimIsInnerStretch(s: string)
    ensures exists i, j :: && 0 <= i <= j <= |s| && Trim(s) == s[i..j]
                           && (forall k :: 0 <= k < i ==> IsSpace(s[k]))
                           && (forall k :: j <= k < |s| ==> IsSpace(s[k]))
    ensures Trim(s) != [] ==> !IsSpace(Trim(s)[0]) && !IsSpace(Trim(s)[|Trim(s)| - 1])
  {
    var t := TrimStart(s);
    var i := |s| - |t|;
    assert t == s[i..];
    TrimEndOfSuffix(s, i);
    var j := i + |TrimEnd(t)|;
    assert Trim(s) == s[i..j];
  }

  // ---------------------------------------------------------------------------
  // Validation

  /** The form's three controlled inputs. */
  datatype FormData = FormData(name: string, email: string, message: string)

  datatype Field = Name | Email | Message

  const NameError := "Please enter a valid name."
  const EmailError := "Please enter a valid email."
  const MessageError := "Please enter a longer message."

  /** Shortest message accepted, counted after trimming. */
  const MinMessageLength := 5

  function ErrorText(f: Field): string
  {
    match f
    case Name => NameError
    case Email => EmailError
    case Message => MessageError
  }

  /**
   * `validate`: one entry per failing field, each with its fixed message; the
   * name must be letters and whitespace, the email must contain the email
   * pattern somewhere, and the trimmed message must have at least five
   * characters.
   */
  function Validate(data: FormData): (errors: map<Field, string>)
    ensures Name in errors <==> !ValidName(data.name)
    ensures Email in errors <==> !ValidEmail(data.email)
    ensures Message in errors <==> |Trim(data.message)| < MinMessageLength
    ensures forall f :: f in errors ==> errors[f] == ErrorText(f)
  {
    NameMatchesIff(data.name);
    EmailMatchesIff(data.email);
    var e0: map<Field, string> := map[];
    var e1 := if NameMatches(data.name) then e0 else e0[Name := NameError];
    var e2 := if EmailMatches(data.email) then e1 else e1[Email := EmailError];
    if |Trim(data.message)| >= MinMessageLength then e2 else e2[Message := MessageError]
  }

  /** A form passes validation exactly when all three fields are valid. */
  lemma NoErrorsIffValid(data: FormData)
    ensures |Validate(data)| == 0 <==>
      ValidName(data.name) && ValidEmail(data.email) && |Trim(data.message)| >= MinMessageLength
  {
    var e := Validate(data);
    if |e| == 0 {
      assert e == map[];
    } else {
      var f :| f in e;
    }
  }

  // ---------------------------------------------------------------------------
  // Submission

  /** The form's status line: nothing, the success banner, or the failure banner. */
  datatype Status = Blank | Success | Failure

  /** The template parameters handed to the email relay. */
  datatype EmailParams = EmailParams(fromName: string, fromEmail: string, message: string)

  const DefaultSendError := "Unknown error. Check your EmailJS configuration."

  /**
   * The text shown for a failed send: the error's `text` if it is present and
   * non-empty, otherwise its `message` under the same condition, otherwise a
   * fixed default. It is never empty.
   */
  function FailureText(text: Option<string>, message: Option<string>): (r: string)
    ensures r != ""
    ensures text.Some? && text.value != "" ==> r == text.value
    ensures !(text.Some? && text.value != "") && message.Some? && message.value != "" ==> r == message.value
    ensures (text == None || text == Some("")) && (message == None || message == Some("")) ==>
      r == DefaultSendError
  {
    if text.Some? && text.value != "" then text.value
    else if message.Some? && message.value != "" then message.value
    else DefaultSendError
  }

  const EmptyForm := FormData("", "", "")

  class Form {
    var data: FormData
    var errors: map<Field, string>
    var status: Status
    var errorMessage: string
    var loading: bool

    /** The initial state of the component's five state hooks. */
    constructor ()
      ensures data == EmptyForm && errors == map[] && status == Blank
      ensures errorMessage == "" && !loading
    {
      data := EmptyForm;
      errors := map[];
      status := Blank;
      errorMessage := "";
      loading := false;
    }

    /** The `onChange` handler of one input: that field takes the typed value. */
    method Edit(field: Field, value: string)
      modifies this
      ensures data == match field
                      case Name => old(data).(name := value)
                      case Email => old(data).(email := value)
                      case Message => old(data).(message := value)
      ensures errors == old(errors) && status == old(status)
      ensures errorMessage == old(errorMessage) && loading == old(loading)
    {
      match field
      case Name => data := data.(name := value);
      case Email => data := data.(email := value);
      case Message => data := data.(message := value);
    }

    /**
     * `sendEmail`: records the validation result and clears the status line;
     * with any error it stops there, otherwise it turns on the spinner and
     * returns the request for the relay.
     */
    method Submit() returns (request: Option<EmailParams>)
      modifies this
      ensures errors == Validate(old(data))
      ensures status == Blank && errorMessage == "" && data == old(data)
      ensures request.Some? <==>
        ValidName(data.name) && ValidEmail(data.email) && |Trim(data.message)| >= MinMessageLength
      ensures request.None? ==> loading == old(loading)
      ensures request.Some? ==> loading && request.value == EmailParams(data.name, data.email, data.message)
    {
      var validationErrors := Validate(data);
      NoErrorsIffValid(data);
      errors := validationErrors;
      status := Blank;
      errorMessage := "";
      if |validationErrors| > 0 {
        return None;
      }
      loading := true;
      request := Some(EmailParams(data.name, data.email, data.message));
    }

    /** The relay accepted the message: spinner off, success banner, fields cleared. */
    method OnSuccess()
      modifies this
      ensures !loading && status == Success && data == EmptyForm
      ensures errors == old(errors) && errorMessage == old(errorMessage)
    {
      loading := false;
      status := Success;
      data := EmptyForm;
    }

    /** The relay failed: spinner off, failure banner with the error's text, fields kept. */
    method OnFailure(text: Option<string>, message: Option<string>)
      modifies this
      ensures !loading && status == Failure && errorMessage == FailureText(text, message)
      ensures data == old(data) && errors == old(errors)
    {
      loading := false;
      status := Failure;
      errorMessage := FailureText(text, message);
    }
  }
}
