/**
  The contact form: three validated inputs, their inline error messages,
  and the submit rule. Each input is a Field object whose value, class list
  and following siblings the form updates in place.
*/
module Form {
  import opened Wrappers
  import opened Text
  import opened EmailPattern
  import opened Siblings

  const NameError := "Name must be at least 2 characters"
  const EmailError := "Please enter a valid email"
  const MessageError := "Message must be at least 10 characters"
  const SuccessText := "Message sent successfully!"
  const FailureText := "Failed to send message. Please try again."
  const InputErrorClass := "input-error"
  const SuccessClass := "success-message"

  /** The three rules, each on the trimmed value; lengths are .length, that
      is, UTF-16 code units. */
  predicate NameValid(v: string) {
    Utf16Length(Trim(v)) >= 2
  }

  predicate EmailValid(v: string) {
    EmailRegexTest(Trim(v))
  }

  predicate MessageValid(v: string) {
    Utf16Length(Trim(v)) >= 10
  }

  /** The record submitForm hands to the sender. */
  datatype FormData = FormData(name: string, email: string, message: string)

  /** The submit rule: a payload exists exactly when all three rules hold,
      it carries the trimmed values, and those values pass the rules again
      and are left unchanged by trimming. */
  function Submission(name: string, email: string, message: string): (r: Option<FormData>)
    ensures r.Some? <==> NameValid(name) && EmailValid(email) && MessageValid(message)
    ensures r.Some? ==> r.value == FormData(Trim(name), Trim(email), Trim(message))
    ensures r.Some? ==> Trim(r.value.name) == r.value.name && Trim(r.value.email) == r.value.email
                        && Trim(r.value.message) == r.value.message
    ensures r.Some? ==> NameValid(r.value.name) && EmailValid(r.value.email) && MessageValid(r.value.message)
  {
    if NameValid(name) && EmailValid(email) && MessageValid(message) then
      TrimIdempotent(name);
      TrimIdempotent(email);
      TrimIdempotent(message);
      Some(FormData(Trim(name), Trim(email), Trim(message)))
    else None
  }

  /** Whitespace the user types around a value never changes a verdict. */
  lemma ValidatorsIgnorePadding(a: string, v: string, b: string)
    requires AllSpace(a) && AllSpace(b)
    ensures NameValid(a + v + b) <==> NameValid(v)
    ensures EmailValid(a + v + b) <==> EmailValid(v)
    ensures MessageValid(a + v + b) <==> MessageValid(v)
  {
    TrimIgnoresPadding(a, v, b);
  }

  /** On a value with no surrounding whitespace and no character outside the
      Basic Multilingual Plane, the length rules are plain length bounds. */
  lemma LengthRules(v: string)
    requires Trimmed(v)
    requires forall k :: 0 <= k < |v| ==> v[k] as int <= 0xFFFF
    ensures NameValid(v) <==> |v| >= 2
    ensures MessageValid(v) <==> |v| >= 10
  {
    TrimOfTrimmed(v);
    BmpLength(v);
  }

  /** The name examples: "" and "a" fail, "ab" and "Alice" pass. */
  lemma NameTooShort()
    ensures !NameValid("") && !NameValid("a")
  {
    LengthRules("a");
  }

  lemma NameLongEnough()
    ensures NameValid("ab") && NameValid("Alice")
  {
    LengthRules("ab");
    LengthRules("Alice");
  }

  /** One emoji is a valid name: .length counts it as two code units. */
  lemma NameCountsCodeUnits()
    ensures NameValid("\U{1F600}")
  {
    TrimOfTrimmed("\U{1F600}");
  }

  /** The message boundary: nine characters fail, ten pass. */
  lemma MessageTooShort()
    ensures !MessageValid("123456789")
  {
    LengthRules("123456789");
  }

  lemma MessageLongEnough()
    ensures MessageValid("1234567890")
  {
    LengthRules("1234567890");
  }

  /** The e-mail examples: trimming does not alter them, so the verdict is the
      pattern's. */
  lemma EmailExamples()
    ensures EmailValid("a@b.c") && EmailValid("a@b.c.d") && EmailValid("a@.b.c")
    ensures !EmailValid("a@b") && !EmailValid("a.b@") && !EmailValid("noatsign")
    ensures !EmailValid("a@@b.c") && !EmailValid("a@b.")
  {
    Accepted();
    Rejected();
    TrimOfTrimmed("a@b.c");
    TrimOfTrimmed("a@b.c.d");
    TrimOfTrimmed("a@.b.c");
    TrimOfTrimmed("a@b");
    TrimOfTrimmed("a.b@");
    TrimOfTrimmed("noatsign");
    TrimOfTrimmed("a@@b.c");
    TrimOfTrimmed("a@b.");
  }

  /** A form input: its value, its class list and the elements after it. */
  class Field {
    var value: string
    var classes: set<string>
    var siblings: seq<Element>

    constructor (value: string, classes: set<string>, siblings: seq<Element>)
      ensures this.value == value && this.classes == classes && this.siblings == siblings
    {
      this.value := value;
      this.classes := classes;
      this.siblings := siblings;
    }
  }

  /** f's error display after a validation with verdict ok, from the class
      list c0 and following siblings s0 it had before. */
  ghost predicate Refreshed(f: Field, c0: set<string>, s0: seq<Element>, ok: bool, message: string)
    reads f
  {
    && f.siblings == (if ok then Cleared(s0) else Shown(s0, message))
    && f.classes == (if ok then c0 - {InputErrorClass} else c0 + {InputErrorClass})
  }

  class ContactForm {
    const nameInput: Field
    const emailInput: Field
    const messageInput: Field
    /** Banners prepended to the form, newest first. */
    var banners: seq<Element>
    /** Payloads handed to the sender whose outcome has not arrived yet, oldest first. */
    var pending: seq<FormData>

    ghost predicate Valid() {
      nameInput != emailInput && nameInput != messageInput && emailInput != messageInput
    }

    /** At most one error message after each input. */
    ghost predicate ErrorsNotStacked()
      reads nameInput, emailInput, messageInput
    {
      NotStacked(nameInput.siblings) && NotStacked(emailInput.siblings) && NotStacked(messageInput.siblings)
    }

    constructor (nameInput: Field, emailInput: Field, messageInput: Field)
      requires nameInput != emailInput && nameInput != messageInput && emailInput != messageInput
      ensures Valid()
      ensures this.nameInput == nameInput && this.emailInput == emailInput && this.messageInput == messageInput
      ensures banners == [] && pending == []
    {
      this.nameInput := nameInput;
      this.emailInput := emailInput;
      this.messageInput := messageInput;
      banners := [];
      pending := [];
    }

    method ShowError(input: Field, message: string)
      modifies input
      ensures input.siblings == Shown(old(input.siblings), message)
      ensures input.classes == old(input.classes) + {InputErrorClass}
      ensures input.value == old(input.value)
    {
      var errorElement := ErrorElement(message);
      if |input.siblings| > 0 && IsErrorMessage(input.siblings[0]) {
        input.siblings := input.siblings[1..];
      }
      input.classes := input.classes + {InputErrorClass};
      input.siblings := [errorElement] + input.siblings;
    }

    method ClearError(input: Field)
      modifies input
      ensures input.siblings == Cleared(old(input.siblings))
      ensures input.classes == old(input.classes) - {InputErrorClass}
      ensures input.value == old(input.value)
    {
      input.classes := input.classes - {InputErrorClass};
      if |input.siblings| > 0 && IsErrorMessage(input.siblings[0]) {
        input.siblings := input.siblings[1..];
      }
    }

    method ValidateName() returns (ok: bool)
      modifies nameInput
      ensures ok == NameValid(nameInput.value)
      ensures nameInput.value == old(nameInput.value)
      ensures Refreshed(nameInput, old(nameInput.classes), old(nameInput.siblings), ok, NameError)
    {
      var nameValue := Trim(nameInput.value);
      if Utf16Length(nameValue) < 2 {
        ShowError(nameInput, NameError);
        ok := false;
      } else {
        ClearError(nameInput);
        ok := true;
      }
    }

    method ValidateEmail() returns (ok: bool)
      modifies emailInput
      ensures ok == EmailValid(emailInput.value)
      ensures emailInput.value == old(emailInput.value)
      ensures Refreshed(emailInput, old(emailInput.classes), old(emailInput.siblings), ok, EmailError)
    {
      var emailValue := Trim(emailInput.value);
      if !EmailRegexTest(emailValue) {
        ShowError(emailInput, EmailError);
        ok := false;
      } else {
        ClearError(emailInput);
        ok := true;
      }
    }

    method ValidateMessage() returns (ok: bool)
      modifies messageInput
      ensures ok == MessageValid(messageInput.value)
      ensures messageInput.value == old(messageInput.value)
      ensures Refreshed(messageInput, old(messageInput.classes), old(messageInput.siblings), ok, MessageError)
    {
      var messageValue := Trim(messageInput.value);
      if Utf16Length(messageValue) < 10 {
        ShowError(messageInput, MessageError);
        ok := false;
      } else {
        ClearError(messageInput);
        ok := true;
      }
    }

    /** The submit handler: all three validators run, so every field's error
        display is refreshed; the payload is handed to the sender exactly
        when all three pass. */
    method HandleSubmit() returns (submitted: bool)
      requires Valid()
      modifies nameInput, emailInput, messageInput, this`pending
      ensures submitted <==> Submission(old(nameInput.value), old(emailInput.value), old(messageInput.value)).Some?
      ensures pending == old(pending) + match Submission(old(nameInput.value), old(emailInput.value), old(messageInput.value))
                                        case Some(d) => [d]
                                        case None => []
      ensures nameInput.value == old(nameInput.value) && emailInput.value == old(emailInput.value)
              && messageInput.value == old(messageInput.value)
      ensures Refreshed(nameInput, old(nameInput.classes), old(nameInput.siblings), NameValid(nameInput.value), NameError)
      ensures Refreshed(emailInput, old(emailInput.classes), old(emailInput.siblings), EmailValid(emailInput.value), EmailError)
      ensures Refreshed(messageInput, old(messageInput.classes), old(messageInput.siblings),
                        MessageValid(messageInput.value), MessageError)
      ensures old(ErrorsNotStacked()) ==> ErrorsNotStacked()
      ensures old(ErrorsNotStacked()) ==>
                && (HasError(nameInput.siblings) <==> !NameValid(nameInput.value))
                && (HasError(emailInput.siblings) <==> !EmailValid(emailInput.value))
                && (HasError(messageInput.siblings) <==> !MessageValid(messageInput.value))
    {
      var isNameValid := ValidateName();
      var isEmailValid := ValidateEmail();
      var isMessageValid := ValidateMessage();
      submitted := isNameValid && isEmailValid && isMessageValid;
      if submitted {
        SubmitForm();
      }
    }

    /** Hands the trimmed values to the sender; the outcome arrives later,
        through ResolveSubmission. */
    method SubmitForm()
      modifies this`pending
      ensures pending == old(pending) + [FormData(Trim(nameInput.value), Trim(emailInput.value), Trim(messageInput.value))]
    {
      var formData := FormData(Trim(nameInput.value), Trim(emailInput.value), Trim(messageInput.value));
      pending := pending + [formData];
    }

    /** The sender's outcome for the oldest pending payload arrives: a banner
        is prepended and, on success, the fields are emptied. */
    method ResolveSubmission(success: bool)
      requires Valid() && pending != []
      modifies this`pending, this`banners, nameInput`value, emailInput`value, messageInput`value
      ensures pending == old(pending)[1..]
      ensures banners == [if success then Element({SuccessClass}, SuccessText) else Element({ErrorClass}, FailureText)]
                         + old(banners)
      ensures success ==> nameInput.value == "" && emailInput.value == "" && messageInput.value == ""
      ensures !success ==> nameInput.value == old(nameInput.value) && emailInput.value == old(emailInput.value)
                           && messageInput.value == old(messageInput.value)
    {
      pending := pending[1..];
      if success {
        ShowSuccessMessage(SuccessText);
        ResetForm();
      } else {
        ShowErrorMessage(FailureText);
      }
    }

    method ShowSuccessMessage(message: string)
      modifies this`banners
      ensures banners == [Element({SuccessClass}, message)] + old(banners)
    {
      var successMessage := Element({SuccessClass}, message);
      banners := [successMessage] + banners;
    }

    method ShowErrorMessage(message: string)
      modifies this`banners
      ensures banners == [Element({ErrorClass}, message)] + old(banners)
    {
      var errorMessage := Element({ErrorClass}, message);
      banners := [errorMessage] + banners;
    }

    /** Empties the three values; error displays are left as they are, as
        assigning a value raises no input event. */
    method ResetForm()
      requires Valid()
      modifies nameInput`value, emailInput`value, messageInput`value
      ensures nameInput.value == "" && emailInput.value == "" && messageInput.value == ""
    {
      nameInput.value := "";
      emailInput.value := "";
      messageInput.value := "";
    }
  }
}
