/**
 * The contact page (scripts/contact.js): the e-mail check, the order of the
 * submit handler's checks, the submit button's loading state and the
 * `focused` marker of the input fields.
 */
module Contact {
  import opened JsRuntime
  import Common

  // ---------------------------------------------------------------------
  // isValidEmail

  /** A run of the class `[^\s@]+`: non-empty, without whitespace and without `@`. */
  predicate Atom(w: string) {
    |w| > 0 && forall i :: 0 <= i < |w| ==> !IsSpace(w[i]) && w[i] != '@'
  }

  /** `/^[^\s@]+@[^\s@]+\.[^\s@]+$/` read piece by piece: an atom, `@`, an atom, `.`, an atom. */
  ghost predicate MatchesEmailPattern(s: string) {
    exists i, j :: 0 < i < j < |s| - 1 && s[i] == '@' && s[j] == '.'
      && Atom(s[..i]) && Atom(s[i + 1..j]) && Atom(s[j + 1..])
  }

  /** Offset of the first occurrence of `c` in `s`, or `|s|`. */
  function IndexOf(s: string, c: char): (k: nat)
    ensures k <= |s| && (k < |s| ==> s[k] == c)
    ensures forall i :: 0 <= i < k ==> s[i] != c
  {
    if s == [] || s[0] == c then 0 else 1 + IndexOf(s[1..], c)
  }

  /** What may follow the `@`: no whitespace, no `@`, and a `.` that is neither first nor last. */
  predicate Domain(r: string) {
    (forall i :: 0 <= i < |r| ==> !IsSpace(r[i]) && r[i] != '@') && |r| >= 3 && '.' in r[1..|r| - 1]
  }

  /** `isValidEmail(email)`: an accepted address has no whitespace and exactly one `@`. */
  predicate IsValidEmail(s: string): (b: bool)
    ensures b ==> '@' in s && forall p, q :: 0 <= p < q < |s| && s[p] == '@' ==> s[q] != '@'
    ensures b ==> forall p :: 0 <= p < |s| ==> !IsSpace(s[p])
  {
    var k := IndexOf(s, '@');
    if k < |s| then
      var r := s[k + 1..];
      assert forall p :: k < p < |s| ==> s[p] == r[p - k - 1];
      assert forall p :: 0 <= p < k ==> s[p] == s[..k][p];
      Atom(s[..k]) && Domain(r)
    else
      false
  }

  /** Every address the check accepts matches the regular expression. */
  lemma ValidEmailMatchesPattern(s: string)
    requires IsValidEmail(s)
    ensures MatchesEmailPattern(s)
  {
    var k := IndexOf(s, '@');
    var r := s[k + 1..];
    var m :| 0 <= m < |r| - 2 && r[1..|r| - 1][m] == '.';
    var j := k + 2 + m;
    assert s[j] == '.';
    assert s[k + 1..j] == r[..m + 1];
    assert s[j + 1..] == r[m + 2..];
    assert Atom(s[k + 1..j]) by {
      forall p | 0 <= p < m + 1 ensures r[..m + 1][p] == r[p] { }
    }
    assert Atom(s[j + 1..]) by {
      forall p | m + 2 <= p < |r| ensures r[m + 2..][p - m - 2] == r[p] { }
    }
    assert 0 < k < j < |s| - 1 && s[k] == '@' && s[j] == '.'
      && Atom(s[..k]) && Atom(s[k + 1..j]) && Atom(s[j + 1..]);
  }

  /** Every address the regular expression matches passes the check. */
  lemma PatternMatchIsValidEmail(s: string, i: nat, j: nat)
    requires 0 < i < j < |s| - 1 && s[i] == '@' && s[j] == '.'
    requires Atom(s[..i]) && Atom(s[i + 1..j]) && Atom(s[j + 1..])
    ensures IsValidEmail(s)
  {
    var k := IndexOf(s, '@');
    assert k == i by {
      assert forall p :: 0 <= p < i ==> s[..i][p] == s[p];
    }
    var r := s[k + 1..];
    forall p | 0 <= p < |r|
      ensures !IsSpace(r[p]) && r[p] != '@'
    {
      if k + 1 + p < j {
        assert r[p] == s[i + 1..j][p];
      } else if k + 1 + p > j {
        assert r[p] == s[j + 1..][k + 1 + p - (j + 1)];
      }
    }
    assert r[1..|r| - 1][j - k - 2] == '.';
  }

  /** The check accepts exactly the addresses the regular expression matches. */
  lemma EmailCheckMatchesPattern(s: string)
    ensures IsValidEmail(s) <==> MatchesEmailPattern(s)
  {
    if IsValidEmail(s) {
      ValidEmailMatchesPattern(s);
    }
    if MatchesEmailPattern(s) {
      var i: nat, j: nat :| 0 < i < j < |s| - 1 && s[i] == '@' && s[j] == '.'
        && Atom(s[..i]) && Atom(s[i + 1..j]) && Atom(s[j + 1..]);
      PatternMatchIsValidEmail(s, i, j);
    }
  }

  /** The part after `@` must hold a `.` between two non-empty pieces. */
  lemma DomainNeedsInnerDot()
    ensures !IsValidEmail("a@b") && !IsValidEmail("a@b.") && !IsValidEmail("a@.")
  {
    assert IndexOf("a@b", '@') == 1 by { assert "a@b"[1..] == "@b"; }
    assert IndexOf("a@b.", '@') == 1 by { assert "a@b."[1..] == "@b."; }
    assert IndexOf("a@.", '@') == 1 by { assert "a@."[1..] == "@."; }
    assert "a@b."[2..][1..1] == [];
  }

  /** A plain address passes. */
  lemma PlainAddressIsValid()
    ensures IsValidEmail("a@b.c")
  {
    PatternMatchIsValidEmail("a@b.c", 1, 3);
  }

  /** A second `@` fails the check. */
  lemma SecondAtIsRejected()
    ensures !IsValidEmail("a@b@c.d")
  {
    assert IndexOf("a@b@c.d", '@') == 1 by { assert "a@b@c.d"[1..] == "@b@c.d"; }
    assert "a@b@c.d"[2..][1] == '@';
  }

  // ---------------------------------------------------------------------
  // The submit handler's checks

  datatype FormData = FormData(name: string, email: string, subject: string, message: string)

  /** Which check a submission stops at, in the order the handler runs them. */
  datatype Check = MissingField | BadEmail | Passed

  const MissingFieldMessage := "Please fill in all required fields"
  const BadEmailMessage := "Please enter a valid email address"
  const SuccessMessage := "Message sent successfully! I'll get back to you soon."
  const IdleText := "Send Message"
  const SendingText := "Sending..."

  /** The required-field check first, then the e-mail check. */
  function Validate(f: FormData): (c: Check)
    ensures c == MissingField <==> f.name == "" || f.email == "" || f.message == ""
    ensures c == BadEmail <==> f.name != "" && f.email != "" && f.message != "" && !IsValidEmail(f.email)
    ensures c == Passed <==> f.name != "" && f.message != "" && IsValidEmail(f.email)
  {
    if f.name == "" || f.email == "" || f.message == "" then MissingField
    else if !IsValidEmail(f.email) then BadEmail
    else Passed
  }

  /** The subject takes no part in validation. */
  lemma SubjectIsOptional(f: FormData, subject: string)
    ensures Validate(f.(subject := subject)) == Validate(f)
  {
  }

  function ErrorMessage(c: Check): string
    requires c != Passed
  {
    if c == MissingField then MissingFieldMessage else BadEmailMessage
  }

  /**
   * The contact form: the field values, the submit button (which may be missing) with its
   * label and spinner, the success and error blocks, the notifications shown so far and the
   * number of submissions waiting out the simulated network delay.
   */
  class ContactForm {
    var fields: FormData
    const hasButton: bool
    var buttonDisabled: bool
    var submitText: string
    var loaderHidden: bool
    var successHidden: bool
    var errorHidden: bool
    var errorText: string
    var notices: seq<Common.Notification>
    var pending: nat

    constructor (hasButton: bool)
      ensures this.hasButton == hasButton && fields == FormData("", "", "", "")
      ensures !buttonDisabled && submitText == IdleText && loaderHidden
      ensures successHidden && errorHidden && notices == [] && pending == 0
    {
      this.hasButton := hasButton;
      fields := FormData("", "", "", "");
      buttonDisabled := false;
      submitText := IdleText;
      loaderHidden := true;
      successHidden := true;
      errorHidden := true;
      errorText := "";
      notices := [];
      pending := 0;
    }

    /** The user edits the fields. */
    method Edit(f: FormData)
      modifies this`fields
      ensures fields == f
    {
      fields := f;
    }

    /** `setSubmitLoading(loading)`: nothing happens without a submit button. */
    method SetSubmitLoading(loading: bool)
      modifies this`buttonDisabled, this`submitText, this`loaderHidden
      ensures hasButton ==>
        buttonDisabled == loading && submitText == (if loading then SendingText else IdleText)
        && loaderHidden == !loading
      ensures !hasButton ==>
        buttonDisabled == old(buttonDisabled) && submitText == old(submitText) && loaderHidden == old(loaderHidden)
    {
      if !hasButton {
        return;
      }
      if loading {
        buttonDisabled := true;
        submitText := SendingText;
        loaderHidden := false;
      } else {
        buttonDisabled := false;
        submitText := IdleText;
        loaderHidden := true;
      }
    }

    /** `showError(message)`. */
    method ShowError(message: string)
      modifies this`errorText, this`errorHidden, this`notices
      ensures errorText == message && !errorHidden
      ensures notices == old(notices) + [Common.Notification(message, false)]
    {
      errorText := message;
      errorHidden := false;
      notices := notices + [Common.Notification(message, false)];
    }

    /**
     * The synchronous part of the submit handler, up to the simulated delay. A failed check
     * shows its message and leaves the button alone; a passing one enters the loading state.
     */
    method Submit() returns (c: Check)
      modifies this`errorText, this`errorHidden, this`notices, this`successHidden,
        this`buttonDisabled, this`submitText, this`loaderHidden, this`pending
      ensures c == Validate(fields)
      ensures c != Passed ==>
        errorText == ErrorMessage(c) && !errorHidden
        && notices == old(notices) + [Common.Notification(ErrorMessage(c), false)]
        && successHidden == old(successHidden) && pending == old(pending)
        && buttonDisabled == old(buttonDisabled) && submitText == old(submitText)
        && loaderHidden == old(loaderHidden)
      ensures c == Passed ==>
        successHidden && errorHidden && errorText == old(errorText) && notices == old(notices)
        && pending == old(pending) + 1
        && (hasButton ==> buttonDisabled && submitText == SendingText && !loaderHidden)
        && (!hasButton ==>
              buttonDisabled == old(buttonDisabled) && submitText == old(submitText)
              && loaderHidden == old(loaderHidden))
    {
      c := Validate(fields);
      if c != Passed {
        ShowError(ErrorMessage(c));
        return;
      }
      SetSubmitLoading(true);
      successHidden := true;
      errorHidden := true;
      pending := pending + 1;
    }

    /** The rest of the handler once the delay is over: success shown, form reset, loading ended. */
    method CompleteSubmission()
      requires pending > 0
      modifies this`successHidden, this`notices, this`fields,
        this`buttonDisabled, this`submitText, this`loaderHidden, this`pending
      ensures !successHidden && notices == old(notices) + [Common.Notification(SuccessMessage, true)]
      ensures fields == FormData("", "", "", "") && pending == old(pending) - 1
      ensures hasButton ==> !buttonDisabled && submitText == IdleText && loaderHidden
      ensures !hasButton ==>
        buttonDisabled == old(buttonDisabled) && submitText == old(submitText) && loaderHidden == old(loaderHidden)
    {
      successHidden := false;
      notices := notices + [Common.Notification(SuccessMessage, true)];
      fields := FormData("", "", "", "");
      SetSubmitLoading(false);
      pending := pending - 1;
    }
  }

  /** A passing submission, once complete, always leaves the button idle again. */
  method SubmitAndComplete(form: ContactForm) returns (c: Check)
    requires form.hasButton
    modifies form
    ensures c == Validate(old(form.fields))
    ensures c == Passed ==> !form.buttonDisabled && form.submitText == IdleText && form.loaderHidden
    ensures c != Passed ==> form.buttonDisabled == old(form.buttonDisabled) && form.submitText == old(form.submitText)
  {
    c := form.Submit();
    if c == Passed {
      form.CompleteSubmission();
    }
  }

  // ---------------------------------------------------------------------
  // setupInputAnimations

  /** An `.input-field` and whether its parent carries `focused`. */
  class InputField {
    var value: string
    var parentFocused: bool

    constructor (value: string, parentFocused: bool)
      ensures this.value == value && this.parentFocused == parentFocused
    {
      this.value := value;
      this.parentFocused := parentFocused;
    }

    method Focus()
      modifies this`parentFocused
      ensures parentFocused
    {
      parentFocused := true;
    }

    /** Blur drops `focused` only from an empty field. */
    method Blur()
      modifies this`parentFocused
      ensures parentFocused <==> old(parentFocused) && value != ""
    {
      if value == "" {
        parentFocused := false;
      }
    }
  }
}
