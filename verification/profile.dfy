/**
 The validation logic of the profile page: the additional-email list, the
 password-change form and the profile save. Toasts become a result value.
 */
module Profile {
  import opened Text
  import Seqs

  datatype Problem =
    | NameAndEmailRequired
    | EmailAlreadyRegistered
    | PasswordFieldsRequired
    | PasswordsDiffer
    | PasswordTooShort

  /** The toast a handler shows, if any. */
  datatype Toast = NoToast | ErrorToast(problem: Problem) | SuccessToast

  /** The additional addresses and the text of the "new email" input. */
  datatype EmailForm = EmailForm(additionalEmails: seq<string>, newEmail: string)

  /**
   `handleAddEmail`: ignore a blank input, refuse an address already listed or
   equal to the primary one, otherwise append it and clear the input.
   */
  function AddEmail(f: EmailForm, primaryEmail: string): (r: (EmailForm, Toast))
    ensures IsBlank(f.newEmail) ==> r == (f, NoToast)
    ensures !IsBlank(f.newEmail) && (f.newEmail in f.additionalEmails || f.newEmail == primaryEmail) ==>
      r == (f, ErrorToast(EmailAlreadyRegistered))
    ensures r.1 == SuccessToast <==>
      !IsBlank(f.newEmail) && f.newEmail !in f.additionalEmails && f.newEmail != primaryEmail
    ensures r.1 == SuccessToast ==> r.0 == EmailForm(f.additionalEmails + [f.newEmail], "")
    ensures Seqs.Distinct(f.additionalEmails) ==> Seqs.Distinct(r.0.additionalEmails)
    ensures primaryEmail !in f.additionalEmails ==> primaryEmail !in r.0.additionalEmails
  {
    TrimEmptyIffBlank(f.newEmail);
    if Trim(f.newEmail) == "" then (f, NoToast)
    else if f.newEmail in f.additionalEmails || f.newEmail == primaryEmail then (f, ErrorToast(EmailAlreadyRegistered))
    else (EmailForm(f.additionalEmails + [f.newEmail], ""), SuccessToast)
  }

  /** The filter `e => e !== email`. */
  function Other(email: string): string -> bool
  {
    (e: string) => e != email
  }

  /** `handleRemoveEmail`: drop every occurrence of `email`, keep the others in order. */
  function RemoveEmail(emails: seq<string>, email: string): (r: seq<string>)
    ensures email !in r
    ensures forall e :: e != email ==> multiset(r)[e] == multiset(emails)[e]
    ensures Seqs.Subsequence(r, emails)
    ensures Seqs.Distinct(emails) ==> Seqs.Distinct(r)
  {
    Seqs.FilterCounts(Other(email), emails);
    Seqs.FilterIsSubsequence(Other(email), emails);
    Seqs.FilterKeepsDistinct(Other(email), emails);
    Seqs.Filter(Other(email), emails)
  }

  /** Removing an address right after adding it restores the previous list. */
  lemma RemoveUndoesAdd(f: EmailForm, primaryEmail: string)
    requires AddEmail(f, primaryEmail).1 == SuccessToast
    ensures RemoveEmail(AddEmail(f, primaryEmail).0.additionalEmails, f.newEmail) == f.additionalEmails
  {
    var keep := Other(f.newEmail);
    Seqs.FilterAppend(keep, f.additionalEmails, [f.newEmail]);
    Seqs.FilterKeepsAll(keep, f.additionalEmails);
  }

  datatype PasswordForm = PasswordForm(currentPassword: string, newPassword: string, confirmPassword: string)

  const EmptyPasswordForm := PasswordForm("", "", "")

  /** The password form and whether its dialog is open. */
  datatype PasswordDialog = PasswordDialog(form: PasswordForm, open: bool)

  /** The new password is long enough: at least 6 UTF-16 code units, as JavaScript's `length` counts. */
  predicate LongEnough(password: string)
  {
    Utf16Length(password) >= 6
  }

  /**
   `handleChangePassword`: the first failing check, in order (all fields filled,
   passwords equal, long enough), decides the error; success clears the form
   and closes the dialog.
   */
  function ChangePassword(d: PasswordDialog): (r: (PasswordDialog, Toast))
    ensures r.1 == SuccessToast <==>
      && d.form.currentPassword != "" && d.form.newPassword != "" && d.form.confirmPassword != ""
      && d.form.newPassword == d.form.confirmPassword
      && LongEnough(d.form.newPassword)
    ensures r.1 == ErrorToast(PasswordFieldsRequired) <==>
      d.form.currentPassword == "" || d.form.newPassword == "" || d.form.confirmPassword == ""
    ensures r.1 == ErrorToast(PasswordsDiffer) <==>
      && d.form.currentPassword != "" && d.form.newPassword != "" && d.form.confirmPassword != ""
      && d.form.newPassword != d.form.confirmPassword
    ensures r.1 == ErrorToast(PasswordTooShort) <==>
      && d.form.currentPassword != "" && d.form.newPassword != "" && d.form.confirmPassword != ""
      && d.form.newPassword == d.form.confirmPassword
      && !LongEnough(d.form.newPassword)
    ensures r.1 == SuccessToast ==> r.0 == PasswordDialog(EmptyPasswordForm, false)
    ensures r.1 != SuccessToast ==> r.0 == d && r.1.ErrorToast?
  {
    var f := d.form;
    if f.currentPassword == "" || f.newPassword == "" || f.confirmPassword == "" then (d, ErrorToast(PasswordFieldsRequired))
    else if f.newPassword != f.confirmPassword then (d, ErrorToast(PasswordsDiffer))
    else if Utf16Length(f.newPassword) < 6 then (d, ErrorToast(PasswordTooShort))
    else (PasswordDialog(EmptyPasswordForm, false), SuccessToast)
  }

  /** Submitting the form again: after a success the fields are empty; after a refusal the same error repeats. */
  lemma ChangePasswordRetry(d: PasswordDialog)
    ensures var r := ChangePassword(d);
      ChangePassword(r.0).1 == if r.1 == SuccessToast then ErrorToast(PasswordFieldsRequired) else r.1
  {
  }

  /** Three characters outside the Basic Multilingual Plane already satisfy the six-unit minimum. */
  lemma ThreeAstralCharactersAreLongEnough()
    ensures LongEnough("\U{1F600}\U{1F600}\U{1F600}")
  {
  }

  /** For passwords of Basic Multilingual Plane characters the minimum is six characters. */
  lemma BmpLengthIsCharacterCount(password: string)
    requires forall i :: 0 <= i < |password| ==> password[i] as int < 0x1_0000
    ensures LongEnough(password) <==> |password| >= 6
  {
  }

  /**
   `handleSaveProfile`: refused while the trimmed name or the trimmed primary
   email is empty; only success leaves edit mode.
   */
  function SaveProfile(name: string, email: string, editing: bool): (r: (bool, Toast))
    ensures r.1 == ErrorToast(NameAndEmailRequired) <==> IsBlank(name) || IsBlank(email)
    ensures r.1 != ErrorToast(NameAndEmailRequired) ==> r == (false, SuccessToast)
    ensures r.1.ErrorToast? ==> r.0 == editing
  {
    TrimEmptyIffBlank(name);
    TrimEmptyIffBlank(email);
    if Trim(name) == "" || Trim(email) == "" then (editing, ErrorToast(NameAndEmailRequired))
    else (false, SuccessToast)
  }
}
