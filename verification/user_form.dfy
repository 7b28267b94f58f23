/** The administrator's add/edit-user dialog: the password rule, the
    shaping of the submitted fields, and the loading flag. */
module UserForm {
  import opened Common

  /** A field is truthy when it is present and not empty. */
  predicate Truthy(data: map<string, string>, key: string) {
    key in data && data[key] != ""
  }

  const Password := "password"
  const PasswordConfirm := "passwordConfirm"
  const Mismatch := "Password dan konfirmasi password tidak cocok."

  /** The password rule applied to the submitted fields: the check runs in
      create mode and whenever a password is entered; in edit mode with no
      password both password fields are dropped. Every other field passes
      through as entered. */
  function PrepareSubmission(isEditMode: bool, data: map<string, string>): (r: Result<map<string, string>, string>)
    ensures r.Failure? <==>
      (!isEditMode || Truthy(data, Password)) && Lookup(data, Password) != Lookup(data, PasswordConfirm)
    ensures r.Failure? ==> r.error == Mismatch
    ensures r.Success? && isEditMode && !Truthy(data, Password) ==>
      Password !in r.value && PasswordConfirm !in r.value
    ensures r.Success? && (!isEditMode || Truthy(data, Password)) ==> r.value == data
    ensures r.Success? ==> Lookup(r.value, Password) == Lookup(r.value, PasswordConfirm)
    ensures r.Success? ==> forall k :: k in data && k != Password && k != PasswordConfirm ==>
      k in r.value && r.value[k] == data[k]
    ensures r.Success? ==> r.value.Keys <= data.Keys
  {
    if !isEditMode || Truthy(data, Password) then
      if Lookup(data, Password) != Lookup(data, PasswordConfirm) then Failure(Mismatch)
      else Success(data)
    else
      Success(data - {Password, PasswordConfirm})
  }

  /** An edit that leaves the password empty never reports a mismatch,
      whatever the confirmation field holds. */
  lemma EditWithoutPasswordAccepted(data: map<string, string>)
    requires !Truthy(data, Password)
    ensures PrepareSubmission(true, data).Success?
  {
  }

  /** A creation always needs matching fields: a missing password passes
      only with a missing confirmation. */
  lemma CreateNeedsMatch(data: map<string, string>)
    requires PrepareSubmission(false, data).Success?
    ensures Password in data <==> PasswordConfirm in data
    ensures Password in data ==> data[Password] == data[PasswordConfirm]
  {
    assert Lookup(data, Password) == Lookup(data, PasswordConfirm);
  }

  /** The request sent to the backend. */
  datatype Request = UpdateUser(id: string, data: map<string, string>) | CreateUser(data: map<string, string>)

  /** How the request ended. */
  datatype SaveOutcome = Saved | ResponseError(message: string) | OtherError

  datatype Toast = ToastSuccess(message: string) | ToastError(message: string)

  const Updated := "Data pengguna berhasil diperbarui."
  const Created := "Pengguna baru berhasil ditambahkan."
  const SaveFailed := "Gagal menyimpan data pengguna."
  const UnknownError := "Terjadi kesalahan yang tidak diketahui."

  /** The message shown once the request has ended. */
  function OutcomeToast(isEditMode: bool, outcome: SaveOutcome): (t: Toast)
    ensures t.ToastSuccess? <==> outcome.Saved?
    ensures outcome.Saved? ==> t.message == (if isEditMode then Updated else Created)
    ensures outcome.ResponseError? ==> t.message == Or(outcome.message, SaveFailed)
    ensures outcome.OtherError? ==> t.message == UnknownError
    ensures t.message != ""
  {
    match outcome
    case Saved => ToastSuccess(if isEditMode then Updated else Created)
    case ResponseError(message) => ToastError(Or(message, SaveFailed))
    case OtherError => ToastError(UnknownError)
  }

  /** The dialog. `user` is the user being edited, if any. */
  class UserFormDialog {
    var user: Option<string>
    var isOpen: bool
    var isLoading: bool
    var refreshes: nat   // calls of the page's refresh callback

    constructor (user: Option<string>)
      ensures this.user == user && isOpen && !isLoading && refreshes == 0
    {
      this.user := user;
      isOpen := true;
      isLoading := false;
      refreshes := 0;
    }

    /** `handleSubmit`: no request on a password mismatch; otherwise an
        update of the edited user or a creation, with the shaped fields.
        The dialog closes and the page refreshes only on success, and the
        loading flag is down again on every path. */
    method HandleSubmit(data: map<string, string>, outcome: SaveOutcome) returns (sent: Option<Request>, toast: Toast)
      modifies this
      ensures !isLoading
      ensures user == old(user)
      ensures PrepareSubmission(user.Some?, data).Failure? ==>
        sent.None? && toast == ToastError(Mismatch) && isOpen == old(isOpen) && refreshes == old(refreshes)
      ensures PrepareSubmission(user.Some?, data).Success? ==>
        var shaped := PrepareSubmission(user.Some?, data).value;
        sent == Some(if user.Some? then UpdateUser(user.value, shaped) else CreateUser(shaped)) &&
        toast == OutcomeToast(user.Some?, outcome) &&
        (outcome.Saved? ==> !isOpen && refreshes == old(refreshes) + 1) &&
        (!outcome.Saved? ==> isOpen == old(isOpen) && refreshes == old(refreshes))
    {
      isLoading := true;
      var isEditMode := user.Some?;
      var d := data;
      if !isEditMode || (Password in d && d[Password] != "") {
        if Lookup(d, Password) != Lookup(d, PasswordConfirm) {
          toast := ToastError(Mismatch);
          isLoading := false;
          return None, toast;
        }
      } else {
        d := d - {Password};
        d := d - {PasswordConfirm};
        assert d == data - {Password, PasswordConfirm};
      }
      if isEditMode {
        sent := Some(UpdateUser(user.value, d));
      } else {
        sent := Some(CreateUser(d));
      }
      toast := OutcomeToast(isEditMode, outcome);
      if outcome.Saved? {
        refreshes := refreshes + 1;
        isOpen := false;
      }
      isLoading := false;
    }
  }
}
