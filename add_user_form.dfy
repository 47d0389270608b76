/**
 * The user form: four required fields, the profile picture checks (an
 * image, at most 5 MiB), the account data sent on create and on update, and
 * the image upload that follows a save when a picture was chosen. HTTP calls
 * are recorded; their responses are separate handler methods.
 */
module AddUserForm {
  import opened Wrappers
  import opened Text
  import opened ModalDialog
  import opened JsValues

  /** `formData`: an edited user from the list has no password until one is typed. */
  datatype UserForm = UserForm(
    id: Option<int>,
    username: Option<string>,
    email: Option<string>,
    password: Option<string>,
    gender: Option<string>,
    profileImage: Option<string>)

  const EmptyForm: UserForm := UserForm(None, Some(""), Some(""), Some(""), Some(""), None)

  /** A picked or dropped file: its MIME type and its size in bytes. */
  datatype File = File(mimeType: string, size: nat)

  const ImagePrefix: string := "image/"

  /** `5 * 1024 * 1024` bytes. */
  const MaxSize: nat := 5 * 1024 * 1024

  /** What `handleFile` decides; the type is checked before the size. */
  datatype FileVerdict = Accepted | InvalidType | TooLarge

  function CheckFile(file: File): (v: FileVerdict)
    ensures v == Accepted <==> StartsWith(file.mimeType, ImagePrefix) && file.size <= MaxSize
    ensures v == InvalidType <==> !StartsWith(file.mimeType, ImagePrefix)
    ensures v == TooLarge <==> StartsWith(file.mimeType, ImagePrefix) && file.size > MaxSize
  {
    if !StartsWith(file.mimeType, ImagePrefix) then InvalidType
    else if file.size > MaxSize then TooLarge
    else Accepted
  }

  const KiB: nat := 1024
  const MiB: nat := 1048576

  /** `(bytes / unit).toFixed(1)` as a count of tenths: the nearest tenth, halves rounded up. */
  function Tenths(bytes: nat, unit: nat): (n: nat)
    requires unit > 0
    ensures n * unit * 2 <= bytes * 20 + unit
    ensures bytes * 20 < n * unit * 2 + unit
  {
    (bytes * 10 * 2 + unit) / (2 * unit)
  }

  /** A count of tenths printed with one decimal. */
  function OneDecimal(n: nat): (s: string)
    ensures |s| >= 3 && s[|s| - 2] == '.' && '0' <= s[|s| - 1] <= '9'
    ensures forall i :: 0 <= i < |s| - 2 ==> '0' <= s[i] <= '9'
    ensures DigitsValue(s[..|s| - 2]) * 10 + (s[|s| - 1] as int - '0' as int) == n
  {
    var whole := NatToString(n / 10);
    var s := whole + "." + [DigitChar(n % 10)];
    assert s[..|s| - 2] == whole;
    NatToStringRoundTrip(n / 10);
    s
  }

  /** `getFileSize`: bytes below 1 KiB, KiB below 1 MiB, MiB above. */
  function GetFileSize(bytes: nat): (r: string)
    ensures bytes < KiB ==> r == NatToString(bytes) + " bytes"
    ensures KiB <= bytes < MiB ==> r == OneDecimal(Tenths(bytes, KiB)) + " KB"
    ensures bytes >= MiB ==> r == OneDecimal(Tenths(bytes, MiB)) + " MB"
  {
    if bytes < KiB then NatToString(bytes) + " bytes"
    else if bytes < MiB then OneDecimal(Tenths(bytes, KiB)) + " KB"
    else OneDecimal(Tenths(bytes, MiB)) + " MB"
  }

  /** The account data sent on create and on update: these four fields and no others. */
  datatype Account = Account(username: string, email: string, password: string, gender: string)

  /** The requests the form sends; an update or upload sends `formData.id!`, which may be undefined. */
  datatype UserCall =
    | CreateCall(account: Account)
    | UpdateCall(id: Option<int>, account: Account)
    | UploadCall(userId: Option<int>, file: File)

  /** The check `onSubmit` makes: the four texts are truthy (white space counts as filled). */
  predicate FormValid(f: UserForm) {
    Truthy(f.username) && Truthy(f.password) && Truthy(f.email) && Truthy(f.gender)
  }

  function AccountOf(f: UserForm): (a: Account)
    requires FormValid(f)
    ensures a.username == f.username.value && a.email == f.email.value
    ensures a.password == f.password.value && a.gender == f.gender.value
  {
    Account(f.username.value, f.email.value, f.password.value, f.gender.value)
  }

  /** The request `onSubmit` sends, or none when a field is missing. */
  function SubmitCall(f: UserForm, isEdit: bool): Option<UserCall>
  {
    if !FormValid(f) then None
    else if isEdit then Some(UpdateCall(f.id, AccountOf(f)))
    else Some(CreateCall(AccountOf(f)))
  }

  /** A request goes out exactly for a valid form; it carries the form's account and, on update, its id. */
  lemma SubmitCallMeaning(f: UserForm, isEdit: bool)
    ensures SubmitCall(f, isEdit).Some? <==> FormValid(f)
    ensures FormValid(f) && !isEdit ==> SubmitCall(f, isEdit) == Some(CreateCall(AccountOf(f)))
    ensures FormValid(f) && isEdit ==> SubmitCall(f, isEdit) == Some(UpdateCall(f.id, AccountOf(f)))
  {
  }

  /** The account sent is the form's, whatever the profile image holds. */
  lemma AccountIgnoresImage(f: UserForm, image: Option<string>)
    requires FormValid(f)
    ensures FormValid(f.(profileImage := image))
    ensures AccountOf(f.(profileImage := image)) == AccountOf(f)
  {
  }

  /** `closeModalWithNotification` as written: `closeModal` runs while `isSubmitting` is still set. */
  function CloseWithNotificationAsWritten(m: ModalFlags): (r: ModalFlags)
    ensures m.isSubmitting ==> r == m
    ensures !m.isSubmitting ==> !r.isSubmitting && r.isClosing
  {
    CloseModal(m)
  }

  /** As written, every save that ends in success or in a failed upload leaves the modal open and busy. */
  lemma SavedUserLeavesModalStuck(m: ModalFlags)
    requires m.isSubmitting
    ensures CloseWithNotificationAsWritten(m) == m
    ensures CloseWithNotificationAsWritten(m).isSubmitting
  {
  }

  /** A dialog shown: its title and its text. */
  datatype Alert = Alert(title: string, text: string)

  const MissingInformation: Alert := Alert("Missing Information", "Please fill in all required fields.")
  const InvalidFileType: Alert := Alert("Invalid File Type", "Please select an image file (PNG, JPG, GIF)")
  const FileTooLarge: Alert := Alert("File Too Large", "Image must be smaller than 5MB")
  const PartialSuccess: Alert := Alert("Partial Success", "User saved, but image upload failed.")
  const CreateFailed: Alert := Alert("Error", "Failed to create user. Please try again.")
  const UpdateFailed: Alert := Alert("Error", "Failed to update user. Please try again.")

  /** `finishSuccess(message)`'s dialog. */
  function Success(message: string): (a: Alert)
    ensures a.title == "Success!" && a.text == message
  {
    Alert("Success!", message)
  }

  class AddUser {
    var isEdit: bool
    var form: UserForm
    var selectedFile: Option<File>
    var imagePreview: Option<string>
    var isDragging: bool
    var isClosing: bool
    var isSubmitting: bool
    var formSubmitted: bool
    var calls: seq<UserCall>
    var alerts: seq<Alert>
    var closeEvents: nat
    var notifications: nat

    constructor (isEdit: bool)
      ensures this.isEdit == isEdit && form == EmptyForm && selectedFile.None? && imagePreview.None?
      ensures !isDragging && !isClosing && !isSubmitting && !formSubmitted
      ensures calls == [] && alerts == [] && closeEvents == 0 && notifications == 0
    {
      this.isEdit := isEdit;
      form := EmptyForm;
      selectedFile := None;
      imagePreview := None;
      isDragging := false;
      isClosing := false;
      isSubmitting := false;
      formSubmitted := false;
      calls := [];
      alerts := [];
      closeEvents := 0;
      notifications := 0;
    }

    /** `ngOnChanges`: a bound user replaces the form; a null input leaves it as it is. */
    method NgOnChanges(userDataChanged: bool, userData: Option<UserForm>)
      modifies this`form
      ensures userDataChanged && userData.Some? ==> form == userData.value
      ensures !(userDataChanged && userData.Some?) ==> form == old(form)
    {
      if userDataChanged && userData.Some? {
        form := userData.value;
      }
    }

    /** `handleFile`: an accepted file becomes the selection; a refused one only shows why. */
    method HandleFile(file: File)
      modifies this`selectedFile, this`alerts
      ensures CheckFile(file) == Accepted ==> selectedFile == Some(file) && alerts == old(alerts)
      ensures CheckFile(file) == InvalidType ==> selectedFile == old(selectedFile) && alerts == old(alerts) + [InvalidFileType]
      ensures CheckFile(file) == TooLarge ==> selectedFile == old(selectedFile) && alerts == old(alerts) + [FileTooLarge]
    {
      match CheckFile(file)
      case InvalidType =>
        alerts := alerts + [InvalidFileType];
      case TooLarge =>
        alerts := alerts + [FileTooLarge];
      case Accepted =>
        selectedFile := Some(file);
    }

    /** The `FileReader` of an accepted file has produced its data URL. */
    method OnFileRead(dataUrl: string)
      modifies this`imagePreview
      ensures imagePreview == Some(dataUrl)
    {
      imagePreview := Some(dataUrl);
    }

    /** `onFileSelected`: the first picked file, if any, is handled. */
    method OnFileSelected(file: Option<File>)
      modifies this`selectedFile, this`alerts
      ensures file.None? ==> selectedFile == old(selectedFile) && alerts == old(alerts)
      ensures file.Some? && CheckFile(file.value) == Accepted ==> selectedFile == file
      ensures file.Some? && CheckFile(file.value) != Accepted ==> selectedFile == old(selectedFile)
    {
      if file.Some? {
        HandleFile(file.value);
      }
    }

    method OnDragOver()
      modifies this`isDragging
      ensures isDragging
    {
      isDragging := true;
    }

    method OnDragLeave()
      modifies this`isDragging
      ensures !isDragging
    {
      isDragging := false;
    }

    /** `onFileDrop`: the drag ends and the first dropped file, if any, is handled. */
    method OnFileDrop(file: Option<File>)
      modifies this`isDragging, this`selectedFile, this`alerts
      ensures !isDragging
      ensures file.None? ==> selectedFile == old(selectedFile) && alerts == old(alerts)
      ensures file.Some? && CheckFile(file.value) == Accepted ==> selectedFile == file
      ensures file.Some? && CheckFile(file.value) != Accepted ==> selectedFile == old(selectedFile)
    {
      isDragging := false;
      if file.Some? {
        HandleFile(file.value);
      }
    }

    /** `removeImage`: no file, no preview, and no stored image on the form. */
    method RemoveImage()
      modifies this`selectedFile, this`imagePreview, this`form
      ensures selectedFile.None? && imagePreview.None?
      ensures form == old(form).(profileImage := None)
    {
      selectedFile := None;
      imagePreview := None;
      form := form.(profileImage := None);
    }

    /** `onSubmit`: a form with a missing field shows the warning; otherwise the account is sent. */
    method OnSubmit()
      modifies this`formSubmitted, this`isSubmitting, this`calls, this`alerts
      ensures formSubmitted
      ensures old(SubmitCall(form, isEdit)).None? ==>
        !isSubmitting && calls == old(calls) && alerts == old(alerts) + [MissingInformation]
      ensures old(SubmitCall(form, isEdit)).Some? ==>
        isSubmitting && calls == old(calls) + [old(SubmitCall(form, isEdit)).value] && alerts == old(alerts)
    {
      var call := SubmitCall(form, isEdit);
      formSubmitted := true;
      if call.None? {
        alerts := alerts + [MissingInformation];
        isSubmitting := false;
      } else {
        isSubmitting := true;
        calls := calls + [call.value];
      }
    }

    /**
     * `closeModalWithNotification`: the list is notified, then `closeModal`
     * runs while the request still counts as in flight, so after a sent
     * request the modal stays open and busy.
     */
    method CloseNotifying()
      modifies this`notifications, this`isSubmitting, this`isClosing
      ensures notifications == old(notifications) + 1
      ensures ModalFlags(isSubmitting, isClosing) == CloseWithNotificationAsWritten(ModalFlags(old(isSubmitting), old(isClosing)))
      ensures old(isSubmitting) ==> isSubmitting && isClosing == old(isClosing)
      ensures !old(isSubmitting) ==> !isSubmitting && isClosing
    {
      notifications := notifications + 1;
      var flags := CloseWithNotificationAsWritten(ModalFlags(isSubmitting, isClosing));
      isSubmitting := flags.isSubmitting;
      isClosing := flags.isClosing;
    }

    /** `finishSuccess`: the success dialog, then `closeModalWithNotification`. */
    method FinishSuccess(message: string)
      modifies this`alerts, this`notifications, this`isSubmitting, this`isClosing
      ensures alerts == old(alerts) + [Success(message)]
      ensures notifications == old(notifications) + 1
      ensures old(isSubmitting) ==> isSubmitting && isClosing == old(isClosing)
      ensures !old(isSubmitting) ==> !isSubmitting && isClosing
    {
      alerts := alerts + [Success(message)];
      CloseNotifying();
    }

    /** The create succeeded: the picture is uploaded when one is chosen and the new id is truthy. */
    method OnCreateResponse(responseId: Option<int>)
      modifies this`calls, this`alerts, this`notifications, this`isSubmitting, this`isClosing
      ensures selectedFile.Some? && TruthyId(responseId) ==>
        calls == old(calls) + [UploadCall(responseId, selectedFile.value)] && alerts == old(alerts)
        && isSubmitting == old(isSubmitting) && isClosing == old(isClosing) && notifications == old(notifications)
      ensures !(selectedFile.Some? && TruthyId(responseId)) ==>
        calls == old(calls) && alerts == old(alerts) + [Success("User created successfully!")]
        && notifications == old(notifications) + 1
        && isSubmitting == old(isSubmitting) && isClosing == (old(isClosing) || !old(isSubmitting))
    {
      if selectedFile.Some? && TruthyId(responseId) {
        calls := calls + [UploadCall(responseId, selectedFile.value)];
      } else {
        FinishSuccess("User created successfully!");
      }
    }

    /** The update succeeded: the picture is uploaded under the form's id whenever one is chosen. */
    method OnUpdateResponse()
      modifies this`calls, this`alerts, this`notifications, this`isSubmitting, this`isClosing
      ensures selectedFile.Some? ==>
        calls == old(calls) + [UploadCall(form.id, selectedFile.value)] && alerts == old(alerts)
        && isSubmitting == old(isSubmitting) && isClosing == old(isClosing) && notifications == old(notifications)
      ensures selectedFile.None? ==>
        calls == old(calls) && alerts == old(alerts) + [Success("User updated successfully!")]
        && notifications == old(notifications) + 1
        && isSubmitting == old(isSubmitting) && isClosing == (old(isClosing) || !old(isSubmitting))
    {
      if selectedFile.Some? {
        calls := calls + [UploadCall(form.id, selectedFile.value)];
      } else {
        FinishSuccess("User updated successfully!");
      }
    }

    /** The picture was stored: success, with the message for an update or a create. */
    method OnUploadSuccess(isUpdate: bool)
      modifies this`alerts, this`notifications, this`isSubmitting, this`isClosing
      ensures alerts == old(alerts) + [Success(if isUpdate then "User updated with new profile image!" else "User created with profile image!")]
      ensures notifications == old(notifications) + 1
      ensures isSubmitting == old(isSubmitting) && isClosing == (old(isClosing) || !old(isSubmitting))
    {
      var message := if isUpdate then "User updated with new profile image!" else "User created with profile image!";
      FinishSuccess(message);
    }

    /** The picture was refused: the user is saved, which is said, and `closeModalWithNotification` runs. */
    method OnUploadError()
      modifies this`alerts, this`notifications, this`isSubmitting, this`isClosing
      ensures alerts == old(alerts) + [PartialSuccess]
      ensures notifications == old(notifications) + 1
      ensures isSubmitting == old(isSubmitting) && isClosing == (old(isClosing) || !old(isSubmitting))
    {
      alerts := alerts + [PartialSuccess];
      CloseNotifying();
    }

    /** The create or update failed: `showError` ends the request. */
    method OnSaveError(isUpdate: bool)
      modifies this`alerts, this`isSubmitting
      ensures alerts == old(alerts) + [if isUpdate then UpdateFailed else CreateFailed]
      ensures !isSubmitting
    {
      alerts := alerts + [if isUpdate then UpdateFailed else CreateFailed];
      isSubmitting := false;
    }

    /** `closeModal`: ignored while a request is running. */
    method Close()
      modifies this`isClosing
      ensures ModalFlags(isSubmitting, isClosing) == CloseModal(ModalFlags(isSubmitting, old(isClosing)))
    {
      var flags := CloseModal(ModalFlags(isSubmitting, isClosing));
      isClosing := flags.isClosing;
    }

    /** The closing animation's timer: the flag drops and `close` is emitted; the form is kept. */
    method OnCloseTimer()
      modifies this`isClosing, this`closeEvents
      ensures !isClosing && closeEvents == old(closeEvents) + 1
    {
      isClosing := false;
      closeEvents := closeEvents + 1;
    }
  }
}
