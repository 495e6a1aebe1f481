/** The report flow end to end: a submitted report becomes the head of the
    user list and the toast pointer, the toast shows it, and the toast's
    timer hides it and clears the pointer while the report stays listed. */
module ReportFlow {
  import opened Wrappers
  import opened I18n
  import opened AlertTypes
  import opened AlertsStore
  import EditModal
  import NewUserAlertToast

  method SubmitReport(note: string, img: int, now: int, coords: string, t: Translator)
    returns (id: string, toastShown: bool, headTitle: I18nText, pointerAfter: Option<AlertItem>,
             listedAfter: bool)
    requires img != 0
    ensures toastShown
    ensures headTitle == EditModal.ReportTitle(note, t)
    ensures pointerAfter.None? && listedAfter
  {
    var store := new AlertsProvider();
    var toast := new NewUserAlertToast.UserAlertToast(store);
    var form := new EditModal.ReportForm(store, true, "");
    form.EditNote(note);
    form.PickImage(img);
    form.Upload(n => "asset");
    id := form.UploadResolved(now, coords, t);
    headTitle := store.userAlerts[0].title;
    toast.Sync();
    toastShown := toast.visible;
    toast.HideTimerFires(toast.hideTimerRef.value);
    pointerAfter := store.lastUserAlert;
    listedAfter := |store.userAlerts| == 1 && store.userAlerts[0].id == id;
  }
}
