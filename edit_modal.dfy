/** The report form: pick a photo, choose a severity, type a short note and
    upload. The uploader, the asset resolver, the coordinate label, the
    translator and reverse geocoding are parameters or explicit events; so
    are the fake-progress ticks and the 300 ms close timer. */
module EditModal {
  import opened Wrappers
  import opened I18n
  import opened JsString
  import opened AlertTypes
  import opened AlertsStore

  /** The fixed report location. */
  const Here: LatLng := LatLng(32.20008528203389, 119.51415636213258)
  const DefaultTitleKey: string := "alerts.userReportDefaultTitle"
  const FakeCeiling: real := 0.95
  const FakeRate: real := 0.12

  /** One step of the fake progress interval. */
  function FakeStep(p: real): (r: real)
    ensures p < FakeCeiling ==> r == p + (1.0 - p) * FakeRate
    ensures p >= FakeCeiling ==> r == p
    ensures p <= r
    ensures p < 1.0 ==> r < 1.0
    ensures 0.0 <= p <= 1.0 ==> 0.0 <= r <= 1.0
  {
    if p < FakeCeiling then p + (1.0 - p) * FakeRate else p
  }

  /** Fake progress alone never reaches completion: any number of steps from
      a value below 1 stays below 1, and never goes back. */
  function FakeSteps(p: real, n: nat): real {
    if n == 0 then p else FakeStep(FakeSteps(p, n - 1))
  }

  lemma {:induction false} FakeStepsBounded(p: real, n: nat)
    requires 0.0 <= p < 1.0
    ensures p <= FakeSteps(p, n) < 1.0
  {
    if n > 0 {
      FakeStepsBounded(p, n - 1);
    }
  }

  /** `Math.max(0, Math.min(1, p))`. */
  function Clamp(p: real): (r: real)
    ensures 0.0 <= r <= 1.0
    ensures 0.0 <= p <= 1.0 ==> r == p
    ensures p < 0.0 ==> r == 0.0
    ensures p > 1.0 ==> r == 1.0
  {
    if p < 0.0 then 0.0 else if p > 1.0 then 1.0 else p
  }

  /** The button's `Math.round(progress * 100)` percentage. */
  function Percent(p: real): (n: int)
    requires 0.0 <= p <= 1.0
    ensures 0 <= n <= 100
    ensures n as real - 0.5 <= p * 100.0 < n as real + 0.5
  {
    (p * 100.0 + 0.5).Floor
  }

  /** `!pickedImg`: no asset, or the number 0. */
  predicate Picked(img: Option<int>) {
    img.Some? && img.value != 0
  }

  /** What `onUpload` was called with. */
  datatype UploadParams = UploadParams(note: string, location: LatLng, photoUri: Option<string>)

  /** An upload awaiting its outcome, with the values its closure saw. */
  datatype UploadJob = UploadJob(params: UploadParams, severity: Severity)

  /** A reverse-geocoding request awaiting its outcome. */
  datatype GeocodeJob = GeocodeJob(id: string, initialSubtitle: string)

  /** Every field of the form at one moment: its props, its state and refs,
      and the calls and timers it has started. */
  datatype FormState = FormState(
    visible: bool, note: string, pickedImg: Option<int>, photoError: bool, severity: Severity,
    loading: bool, progress: real, fakeRunning: bool, wasVisible: bool,
    uploadCalls: seq<UploadParams>, upload: Option<UploadJob>, geocodes: seq<GeocodeJob>,
    closeTimers: nat, closeRequests: nat)

  /** `resetForm`: the fake interval stops, the inputs return to their
      defaults and `onChange('')` empties the note; nothing else changes. */
  function Reset(f: FormState): (r: FormState)
    ensures r.pickedImg.None? && !r.photoError && r.severity == Yellow && !r.loading
    ensures r.progress == 0.0 && !r.fakeRunning && r.note == ""
    ensures r.visible == f.visible && r.wasVisible == f.wasVisible && r.uploadCalls == f.uploadCalls
    ensures r.upload == f.upload && r.geocodes == f.geocodes
    ensures r.closeTimers == f.closeTimers && r.closeRequests == f.closeRequests
  {
    f.(note := "", pickedImg := None, photoError := false, severity := Yellow, loading := false,
       progress := 0.0, fakeRunning := false)
  }

  /** The alert title: the trimmed note, or the translated default when the
      note is blank. */
  function ReportTitle(note: string, t: Translator): (r: I18nText)
    ensures (forall i :: 0 <= i < |note| ==> IsJsWhitespace(note[i])) ==>
              r == Plain(t(DefaultTitleKey, None))
    ensures (exists i :: 0 <= i < |note| && !IsJsWhitespace(note[i])) ==>
              r == Plain(Trim(note)) && Trim(note) != []
  {
    TrimEmptyIff(note);
    if Trim(note) != [] then Plain(Trim(note)) else Plain(t(DefaultTitleKey, None))
  }

  /** The alert a successful upload adds. */
  function ReportAlert(job: UploadJob, coords: string, t: Translator): (a: AlertFields)
    ensures a.title == ReportTitle(job.params.note, t)
    ensures a.subtitle == Some(Plain(coords))
    ensures a.photoUri == job.params.photoUri && a.severity == job.severity
    ensures a.location == Here
  {
    AlertFields(ReportTitle(job.params.note, t), Some(Plain(coords)), job.params.photoUri, job.severity, Here)
  }

  /** Whether a geocoding result replaces the subtitle: a non-empty address
      different from the coordinate label. */
  predicate RewritesSubtitle(addr: Option<string>, initial: string) {
    addr.Some? && addr.value != "" && addr.value != initial
  }

  class ReportForm {
    const store: AlertsProvider
    /** Props: `visible`, and the parent's `value` that `onChange` sets. */
    var visible: bool
    var note: string
    var pickedImg: Option<int>
    var photoError: bool
    var severity: Severity
    var loading: bool
    var progress: real
    /** A fake-progress interval is live (`fakeTimer.current` set). */
    var fakeRunning: bool
    var wasVisible: bool
    /** Every `onUpload` call, oldest first. */
    var uploadCalls: seq<UploadParams>
    var upload: Option<UploadJob>
    var geocodes: seq<GeocodeJob>
    var closeTimers: nat
    /** How many times `onClose` was called. */
    var closeRequests: nat

    ghost predicate Valid()
      reads this, store
    {
      store.Valid() && 0.0 <= progress <= 1.0 && (fakeRunning ==> loading)
    }

    /** The whole state of the form. */
    ghost function Form(): FormState
      reads this
    {
      FormState(visible, note, pickedImg, photoError, severity, loading, progress, fakeRunning,
                wasVisible, uploadCalls, upload, geocodes, closeTimers, closeRequests)
    }

    /** Mounting runs the open effect once. */
    constructor (store: AlertsProvider, visible: bool, value: string)
      requires store.Valid()
      ensures Valid() && this.store == store
      ensures Form() == FormState(visible, if visible then "" else value, None, false, Yellow, false, 0.0,
                                  false, visible, [], None, [], 0, 0)
    {
      this.store, this.visible := store, visible;
      note := if visible then "" else value;
      pickedImg, photoError, severity, loading, progress, fakeRunning := None, false, Yellow, false, 0.0, false;
      wasVisible := visible;
      uploadCalls, upload, geocodes, closeTimers, closeRequests := [], None, [], 0, 0;
    }

    /** `resetForm`. */
    method ResetForm()
      requires Valid()
      modifies this
      ensures Valid() && Form() == Reset(old(Form()))
    {
      fakeRunning := false;
      pickedImg, photoError, severity, loading, progress := None, false, Yellow, false, 0.0;
      note := "";
    }

    /** The parent re-renders with `visible == v`: the form resets on the
        hidden-to-visible transition only. */
    method SetVisible(v: bool)
      requires Valid()
      modifies this
      ensures Valid()
      ensures Form() == (if v && !old(wasVisible) then Reset(old(Form())) else old(Form()))
                          .(visible := v, wasVisible := v)
    {
      visible := v;
      if v && !wasVisible {
        ResetForm();
      }
      wasVisible := v;
    }

    /** Typing in the note field, which is not editable while loading. */
    method EditNote(s: string)
      requires Valid()
      modifies this
      ensures Valid()
      ensures Form() == if old(loading) then old(Form()) else old(Form()).(note := s)
    {
      if !loading {
        note := s;
      }
    }

    /** The image button's `onPick` (disabled while loading). */
    method PickImage(img: int)
      requires Valid()
      modifies this
      ensures Valid()
      ensures Form() == if old(loading) then old(Form()) else old(Form()).(pickedImg := Some(img), photoError := false)
    {
      if !loading {
        pickedImg, photoError := Some(img), false;
      }
    }

    /** The severity picker (disabled while loading). */
    method ChooseSeverity(s: Severity)
      requires Valid()
      modifies this
      ensures Valid()
      ensures Form() == if old(loading) then old(Form()) else old(Form()).(severity := s)
    {
      if !loading {
        severity := s;
      }
    }

    /** `uploadDisabled`. */
    function UploadDisabled(): (d: bool)
      reads this
      ensures d <==> loading || !Picked(pickedImg)
    {
      loading || !Picked(pickedImg)
    }

    /** `handleUpload` up to the awaited `onUpload` call: ignored while
        loading; without a photo only `photoError` is set; otherwise loading
        starts, progress restarts at 0 with the fake interval, and `onUpload`
        is called once with the note, the fixed location and the resolved
        photo URI. */
    method Upload(resolveAsset: int -> string)
      requires Valid()
      modifies this
      ensures Valid()
      ensures old(loading) ==> Form() == old(Form())
      ensures !old(loading) && !Picked(old(pickedImg)) ==> Form() == old(Form()).(photoError := true)
      ensures !old(loading) && Picked(old(pickedImg)) ==>
                var params := UploadParams(old(note), Here, Some(resolveAsset(old(pickedImg).value)));
                Form() == old(Form()).(photoError := false, loading := true, progress := 0.0, fakeRunning := true,
                                       uploadCalls := old(uploadCalls) + [params],
                                       upload := Some(UploadJob(params, old(severity))))
    {
      if loading {
        return;
      }
      if !Picked(pickedImg) {
        photoError := true;
        return;
      }
      photoError := false;
      loading, progress := true, 0.0;
      fakeRunning := true;
      var params := UploadParams(note, Here, Some(resolveAsset(pickedImg.value)));
      uploadCalls := uploadCalls + [params];
      upload := Some(UploadJob(params, severity));
    }

    /** A tick of the fake-progress interval: progress creeps up and nothing
        else changes. */
    method FakeTick()
      requires Valid() && fakeRunning
      modifies this
      ensures Valid()
      ensures Form() == old(Form()).(progress := FakeStep(old(progress)))
      ensures old(progress) <= progress
    {
      progress := FakeStep(progress);
    }

    /** The uploader's `onProgress(p)`. */
    method ReportProgress(p: real)
      requires Valid() && upload.Some?
      modifies this
      ensures Valid()
      ensures Form() == old(Form()).(progress := Clamp(p))
    {
      progress := Clamp(p);
    }

    /** `onUpload` resolved: exactly one user alert is added, with the
        coordinate label as its subtitle; reverse geocoding is requested for
        it; the fake interval stops, progress shows 1 and the close timer
        starts. `loading` stays set until that timer resets the form. */
    method UploadResolved(now: int, coords: string, t: Translator) returns (id: string)
      requires Valid() && upload.Some?
      modifies this, store
      ensures Valid()
      ensures id == MakeId(UserPrefix, old(store.idSeq)) && store.idSeq == old(store.idSeq) + 1
      ensures store.userAlerts == [NewItem(id, now, ReportAlert(old(upload).value, coords, t))] + old(store.userAlerts)
      ensures store.lastUserAlert == Some(store.userAlerts[0])
      ensures store.systemAlerts == old(store.systemAlerts) && store.lastSystemAlert == old(store.lastSystemAlert)
      ensures Form() == old(Form()).(fakeRunning := false, progress := 1.0, upload := None,
                                     geocodes := old(geocodes) + [GeocodeJob(id, coords)],
                                     closeTimers := old(closeTimers) + 1)
    {
      var job := upload.value;
      id := store.AddUserAlert(ReportAlert(job, coords, t), now);
      FinishUpload(GeocodeJob(id, coords));
    }

    /** The form's side of a resolved upload: the fake interval stops,
        progress shows 1, the geocoding request and the close timer start. */
    method FinishUpload(job: GeocodeJob)
      requires Valid()
      modifies this
      ensures Valid()
      ensures Form() == old(Form()).(fakeRunning := false, progress := 1.0, upload := None,
                                     geocodes := old(geocodes) + [job], closeTimers := old(closeTimers) + 1)
    {
      fakeRunning, progress, upload := false, 1.0, None;
      geocodes, closeTimers := geocodes + [job], closeTimers + 1;
    }

    /** `onUpload` rejected: loading stops, progress returns to 0, no alert
        is added; the inputs are kept. */
    method UploadRejected()
      requires Valid() && upload.Some?
      modifies this
      ensures Valid()
      ensures Form() == old(Form()).(loading := false, progress := 0.0, fakeRunning := false, upload := None)
    {
      fakeRunning := false;
      loading, progress := false, 0.0;
      upload := None;
    }

    /** The reverse geocoding of request `i` settles with `addr` (`None` for
        a failure or a missing address): the subtitle is replaced only by a
        non-empty address that differs from the coordinate label. */
    method GeocodeSettled(i: nat, addr: Option<string>)
      requires Valid() && i < |geocodes|
      modifies this, store
      ensures Valid()
      ensures Form() == old(Form()).(geocodes := old(geocodes[..i] + geocodes[i + 1..]))
      ensures RewritesSubtitle(addr, old(geocodes[i]).initialSubtitle) ==>
                && store.userAlerts == WithSubtitle(old(store.userAlerts), old(geocodes[i]).id, Plain(addr.value))
                && store.lastUserAlert == SubtitledPointer(old(store.lastUserAlert), old(geocodes[i]).id, Plain(addr.value))
      ensures !RewritesSubtitle(addr, old(geocodes[i]).initialSubtitle) ==>
                store.userAlerts == old(store.userAlerts) && store.lastUserAlert == old(store.lastUserAlert)
      ensures store.systemAlerts == old(store.systemAlerts) && store.lastSystemAlert == old(store.lastSystemAlert)
      ensures store.idSeq == old(store.idSeq)
    {
      var job := geocodes[i];
      geocodes := geocodes[..i] + geocodes[i + 1..];
      if RewritesSubtitle(addr, job.initialSubtitle) {
        store.UpdateUserAlertSubtitle(job.id, Plain(addr.value));
      }
    }

    /** The 300 ms timer after a successful upload: reset, then `onClose`. */
    method CloseTimerFires()
      requires Valid() && closeTimers > 0
      modifies this
      ensures Valid()
      ensures Form() == Reset(old(Form())).(closeTimers := old(closeTimers) - 1,
                                            closeRequests := old(closeRequests) + 1)
    {
      closeTimers := closeTimers - 1;
      ResetForm();
      closeRequests := closeRequests + 1;
    }

    /** `handleCancel` (also the modal's back action): ignored while
        loading; otherwise reset, then `onClose`. */
    method Cancel()
      requires Valid()
      modifies this
      ensures Valid()
      ensures old(loading) ==> Form() == old(Form())
      ensures !old(loading) ==> Form() == Reset(old(Form())).(closeRequests := old(closeRequests) + 1)
    {
      if loading {
        return;
      }
      ResetForm();
      closeRequests := closeRequests + 1;
    }
  }
}
