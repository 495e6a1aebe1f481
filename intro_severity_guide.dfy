/** The severity guide shown at start-up, with an optional "don't show
    again" checkbox persisted under one storage key, or driven by its parent
    (controlled mode). Storage is the optional string stored under that key;
    each storage call is told whether it fails. */
module IntroSeverityGuide {
  import opened Wrappers

  const StoreKey: string := "introGuideHidden.v1"
  const HiddenFlag: string := "1"

  /** The value stored under `StoreKey`, with a count of reads. */
  class GuideStorage {
    var flag: Option<string>
    var readCount: nat

    constructor (flag: Option<string>)
      ensures this.flag == flag && readCount == 0
    {
      this.flag := flag;
      readCount := 0;
    }

    /** `removeItem(StoreKey)`. */
    method Remove(fails: bool)
      modifies this
      ensures flag == if fails then old(flag) else None
      ensures readCount == old(readCount)
    {
      if !fails {
        flag := None;
      }
    }

    /** `getItem(StoreKey)`: the stored value, or a failure. */
    method Get(fails: bool) returns (r: Option<Option<string>>)
      modifies this
      ensures r == if fails then None else Some(flag)
      ensures flag == old(flag) && readCount == old(readCount) + 1
    {
      readCount := readCount + 1;
      r := if fails then None else Some(flag);
    }

    /** `setItem(StoreKey, v)`. */
    method Set(v: string, fails: bool)
      modifies this
      ensures flag == if fails then old(flag) else Some(v)
      ensures readCount == old(readCount)
    {
      if !fails {
        flag := Some(v);
      }
    }
  }

  /** `resetIntroGuideHidden`: removes the stored flag. Nothing catches a
      failed removal, so the returned promise rejects. */
  method ResetIntroGuideHidden(storage: GuideStorage, fails: bool) returns (rejected: bool)
    modifies storage
    ensures rejected == fails
    ensures !fails ==> storage.flag.None?
    ensures fails ==> storage.flag == old(storage.flag)
    ensures storage.readCount == old(storage.readCount)
  {
    storage.Remove(fails);
    rejected := fails;
  }

  /** The visibility the mount effect decides, given what the read returned
      (`None` when it failed, not consulted in the first two cases). */
  function DecideVisible(controlled: Option<bool>, remember: bool, read: Option<Option<string>>): (v: bool)
    ensures controlled.Some? ==> v == controlled.value
    ensures controlled.None? && remember && read.Some? ==> (v <==> read.value != Some(HiddenFlag))
    ensures controlled.None? && remember && read.None? ==> v
    ensures controlled.None? && !remember ==> v
  {
    if controlled.Some? then controlled.value
    else if !remember then true
    else match read
      case None => true
      case Some(stored) => stored != Some(HiddenFlag)
  }

  /** The guide stays hidden on start-up only when uncontrolled with the
      option on and the flag stored and readable. */
  lemma HiddenOnlyWhenRemembered(controlled: Option<bool>, remember: bool, read: Option<Option<string>>)
    requires controlled.None?
    ensures !DecideVisible(controlled, remember, read) <==> remember && read == Some(Some(HiddenFlag))
  {
  }

  class IntroGuide {
    const storage: GuideStorage
    /** Props; `controlledVisible` is `None` when not a boolean. */
    var rememberOption: bool
    var controlledVisible: Option<bool>
    var devResetOnMount: bool
    const hasOnRequestClose: bool
    var visible: bool
    var dontShowAgain: bool
    /** How many times `onRequestClose` was called. */
    var closeRequests: nat
    /** The effect's async body has not finished yet. */
    var effectPending: bool

    /** `isControlled`. */
    predicate IsControlled()
      reads this
    {
      controlledVisible.Some?
    }

    /** Mounting: hidden and unchecked until the effect settles. */
    constructor (storage: GuideStorage, rememberOption: bool, controlledVisible: Option<bool>,
                 devResetOnMount: bool, hasOnRequestClose: bool)
      ensures this.storage == storage && this.rememberOption == rememberOption
      ensures this.controlledVisible == controlledVisible && this.devResetOnMount == devResetOnMount
      ensures this.hasOnRequestClose == hasOnRequestClose
      ensures !visible && !dontShowAgain && closeRequests == 0 && effectPending
    {
      this.storage := storage;
      this.rememberOption, this.controlledVisible := rememberOption, controlledVisible;
      this.devResetOnMount, this.hasOnRequestClose := devResetOnMount, hasOnRequestClose;
      visible, dontShowAgain, closeRequests, effectPending := false, false, 0, true;
    }

    /** New props from the parent; a changed dependency re-runs the effect. */
    method SetProps(remember: bool, controlled: Option<bool>, devReset: bool)
      modifies this
      ensures rememberOption == remember && controlledVisible == controlled && devResetOnMount == devReset
      ensures effectPending ==
                (old(effectPending) || remember != old(rememberOption) || controlled != old(controlledVisible)
                 || devReset != old(devResetOnMount))
      ensures visible == old(visible) && dontShowAgain == old(dontShowAgain) && closeRequests == old(closeRequests)
    {
      if remember != rememberOption || controlled != controlledVisible || devReset != devResetOnMount {
        effectPending := true;
      }
      rememberOption, controlledVisible, devResetOnMount := remember, controlled, devReset;
    }

    /** The effect's async body runs to completion: the optional development
        reset removes the flag first (a failure is ignored); a controlled
        guide takes its visibility from the prop without reading storage;
        otherwise the visibility follows `DecideVisible`. */
    method EffectSettles(removeFails: bool, readFails: bool)
      requires effectPending
      modifies this, storage
      ensures !effectPending
      ensures storage.flag == if devResetOnMount && !removeFails then None else old(storage.flag)
      ensures IsControlled() || !rememberOption ==> storage.readCount == old(storage.readCount)
      ensures !IsControlled() && rememberOption ==> storage.readCount == old(storage.readCount) + 1
      ensures visible == DecideVisible(controlledVisible, rememberOption,
                                       if readFails then None else Some(storage.flag))
      ensures rememberOption == old(rememberOption) && controlledVisible == old(controlledVisible)
      ensures devResetOnMount == old(devResetOnMount)
      ensures dontShowAgain == old(dontShowAgain) && closeRequests == old(closeRequests)
    {
      effectPending := false;
      if devResetOnMount {
        storage.Remove(removeFails);
      }
      if IsControlled() {
        visible := controlledVisible.value;
        return;
      }
      if rememberOption {
        var read := storage.Get(readFails);
        visible := DecideVisible(controlledVisible, rememberOption, read);
      } else {
        visible := true;
      }
    }

    /** The checkbox. */
    method ToggleDontShowAgain()
      modifies this
      ensures dontShowAgain == !old(dontShowAgain)
      ensures rememberOption == old(rememberOption) && controlledVisible == old(controlledVisible)
      ensures devResetOnMount == old(devResetOnMount)
      ensures visible == old(visible) && closeRequests == old(closeRequests) && effectPending == old(effectPending)
    {
      dontShowAgain := !dontShowAgain;
    }

    /** `close`: writes the flag only when uncontrolled, remembering and
        checked; hides the guide and calls `onRequestClose` whether or not
        the write fails, and reports the failure to the caller. */
    method Close(writeFails: bool) returns (threw: bool)
      modifies this, storage
      ensures !visible
      ensures closeRequests == old(closeRequests) + (if hasOnRequestClose then 1 else 0)
      ensures !IsControlled() && rememberOption && dontShowAgain ==>
                storage.flag == (if writeFails then old(storage.flag) else Some(HiddenFlag)) && threw == writeFails
      ensures !(!IsControlled() && rememberOption && dontShowAgain) ==>
                storage.flag == old(storage.flag) && !threw
      ensures rememberOption == old(rememberOption) && controlledVisible == old(controlledVisible)
      ensures devResetOnMount == old(devResetOnMount)
      ensures storage.readCount == old(storage.readCount) && dontShowAgain == old(dontShowAgain)
      ensures effectPending == old(effectPending)
    {
      threw := false;
      if !IsControlled() && rememberOption && dontShowAgain {
        storage.Set(HiddenFlag, writeFails);
        threw := writeFails;
      }
      visible := false;
      if hasOnRequestClose {
        closeRequests := closeRequests + 1;
      }
    }
  }

  /** Once "don't show again" is saved, the next uncontrolled mount with the
      option on stays hidden (when nothing resets the flag and the read works). */
  method CloseThenRemount(storage: GuideStorage) returns (shownAgain: bool)
    modifies storage
    ensures !shownAgain
  {
    var first := new IntroGuide(storage, true, None, false, false);
    first.EffectSettles(false, false);
    first.ToggleDontShowAgain();
    var _ := first.Close(false);
    var second := new IntroGuide(storage, true, None, false, false);
    second.EffectSettles(false, false);
    shownAgain := second.visible;
  }
}
