// The install-prompt lifecycle and the notification-permission request of
// src/utils/pwa.ts. The module-level `deferredPrompt` is a field of one
// object standing for the page; whether `setupInstallPrompt` attached its
// two window listeners is another. What the browser answers (the user's
// choice in the install dialog, the permission the user grants) is a
// parameter. The key conversion of the same file is module Base64.

module Pwa {
  import opened Js
  import JsText

  /** How the install dialog ends: the user's choice, or an error thrown by `prompt()` or `userChoice`. */
  datatype PromptOutcome = Accepted | Dismissed | Failed

  class InstallPrompts {
    /** `deferredPrompt !== null` */
    var held: bool
    /** The `beforeinstallprompt` and `appinstalled` listeners are attached. */
    var listening: bool

    constructor()
      ensures !held && !listening
    {
      held := false;
      listening := false;
    }

    /** `canInstall()` */
    predicate CanInstall()
      reads this
    {
      held
    }

    /** `setupInstallPrompt()`: inside a Figma preview no listener is attached. */
    method Setup(hostname: string)
      modifies this
      ensures listening == (old(listening) || !JsText.Contains(hostname, "figma"))
      ensures held == old(held)
    {
      if JsText.Contains(hostname, "figma") {
        return;
      }
      listening := true;
    }

    /** A `beforeinstallprompt` event: the listener keeps the event to show later. */
    method BeforeInstallPrompt()
      modifies this
      ensures held == (old(held) || listening) && listening == old(listening)
    {
      if listening {
        held := true;
      }
    }

    /** An `appinstalled` event: the listener forgets the held event. */
    method AppInstalled()
      modifies this
      ensures held == (old(held) && !listening) && listening == old(listening)
    {
      if listening {
        held := false;
      }
    }

    /** `promptInstall()`: true only for an accepted dialog; a shown dialog is never shown again. */
    method PromptInstall(outcome: PromptOutcome) returns (installed: bool)
      modifies this
      ensures installed <==> old(held) && outcome == Accepted
      ensures !held && listening == old(listening)
    {
      if !held {
        return false;
      }
      installed := outcome == Accepted;
      held := false;
    }
  }

  /** `isPWA()`: a standalone display mode, iOS `navigator.standalone === true`, or an Android app referrer. */
  predicate IsPwa(standaloneMedia: bool, navigatorStandalone: JsValue, referrer: string)
  {
    standaloneMedia || navigatorStandalone == Bool(true) || JsText.Contains(referrer, "android-app://")
  }

  datatype Permission = Granted | Denied | Default

  /**
   * `requestNotificationPermission()`: `supported` is `'Notification' in
   * window`, `current` is `Notification.permission` and `answer` what
   * `Notification.requestPermission()` resolves to when it is asked.
   */
  function RequestNotificationPermission(supported: bool, current: Permission, answer: Permission): (p: Permission)
    ensures !supported ==> p == Denied
    ensures supported && current != Default ==> p == current
    ensures supported && current == Default ==> p == answer
  {
    if !supported then Denied
    else if current.Granted? then Granted
    else if !current.Denied? then answer
    else current
  }

  /** The user is asked only while the permission is undecided: any two answers give the same result otherwise. */
  lemma AskedOnlyWhenUndecided(supported: bool, current: Permission, answer1: Permission, answer2: Permission)
    ensures RequestNotificationPermission(supported, current, answer1) != RequestNotificationPermission(supported, current, answer2)
            ==> supported && current == Default
  {
  }
}
