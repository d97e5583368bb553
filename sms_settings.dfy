/** The SMS settings page (`src/pages/settings/sms-settings-page.tsx`): the
    phone number and code checks, the three phases of the page (set up,
    verify, settings), and the handlers that call the SMS settings API. The
    API's answers are inputs; the 60-second code cooldown ends through the
    explicit operation `CooldownOver`. */
module SmsSettings {
  import opened Wrappers
  import opened Text
  import opened Retry

  // ---------------------------------------------------------------------------
  // Input checks.

  /** `/^\+[1-9]\d{1,14}$/`: the international format of ITU-T
      Recommendation E.164, a plus sign and 2 to 15 digits without a
      leading zero. */
  predicate IsE164(s: string)
  {
    3 <= |s| <= 16 && s[0] == '+' && '1' <= s[1] <= '9' && AllDigits(s[2..])
  }

  /** Every accepted number is a plus and at most fifteen digits. */
  lemma E164Digits(s: string)
    requires IsE164(s)
    ensures AllDigits(s[1..]) && 2 <= |s[1..]| <= 15 && s[1] != '0'
  {
  }

  /** `/^\d{6}$/`. */
  predicate IsCode(s: string)
  {
    |s| == 6 && AllDigits(s)
  }

  const PhoneFormatError := "Phone number must be in E.164 format (e.g., +15551234567)"
  const CodeFormatError := "Verification code must be 6 digits"

  /** `err instanceof Error ? err.message : fallback`. */
  function ErrorText(message: Option<string>, fallback: string): (t: string)
    ensures message.Some? ==> t == message.value
    ensures message.None? ==> t == fallback
  {
    message.GetOr(fallback)
  }

  // ---------------------------------------------------------------------------
  // The configuration.

  datatype Notifications = Notifications(dailySummary: Option<bool>, taskReminders: Option<bool>, mitReminders: Option<bool>)

  datatype SmsConfig = SmsConfig(
    phoneNumber: Option<string>,
    smsKey: Option<string>,
    verified: bool,
    enabledNotifications: Option<Notifications>)

  datatype NotificationType = DailySummary | TaskReminders | MitReminders

  /** `smsConfig?.enabledNotifications?.[type] || false`: what the checkbox
      shows. */
  function NotificationOn(config: Option<SmsConfig>, t: NotificationType): (on: bool)
    ensures config.None? || config.value.enabledNotifications.None? ==> !on
  {
    if config.None? || config.value.enabledNotifications.None? then false
    else
      var n := config.value.enabledNotifications.value;
      match t
      case DailySummary => n.dailySummary.GetOr(false)
      case TaskReminders => n.taskReminders.GetOr(false)
      case MitReminders => n.mitReminders.GetOr(false)
  }

  /** The three exclusive phases of the page. */
  datatype Phase = SetupPhase | VerifyPhase | SettingsPhase

  function PhaseOf(config: Option<SmsConfig>): (p: Phase)
    ensures p == SetupPhase <==> config.None?
    ensures p == VerifyPhase <==> config.Some? && !config.value.verified
    ensures p == SettingsPhase <==> config.Some? && config.value.verified
  {
    if config.None? then SetupPhase
    else if !config.value.verified then VerifyPhase
    else SettingsPhase
  }

  /** The notification update a checkbox sends: the type, set to the
      opposite of what the checkbox showed. */
  datatype NotificationUpdate = NotificationUpdate(t: NotificationType, value: bool)

  function ToggleUpdate(config: Option<SmsConfig>, t: NotificationType): (u: NotificationUpdate)
    ensures u.t == t && u.value == !NotificationOn(config, t)
  {
    NotificationUpdate(t, !NotificationOn(config, t))
  }

  /** A configuration without notification flags turns a flag on. */
  lemma ToggleFromNothing(t: NotificationType, phone: Option<string>, key: Option<string>, verified: bool)
    ensures ToggleUpdate(None, t).value
    ensures ToggleUpdate(Some(SmsConfig(phone, key, verified, None)), t).value
  {
  }

  /** The page's state besides the configuration. */
  datatype Flags = Flags(
    loading: bool,
    saving: bool,
    showVerification: bool,
    codeSent: bool,
    showResetModal: bool,
    showRegenerateModal: bool)

  /** The Send Verification Code button. */
  predicate SendDisabled(f: Flags)
  {
    f.saving || f.codeSent
  }

  class Page {
    var flags: Flags
    var error: Option<string>
    var success: Option<string>
    var smsConfig: Option<SmsConfig>
    var phoneNumber: string
    var verificationCode: string

    constructor ()
      ensures flags == Flags(true, false, false, false, false, false)
      ensures error == None && success == None && smsConfig == None && phoneNumber == "" && verificationCode == ""
    {
      flags := Flags(true, false, false, false, false, false);
      error, success := None, None;
      smsConfig := None;
      phoneNumber, verificationCode := "", "";
    }

    /** `loadSettings`. */
    method LoadSettings(answer: Answer<Option<SmsConfig>>)
      modifies this
      ensures answer.Loaded? ==> smsConfig == answer.value && error == None
      ensures answer.Failed? ==>
        smsConfig == old(smsConfig) && error == Some(ErrorText(answer.message, "Failed to load SMS settings"))
      ensures flags == old(flags).(loading := false)
      ensures success == old(success) && phoneNumber == old(phoneNumber) && verificationCode == old(verificationCode)
    {
      error := None;
      if answer.Loaded? {
        smsConfig := answer.value;
      } else {
        error := Some(ErrorText(answer.message, "Failed to load SMS settings"));
      }
      flags := flags.(loading := false);
    }

    method PhoneTyped(value: string)
      modifies this
      ensures phoneNumber == value && smsConfig == old(smsConfig) && flags == old(flags)
    {
      phoneNumber := value;
    }

    method CodeTyped(value: string)
      modifies this
      ensures verificationCode == value && smsConfig == old(smsConfig) && flags == old(flags)
    {
      verificationCode := value;
    }

    /** `handleInitializeSms`. A number not in E.164 form sets the error
        and calls nothing; otherwise the new configuration is stored and
        the code form shown, or the error set. */
    method InitializeSms(answer: Answer<SmsConfig>) returns (called: bool)
      modifies this
      ensures called <==> IsE164(old(phoneNumber))
      ensures !called ==>
        error == Some(PhoneFormatError) && smsConfig == old(smsConfig) && flags == old(flags) && success == old(success)
      ensures called && answer.Loaded? ==>
        smsConfig == Some(answer.value) && error == None &&
        flags == old(flags).(showVerification := true, saving := false) &&
        success == Some("SMS initialized! Please verify your phone number.")
      ensures called && answer.Failed? ==>
        smsConfig == old(smsConfig) && error == Some(ErrorText(answer.message, "Failed to initialize SMS")) &&
        flags == old(flags).(saving := false) && success == old(success)
      ensures phoneNumber == old(phoneNumber) && verificationCode == old(verificationCode)
    {
      called := IsE164(phoneNumber);
      if !called {
        error := Some(PhoneFormatError);
      } else {
        error := None;
        if answer.Loaded? {
          smsConfig := Some(answer.value);
          flags := flags.(showVerification := true);
          success := Some("SMS initialized! Please verify your phone number.");
        } else {
          error := Some(ErrorText(answer.message, "Failed to initialize SMS"));
        }
        flags := flags.(saving := false);
      }
    }

    /** `handleSendCode`: on success the button stays disabled until the
        cooldown ends. */
    method SendCode(answer: Answer<()>)
      modifies this
      ensures answer.Loaded? ==>
        flags == old(flags).(codeSent := true, saving := false) && error == None &&
        success == Some("Verification code sent! Check your phone.") && SendDisabled(flags)
      ensures answer.Failed? ==>
        flags == old(flags).(saving := false) && error == Some(ErrorText(answer.message, "Failed to send code")) &&
        success == old(success)
      ensures smsConfig == old(smsConfig) && phoneNumber == old(phoneNumber) && verificationCode == old(verificationCode)
    {
      error := None;
      if answer.Loaded? {
        flags := flags.(codeSent := true);
        success := Some("Verification code sent! Check your phone.");
      } else {
        error := Some(ErrorText(answer.message, "Failed to send code"));
      }
      flags := flags.(saving := false);
    }

    /** The 60-second timer after a sent code. */
    method CooldownOver()
      modifies this
      ensures flags == old(flags).(codeSent := false)
      ensures smsConfig == old(smsConfig) && error == old(error) && success == old(success)
    {
      flags := flags.(codeSent := false);
    }

    /** `handleVerifyCode`. A code that is not six digits sets the error and
        calls nothing. A verified code hides the form, empties the code and
        reloads the settings with `reload`. */
    method VerifyCode(answer: Answer<()>, reload: Answer<Option<SmsConfig>>) returns (called: bool)
      modifies this
      ensures called <==> IsCode(old(verificationCode))
      ensures !called ==>
        error == Some(CodeFormatError) && smsConfig == old(smsConfig) && flags == old(flags) &&
        verificationCode == old(verificationCode)
      ensures called && answer.Loaded? ==>
        success == Some("Phone verified successfully!") && verificationCode == "" &&
        flags == old(flags).(showVerification := false, loading := false, saving := false) &&
        (reload.Loaded? ==> smsConfig == reload.value && error == None) &&
        (reload.Failed? ==> smsConfig == old(smsConfig) && error == Some(ErrorText(reload.message, "Failed to load SMS settings")))
      ensures called && answer.Failed? ==>
        error == Some(ErrorText(answer.message, "Invalid or expired code")) && smsConfig == old(smsConfig) &&
        flags == old(flags).(saving := false) && verificationCode == old(verificationCode)
      ensures phoneNumber == old(phoneNumber)
    {
      called := IsCode(verificationCode);
      if !called {
        error := Some(CodeFormatError);
      } else {
        error := None;
        if answer.Loaded? {
          success := Some("Phone verified successfully!");
          flags := flags.(showVerification := false);
          verificationCode := "";
          LoadSettings(reload);
        } else {
          error := Some(ErrorText(answer.message, "Invalid or expired code"));
        }
        flags := flags.(saving := false);
      }
    }

    /** `confirmRegenerateKey`: the new key is read back by reloading. */
    method ConfirmRegenerateKey(answer: Answer<()>, reload: Answer<Option<SmsConfig>>)
      modifies this
      ensures answer.Loaded? ==>
        success == Some("SMS key regenerated! Check your new ID below.") &&
        flags == old(flags).(showRegenerateModal := false, loading := false, saving := false) &&
        (reload.Loaded? ==> smsConfig == reload.value && error == None) &&
        (reload.Failed? ==> smsConfig == old(smsConfig) && error == Some(ErrorText(reload.message, "Failed to load SMS settings")))
      ensures answer.Failed? ==>
        error == Some(ErrorText(answer.message, "Failed to regenerate key")) && smsConfig == old(smsConfig) &&
        flags == old(flags).(saving := false)
      ensures phoneNumber == old(phoneNumber) && verificationCode == old(verificationCode)
    {
      error := None;
      if answer.Loaded? {
        flags := flags.(showRegenerateModal := false);
        success := Some("SMS key regenerated! Check your new ID below.");
        LoadSettings(reload);
      } else {
        error := Some(ErrorText(answer.message, "Failed to regenerate key"));
      }
      flags := flags.(saving := false);
    }

    /** `confirmDisableSms` (the reset dialog) and, once the browser's
        confirmation is given, `handleDisableSms`: a disabled service has no
        configuration and no phone number. Only the reset dialog closes
        itself; a declined confirmation changes nothing. */
    method DisableSms(fromResetDialog: bool, confirmed: bool, answer: Answer<()>) returns (called: bool)
      modifies this
      ensures called <==> fromResetDialog || confirmed
      ensures !called ==>
        smsConfig == old(smsConfig) && phoneNumber == old(phoneNumber) && flags == old(flags) && error == old(error)
      ensures called && answer.Loaded? ==>
        smsConfig == None && phoneNumber == "" && error == None && success == Some("SMS disabled successfully") &&
        flags == (if fromResetDialog then old(flags).(showResetModal := false, saving := false) else old(flags).(saving := false))
      ensures called && answer.Failed? ==>
        smsConfig == old(smsConfig) && phoneNumber == old(phoneNumber) &&
        error == Some(ErrorText(answer.message, "Failed to disable SMS")) && flags == old(flags).(saving := false)
      ensures verificationCode == old(verificationCode)
    {
      called := fromResetDialog || confirmed;
      if called {
        error := None;
        if answer.Loaded? {
          smsConfig := None;
          phoneNumber := "";
          if fromResetDialog {
            flags := flags.(showResetModal := false);
          }
          success := Some("SMS disabled successfully");
        } else {
          error := Some(ErrorText(answer.message, "Failed to disable SMS"));
        }
        flags := flags.(saving := false);
      }
    }

    /** `handleToggleNotification`: the update sent, and the configuration
        the server answers with. */
    method ToggleNotification(t: NotificationType, answer: Answer<SmsConfig>) returns (sent: NotificationUpdate)
      modifies this
      ensures sent == ToggleUpdate(old(smsConfig), t)
      ensures answer.Loaded? ==>
        smsConfig == Some(answer.value) && error == None && success == Some("Notification preferences updated")
      ensures answer.Failed? ==>
        smsConfig == old(smsConfig) && error == Some(ErrorText(answer.message, "Failed to update notifications")) &&
        success == old(success)
      ensures flags == old(flags) && phoneNumber == old(phoneNumber) && verificationCode == old(verificationCode)
    {
      sent := ToggleUpdate(smsConfig, t);
      error := None;
      if answer.Loaded? {
        smsConfig := Some(answer.value);
        success := Some("Notification preferences updated");
      } else {
        error := Some(ErrorText(answer.message, "Failed to update notifications"));
      }
    }

    /** The buttons that only open or close a dialog or the code form. */
    method ShowVerification()
      modifies this
      ensures flags == old(flags).(showVerification := true) && smsConfig == old(smsConfig)
    {
      flags := flags.(showVerification := true);
    }

    method SetResetModal(open: bool)
      modifies this
      ensures flags == old(flags).(showResetModal := open) && smsConfig == old(smsConfig)
    {
      flags := flags.(showResetModal := open);
    }

    method SetRegenerateModal(open: bool)
      modifies this
      ensures flags == old(flags).(showRegenerateModal := open) && smsConfig == old(smsConfig)
    {
      flags := flags.(showRegenerateModal := open);
    }
  }

  /** After disabling, the page is back at set-up; after a successful
      initialisation it asks for verification when the server has not
      verified the number. */
  lemma PhasesAfterHandlers(c: SmsConfig)
    ensures PhaseOf(None) == SetupPhase
    ensures !c.verified ==> PhaseOf(Some(c)) == VerifyPhase
  {
  }
}
