/**
 * The settings page (src/pages/Settings.js): the preference toggles and selections with their
 * reset to fixed defaults, the three-field password form, and the password update's ordered
 * checks (the confirmation must match, then the new password must be at least 8 UTF-16 code
 * units long).
 */
module Settings {
  import opened Text

  // ---------------------------------------------------------------------------------------
  // The password form

  datatype PasswordField = OldPassword | NewPassword | ConfirmPassword

  datatype PasswordData = PasswordData(oldPassword: string, newPassword: string, confirmPassword: string)
  {
    /** The value of the input named `f`. */
    function Get(f: PasswordField): string
    {
      match f
      case OldPassword => oldPassword
      case NewPassword => newPassword
      case ConfirmPassword => confirmPassword
    }
  }

  const EmptyPasswords := PasswordData("", "", "")

  /** handlePasswordChange: the named field takes the typed value and the other two are kept. */
  function WithField(d: PasswordData, f: PasswordField, value: string): (r: PasswordData)
    ensures r.Get(f) == value
    ensures forall g :: g != f ==> r.Get(g) == d.Get(g)
  {
    match f
    case OldPassword => d.(oldPassword := value)
    case NewPassword => d.(newPassword := value)
    case ConfirmPassword => d.(confirmPassword := value)
  }

  /** Writing a field twice keeps only the second value; writing it back restores the record. */
  lemma {:induction false} WithFieldOverwrite(d: PasswordData, f: PasswordField, a: string, b: string)
    ensures WithField(WithField(d, f, a), f, b) == WithField(d, f, b)
    ensures WithField(d, f, d.Get(f)) == d
  {
  }

  datatype PasswordVerdict = Mismatch | TooShort | Updated
  {
    /** The alert shown for each outcome; the three texts differ, so the alert names the outcome. */
    function Message(): (r: string)
      ensures Mismatch? <==> r == "New passwords do not match!"
      ensures TooShort? <==> r == "Password must be at least 8 characters long"
      ensures Updated? <==> r == "Password updated successfully!"
    {
      match this
      case Mismatch => "New passwords do not match!"
      case TooShort => "Password must be at least 8 characters long"
      case Updated => "Password updated successfully!"
    }
  }

  /** The minimum length of a new password, in UTF-16 code units as JavaScript's `length` counts them. */
  const MinPasswordLength := 8

  /**
   * handleUpdatePassword's decision: a confirmation that differs is rejected before length is
   * looked at; a matching password is accepted exactly when it is at least 8 units long.
   */
  function CheckPassword(d: PasswordData): (v: PasswordVerdict)
    ensures v == Mismatch <==> d.newPassword != d.confirmPassword
    ensures v == TooShort <==> d.newPassword == d.confirmPassword && Utf16Length(d.newPassword) < MinPasswordLength
    ensures v == Updated <==> d.newPassword == d.confirmPassword && Utf16Length(d.newPassword) >= MinPasswordLength
  {
    if d.newPassword != d.confirmPassword then Mismatch
    else if Utf16Length(d.newPassword) < MinPasswordLength then TooShort
    else Updated
  }

  /** The form after an update attempt: cleared on success, untouched on either rejection. */
  function AfterUpdate(d: PasswordData): (r: PasswordData)
    ensures CheckPassword(d) == Updated ==> r == EmptyPasswords
    ensures CheckPassword(d) != Updated ==> r == d
  {
    if CheckPassword(d) == Updated then EmptyPasswords else d
  }

  /** The current-password field plays no part in the decision. */
  lemma {:induction false} CurrentPasswordIgnored(d: PasswordData, current: string)
    ensures CheckPassword(d.(oldPassword := current)) == CheckPassword(d)
    ensures CheckPassword(WithField(d, OldPassword, current)) == CheckPassword(d)
  {
  }

  /**
   * Submitting again straight away: a rejected form is rejected for the same reason, and a
   * cleared form is rejected as too short.
   */
  lemma {:induction false} ResubmitVerdict(d: PasswordData)
    ensures CheckPassword(AfterUpdate(d)) == if CheckPassword(d) == Updated then TooShort else CheckPassword(d)
  {
    assert Utf16Length("") == 0;
  }

  /** A mismatch is reported even when both entries are also too short; seven letters are too short. */
  lemma {:induction false} CheckPasswordRejections()
    ensures CheckPassword(PasswordData("old", "abc", "abd")) == Mismatch
    ensures CheckPassword(PasswordData("old", "abcdefg", "abcdefg")) == TooShort
  {
    assert CheckPassword(PasswordData("old", "abc", "abd")) == Mismatch by {
      assert "abc"[2] != "abd"[2];
    }
    assert CheckPassword(PasswordData("old", "abcdefg", "abcdefg")) == TooShort by {
      var s := "abcdefg";
      assert forall i :: 0 <= i < |s| ==> s[i] as int <= 0xFFFF;
    }
  }

  /** Eight letters are accepted, and so are four characters outside the Basic Multilingual Plane, which count as eight units. */
  lemma {:induction false} CheckPasswordAcceptances()
    ensures CheckPassword(PasswordData("", "abcdefgh", "abcdefgh")) == Updated
    ensures CheckPassword(PasswordData("", KeyFour, KeyFour)) == Updated
  {
    assert CheckPassword(PasswordData("", "abcdefgh", "abcdefgh")) == Updated by {
      var s := "abcdefgh";
      assert forall i :: 0 <= i < |s| ==> s[i] as int <= 0xFFFF;
    }
    KeyFourLength();
  }

  /** Four key emoji, each a surrogate pair in UTF-16. */
  const KeyFour := "\U{1F511}\U{1F511}\U{1F511}\U{1F511}"

  lemma {:induction false} KeyFourLength()
    ensures |KeyFour| == 4 && Utf16Length(KeyFour) == 8
  {
    var k := KeyFour;
    assert Utf16Length(k[3..]) == 2;
    assert Utf16Length(k[2..]) == 2 + Utf16Length(k[3..]);
    assert Utf16Length(k[1..]) == 2 + Utf16Length(k[2..]);
    assert Utf16Length(k) == 2 + Utf16Length(k[1..]);
  }

  // ---------------------------------------------------------------------------------------
  // Preferences

  /** The toggles and selections that the reset button restores. */
  datatype Preferences = Preferences(
    notifications: bool, newsletter: bool, darkMode: bool,
    emailNotifications: bool, smsNotifications: bool, promotions: bool, twoFactor: bool,
    language: string, currency: string, timeZone: string)

  const DefaultPreferences := Preferences(true, false, false, true, false, true, false,
                                          "English", "USD", "America/New_York")

  /** The settings page's state. */
  class SettingsView {
    var notifications: bool
    var newsletter: bool
    var darkMode: bool
    var emailNotifications: bool
    var smsNotifications: bool
    var promotions: bool
    var twoFactor: bool
    var language: string
    var currency: string
    var timeZone: string
    var exportFormat: string
    var passwordData: PasswordData

    /** The initial state: the default preferences, JSON export and an empty password form. */
    constructor ()
      ensures CurrentPreferences() == DefaultPreferences
      ensures exportFormat == "json" && passwordData == EmptyPasswords
    {
      var d := DefaultPreferences;
      notifications, newsletter, darkMode := d.notifications, d.newsletter, d.darkMode;
      emailNotifications, smsNotifications := d.emailNotifications, d.smsNotifications;
      promotions, twoFactor := d.promotions, d.twoFactor;
      language, currency, timeZone := d.language, d.currency, d.timeZone;
      exportFormat := "json";
      passwordData := EmptyPasswords;
    }

    function CurrentPreferences(): Preferences
      reads this
    {
      Preferences(notifications, newsletter, darkMode, emailNotifications, smsNotifications,
                  promotions, twoFactor, language, currency, timeZone)
    }

    /** handleResetSettings: every preference back to its default and the password form emptied; the export format is not reset. */
    method ResetSettings()
      modifies this`notifications, this`newsletter, this`darkMode, this`emailNotifications
      modifies this`smsNotifications, this`promotions, this`twoFactor
      modifies this`language, this`currency, this`timeZone, this`passwordData
      ensures CurrentPreferences() == DefaultPreferences
      ensures passwordData == EmptyPasswords
      ensures exportFormat == old(exportFormat)
    {
      notifications, newsletter, darkMode := true, false, false;
      emailNotifications, smsNotifications, promotions, twoFactor := true, false, true, false;
      language, currency, timeZone := "English", "USD", "America/New_York";
      passwordData := EmptyPasswords;
    }

    /** Typing into one of the three password inputs. */
    method PasswordChange(f: PasswordField, value: string)
      modifies this`passwordData
      ensures passwordData == WithField(old(passwordData), f, value)
    {
      passwordData := WithField(passwordData, f, value);
    }

    /** handleUpdatePassword: returns the alert's text and clears the form only on success. */
    method UpdatePassword() returns (alert: string)
      modifies this`passwordData
      ensures alert == CheckPassword(old(passwordData)).Message()
      ensures passwordData == AfterUpdate(old(passwordData))
    {
      if passwordData.newPassword != passwordData.confirmPassword {
        return Mismatch.Message();
      }
      if Utf16Length(passwordData.newPassword) < MinPasswordLength {
        return TooShort.Message();
      }
      alert := Updated.Message();
      passwordData := EmptyPasswords;
    }
  }
}
