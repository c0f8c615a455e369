// The notification switches and the delete-account button of
// src/components/AccountSettingsScreen.tsx. The three detailed switches are
// disabled while push notifications are off; a disabled switch takes no
// clicks, so its handler is only reachable while it is enabled. The browser's
// confirmation dialog is a parameter.

module AccountSettings {

  datatype Switch = Push | Email | Matches | Messages

  class SettingsScreen {
    var push: bool
    var email: bool
    var matches: bool
    var messages: bool

    constructor()
      ensures push && email && matches && messages
    {
      push := true;
      email := true;
      matches := true;
      messages := true;
    }

    /** The `checked` value of a switch. */
    function Checked(s: Switch): (on: bool)
      reads this
    {
      match s
      case Push => push
      case Email => email
      case Matches => matches
      case Messages => messages
    }

    /** The `disabled` value of a switch: every switch but push follows `!notifications`. */
    predicate Disabled(s: Switch)
      reads this
    {
      s != Push && !push
    }

    /** `onCheckedChange(value)` of switch `s`: only that switch's flag changes. */
    method Change(s: Switch, value: bool)
      requires !Disabled(s)
      modifies this
      ensures Checked(s) == value
      ensures forall t :: t != s ==> Checked(t) == old(Checked(t))
    {
      match s
      case Push => push := value;
      case Email => email := value;
      case Matches => matches := value;
      case Messages => messages := value;
    }

    /** `handleDeleteAccount`: the notice shows only when the user confirms. */
    method DeleteAccount(confirmed: bool) returns (noticeShown: bool)
      ensures noticeShown == confirmed
    {
      noticeShown := confirmed;
    }
  }

  /**
   * The screen's test: on a fresh screen, clicking the push switch turns it
   * off, and then the email, match and message switches are all disabled,
   * while their own flags keep their values.
   */
  method PushOffDisablesOthers() returns (screen: SettingsScreen)
    ensures !screen.Checked(Push)
    ensures screen.Disabled(Email) && screen.Disabled(Matches) && screen.Disabled(Messages)
    ensures screen.Checked(Email) && screen.Checked(Matches) && screen.Checked(Messages)
  {
    screen := new SettingsScreen();
    screen.Change(Push, !screen.Checked(Push));
  }
}
