/**
 * The account screens: the sign-in / sign-up switch and submit button of the sign-up screen,
 * and the username editor of the settings screen.
 */
module Account {
  import opened Wrappers
  import opened Users

  // ---------------------------------------------------------------- sign up

  datatype AuthMode = SignIn | SignUp

  /** `AuthMode.toggle()`: the other mode. */
  function Toggled(mode: AuthMode): (r: AuthMode)
    ensures r != mode
    ensures mode == SignIn <==> r == SignUp
  {
    match mode
    case SignIn => SignUp
    case SignUp => SignIn
  }

  /** Toggling twice is no change. */
  lemma ToggleIsInvolution(mode: AuthMode)
    ensures Toggled(Toggled(mode)) == mode
  {
  }

  /** The calls the submit button makes on the authentication view model. */
  datatype AuthCall = SignInCall | SignUpCall

  /** `SignUpView`'s state, with the view model's password and error message. */
  class SignUpScreen {
    var authMode: AuthMode
    var password: string
    var confirmPassword: string
    var errorMessage: Option<string>
    /** The calls made, oldest first. */
    var calls: seq<AuthCall>

    /** The screen opens in sign-up mode with empty fields. */
    constructor()
      ensures authMode == SignUp && password == "" && confirmPassword == ""
      ensures errorMessage.None? && calls == []
    {
      authMode, password, confirmPassword := SignUp, "", "";
      errorMessage, calls := None, [];
    }

    /**
     * The "Sign In" / "Sign Up" button: sign in without further checks; sign up only when
     * the two passwords agree, otherwise report the mismatch.
     */
    method Submit()
      modifies this
      ensures authMode == old(authMode) && password == old(password) && confirmPassword == old(confirmPassword)
      ensures authMode == SignIn ==> calls == old(calls) + [SignInCall] && errorMessage == old(errorMessage)
      ensures authMode == SignUp && password == confirmPassword ==>
        calls == old(calls) + [SignUpCall] && errorMessage == old(errorMessage)
      ensures authMode == SignUp && password != confirmPassword ==>
        calls == old(calls) && errorMessage == Some("Passwords don't match")
    {
      if authMode == SignIn {
        calls := calls + [SignInCall];
      } else if password == confirmPassword {
        calls := calls + [SignUpCall];
      } else {
        errorMessage := Some("Passwords don't match");
      }
    }

    /** The "Sign Up" / "Sign In" link under the buttons. */
    method ToggleMode()
      modifies this
      ensures authMode == Toggled(old(authMode))
      ensures password == old(password) && confirmPassword == old(confirmPassword)
      ensures errorMessage == old(errorMessage) && calls == old(calls)
    {
      authMode := Toggled(authMode);
    }
  }

  // ---------------------------------------------------------------- settings

  /** `validateUsername`: non-empty and at least five characters. */
  predicate ValidUsername(username: string) {
    username != "" && |username| >= 5
  }

  /** The check reduces to the length alone, and the empty name never passes. */
  lemma ValidUsernameIsLength(username: string)
    ensures ValidUsername(username) <==> |username| >= 5
    ensures !ValidUsername("")
  {
  }

  /**
   * `UserNameSection` with the `EditUsernameView` sheet it presents. The sheet's text field is
   * bound to the section's `updatedUsername`, which starts empty; `initialUsername` is the name the
   * section shows, and `user` the settings view model's user. `written` collects the users sent to
   * the database by `updateUserName`, oldest first.
   */
  class UsernameSection {
    var updatedUsername: string
    var isEditing: bool
    const initialUsername: string
    var showErrorAlert: bool
    const user: Option<User>
    var written: seq<User>

    /** The section appears with the editor closed and an empty edit buffer. */
    constructor(initialUsername: string, user: Option<User>)
      ensures updatedUsername == "" && this.initialUsername == initialUsername && this.user == user
      ensures !isEditing && !showErrorAlert && written == []
    {
      updatedUsername, this.initialUsername, this.user := "", initialUsername, user;
      isEditing, showErrorAlert, written := false, false, [];
    }

    /** The pencil button presents the sheet, a new editor view with no alert; the buffer is kept. */
    method BeginEditing()
      modifies this
      ensures isEditing && !showErrorAlert
      ensures updatedUsername == old(updatedUsername) && written == old(written)
    {
      isEditing, showErrorAlert := true, false;
    }

    /** Typing into the "New Username" field. */
    method Type(text: string)
      modifies this
      ensures updatedUsername == text
      ensures isEditing == old(isEditing) && showErrorAlert == old(showErrorAlert) && written == old(written)
    {
      updatedUsername := text;
    }

    /** "Cancel": reset the buffer to the shown name and close the editor. */
    method Cancel()
      modifies this
      ensures updatedUsername == initialUsername && !isEditing
      ensures showErrorAlert == old(showErrorAlert) && written == old(written)
    {
      updatedUsername := initialUsername;
      isEditing := false;
    }

    /**
     * "Save": a valid name is written into the view model's user, when there is one; an invalid
     * one raises the alert and writes nothing. The editor stays open either way.
     */
    method Save()
      modifies this
      ensures updatedUsername == old(updatedUsername) && isEditing == old(isEditing)
      ensures !ValidUsername(updatedUsername) ==> showErrorAlert && written == old(written)
      ensures ValidUsername(updatedUsername) && user.None? ==> showErrorAlert == old(showErrorAlert) && written == old(written)
      ensures ValidUsername(updatedUsername) && user.Some? ==>
        showErrorAlert == old(showErrorAlert) &&
        written == old(written) + [CopyWith(user.value, None, None, Some(updatedUsername), None, None, None, None, None, None)]
    {
      if ValidUsername(updatedUsername) {
        if user.Some? {
          written := written + [CopyWith(user.value, None, None, Some(updatedUsername), None, None, None, None, None, None)];
        }
      } else {
        showErrorAlert := true;
      }
    }

    /** "OK" on the "Invalid Username" alert dismisses it. */
    method DismissAlert()
      modifies this
      ensures !showErrorAlert
      ensures updatedUsername == old(updatedUsername) && isEditing == old(isEditing) && written == old(written)
    {
      showErrorAlert := false;
    }
  }

  /**
   * Opening the editor for the first time and saving without typing: the buffer is still empty,
   * so the alert shows and nothing is written, whatever the current name.
   */
  method FirstSaveWithoutTyping(initialUsername: string, user: Option<User>) returns (section: UsernameSection)
    ensures section.isEditing && section.updatedUsername == ""
    ensures section.showErrorAlert && section.written == []
  {
    section := new UsernameSection(initialUsername, user);
    section.BeginEditing();
    section.Save();
  }

  /**
   * After a cancel, the next opening shows the current name; saving it writes that name when it
   * is valid, and otherwise raises the alert.
   */
  method SaveAfterCancel(initialUsername: string, u: User) returns (section: UsernameSection)
    ensures section.isEditing && section.updatedUsername == initialUsername
    ensures ValidUsername(initialUsername) ==> section.written == [u.(username := initialUsername)]
    ensures !ValidUsername(initialUsername) ==> section.showErrorAlert && section.written == []
  {
    section := new UsernameSection(initialUsername, Some(u));
    section.BeginEditing();
    section.Cancel();
    section.BeginEditing();
    section.Save();
    SavedUserChangesOnlyTheName(u, initialUsername);
  }

  /** The user written by "Save" carries the new name and otherwise is the user as it was. */
  lemma SavedUserChangesOnlyTheName(u: User, username: string)
    ensures CopyWith(u, None, None, Some(username), None, None, None, None, None, None) == u.(username := username)
  {
  }
}
