/** The profile screen (views/profile_view.py): the password change, checked
    in a fixed order before the remote call, and sign-out. */
module ProfileView {
  import opened Records
  import opened Client
  import OfflineStore

  const TokenKey := "id_token"
  const MinPasswordLength := 6

  /** The text of the message line. */
  datatype Notice =
    | Idle
    | TooShort
    | Mismatch
    | NoSession
    | Changed
    | ChangeFailed(message: string)

  /** The remote `change_password` answer: an error message, or success with
      possibly a fresh `idToken`. */
  datatype PasswordOutcome = PasswordError(message: string) | PasswordChanged(idToken: Option<string>)

  /** `field.value or ""` */
  function FieldText(o: Option<string>): (r: string)
    ensures o.Some? ==> r == o.value
    ensures o.None? ==> r == ""
  {
    if o.Some? then o.value else ""
  }

  /** The checks, in order: length, then agreement, then a stored token. */
  datatype Checked = Refused(notice: Notice) | Request(token: string, password: string)

  function CheckPassword(newPass: Option<string>, confirm: Option<string>, token: Option<string>): (r: Checked)
    ensures r.Request? <==>
      |FieldText(newPass)| >= MinPasswordLength && FieldText(newPass) == FieldText(confirm) &&
      token.Some? && token.value != ""
    ensures r.Request? ==> r.token == token.value && r.password == FieldText(newPass)
    ensures r.Refused? ==> r.notice in {TooShort, Mismatch, NoSession}
    ensures (|FieldText(newPass)| >= MinPasswordLength && FieldText(newPass) == FieldText(confirm) &&
             !(token.Some? && token.value != "")) ==> r == Refused(NoSession)
  {
    var password := FieldText(newPass);
    if |password| < MinPasswordLength then Refused(TooShort)
    else if password != FieldText(confirm) then Refused(Mismatch)
    else if token.None? || token.value == "" then Refused(NoSession)
    else Request(token.value, password)
  }

  /** A short password is refused whatever the confirmation and the session;
      `None` reads as the empty text, which is short. */
  lemma LengthCheckedFirst(newPass: Option<string>, c1: Option<string>, t1: Option<string>, c2: Option<string>, t2: Option<string>)
    requires |FieldText(newPass)| < MinPasswordLength
    ensures CheckPassword(newPass, c1, t1) == CheckPassword(newPass, c2, t2) == Refused(TooShort)
    ensures CheckPassword(None, c1, t1) == Refused(TooShort)
  {
  }

  /** A mismatch is reported before the session is looked at. */
  lemma MismatchBeforeSession(newPass: Option<string>, confirm: Option<string>, t1: Option<string>, t2: Option<string>)
    requires |FieldText(newPass)| >= MinPasswordLength && FieldText(newPass) != FieldText(confirm)
    ensures CheckPassword(newPass, confirm, t1) == CheckPassword(newPass, confirm, t2) == Refused(Mismatch)
  {
  }

  /** The storage after the remote answer: only a success carrying a
      non-empty `idToken` replaces the stored token. */
  function AfterChange(data: map<string, Stored>, outcome: PasswordOutcome): map<string, Stored> {
    match outcome
    case PasswordError(_) => data
    case PasswordChanged(t) =>
      if t.Some? && t.value != "" then data[TokenKey := Text(t.value)] else data
  }

  /** The storage after sign-out: not signed in, no email, token or user. */
  function AfterLogout(data: map<string, Stored>): map<string, Stored> {
    data["is_logged_in" := Flag(false)] - {"email", TokenKey, "user_id"}
  }

  /** Sign-out keeps every user's cached lists and pending queue, and leaves
      no token, so a later password change is refused for want of a session. */
  lemma LogoutKeepsOfflineData(data: map<string, Stored>, kind: OfflineStore.Kind, user: string, p: Option<string>, c: Option<string>)
    ensures var key := OfflineStore.KeyOf(kind, user);
      (key in AfterLogout(data) <==> key in data) &&
      (key in data ==> AfterLogout(data)[key] == data[key])
    ensures TruthyText(AfterLogout(data), TokenKey) == None
    ensures !CheckPassword(p, c, TruthyText(AfterLogout(data), TokenKey)).Request?
  {
    OfflineStore.SessionKeysAreNotNamespaced(kind, user);
  }

  class ProfilePage {
    var newPass: Option<string>
    var confirm: Option<string>
    var notice: Notice

    constructor (newPass: Option<string>, confirm: Option<string>)
      ensures this.newPass == newPass && this.confirm == confirm && notice == Idle
    {
      this.newPass, this.confirm := newPass, confirm;
      notice := Idle;
    }

    /** `on_change_password` with the remote `change_password` answered by
        `outcome`. `sent` is the (token, password) pair sent (`None`: no call). */
    method OnChangePassword(storage: ClientStorage, outcome: PasswordOutcome) returns (sent: Option<(string, string)>)
      modifies this, storage
      ensures newPass == old(newPass) && confirm == old(confirm)
      ensures match CheckPassword(newPass, confirm, TruthyText(old(storage.data), TokenKey))
        case Refused(n) => notice == n && sent == None && storage.data == old(storage.data)
        case Request(token, password) =>
          sent == Some((token, password)) &&
          storage.data == AfterChange(old(storage.data), outcome) &&
          notice == (if outcome.PasswordError? then ChangeFailed(outcome.message) else Changed)
    {
      var password := FieldText(newPass);
      var again := FieldText(confirm);
      if |password| < MinPasswordLength {
        notice := TooShort;
        return None;
      }
      if password != again {
        notice := Mismatch;
        return None;
      }
      var token := TruthyText(storage.data, TokenKey);
      if token.None? {
        notice := NoSession;
        return None;
      }
      sent := Some((token.value, password));
      match outcome {
        case PasswordError(message) =>
          notice := ChangeFailed(message);
        case PasswordChanged(newToken) =>
          notice := Changed;
          if newToken.Some? && newToken.value != "" {
            storage.Set(TokenKey, Text(newToken.value));
          }
      }
    }

    /** `on_logout`: clears the session and the stored credentials, then
        goes to the login screen. */
    method OnLogout(session: Session, storage: ClientStorage) returns (next: string)
      modifies session, storage
      ensures !session.authenticated && session.userId == None
      ensures session.SignedInUser() == None
      ensures storage.data == AfterLogout(old(storage.data))
      ensures next == "/login"
    {
      session.authenticated := false;
      session.userId := None;
      storage.Set("is_logged_in", Flag(false));
      storage.Remove("email");
      storage.Remove(TokenKey);
      storage.Remove("user_id");
      next := "/login";
    }
  }
}
