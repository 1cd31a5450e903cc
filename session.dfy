/** The per-browser session dictionary and the code that reads and writes it:
    the gate at the top of `main`, the guard of the history panel, the guest
    button, a successful login, and `logout_user`. */
module Session {
  import opened Wrappers
  import AuthForms

  const UserKey := "user"
  const EmailKey := "user_email"
  const GuestKey := "guest_mode"

  /** The values the app stores: the provider's user object (by its id), a
      text, or a flag. */
  datatype Value = User(id: string) | Str(text: string) | Flag(flag: bool)

  type Entries = map<string, Value>

  /** `main` shows the login/register page, and nothing else, exactly when the
      session holds neither a user nor the guest flag. */
  function ShowsAuthPage(s: Entries): (shown: bool)
    ensures shown <==> UserKey !in s && GuestKey !in s
  {
    !(UserKey in s) && !(GuestKey in s)
  }

  /** The history panel is drawn exactly for a signed-in user with a database
      client; a guest without a user gets none. */
  function ShowsHistory(s: Entries, databaseAvailable: bool): (shown: bool)
    ensures shown <==> UserKey in s && databaseAvailable
    ensures shown ==> !ShowsAuthPage(s)
  {
    UserKey in s && databaseAvailable
  }

  /** A user is signed in exactly when the session also holds their email. */
  predicate Consistent(s: Entries) {
    UserKey in s <==> EmailKey in s
  }

  /** The session after `logout_user`: when sign-out returns, the user and
      email keys are gone and every other key is kept with its value; when
      sign-out raises, the session is left as it was. */
  function SignedOut(s: Entries, signOutReturned: bool): (t: Entries)
    ensures signOutReturned ==> t.Keys == s.Keys - {UserKey, EmailKey}
    ensures !signOutReturned ==> t == s
    ensures forall k :: k in t ==> k in s && t[k] == s[k]
  {
    if signOutReturned then s - {UserKey, EmailKey} else s
  }

  /** The session after "Continue as Guest": the guest flag is set and nothing else changes. */
  function AsGuest(s: Entries): (t: Entries)
    ensures t.Keys == s.Keys + {GuestKey} && t[GuestKey] == Flag(true)
    ensures forall k :: k in s && k != GuestKey ==> t[k] == s[k]
  {
    s[GuestKey := Flag(true)]
  }

  /** The session after a press of Login: the user and the email typed are
      stored only when a user was signed in. */
  function AfterSignIn(s: Entries, email: string, signedIn: Option<string>): (t: Entries)
    ensures signedIn.None? ==> t == s
    ensures signedIn.Some? ==>
      (t.Keys == s.Keys + {UserKey, EmailKey} && t[UserKey] == User(signedIn.value) && t[EmailKey] == Str(email))
    ensures forall k :: k in s && k != UserKey && k != EmailKey ==> t[k] == s[k]
  {
    if signedIn.Some? then s[UserKey := User(signedIn.value)][EmailKey := Str(email)] else s
  }

  /** Logging out leads back to the login page exactly when the guest flag is
      not set; a failed sign-out leaves the gate as it was. Guest mode survives
      logout. */
  lemma GateAfterSignOut(s: Entries, signOutReturned: bool, databaseAvailable: bool)
    ensures signOutReturned ==> (ShowsAuthPage(SignedOut(s, true)) <==> GuestKey !in s)
    ensures ShowsAuthPage(SignedOut(s, false)) == ShowsAuthPage(s)
    ensures GuestKey in s ==> GuestKey in SignedOut(s, signOutReturned)
    ensures !ShowsHistory(SignedOut(s, true), databaseAvailable)
  {
  }

  /** After the guest button, or after a successful login, the gate lets the
      user through; only the login also opens the history panel. */
  lemma GateAfterEntering(s: Entries, email: string, user: string, databaseAvailable: bool)
    ensures !ShowsAuthPage(AsGuest(s))
    ensures ShowsHistory(AsGuest(s), databaseAvailable) == ShowsHistory(s, databaseAvailable)
    ensures UserKey !in s ==> !ShowsHistory(AsGuest(s), databaseAvailable)
    ensures !ShowsAuthPage(AfterSignIn(s, email, Some(user)))
    ensures ShowsHistory(AfterSignIn(s, email, Some(user)), databaseAvailable) == databaseAvailable
  {
  }

  /** Every session update keeps the user and the email together. */
  lemma UpdatesKeepConsistent(s: Entries, signOutReturned: bool, email: string, signedIn: Option<string>)
    requires Consistent(s)
    ensures Consistent(SignedOut(s, signOutReturned))
    ensures Consistent(AsGuest(s))
    ensures Consistent(AfterSignIn(s, email, signedIn))
  {
  }

  /** The session dictionary, updated in place by the page's buttons. */
  class SessionState {
    var entries: Entries

    /** An invariant every method keeps: user and email are stored and
        removed together. No contract of the page relies on it; it records
        that no update leaves one without the other. */
    ghost predicate Valid()
      reads this
    {
      Consistent(entries)
    }

    /** A new browser session holds nothing and shows the login page. */
    constructor ()
      ensures Valid() && entries == map[] && ShowsAuthPage(entries)
    {
      entries := map[];
    }

    /** "Continue as Guest". */
    method ContinueAsGuest()
      requires Valid()
      modifies this
      ensures Valid() && entries == AsGuest(old(entries))
    {
      entries := entries[GuestKey := Flag(true)];
      UpdatesKeepConsistent(old(entries), false, "", None);
    }

    /** `logout_user`: sign-out is asked first; each key is deleted only if it is
        present, and nothing is deleted when sign-out raises. */
    method Logout(signOutReturned: bool)
      requires Valid()
      modifies this
      ensures Valid() && entries == SignedOut(old(entries), signOutReturned)
    {
      if signOutReturned {
        if UserKey in entries {
          entries := entries - {UserKey};
        }
        if EmailKey in entries {
          entries := entries - {EmailKey};
        }
      }
      UpdatesKeepConsistent(old(entries), signOutReturned, "", None);
    }

    /** A press of Login: the form's decision, and the session written when a
        user was signed in. */
    method PressLogin(email: string, password: string, databaseAvailable: bool, reply: AuthForms.ProviderReply)
      returns (notice: AuthForms.Notice)
      requires Valid()
      modifies this
      ensures notice == AuthForms.SignIn(email, password, databaseAvailable, reply).notice
      ensures Valid()
      ensures entries == AfterSignIn(old(entries), email, AuthForms.SignIn(email, password, databaseAvailable, reply).signedIn)
    {
      var attempt := AuthForms.SignIn(email, password, databaseAvailable, reply);
      notice := attempt.notice;
      if attempt.signedIn.Some? {
        entries := entries[UserKey := User(attempt.signedIn.value)];
        entries := entries[EmailKey := Str(email)];
      }
      UpdatesKeepConsistent(old(entries), false, email, attempt.signedIn);
    }
  }
}
