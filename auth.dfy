/**
 * The admin session shared by app.py, oapp.py and 9app.py: the login_required gate, the
 * /admin index redirect, login and logout, over Flask's session as a map from keys to values.
 * The three files hold the same code; only where the expected credentials come from differs.
 */
module Auth {
  import opened Wrappers
  import opened Text
  import Config

  datatype SessionValue = Flag(flag: bool) | Str(text: string)

  type SessionMap = map<string, SessionValue>

  const LoggedInKey := "admin_logged_in"
  const UsernameKey := "admin_username"
  const LoginTimeKey := "login_time"

  /** request.form.get(name, '').strip(): a missing field reads as the empty string. */
  function FormField(v: Option<string>): (r: string)
    ensures v.None? ==> r == ""
  {
    Strip(v.GetOr(""))
  }

  /** A form field reads as "" exactly when it is missing or all whitespace. */
  lemma FormFieldBlankIff(v: Option<string>)
    ensures FormField(v) == [] <==> v.None? || forall i :: 0 <= i < |v.value| ==> IsSpace(v.value[i])
  {
    if v.Some? {
      assert FormField(v) == Strip(v.value);
      StripEmptyIff(v.value);
    }
  }

  /** What a login POST decides: a blank field, wrong credentials, or the admin it accepts. */
  datatype LoginDecision = BlankFields | Invalid | Accepted(username: string)

  /**
   * app.py lines 78-98: both fields are stripped; a field that is then empty is rejected before
   * the credentials are looked at; otherwise both must equal the expected credentials.
   */
  function DecideLogin(username: Option<string>, password: Option<string>, expected: Config.Credentials): (r: LoginDecision)
    ensures r.BlankFields? <==> FormField(username) == "" || FormField(password) == ""
    ensures r.Accepted? <==> !r.BlankFields? && FormField(username) == expected.username && FormField(password) == expected.password
    ensures r.Accepted? ==> r.username == expected.username && r.username != ""
  {
    var u := FormField(username);
    var p := FormField(password);
    if u == "" || p == "" then BlankFields
    else if u == expected.username && p == expected.password then Accepted(u)
    else Invalid
  }

  /** A field counts as blank exactly when it is missing or consists of whitespace only. */
  lemma BlankMeansWhitespaceOnly(username: Option<string>, password: Option<string>, expected: Config.Credentials)
    ensures DecideLogin(username, password, expected).BlankFields? <==>
              (forall i :: 0 <= i < |username.GetOr("")| ==> IsSpace(username.GetOr("")[i]))
              || (forall i :: 0 <= i < |password.GetOr("")| ==> IsSpace(password.GetOr("")[i]))
  {
    StripEmptyIff(username.GetOr(""));
    StripEmptyIff(password.GetOr(""));
  }

  /**
   * app.py lines 89-92: an accepted login sets the three session keys and keeps every other
   * entry; a rejected one leaves the session as it was.
   */
  function LoginEffect(s: SessionMap, d: LoginDecision, loginTime: string): (r: SessionMap)
    ensures !d.Accepted? ==> r == s
    ensures d.Accepted? ==> LoggedInKey in r && r[LoggedInKey] == Flag(true)
    ensures d.Accepted? ==> UsernameKey in r && r[UsernameKey] == Str(d.username)
    ensures d.Accepted? ==> LoginTimeKey in r && r[LoginTimeKey] == Str(loginTime)
    ensures d.Accepted? ==> forall k :: k != LoggedInKey && k != UsernameKey && k != LoginTimeKey ==>
              (k in r <==> k in s) && (k in s ==> r[k] == s[k])
  {
    if d.Accepted? then s[LoggedInKey := Flag(true)][UsernameKey := Str(d.username)][LoginTimeKey := Str(loginTime)]
    else s
  }

  /** The outcome of a request to a gated route. */
  datatype GateOutcome<R> = RedirectToLogin | Ran(result: R)

  /**
   * app.py lines 46-53, admin_login_required: the handler runs iff 'admin_logged_in' is a key
   * of the session; otherwise the request is redirected and the handler is not called.
   */
  function Gate<R>(s: SessionMap, handler: () -> R): (r: GateOutcome<R>)
    ensures r.Ran? <==> LoggedInKey in s
    ensures r.Ran? ==> r.result == handler()
  {
    if LoggedInKey in s then Ran(handler()) else RedirectToLogin
  }

  datatype IndexRedirect = ToDashboard | ToLogin

  /** app.py lines 64-69: /admin sends a logged-in admin to the dashboard and anyone else to login. */
  function AdminIndex(s: SessionMap): (r: IndexRedirect)
    ensures r == ToDashboard <==> LoggedInKey in s
  {
    if LoggedInKey in s then ToDashboard else ToLogin
  }

  /** After an accepted login every gated route runs; a rejected login changes no gate decision. */
  lemma LoginOpensGate<R>(s: SessionMap, d: LoginDecision, loginTime: string, handler: () -> R)
    ensures d.Accepted? ==> Gate(LoginEffect(s, d, loginTime), handler) == Ran(handler())
    ensures !d.Accepted? ==> Gate(LoginEffect(s, d, loginTime), handler) == Gate(s, handler)
  {
  }

  /** After logout, whatever the session held, every gated route redirects to login. */
  lemma LogoutClosesGate<R>(handler: () -> R)
    ensures Gate(map[], handler) == RedirectToLogin
    ensures AdminIndex(map[]) == ToLogin
  {
  }

  /** Flask's session for one browser. */
  class Session {
    var entries: SessionMap

    constructor ()
      ensures entries == map[]
    {
      entries := map[];
    }

    /** app.py lines 75-100, admin_login on POST. */
    method Login(username: Option<string>, password: Option<string>, expected: Config.Credentials, loginTime: string)
      returns (decision: LoginDecision)
      modifies this
      ensures decision == DecideLogin(username, password, expected)
      ensures entries == LoginEffect(old(entries), decision, loginTime)
    {
      var u := FormField(username);
      var p := FormField(password);
      if u == "" || p == "" {
        return BlankFields;
      }
      if u == expected.username && p == expected.password {
        entries := entries[LoggedInKey := Flag(true)][UsernameKey := Str(u)][LoginTimeKey := Str(loginTime)];
        return Accepted(u);
      }
      return Invalid;
    }

    /** app.py lines 102-107, admin_logout: session.clear(). */
    method Logout()
      modifies this
      ensures entries == map[]
    {
      entries := map[];
    }

    /** session.get('admin_username') as the admin id of the audit log. */
    function AdminUsername(): (r: Option<string>)
      reads this
      ensures r.Some? <==> UsernameKey in entries && entries[UsernameKey].Str?
      ensures r.Some? ==> entries[UsernameKey] == Str(r.value)
    {
      if UsernameKey in entries && entries[UsernameKey].Str? then Some(entries[UsernameKey].text) else None
    }
  }
}
