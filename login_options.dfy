/**
 * The login options dialog's OK button: every field is checked in turn, the
 * first bad one takes the focus and its message is shown, and only a form
 * that passes every check is written to the login options. Whether the host
 * name resolves is a DNS lookup, given here as a parameter.
 */
module Login {
  import opened Wrappers
  import opened JavaInt

  /** The dialog field that takes the focus when a check fails. */
  datatype Field = HostField | PortField | GameField | NameField | PasswordField

  /** What the dialog's fields hold when OK is pressed. */
  datatype Form = Form(host: string, portText: string, game: char, name: string, password: string, autoLogin: bool)

  /** saveFields' outcome: the parsed port, or the InputValidationException's field and message. */
  datatype Verdict = Accepted(port: int) | Rejected(field: Field, message: string)

  /** The characters ' ' through '}' the name and password patterns allow. */
  predicate AllowedChars(s: string)
  {
    forall k :: 0 <= k < |s| ==> ' ' <= s[k] <= '}'
  }

  /** The name pattern [ -}]{0,41}. */
  predicate NameMatches(name: string) { |name| <= 41 && AllowedChars(name) }

  /** The password pattern [ -}]{0,8}. */
  predicate PasswordMatches(password: string) { |password| <= 8 && AllowedChars(password) }

  /** A game letter is 'A'..'Z' other than 'Q'. */
  predicate ValidGame(c: char) { 'A' <= c <= 'Z' && c != 'Q' }

  predicate ValidPort(p: int) { 1 <= p <= 65535 }

  /** What the login options hold after a save: the conditions saveFields checks. */
  predicate Acceptable(f: Form, hostKnown: bool)
  {
    f.host != "" && hostKnown &&
    ParseInt(f.portText).Some? && ValidPort(ParseInt(f.portText).value) &&
    ValidGame(f.game) && NameMatches(f.name) && PasswordMatches(f.password) &&
    !(f.autoLogin && f.name == "")
  }

  /** The checks of saveFields, in its order; hostKnown is whether the DNS lookup succeeds. */
  function Check(f: Form, hostKnown: bool): (v: Verdict)
    ensures v.Accepted? <==> Acceptable(f, hostKnown)
    ensures v.Accepted? ==> Some(v.port) == ParseInt(f.portText) && ValidPort(v.port)
    ensures f.host == "" ==> v == Rejected(HostField, "host required")
    ensures f.host != "" && !hostKnown ==> v == Rejected(HostField, "unknown host: " + f.host)
    ensures f.host != "" && hostKnown && ParseInt(f.portText).None? ==> v == Rejected(PortField, "invalid port: " + f.portText)
    ensures v.Rejected? && v.field == GameField ==> !ValidGame(f.game)
    ensures v.Rejected? && v.field == PasswordField ==> !PasswordMatches(f.password)
    ensures v.Rejected? && v.field == NameField ==> !NameMatches(f.name) || (f.autoLogin && f.name == "")
  {
    if f.host == "" then Rejected(HostField, "host required")
    else if !hostKnown then Rejected(HostField, "unknown host: " + f.host)
    else match ParseInt(f.portText)
      case None => Rejected(PortField, "invalid port: " + f.portText)
      case Some(port) =>
        if port < 1 || port > 65535 then Rejected(PortField, "invalid port: " + IntToString(port))
        else if f.game < 'A' || f.game > 'Z' || f.game == 'Q' then Rejected(GameField, "invalid game letter: " + [f.game])
        else if !NameMatches(f.name) then Rejected(NameField, "invalid name: " + f.name)
        else if !PasswordMatches(f.password) then Rejected(PasswordField, "invalid password: " + f.password)
        else if f.autoLogin && f.name == "" then Rejected(NameField, "name required for auto-login")
        else Accepted(port)
  }

  /** The letters the game combo box offers: A to Z without Q. */
  method GameChoices() returns (letters: seq<char>)
    ensures |letters| == 25
    ensures forall c :: c in letters <==> ValidGame(c)
    ensures forall i, j :: 0 <= i < j < |letters| ==> letters[i] < letters[j]
  {
    letters := [];
    var c := 'A';
    while c <= 'Z'
      invariant 'A' <= c <= ('Z' as int + 1) as char
      invariant |letters| == (c as int - 'A' as int) - (if c > 'Q' then 1 else 0)
      invariant forall d :: d in letters <==> ValidGame(d) && d < c
      invariant forall i, j :: 0 <= i < j < |letters| ==> letters[i] < letters[j]
      invariant forall i :: 0 <= i < |letters| ==> letters[i] < c
      decreases 'Z' as int - c as int
    {
      if c != 'Q' {
        letters := letters + [c];
      }
      c := (c as int + 1) as char;
    }
  }

  /** Server login settings. */
  class LoginOptions {
    var host: string
    var port: int
    var game: char
    var name: string
    var password: string
    var autoLogin: bool

    constructor ()
      ensures host == "" && port == 23 && game == 'A' && name == "" && password == "" && !autoLogin
    {
      host, port, game := "", 23, 'A';
      name, password, autoLogin := "", "", false;
    }

    /** The settings a successful save leaves. */
    ghost predicate Saved()
      reads this
    {
      host != "" && ValidPort(port) && ValidGame(game) && NameMatches(name) && PasswordMatches(password) &&
      !(autoLogin && name == "")
    }

    /** saveFields: the six settings are written only when every check passes, and then all together. */
    method SaveFields(f: Form, hostKnown: bool) returns (v: Verdict)
      modifies this
      ensures v == Check(f, hostKnown)
      ensures v.Rejected? ==> unchanged(this)
      ensures v.Accepted? ==> (host == f.host && port == v.port && game == f.game && name == f.name &&
        password == f.password && autoLogin == f.autoLogin && Saved())
    {
      v := Check(f, hostKnown);
      if v.Rejected? {
        return;
      }
      host := f.host;
      port := v.port;
      game := f.game;
      name := f.name;
      password := f.password;
      autoLogin := f.autoLogin;
    }
  }

  /** A form built from saved settings passes the checks again and saves the same settings. */
  lemma ResaveAccepted(host: string, port: int, game: char, name: string, password: string, autoLogin: bool)
    requires host != "" && ValidPort(port) && ValidGame(game) && NameMatches(name) && PasswordMatches(password)
    requires !(autoLogin && name == "")
    ensures Check(Form(host, IntToString(port), game, name, password, autoLogin), true) == Accepted(port)
  {
    ParseIntToString(port);
  }
}
