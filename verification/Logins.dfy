/**
 Who is let in, in terms of the configuration and of the text of the header (auth/authentication.go): the
 users that are listed or were added, with the password they were given last.
 */
module Logins {
  import opened Bytes
  import Base64
  import opened Credentials

  // ---------- The header ----------

  /** What follows the first space of the header. */
  ghost predicate AfterFirstSpace(header: Text, rest: Text)
  {
    exists i :: 0 <= i < |header| && header[i] == 0x20 && (forall j :: 0 <= j < i ==> header[j] != 0x20) && header[i + 1..] == rest
  }

  /** The header names the scheme and carries the token. */
  ghost predicate Carries(scheme: Scheme, header: Text, token: Text)
  {
    && (if scheme == Basic then Ascii("Basic") <= header else Ascii("Bearer") <= header)
    && AfterFirstSpace(header, token)
  }

  lemma NamesInAscii()
    ensures Basic.Name() == Ascii("Basic") && Bearer.Name() == Ascii("Bearer")
  {
  }

  lemma FirstSpaceSplits(header: Text, rest: Text)
    ensures AfterFirstSpace(header, rest) <==> FirstSpace(header) < |header| && header[FirstSpace(header) + 1..] == rest
  {
    if AfterFirstSpace(header, rest) {
      var i :| 0 <= i < |header| && header[i] == 0x20 && (forall j :: 0 <= j < i ==> header[j] != 0x20) && header[i + 1..] == rest;
      FirstSpaceIs(header, i);
    }
    var k := FirstSpace(header);
    if k < |header| && header[k + 1..] == rest {
      assert header[k] == 0x20;
    }
  }

  lemma LetsInCarriers(scheme: Scheme, tokens: set<Text>, header: Text)
    ensures LetsIn(scheme, tokens, header) <==> exists token :: token in tokens && Carries(scheme, header, token)
  {
    NamesInAscii();
    if LetsIn(scheme, tokens, header) {
      var token := header[FirstSpace(header) + 1..];
      FirstSpaceSplits(header, token);
      assert Carries(scheme, header, token);
    }
    if token :| token in tokens && Carries(scheme, header, token) {
      FirstSpaceSplits(header, token);
    }
  }

  // ---------- The passwords in force ----------

  datatype Password = Absent | Given(text: Text)

  /** The password that the user was given last, unless the user was removed since. */
  function PasswordOf(changes: seq<Change>, user: Text): Password
  {
    if changes == [] then Absent
    else
      var last := changes[|changes| - 1];
      if last.user != user then PasswordOf(changes[..|changes| - 1], user)
      else if last.Add? then Given(last.password)
      else Absent
  }

  const EMPTY := Index({}, map[])

  lemma {:induction false} ApplyLast(scheme: Scheme, index: Index, changes: seq<Change>)
    requires changes != []
    ensures ApplyAll(scheme, index, changes)
            == Apply(scheme, ApplyAll(scheme, index, changes[..|changes| - 1]), changes[|changes| - 1])
    decreases |changes|
  {
    if |changes| > 1 {
      assert changes[1..][..|changes| - 2] == changes[..|changes| - 1][1..];
      ApplyLast(scheme, Apply(scheme, index, changes[0]), changes[1..]);
    } else {
      assert changes[1..] == [] && changes[..0] == [];
    }
  }

  /** The user map holds the token made of the password in force, for each user that has one. */
  lemma {:induction false} UsersHavePasswords(scheme: Scheme, changes: seq<Change>, user: Text)
    ensures var users := ApplyAll(scheme, EMPTY, changes).users;
            && (user in users <==> PasswordOf(changes, user).Given?)
            && (user in users ==> users[user] == scheme.Token(user, PasswordOf(changes, user).text))
  {
    if changes != [] {
      ApplyLast(scheme, EMPTY, changes);
      UsersHavePasswords(scheme, changes[..|changes| - 1], user);
    }
  }

  /** A user with this password in force whose token it is. */
  ghost predicate InForce(scheme: Scheme, changes: seq<Change>, token: Text)
  {
    exists user :: PasswordOf(changes, user).Given? && scheme.Token(user, PasswordOf(changes, user).text) == token
  }

  /**
   After any changes a header is accepted only if it carries the token of a password in force; and whenever it
   does, if no change withdrew a token that another user shared.
   */
  lemma AcceptedTokens(scheme: Scheme, changes: seq<Change>, token: Text)
    ensures token in ApplyAll(scheme, EMPTY, changes).tokens ==> InForce(scheme, changes, token)
    ensures AlwaysClean(scheme, EMPTY, changes) && InForce(scheme, changes, token)
            ==> token in ApplyAll(scheme, EMPTY, changes).tokens
  {
    IndexAgreesWithUsers(scheme, EMPTY, changes);
    var index := ApplyAll(scheme, EMPTY, changes);
    if token in index.tokens {
      var user :| user in index.users && index.users[user] == token;
      UsersHavePasswords(scheme, changes, user);
    }
    if AlwaysClean(scheme, EMPTY, changes) && InForce(scheme, changes, token) {
      var user :| PasswordOf(changes, user).Given? && scheme.Token(user, PasswordOf(changes, user).text) == token;
      UsersHavePasswords(scheme, changes, user);
    }
  }

  // ---------- Bearer authentication ----------

  /** The header starts with "Bearer", and a password in force follows its first space. */
  ghost predicate BearsPassword(changes: seq<Change>, header: Text)
  {
    exists user :: PasswordOf(changes, user).Given? && Carries(Bearer, header, PasswordOf(changes, user).text)
  }

  lemma BearerIsAccepted(changes: seq<Change>, header: Text)
    ensures LetsIn(Bearer, ApplyAll(Bearer, EMPTY, changes).tokens, header) ==> BearsPassword(changes, header)
    ensures AlwaysClean(Bearer, EMPTY, changes) && BearsPassword(changes, header)
            ==> LetsIn(Bearer, ApplyAll(Bearer, EMPTY, changes).tokens, header)
  {
    var tokens := ApplyAll(Bearer, EMPTY, changes).tokens;
    LetsInCarriers(Bearer, tokens, header);
    if LetsIn(Bearer, tokens, header) {
      var token :| token in tokens && Carries(Bearer, header, token);
      AcceptedTokens(Bearer, changes, token);
    }
    if AlwaysClean(Bearer, EMPTY, changes) && BearsPassword(changes, header) {
      var user :| PasswordOf(changes, user).Given? && Carries(Bearer, header, PasswordOf(changes, user).text);
      AcceptedTokens(Bearer, changes, PasswordOf(changes, user).text);
    }
  }

  // ---------- Basic authentication ----------

  /** What follows decodes to the name of a user, a colon, and the user's password in force. */
  ghost predicate Identifies(changes: seq<Change>, token: Text, user: Text)
  {
    && PasswordOf(changes, user).Given?
    && Base64.Decode(token) == Base64.Data(user + [0x3a] + PasswordOf(changes, user).text)
  }

  ghost predicate BearsLogin(changes: seq<Change>, header: Text)
  {
    exists token, user :: Carries(Basic, header, token) && Identifies(changes, token, user)
  }

  lemma IdentifiesByToken(changes: seq<Change>, token: Text, user: Text)
    requires PasswordOf(changes, user).Given?
    ensures Identifies(changes, token, user) <==> Basic.Token(user, PasswordOf(changes, user).text) == token
  {
    var data := user + [0x3a] + PasswordOf(changes, user).text;
    Base64.DecodesExactly(token, data);
  }

  lemma BasicIsAccepted(changes: seq<Change>, header: Text)
    ensures LetsIn(Basic, ApplyAll(Basic, EMPTY, changes).tokens, header) ==> BearsLogin(changes, header)
    ensures (forall i :: 0 <= i < |changes| ==> NoColon(changes[i].user)) && BearsLogin(changes, header)
            ==> LetsIn(Basic, ApplyAll(Basic, EMPTY, changes).tokens, header)
  {
    var tokens := ApplyAll(Basic, EMPTY, changes).tokens;
    LetsInCarriers(Basic, tokens, header);
    if LetsIn(Basic, tokens, header) {
      var token :| token in tokens && Carries(Basic, header, token);
      AcceptedTokens(Basic, changes, token);
      var user :| PasswordOf(changes, user).Given? && Basic.Token(user, PasswordOf(changes, user).text) == token;
      IdentifiesByToken(changes, token, user);
    }
    if (forall i :: 0 <= i < |changes| ==> NoColon(changes[i].user)) && BearsLogin(changes, header) {
      var token, user :| Carries(Basic, header, token) && Identifies(changes, token, user);
      IdentifiesByToken(changes, token, user);
      BasicChangesAreClean(EMPTY, changes);
      AcceptedTokens(Basic, changes, token);
    }
  }

  // ---------- The configuration ----------

  /** The user is listed and has credentials. */
  predicate Configured(allowlist: seq<Text>, credentials: map<Text, Text>, user: Text)
  {
    user in allowlist && user in credentials
  }

  lemma {:induction false} AllowedAre(allowlist: seq<Text>, credentials: map<Text, Text>)
    ensures forall i :: 0 <= i < |Allowed(allowlist, credentials)| ==>
              var c := Allowed(allowlist, credentials)[i];
              c.Add? && Configured(allowlist, credentials, c.user) && c.password == credentials[c.user]
    ensures forall user :: Configured(allowlist, credentials, user) ==>
              exists i :: 0 <= i < |Allowed(allowlist, credentials)| && Allowed(allowlist, credentials)[i].user == user
  {
    if allowlist != [] {
      AllowedAre(allowlist[1..], credentials);
      var rest := Allowed(allowlist[1..], credentials);
      var all := Allowed(allowlist, credentials);
      forall user | Configured(allowlist, credentials, user)
        ensures exists i :: 0 <= i < |all| && all[i].user == user
      {
        if user == allowlist[0] {
          assert all[0].user == user;
        } else {
          assert Configured(allowlist[1..], credentials, user);
          var i :| 0 <= i < |rest| && rest[i].user == user;
          assert all[if allowlist[0] in credentials then i + 1 else i].user == user;
        }
      }
    }
  }

  lemma {:induction false} PasswordsOfAdds(changes: seq<Change>, passwords: map<Text, Text>, user: Text)
    requires forall i :: 0 <= i < |changes| ==>
               changes[i].Add? && changes[i].user in passwords && changes[i].password == passwords[changes[i].user]
    ensures PasswordOf(changes, user)
            == if exists i :: 0 <= i < |changes| && changes[i].user == user then Given(passwords[user]) else Absent
  {
    if changes != [] {
      var n := |changes| - 1;
      PasswordsOfAdds(changes[..n], passwords, user);
      if i :| 0 <= i < n && changes[..n][i].user == user {
        assert changes[i].user == user;
      }
      if i :| 0 <= i < |changes| && changes[i].user == user && i < n {
        assert changes[..n][i].user == user;
      }
    }
  }

  /** The configured users have the configured passwords, and nobody else has one. */
  lemma ConfiguredPasswords(allowlist: seq<Text>, credentials: map<Text, Text>, user: Text)
    ensures PasswordOf(Allowed(allowlist, credentials), user)
            == if Configured(allowlist, credentials, user) then Given(credentials[user]) else Absent
  {
    AllowedAre(allowlist, credentials);
    PasswordsOfAdds(Allowed(allowlist, credentials), credentials, user);
  }

  /** Every current user has the token of the configured password. */
  ghost predicate HasTokensOf(scheme: Scheme, index: Index, passwords: map<Text, Text>)
  {
    forall u :: u in index.users ==> u in passwords && index.users[u] == scheme.Token(u, passwords[u])
  }

  lemma {:induction false} AddsAreClean(scheme: Scheme, index: Index, changes: seq<Change>, passwords: map<Text, Text>)
    requires HasTokensOf(scheme, index, passwords)
    requires forall i :: 0 <= i < |changes| ==>
               changes[i].Add? && changes[i].user in passwords && changes[i].password == passwords[changes[i].user]
    ensures AlwaysClean(scheme, index, changes)
    decreases |changes|
  {
    if changes != [] {
      AddsAreClean(scheme, Apply(scheme, index, changes[0]), changes[1..], passwords);
    }
  }

  /**
   A bearer authenticator just configured accepts a header exactly if it starts with "Bearer" and what follows
   its first space is the password of a listed user with credentials.
   */
  lemma BearerConfigured(allowlist: seq<Text>, credentials: map<Text, Text>, header: Text)
    ensures LetsIn(Bearer, ApplyAll(Bearer, EMPTY, Allowed(allowlist, credentials)).tokens, header) <==>
            exists user :: Configured(allowlist, credentials, user) && Carries(Bearer, header, credentials[user])
  {
    var changes := Allowed(allowlist, credentials);
    AllowedAre(allowlist, credentials);
    AddsAreClean(Bearer, EMPTY, changes, credentials);
    BearerIsAccepted(changes, header);
    forall user
      ensures PasswordOf(changes, user) == if Configured(allowlist, credentials, user) then Given(credentials[user]) else Absent
    {
      ConfiguredPasswords(allowlist, credentials, user);
    }
    if user :| Configured(allowlist, credentials, user) && Carries(Bearer, header, credentials[user]) {
      assert PasswordOf(changes, user).Given?;
    }
    if BearsPassword(changes, header) {
      var user :| PasswordOf(changes, user).Given? && Carries(Bearer, header, PasswordOf(changes, user).text);
      assert Configured(allowlist, credentials, user);
    }
  }

  /** The header carries the encoded name and password of a configured user. */
  ghost predicate BearsConfigured(allowlist: seq<Text>, credentials: map<Text, Text>, header: Text, token: Text, user: Text)
  {
    && Carries(Basic, header, token) && Configured(allowlist, credentials, user)
    && Base64.Decode(token) == Base64.Data(user + [0x3a] + credentials[user])
  }

  /**
   A basic authenticator just configured accepts a header exactly if it starts with "Basic" and what follows its first
   space decodes to the name of a listed user with credentials, a colon, and the password.
   */
  lemma BasicConfigured(allowlist: seq<Text>, credentials: map<Text, Text>, header: Text)
    ensures LetsIn(Basic, ApplyAll(Basic, EMPTY, Allowed(allowlist, credentials)).tokens, header) <==>
            exists token, user :: BearsConfigured(allowlist, credentials, header, token, user)
  {
    var changes := Allowed(allowlist, credentials);
    var tokens := ApplyAll(Basic, EMPTY, changes).tokens;
    BasicIsAccepted(changes, header);
    if LetsIn(Basic, tokens, header) {
      var token, user :| Carries(Basic, header, token) && Identifies(changes, token, user);
      ConfiguredPasswords(allowlist, credentials, user);
      assert BearsConfigured(allowlist, credentials, header, token, user);
    }
    if token, user :| BearsConfigured(allowlist, credentials, header, token, user) {
      ConfiguredPasswords(allowlist, credentials, user);
      IdentifiesByToken(changes, token, user);
      AllowedAre(allowlist, credentials);
      AddsAreClean(Basic, EMPTY, changes, credentials);
      AcceptedTokens(Basic, changes, token);
      LetsInCarriers(Basic, tokens, header);
    }
  }
}
