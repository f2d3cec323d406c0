/**
 The credential index of the basic and the bearer authenticator (auth/authentication.go): a map from
 users to their tokens and the set of tokens that are let in. Header values and names are byte strings.
 */
module Credentials {
  import opened Bytes
  import Base64

  type Text = seq<Byte>

  const SPACE: Byte := 0x20
  const COLON: Byte := 0x3a

  datatype Scheme = Basic | Bearer
  {
    /** The scheme's name, in ASCII. */
    function Name(): Text
    {
      match this
      case Basic => [0x42, 0x61, 0x73, 0x69, 0x63]
      case Bearer => [0x42, 0x65, 0x61, 0x72, 0x65, 0x72]
    }

    /** The token a user is given: the encoded user name and password, or the password itself. */
    function Token(user: Text, password: Text): Text
    {
      match this
      case Basic => Base64.Encode(user + [COLON] + password)
      case Bearer => password
    }
  }

  datatype Index = Index(tokens: set<Text>, users: map<Text, Text>)
  {
    function WithoutTokenOf(user: Text): set<Text>
    {
      if user in users then tokens - {users[user]} else tokens
    }

    function Added(user: Text, token: Text): Index
    {
      Index(WithoutTokenOf(user) + {token}, users[user := token])
    }

    function Removed(user: Text): Index
    {
      Index(WithoutTokenOf(user), users - {user})
    }

    /** Only tokens of current users are let in. */
    ghost predicate Sound()
    {
      forall t :: t in tokens ==> exists u :: u in users && users[u] == t
    }

    /** The tokens of all current users are let in. */
    ghost predicate Complete()
    {
      forall u :: u in users ==> users[u] in tokens
    }

    ghost predicate Unshared()
    {
      forall u, v :: u in users && v in users && users[u] == users[v] ==> u == v
    }
  }

  // ---------- Header values ----------

  function FirstSpace(header: Text): (i: nat)
    ensures i <= |header|
    ensures forall j :: 0 <= j < i ==> header[j] != SPACE
    ensures i < |header| ==> header[i] == SPACE
  {
    if header == [] || header[0] == SPACE then 0 else 1 + FirstSpace(header[1..])
  }

  /** The header names the scheme, and what follows the first space is a token that is let in. */
  predicate LetsIn(scheme: Scheme, tokens: set<Text>, header: Text)
  {
    && scheme.Name() <= header
    && FirstSpace(header) < |header|
    && header[FirstSpace(header) + 1..] in tokens
  }

  function Login(scheme: Scheme, users: map<Text, Text>, user: Text): Text
  {
    if user in users then scheme.Name() + [SPACE] + users[user] else []
  }

  lemma FirstSpaceIs(header: Text, i: nat)
    requires i < |header| && header[i] == SPACE && forall j :: 0 <= j < i ==> header[j] != SPACE
    ensures FirstSpace(header) == i
  {
  }

  lemma LoginParses(scheme: Scheme, token: Text)
    ensures var header := scheme.Name() + [SPACE] + token;
            scheme.Name() <= header && FirstSpace(header) < |header| && header[FirstSpace(header) + 1..] == token
  {
    var header := scheme.Name() + [SPACE] + token;
    FirstSpaceIs(header, |scheme.Name()|);
    assert header[|scheme.Name()| + 1..] == token;
  }

  /** A login is accepted exactly for current users whose token is let in. */
  lemma LoginIsAccepted(scheme: Scheme, index: Index, user: Text)
    ensures LetsIn(scheme, index.tokens, Login(scheme, index.users, user)) <==>
            user in index.users && index.users[user] in index.tokens
  {
    if user in index.users {
      LoginParses(scheme, index.users[user]);
    }
  }

  /** With an index that is in order, exactly the current users' logins are accepted, and no header without one's token. */
  lemma AuthenticatesExactlyCurrentUsers(scheme: Scheme, index: Index, user: Text, header: Text)
    requires index.Sound() && index.Complete()
    ensures LetsIn(scheme, index.tokens, Login(scheme, index.users, user)) <==> user in index.users
    ensures LetsIn(scheme, index.tokens, header) <==>
            && scheme.Name() <= header && FirstSpace(header) < |header|
            && exists u :: u in index.users && index.users[u] == header[FirstSpace(header) + 1..]
  {
    LoginIsAccepted(scheme, index, user);
  }

  // ---------- Changes ----------

  datatype Change = Add(user: Text, password: Text) | Remove(user: Text)

  function Apply(scheme: Scheme, index: Index, change: Change): Index
  {
    match change
    case Add(user, password) => index.Added(user, scheme.Token(user, password))
    case Remove(user) => index.Removed(user)
  }

  /** No other current user has the token that the change withdraws. */
  predicate Clean(scheme: Scheme, index: Index, change: Change)
  {
    change.user in index.users ==>
      (forall v :: v in index.users && v != change.user && index.users[v] == index.users[change.user] ==>
         change.Add? && scheme.Token(change.user, change.password) == index.users[v])
  }

  lemma ChangeKeepsSound(scheme: Scheme, index: Index, change: Change)
    requires index.Sound()
    ensures Apply(scheme, index, change).Sound()
  {
    var index' := Apply(scheme, index, change);
    forall t | t in index'.tokens
      ensures exists u :: u in index'.users && index'.users[u] == t
    {
      if change.Add? && t == scheme.Token(change.user, change.password) {
        assert index'.users[change.user] == t;
      } else {
        var u :| u in index.users && index.users[u] == t;
        assert index'.users[u] == t;
      }
    }
  }

  /** A change leaves every user's token in exactly if nobody else shares the token it withdraws. */
  lemma ChangeKeepsComplete(scheme: Scheme, index: Index, change: Change)
    requires index.Complete()
    ensures Apply(scheme, index, change).Complete() <==> Clean(scheme, index, change)
  {
    var index' := Apply(scheme, index, change);
    if !Clean(scheme, index, change) {
      var v :| v in index.users && v != change.user && index.users[v] == index.users[change.user]
               && !(change.Add? && scheme.Token(change.user, change.password) == index.users[v]);
      assert v in index'.users && index'.users[v] !in index'.tokens;
    }
  }

  function ApplyAll(scheme: Scheme, index: Index, changes: seq<Change>): Index
    decreases |changes|
  {
    if changes == [] then index else ApplyAll(scheme, Apply(scheme, index, changes[0]), changes[1..])
  }

  ghost predicate AlwaysComplete(scheme: Scheme, index: Index, changes: seq<Change>)
    decreases |changes|
  {
    index.Complete() && (changes != [] ==> AlwaysComplete(scheme, Apply(scheme, index, changes[0]), changes[1..]))
  }

  predicate AlwaysClean(scheme: Scheme, index: Index, changes: seq<Change>)
    decreases |changes|
  {
    changes != [] ==>
      Clean(scheme, index, changes[0]) && AlwaysClean(scheme, Apply(scheme, index, changes[0]), changes[1..])
  }

  /**
   Over any sequence of changes only current users' tokens are let in; and all of them are, after
   every change, exactly if no change withdraws a token that another user shares.
   */
  lemma {:induction false} IndexAgreesWithUsers(scheme: Scheme, index: Index, changes: seq<Change>)
    requires index.Sound() && index.Complete()
    ensures ApplyAll(scheme, index, changes).Sound()
    ensures AlwaysComplete(scheme, index, changes) <==> AlwaysClean(scheme, index, changes)
    ensures AlwaysClean(scheme, index, changes) ==> ApplyAll(scheme, index, changes).Complete()
    decreases |changes|
  {
    if changes != [] {
      ChangeKeepsComplete(scheme, index, changes[0]);
      ChangeKeepsSound(scheme, index, changes[0]);
      if Clean(scheme, index, changes[0]) {
        IndexAgreesWithUsers(scheme, Apply(scheme, index, changes[0]), changes[1..]);
      } else {
        SoundAfterAll(scheme, Apply(scheme, index, changes[0]), changes[1..]);
      }
    }
  }

  lemma {:induction false} SoundAfterAll(scheme: Scheme, index: Index, changes: seq<Change>)
    requires index.Sound()
    ensures ApplyAll(scheme, index, changes).Sound()
    decreases |changes|
  {
    if changes != [] {
      ChangeKeepsSound(scheme, index, changes[0]);
      SoundAfterAll(scheme, Apply(scheme, index, changes[0]), changes[1..]);
    }
  }

  // ---------- Basic authentication ----------

  predicate NoColon(user: Text) { COLON !in user }

  /** The name is recovered from the name, a colon and the password if it has no colon (RFC 7617, section 2). */
  lemma UserIsDetermined(u: Text, p: Text, v: Text, q: Text)
    requires NoColon(u) && NoColon(v) && u + [COLON] + p == v + [COLON] + q
    ensures u == v
  {
    var s, t := u + [COLON] + p, v + [COLON] + q;
    forall i | 0 <= i < |u|
      ensures s[i] != COLON
    {
      assert s[i] == u[i];
    }
    forall i | 0 <= i < |v|
      ensures t[i] != COLON
    {
      assert t[i] == v[i];
    }
    assert s[|u|] == COLON && t[|v|] == COLON;
    assert u == s[..|u|] && v == t[..|v|];
  }

  lemma BasicTokensDiffer(u: Text, p: Text, v: Text, q: Text)
    requires NoColon(u) && NoColon(v) && Basic.Token(u, p) == Basic.Token(v, q)
    ensures u == v
  {
    Base64.EncodeIsInjective(u + [COLON] + p, v + [COLON] + q);
    UserIsDetermined(u, p, v, q);
  }

  /** Every token is the basic token of its user, and no user name has a colon. */
  ghost predicate BasicIndex(index: Index)
  {
    forall u :: u in index.users ==> NoColon(u) && exists p :: index.users[u] == Basic.Token(u, p)
  }

  lemma BasicIndexIsUnshared(index: Index)
    requires BasicIndex(index)
    ensures index.Unshared()
  {
    forall u, v | u in index.users && v in index.users && index.users[u] == index.users[v]
      ensures u == v
    {
      var p :| index.users[u] == Basic.Token(u, p);
      var q :| index.users[v] == Basic.Token(v, q);
      BasicTokensDiffer(u, p, v, q);
    }
  }

  lemma {:induction false} BasicChangesAreClean(index: Index, changes: seq<Change>)
    requires BasicIndex(index) && forall i :: 0 <= i < |changes| ==> NoColon(changes[i].user)
    ensures AlwaysClean(Basic, index, changes)
    decreases |changes|
  {
    if changes != [] {
      BasicIndexIsUnshared(index);
      BasicChangesAreClean(Apply(Basic, index, changes[0]), changes[1..]);
    }
  }

  /**
   For basic authentication with user names without colons, the login of a user is accepted after any
   sequence of changes exactly if the user is a current one.
   */
  lemma BasicAuthentication(changes: seq<Change>, user: Text)
    requires forall i :: 0 <= i < |changes| ==> NoColon(changes[i].user)
    ensures var index := ApplyAll(Basic, Index({}, map[]), changes);
            LetsIn(Basic, index.tokens, Login(Basic, index.users, user)) <==> user in index.users
  {
    var empty := Index({}, map[]);
    BasicChangesAreClean(empty, changes);
    IndexAgreesWithUsers(Basic, empty, changes);
    AuthenticatesExactlyCurrentUsers(Basic, ApplyAll(Basic, empty, changes), user, []);
  }

  /** With a colon in a name two users can share a token, and removing one locks out the other. */
  lemma ColonLocksOut()
    ensures var index := ApplyAll(Basic, Index({}, map[]), [Add([1], [2, COLON, 3]), Add([1, COLON, 2], [3]), Remove([1])]);
            [1, COLON, 2] in index.users && !LetsIn(Basic, index.tokens, Login(Basic, index.users, [1, COLON, 2]))
  {
    var u, v: Text := [1], [1, COLON, 2];
    var a, b, r := Add(u, [2, COLON, 3]), Add(v, [3]), Remove(u);
    assert u + [COLON] + [2, COLON, 3] == v + [COLON] + [3];
    var token := Basic.Token(v, [3]);
    var one := Apply(Basic, Index({}, map[]), a);
    var two := Apply(Basic, one, b);
    var three := Apply(Basic, two, r);
    assert three.users == map[v := token] && three.tokens == {};
    assert [a, b, r][1..] == [b, r] && [b, r][1..] == [r] && [r][1..] == [];
    assert ApplyAll(Basic, three, []) == three;
    assert ApplyAll(Basic, two, [r]) == three;
    assert ApplyAll(Basic, one, [b, r]) == three;
  }

  // ---------- The implementation ----------

  class Authenticator {
    const scheme: Scheme
    var tokens: set<Text>
    var users: map<Text, Text>

    function View(): Index
      reads this
    {
      Index(tokens, users)
    }

    /** Adds the allowed users that have credentials, in the order listed. */
    constructor (scheme: Scheme, allowlist: seq<Text>, credentials: map<Text, Text>)
      ensures this.scheme == scheme
      ensures View() == ApplyAll(scheme, Index({}, map[]), Allowed(allowlist, credentials))
    {
      this.scheme := scheme;
      tokens, users := {}, map[];
      new;
      for i := 0 to |allowlist|
        invariant ApplyAll(scheme, View(), Allowed(allowlist[i..], credentials)) ==
                  ApplyAll(scheme, Index({}, map[]), Allowed(allowlist, credentials))
      {
        assert allowlist[i..][1..] == allowlist[i + 1..];
        var user := allowlist[i];
        if user in credentials {
          AddUser(user, credentials[user]);
        }
      }
    }

    method Authenticate(authorization: Text) returns (ok: bool)
      ensures ok <==> LetsIn(scheme, tokens, authorization)
    {
      ok := false;
      if scheme.Name() <= authorization {
        var i := 0;
        while i < |authorization| && authorization[i] != SPACE
          invariant i <= |authorization|
          invariant forall j :: 0 <= j < i ==> authorization[j] != SPACE
        {
          i := i + 1;
        }
        if i < |authorization| {
          FirstSpaceIs(authorization, i);
          ok := authorization[i + 1..] in tokens;
        }
      }
    }

    /** Gives the user a new token; an old one is withdrawn first. */
    method AddUser(user: Text, password: Text)
      modifies this
      ensures View() == Apply(scheme, old(View()), Add(user, password))
    {
      if user in users {
        tokens := tokens - {users[user]};
      }
      var token := scheme.Token(user, password);
      tokens := tokens + {token};
      users := users[user := token];
    }

    method RemoveUser(user: Text)
      modifies this
      ensures View() == Apply(scheme, old(View()), Remove(user))
    {
      if user in users {
        var token := users[user];
        users := users - {user};
        tokens := tokens - {token};
      } else {
        assert users - {user} == users;
      }
    }

    method GetLogin(user: Text) returns (login: Text)
      ensures login == Login(scheme, users, user)
    {
      if user in users {
        return scheme.Name() + [SPACE] + users[user];
      }
      return [];
    }
  }

  function Allowed(allowlist: seq<Text>, credentials: map<Text, Text>): seq<Change>
  {
    if allowlist == [] then []
    else if allowlist[0] in credentials then
      [Add(allowlist[0], credentials[allowlist[0]])] + Allowed(allowlist[1..], credentials)
    else Allowed(allowlist[1..], credentials)
  }
}
