/**
 * The local identity store (src/lib/auth.ts): one user record kept in local
 * storage under the key 'boxpaper_auth', and the builders of its id and
 * token. The clock and the random source are parameters.
 */
module Auth {
  import opened Wrappers
  import opened Storage
  import opened Text

  datatype User = User(id: string, name: string, email: string, token: string, createdAt: string)

  const TokenPrefix: string := "BXPP_"

  /**
   * `generateToken(userId)`: `time` is `Date.now()` (printed in base 36) and
   * `random` is `Math.random().toString(36)`, of which characters 2 to 10
   * are kept.
   */
  function GenerateToken(userId: string, time: nat, random: string): string {
    ToUpper(TokenPrefix + Prefix(userId, 8) + "_" + Radix(time, 36) + "_" + Substring(random, 2, 10))
  }

  /** `generateUserId()`: `time` is `Date.now()` (printed in base 10), `random` as for the token, characters 2 to 9. */
  function GenerateUserId(time: nat, random: string): (id: string)
    ensures StartsWith(id, "user_")
    ensures |id| >= 7
  {
    "user_" + Radix(time, 10) + "_" + Substring(random, 2, 9)
  }

  /**
   * A token is the prefix `BXPP_` followed by the upper case of the first
   * eight characters of the user id, the base-36 time and the random part,
   * separated by underscores; it has no lower-case letter.
   */
  lemma TokenShape(userId: string, time: nat, random: string)
    ensures var t := GenerateToken(userId, time, random);
      && StartsWith(t, TokenPrefix)
      && t == TokenPrefix + ToUpper(Prefix(userId, 8)) + "_" + ToUpper(Radix(time, 36)) + "_" + ToUpper(Substring(random, 2, 10))
      && forall i :: 0 <= i < |t| ==> !IsLower(t[i])
  {
    var a, b, c := Prefix(userId, 8), Radix(time, 36), Substring(random, 2, 10);
    ToUpperConcat(TokenPrefix + a + "_" + b + "_", c);
    ToUpperConcat(TokenPrefix + a + "_" + b, "_");
    ToUpperConcat(TokenPrefix + a + "_", b);
    ToUpperConcat(TokenPrefix + a, "_");
    ToUpperConcat(TokenPrefix, a);
    ToUpperFixes(TokenPrefix);
    ToUpperFixes("_");
    ToUpperHasNoLower(TokenPrefix + a + "_" + b + "_" + c);
  }

  /** The token of a freshly generated user id starts `BXPP_USER_`. */
  lemma NewUserTokenStart(idTime: nat, idRandom: string, tokenTime: nat, tokenRandom: string)
    ensures StartsWith(GenerateToken(GenerateUserId(idTime, idRandom), tokenTime, tokenRandom), "BXPP_USER_")
  {
    var id := GenerateUserId(idTime, idRandom);
    TokenShape(id, tokenTime, tokenRandom);
    var p := Prefix(id, 8);
    assert p[..5] == "user_";
    assert p == "user_" + p[5..];
    ToUpperConcat("user_", p[5..]);
    assert ToUpper("user_") == "USER_";
  }

  /** What one `createAccount` call takes from the clock and the random source. */
  datatype Entropy = Entropy(idTime: nat, idRandom: string, tokenTime: nat, tokenRandom: string, now: string)

  /** The `boxpaper_auth` storage key and the operations of src/lib/auth.ts over it. */
  class IdentityStore {
    var cell: Cell<User>

    constructor (initial: Cell<User>)
      ensures cell == initial
    {
      cell := initial;
    }

    /** Makes and stores a user, replacing any stored one; the password is neither checked nor kept. */
    method CreateAccount(name: string, email: string, password: string, e: Entropy) returns (user: User)
      modifies this
      ensures user.name == name && user.email == email && user.createdAt == e.now
      ensures user.id == GenerateUserId(e.idTime, e.idRandom)
      ensures user.token == GenerateToken(user.id, e.tokenTime, e.tokenRandom)
      ensures cell == Parsed(user)
    {
      var userId := GenerateUserId(e.idTime, e.idRandom);
      var token := GenerateToken(userId, e.tokenTime, e.tokenRandom);
      user := User(userId, name, email, token, e.now);
      cell := Parsed(user);
    }

    /** The stored user when its email matches; the password is never consulted. */
    method Login(email: string, password: string) returns (user: Option<User>)
      ensures user.Some? <==> cell.Parsed? && cell.value.email == email
      ensures user.Some? ==> user.value == cell.value
    {
      match cell
      case Missing => user := None;
      case Unparseable => user := None;
      case Parsed(u) =>
        if u.email == email {
          user := Some(u);
        } else {
          user := None;
        }
    }

    /** The stored user; a missing or unparseable record is no user. */
    method GetCurrentUser() returns (user: Option<User>)
      ensures user.Some? <==> cell.Parsed?
      ensures user.Some? ==> user.value == cell.value
    {
      match cell
      case Parsed(u) => user := Some(u);
      case _ => user := None;
    }

    method Logout()
      modifies this
      ensures cell == Missing
    {
      cell := Missing;
    }

    /** Whether `getCurrentUser` finds a user. */
    method IsAuthenticated() returns (b: bool)
      ensures b <==> cell.Get().Some?
    {
      var user := GetCurrentUser();
      b := user != None;
    }

    /** The stored user's token; none without a user or with an empty token. */
    method GetAuthToken() returns (token: Option<string>)
      ensures token.Some? <==> cell.Parsed? && cell.value.token != ""
      ensures token.Some? ==> token.value == cell.value.token
    {
      var user := GetCurrentUser();
      if user.Some? && user.value.token != "" {
        token := Some(user.value.token);
      } else {
        token := None;
      }
    }
  }

  /** Signing up makes the user current and authenticated with a token; logging out ends both. */
  method SignUpThenLogOut(store: IdentityStore, name: string, email: string, password: string, e: Entropy)
    returns (created: User, current: Option<User>, token: Option<string>, afterLogout: Option<User>, stillIn: bool)
    modifies store
    ensures current == Some(created) && created.name == name && created.email == email
    ensures token == Some(created.token) && StartsWith(created.token, TokenPrefix)
    ensures afterLogout == None && !stillIn
  {
    created := store.CreateAccount(name, email, password, e);
    current := store.GetCurrentUser();
    TokenShape(created.id, e.tokenTime, e.tokenRandom);
    token := store.GetAuthToken();
    store.Logout();
    afterLogout := store.GetCurrentUser();
    stillIn := store.IsAuthenticated();
  }
}
