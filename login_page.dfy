/**
 * The client-side login form (src/pages/Index.tsx): a fixed list of two
 * accounts, a case-insensitive user name and an exact password.
 */
module LoginPage {
  import opened StringUtil
  import opened Wrappers

  datatype Credential = Credential(username: string, password: string)

  /** `validCredentials`. */
  const ValidCredentials: seq<Credential> :=
    [Credential("cashier", "password"), Credential("admin", "password")]

  /** The route `handleLogin` navigates to on success. */
  const PosRoute: string := "/pos"

  /** The test inside `some`: user names compared lower-cased, passwords exactly. */
  predicate Matches(cred: Credential, username: string, password: string) {
    Lower(cred.username) == Lower(username) && cred.password == password
  }

  /** `creds.some(...)`. */
  predicate SomeMatches(creds: seq<Credential>, username: string, password: string) {
    exists k :: 0 <= k < |creds| && Matches(creds[k], username, password)
  }

  lemma LowerOfLowerCaseName(name: string)
    requires forall i :: 0 <= i < |name| ==> !('A' <= name[i] <= 'Z')
    ensures Lower(name) == name
  {
  }

  /**
   * `isValid`: only "cashier" and "admin" (in any letter case) with the
   * password "password", spelt exactly.
   */
  function IsValidLogin(username: string, password: string): (ok: bool)
    ensures ok <==> (Lower(username) == "cashier" || Lower(username) == "admin") && password == "password"
  {
    LowerOfLowerCaseName("cashier");
    LowerOfLowerCaseName("admin");
    assert ValidCredentials[0].username == "cashier";
    assert ValidCredentials[1].username == "admin";
    SomeMatches(ValidCredentials, username, password)
  }

  /** Upper- and lower-case letters in the user name make no difference. */
  lemma LoginIgnoresUsernameCase(username: string, password: string)
    ensures IsValidLogin(username, password) == IsValidLogin(Lower(username), password)
  {
    LowerIdempotent(username);
  }

  /** The password is compared as typed: a changed letter case fails. */
  lemma PasswordIsCaseSensitive(username: string)
    ensures !IsValidLogin(username, "PASSWORD") && !IsValidLogin(username, "Password")
  {
  }

  /** `handleLogin`: the route navigated to, or nothing when the credentials fail. */
  function HandleLogin(username: string, password: string): (route: Option<string>)
    ensures route == Some(PosRoute) <==> IsValidLogin(username, password)
    ensures route.None? <==> !IsValidLogin(username, password)
  {
    if IsValidLogin(username, password) then Some(PosRoute) else None
  }
}
