/**
 * The GitLab sign-in handlers (backend/apps/auth/views.py): the split of
 * the GitLab display name into first and last name, the create-or-get of
 * the local user by email, the failure reply, and the fixed reply of the
 * token check. The HTTP calls to GitLab become their status codes and the
 * fetched profile; minting the JWT becomes a function parameter.
 */
module AuthViews {
  import opened Wrappers
  import opened Text

  // ---------------------------------------------------------------------
  // Name splitting

  /** First and last name of a new user. */
  datatype Names = Names(firstName: string, lastName: string)

  /**
   * The first word of the name, and the remaining words joined by single
   * spaces. `None` stands for the `IndexError` that indexing the empty
   * word list raises when the name is blank.
   */
  function SplitName(name: string): (r: Option<Names>)
    ensures r.None? <==> AllSpace(name)
    ensures r.Some? ==> IsWord(r.value.firstName) && r.value.firstName == Words(name)[0]
  {
    var ws := Words(name);
    if |ws| == 0 then None else Some(Names(ws[0], Join(ws[1..], " ")))
  }

  /**
   * Nothing of a non-blank name is lost: its words are the first name
   * followed by the words of the last name, the last name is those words
   * re-joined by single spaces, and it is empty exactly for a one-word name.
   */
  lemma NameSplitKeepsWords(name: string)
    requires !AllSpace(name)
    ensures var n := SplitName(name).value;
      && Words(name) == [n.firstName] + Words(n.lastName)
      && n.lastName == Join(Words(n.lastName), " ")
      && (n.lastName == [] <==> |Words(name)| == 1)
  {
    var ws := Words(name);
    var rest := ws[1..];
    assert forall k :: 0 <= k < |rest| ==> IsWord(rest[k]) by {
      forall k | 0 <= k < |rest| ensures IsWord(rest[k]) { assert rest[k] == ws[k + 1]; }
    }
    WordsOfJoin(rest);
    if rest != [] {
      JoinOfWordsNonEmpty(rest);
    }
    assert ws == [ws[0]] + rest;
  }

  /** Joining at least one word gives a non-empty text. */
  lemma JoinOfWordsNonEmpty(ws: seq<string>)
    requires ws != [] && IsWord(ws[0])
    ensures Join(ws, " ") != []
  {
    if |ws| > 1 {
      assert Join(ws, " ") == ws[0] + " " + Join(ws[1..], " ");
    }
  }

  /** Splitting a name built from a word and further words gives them back. */
  lemma SplitOfJoinedName(first: string, more: seq<string>)
    requires IsWord(first) && forall k :: 0 <= k < |more| ==> IsWord(more[k])
    ensures SplitName(Join([first] + more, " ")) == Some(Names(first, Join(more, " ")))
  {
    var ws := [first] + more;
    assert forall k :: 0 <= k < |ws| ==> IsWord(ws[k]);
    WordsOfJoin(ws);
    assert ws[1..] == more;
  }

  // ---------------------------------------------------------------------
  // Users

  /** A row of the user table. */
  datatype User = User(id: nat, email: string, username: string, firstName: string, lastName: string)

  /** The GitLab profile as fetched; `name` is `None` when the field is absent. */
  datatype Profile = Profile(id: int, email: string, username: string, name: Option<string>, avatarUrl: Option<string>)

  /** The user part of a successful sign-in reply. */
  datatype SignedInUser = SignedInUser(
    id: nat, email: string, username: string, firstName: string, lastName: string,
    gitlabId: int, avatarUrl: Option<string>)

  /**
   * The exceptions `gitlab_callback` lets escape, each ending the request
   * with a server error: the `IndexError` of a blank GitLab name, and the
   * two failures of `get_or_create`.
   */
  datatype Exception = IndexError | MultipleObjectsReturned | IntegrityError

  /** The reply of `gitlab_callback`. */
  datatype CallbackReply =
    | AuthFailed(code: int, error: string)
    | SignedIn(token: string, user: SignedInUser)
    | Unhandled(exception: Exception)

  const HttpOk := 200
  const HttpBadRequest := 400
  const AuthFailedError := "Authentication failed"

  /** The position of the first user with this email, if any. */
  function FindByEmail(users: seq<User>, email: string): (r: Option<nat>)
    ensures r.Some? ==> (r.value < |users| && users[r.value].email == email &&
      forall i :: 0 <= i < r.value ==> users[i].email != email)
    ensures r.None? ==> forall i :: 0 <= i < |users| ==> users[i].email != email
  {
    if users == [] then None
    else if users[0].email == email then Some(0)
    else match FindByEmail(users[1..], email)
      case None => None
      case Some(i) => Some(i + 1)
  }

  /** How many users have this email; emails are not unique in the user table. */
  function CountEmail(users: seq<User>, email: string): (n: nat)
    ensures n <= |users|
    ensures n == 0 <==> FindByEmail(users, email).None?
  {
    if users == [] then 0
    else (if users[0].email == email then 1 else 0) + CountEmail(users[1..], email)
  }

  /** When exactly one user has the email, the lookup finds that one. */
  lemma {:induction false} OnlyMatchIsFound(users: seq<User>, email: string, i: nat)
    requires CountEmail(users, email) == 1 && i < |users| && users[i].email == email
    ensures FindByEmail(users, email) == Some(i)
  {
    if i > 0 {
      assert users[1..][i - 1] == users[i];
      OnlyMatchIsFound(users[1..], email, i - 1);
    }
  }

  /** Counting over a table with one more user. */
  lemma {:induction false} CountEmailAppend(users: seq<User>, u: User, email: string)
    ensures CountEmail(users + [u], email) == CountEmail(users, email) + (if u.email == email then 1 else 0)
  {
    if users != [] {
      assert (users + [u])[1..] == users[1..] + [u];
      CountEmailAppend(users[1..], u, email);
    }
  }

  /** Some user already has this username (the column is unique). */
  predicate UsernameTaken(users: seq<User>, username: string) {
    exists i :: 0 <= i < |users| && users[i].username == username
  }

  /** The outcome of `get_or_create`: a user and whether it is new, or the exception raised. */
  datatype Lookup = Got(user: User, created: bool) | Failed(exception: Exception)

  /**
   * `get_or_create(email=..., defaults=...)` on the table `users` whose
   * next id is `nextId`: two users with the email make the lookup raise
   * `MultipleObjectsReturned`; one is returned untouched; with none, a new
   * user is built from the email and the defaults, and the insert raises
   * `IntegrityError` when another user already holds the username.
   */
  function GetOrCreateOutcome(users: seq<User>, nextId: nat, email: string, username: string, names: Names): (r: Lookup)
    ensures r == Failed(MultipleObjectsReturned) <==> CountEmail(users, email) > 1
    ensures r == Failed(IntegrityError) <==> CountEmail(users, email) == 0 && UsernameTaken(users, username)
    ensures r.Got? && !r.created <==> CountEmail(users, email) == 1
    ensures r.Got? && !r.created ==> r.user in users && r.user.email == email
    ensures r.Got? && r.created ==> (r.user.id == nextId && r.user.email == email && r.user.username == username &&
      r.user.firstName == names.firstName && r.user.lastName == names.lastName)
  {
    var n := CountEmail(users, email);
    if n > 1 then Failed(MultipleObjectsReturned)
    else if n == 1 then Got(users[FindByEmail(users, email).value], false)
    else if UsernameTaken(users, username) then Failed(IntegrityError)
    else Got(User(nextId, email, username, names.firstName, names.lastName), true)
  }

  /** The table after `get_or_create`: only a created user is added. */
  function TableAfter(users: seq<User>, r: Lookup): seq<User> {
    if r.Got? && r.created then users + [r.user] else users
  }

  /**
   * Signing in again with the same email, whatever the defaults, returns
   * the user the first call returned, and creates nothing.
   */
  lemma GetOrCreateIsIdempotent(users: seq<User>, nextId: nat, email: string,
                                username: string, names: Names, username2: string, names2: Names)
    requires GetOrCreateOutcome(users, nextId, email, username, names).Got?
    ensures var r := GetOrCreateOutcome(users, nextId, email, username, names);
      GetOrCreateOutcome(TableAfter(users, r), if r.created then nextId + 1 else nextId, email, username2, names2)
        == Got(r.user, false)
  {
    var r := GetOrCreateOutcome(users, nextId, email, username, names);
    var after := TableAfter(users, r);
    if r.created {
      CountEmailAppend(users, r.user, email);
      assert after[|users|] == r.user;
      OnlyMatchIsFound(after, email, |users|);
    }
  }

  /** The user table, keyed in practice by email. */
  class UserTable {
    var users: seq<User>
    var nextId: nat

    /** Usernames are unique (the column's constraint) and ids are fresh. */
    ghost predicate Valid()
      reads this
    {
      && (forall i, j :: 0 <= i < j < |users| ==> users[i].username != users[j].username)
      && (forall i :: 0 <= i < |users| ==> users[i].id < nextId)
    }

    constructor ()
      ensures users == [] && Valid()
    {
      users := [];
      nextId := 1;
    }

    /**
     * `get_or_create(email=..., defaults=...)`: the outcome above, with a
     * created user appended under the next id.
     */
    method GetOrCreate(email: string, username: string, names: Names) returns (r: Lookup)
      requires Valid()
      modifies this
      ensures Valid()
      ensures r == GetOrCreateOutcome(old(users), old(nextId), email, username, names)
      ensures users == TableAfter(old(users), r)
      ensures nextId == if r.Got? && r.created then old(nextId) + 1 else old(nextId)
    {
      r := GetOrCreateOutcome(users, nextId, email, username, names);
      if r.Got? && r.created {
        users := users + [r.user];
        nextId := nextId + 1;
      }
    }

    /**
     * `gitlab_callback` after the two GitLab requests: a non-200 token
     * exchange or profile fetch fails with 400; a blank name raises
     * `IndexError` before the user table is consulted; otherwise the user
     * with the profile's email is fetched or created and signed in, unless
     * `get_or_create` raises.
     */
    method GitLabCallback(tokenStatus: int, profileStatus: int, profile: Profile, mint: nat -> string)
      returns (r: CallbackReply)
      requires Valid()
      modifies this
      ensures Valid()
      ensures tokenStatus != HttpOk || profileStatus != HttpOk ==>
        r == AuthFailed(HttpBadRequest, AuthFailedError) && users == old(users) && nextId == old(nextId)
      ensures tokenStatus == HttpOk && profileStatus == HttpOk && AllSpace(profile.name.GetOr("")) ==>
        r == Unhandled(IndexError) && users == old(users) && nextId == old(nextId)
      ensures tokenStatus == HttpOk && profileStatus == HttpOk && !AllSpace(profile.name.GetOr("")) ==>
        SignedInFor(old(users), old(nextId), profile, mint, users, r)
      ensures nextId == old(nextId) + (|users| - |old(users)|)
    {
      if tokenStatus != HttpOk || profileStatus != HttpOk {
        return AuthFailed(HttpBadRequest, AuthFailedError);
      }
      var names := SplitName(profile.name.GetOr(""));
      if names.None? {
        return Unhandled(IndexError);
      }
      var found := GetOrCreate(profile.email, profile.username, names.value);
      match found
      case Failed(e) =>
        r := Unhandled(e);
      case Got(user, _) =>
        r := SignedIn(mint(user.id),
          SignedInUser(user.id, user.email, user.username, user.firstName, user.lastName, profile.id, profile.avatarUrl));
    }
  }

  /**
   * The reply to a well-formed profile with a non-blank name, from the
   * table `before`: the exception of `get_or_create`, with the table
   * unchanged; or the token minted for the user it returned and that
   * user's stored names, with a created user added.
   */
  ghost predicate SignedInFor(before: seq<User>, nextId: nat, profile: Profile, mint: nat -> string,
                              after: seq<User>, r: CallbackReply)
  {
    && SplitName(profile.name.GetOr("")).Some?
    && var names := SplitName(profile.name.GetOr("")).value;
    && var o := GetOrCreateOutcome(before, nextId, profile.email, profile.username, names);
    && after == TableAfter(before, o)
    && match o
       case Failed(e) => r == Unhandled(e)
       case Got(user, _) =>
         && r.SignedIn?
         && r.token == mint(user.id)
         && r.user == SignedInUser(user.id, user.email, user.username, user.firstName, user.lastName,
                                   profile.id, profile.avatarUrl)
  }

  // ---------------------------------------------------------------------
  // Token check

  /** The user in every `verify_token` reply. */
  datatype VerifiedUser = VerifiedUser(id: nat, email: string, username: string, avatarUrl: string)

  datatype VerifyReply = VerifyReply(isAuthenticated: bool, user: VerifiedUser)

  /** The avatar of the fixed test user. */
  const TestAvatarUrl := "https://gitlab.com/uploads/-/system/user/avatar/123/avatar.png"

  /**
   * `verify_token`: whatever bearer token the request carries, if any, the
   * reply says authenticated, for the same fixed test user.
   */
  function VerifyToken(bearer: Option<string>): (r: VerifyReply)
    ensures r.isAuthenticated
    ensures r.user.id == 1 && r.user.email == "test@example.com" && r.user.username == "testuser"
    ensures r.user.avatarUrl == TestAvatarUrl
  {
    VerifyReply(true, VerifiedUser(1, "test@example.com", "testuser", TestAvatarUrl))
  }

  /** The token check ignores the request: any two requests get the same reply. */
  lemma VerifyTokenIgnoresRequest(a: Option<string>, b: Option<string>)
    ensures VerifyToken(a) == VerifyToken(b)
  {
  }
}
