/**
 * The user-account handlers of the backend (Backend/controllers/userController.js)
 * over an in-memory model of the `User` and `Post` collections.
 *
 * Foreign pieces are parameters: the bcrypt hash of a new password is passed in,
 * bcrypt's compare is a function parameter, `ObjectId.isValid(query)` is passed in
 * as a boolean, the URL cloudinary answers an upload with is passed in, and so is
 * the clock reading the database stamps on a saved document.
 */
module UserController {
  import opened Wrappers

  /** A document id (a Mongo ObjectId in its string form). */
  type Id = string

  /** A stored user document. `password` is the bcrypt hash; `None` stands for null. */
  datatype User = User(
    id: Id,
    name: string,
    email: string,
    username: string,
    password: Option<string>,
    profilePic: string,
    bio: string,
    followers: seq<Id>,
    following: seq<Id>,
    createdAt: int,
    updatedAt: int)

  /** What the profile lookup answers with: the document without `password` and `updatedAt`. */
  datatype Profile = Profile(
    id: Id,
    name: string,
    email: string,
    username: string,
    profilePic: string,
    bio: string,
    followers: seq<Id>,
    following: seq<Id>,
    createdAt: int)

  /** What sign-up and login answer with on success. */
  datatype AuthReply = AuthReply(id: Id, name: string, email: string, username: string, bio: string, profilePic: string)

  /** A reply stored inside a post, with the replier's name and picture copied in. */
  datatype Reply = Reply(userId: Id, text: string, userProfilePic: string, username: string)

  datatype Post = Post(id: Id, postedBy: Id, text: string, replies: seq<Reply>)

  /** The fields of an update request; the empty string is JavaScript's falsy (missing or ""). */
  datatype Edit = Edit(name: string, email: string, username: string, password: string, profilePic: string, bio: string)

  /** The filters the handlers give to `findOne` / `findById`. */
  datatype Query = ById(id: Id) | ByUsername(username: string) | ByEmailOrUsername(email: string, username: string)

  predicate Matches(u: User, q: Query)
  {
    match q
    case ById(id) => u.id == id
    case ByUsername(n) => u.username == n
    case ByEmailOrUsername(e, n) => u.email == e || u.username == n
  }

  /** The database keeps document ids unique. */
  ghost predicate IdsDistinct(users: seq<User>)
  {
    forall i, j :: 0 <= i < j < |users| ==> users[i].id != users[j].id
  }

  /** No two users share an email or a username. */
  ghost predicate KeysUnique(users: seq<User>)
  {
    forall i, j :: 0 <= i < j < |users| ==>
      users[i].email != users[j].email && users[i].username != users[j].username
  }

  /** `findOne`: the position of the first document, in natural order, that matches. */
  function FindOne(users: seq<User>, q: Query): (r: Option<nat>)
    ensures r.Some? ==> r.value < |users| && Matches(users[r.value], q)
    ensures r.Some? ==> forall j :: 0 <= j < r.value ==> !Matches(users[j], q)
    ensures r.None? ==> forall j :: 0 <= j < |users| ==> !Matches(users[j], q)
  {
    if |users| == 0 then None
    else if Matches(users[0], q) then Some(0)
    else match FindOne(users[1..], q)
      case None => None
      case Some(i) => Some(i + 1)
  }

  function ProfileOf(u: User): Profile
  {
    Profile(u.id, u.name, u.email, u.username, u.profilePic, u.bio, u.followers, u.following, u.createdAt)
  }

  function AuthReplyOf(u: User): AuthReply
  {
    AuthReply(u.id, u.name, u.email, u.username, u.bio, u.profilePic)
  }

  /** getUserProfile: by id when the query is a valid ObjectId, otherwise by username. */
  function GetUserProfile(users: seq<User>, query: string, queryIsObjectId: bool): (r: Result<Profile>)
    ensures r.Err? ==> r.msg == "User not found"
    ensures r.Err? <==>
      forall i :: 0 <= i < |users| ==>
        (if queryIsObjectId then users[i].id else users[i].username) != query
    ensures r.Ok? ==>
      exists i :: 0 <= i < |users| &&
        (if queryIsObjectId then users[i].id else users[i].username) == query &&
        (forall j :: 0 <= j < i ==> (if queryIsObjectId then users[j].id else users[j].username) != query) &&
        r.value == ProfileOf(users[i])
  {
    var q := if queryIsObjectId then ById(query) else ByUsername(query);
    match FindOne(users, q)
    case None => Err("User not found")
    case Some(i) => Ok(ProfileOf(users[i]))
  }

  /** `user?.password || ""`: the stored hash, or "" when there is none. */
  function StoredHash(u: User): string
  {
    if u.password.Some? then u.password.value else ""
  }

  /**
   * loginUser's decision: the first user with that username must exist and `compare`
   * (bcrypt's) must accept the password against its hash; both failures give one message.
   */
  function LoginUser(users: seq<User>, username: string, password: string, compare: (string, string) -> bool): (r: Result<AuthReply>)
    ensures r.Err? ==> r.msg == "Invalid username or password"
    ensures r.Ok? <==>
      exists i :: 0 <= i < |users| && users[i].username == username &&
        (forall j :: 0 <= j < i ==> users[j].username != username) &&
        compare(password, StoredHash(users[i]))
    ensures r.Ok? ==>
      exists i :: 0 <= i < |users| && users[i].username == username &&
        (forall j :: 0 <= j < i ==> users[j].username != username) &&
        compare(password, StoredHash(users[i])) &&
        r.value == AuthReplyOf(users[i])
  {
    var found := FindOne(users, ByUsername(username));
    var hash := if found.Some? then StoredHash(users[found.value]) else "";
    var isPasswordCorrect := compare(password, hash);
    if found.None? || !isPasswordCorrect then Err("Invalid username or password")
    else Ok(AuthReplyOf(users[found.value]))
  }

  /** The bio a new user gets: the supplied one, or "" when none is supplied. */
  function BioOrDefault(bio: Option<string>): string
  {
    if bio.Some? then bio.value else ""
  }

  /** The document signupUser saves (the schema's default picture is ""). */
  function NewUser(id: Id, name: string, email: string, username: string, hash: string, bio: Option<string>, now: int): User
  {
    User(id, name, email, username, Some(hash), "", BioOrDefault(bio), [], [], now, now)
  }

  /** `$pull`: every occurrence of `x` removed, the rest in order. */
  function Pull(s: seq<Id>, x: Id): (r: seq<Id>)
    ensures forall y :: y in r <==> y in s && y != x
    ensures multiset(r) == multiset(s)[x := 0]
    ensures x !in s ==> r == s
    ensures |s| == 1 ==> r == (if s[0] == x then [] else s)
    ensures |r| <= |s|
  {
    if |s| == 0 then []
    else
      assert s == [s[0]] + s[1..];
      if s[0] == x then Pull(s[1..], x)
      else [s[0]] + Pull(s[1..], x)
  }

  /** `$pull` works piece by piece, so with the one-element case it keeps the survivors in order. */
  lemma {:induction false} PullConcat(a: seq<Id>, b: seq<Id>, x: Id)
    ensures Pull(a + b, x) == Pull(a, x) + Pull(b, x)
  {
    if a != [] {
      assert (a + b)[1..] == a[1..] + b;
      PullConcat(a[1..], b, x);
    } else {
      assert a + b == b;
    }
  }

  /** The two `findByIdAndUpdate` calls of followUnFollowUser, on positions `ci` (caller) and `ti` (target). */
  function ToggleFollow(users: seq<User>, ci: nat, ti: nat, now: int): (r: seq<User>)
    requires ci < |users| && ti < |users| && ci != ti
    ensures |r| == |users|
    ensures forall k :: 0 <= k < |users| && k != ci && k != ti ==> r[k] == users[k]
    ensures r[ci].(following := users[ci].following, updatedAt := users[ci].updatedAt) == users[ci]
    ensures r[ti].(followers := users[ti].followers, updatedAt := users[ti].updatedAt) == users[ti]
    ensures r[ci].updatedAt == now && r[ti].updatedAt == now
    ensures users[ti].id in users[ci].following ==>
      && r[ci].following == Pull(users[ci].following, users[ti].id)
      && r[ti].followers == Pull(users[ti].followers, users[ci].id)
    ensures users[ti].id !in users[ci].following ==>
      && r[ci].following == users[ci].following + [users[ti].id]
      && r[ti].followers == users[ti].followers + [users[ci].id]
    ensures (users[ti].id in r[ci].following) <==> users[ti].id !in users[ci].following
    ensures (users[ci].id in r[ti].followers) <==> users[ti].id !in users[ci].following
    ensures forall x :: x != users[ti].id ==> (x in r[ci].following <==> x in users[ci].following)
    ensures forall x :: x != users[ci].id ==> (x in r[ti].followers <==> x in users[ti].followers)
  {
    var cur := users[ci];
    var tgt := users[ti];
    if tgt.id in cur.following then
      var step := users[ci := cur.(following := Pull(cur.following, tgt.id), updatedAt := now)];
      step[ti := tgt.(followers := Pull(tgt.followers, cur.id), updatedAt := now)]
    else
      var step := users[ci := cur.(following := cur.following + [tgt.id], updatedAt := now)];
      step[ti := tgt.(followers := tgt.followers + [cur.id], updatedAt := now)]
  }

  /** `a` follows `b` exactly when `a` is among `b`'s followers. */
  ghost predicate PairConsistent(a: User, b: User)
  {
    b.id in a.following <==> a.id in b.followers
  }

  ghost predicate FollowGraphConsistent(users: seq<User>)
  {
    forall i, j :: 0 <= i < |users| && 0 <= j < |users| ==> PairConsistent(users[i], users[j])
  }

  /** Two records agree on every field, and on the membership (not the order) of both lists. */
  ghost predicate SameMembership(u: User, v: User)
  {
    && u.(following := [], followers := [], updatedAt := 0) == v.(following := [], followers := [], updatedAt := 0)
    && (forall x :: x in u.following <==> x in v.following)
    && (forall x :: x in u.followers <==> x in v.followers)
  }

  /** The file name of a picture URL without its extension: `split("/").pop().split(".")[0]`. */
  function PublicId(url: string): (r: string)
    ensures '/' !in r && '.' !in r
  {
    FirstPiece(LastSegment(url))
  }

  /** What follows the last '/' (the whole string when it has none). */
  function LastSegment(s: string): (r: string)
    ensures '/' !in r
    ensures |r| <= |s| && r == s[|s| - |r|..]
    ensures |r| < |s| ==> s[|s| - |r| - 1] == '/'
  {
    if |s| == 0 || s[|s| - 1] == '/' then ""
    else LastSegment(s[..|s| - 1]) + [s[|s| - 1]]
  }

  /** What precedes the first '.' (the whole string when it has none). */
  function FirstPiece(s: string): (r: string)
    ensures '.' !in r
    ensures |r| <= |s| && r == s[..|r|]
    ensures |r| < |s| ==> s[|r|] == '.'
  {
    if |s| == 0 || s[0] == '.' then ""
    else [s[0]] + FirstPiece(s[1..])
  }

  /** JavaScript's `a || b` on strings. */
  function Or(a: string, b: string): string
  {
    if a != "" then a else b
  }

  /**
   * The document updateUser saves: each field takes the supplied value when it is
   * non-empty and keeps the old one otherwise; the password changes only when one is
   * supplied; a supplied picture is replaced by the URL of its upload; `save()`
   * stamps `updatedAt` only when something changed.
   */
  function MergeEdit(u: User, edit: Edit, hash: string, uploadedUrl: string, now: int): (v: User)
    ensures v.id == u.id && v.followers == u.followers && v.following == u.following && v.createdAt == u.createdAt
    ensures v.name == (if edit.name != "" then edit.name else u.name)
    ensures v.email == (if edit.email != "" then edit.email else u.email)
    ensures v.username == (if edit.username != "" then edit.username else u.username)
    ensures v.bio == (if edit.bio != "" then edit.bio else u.bio)
    ensures v.password == (if edit.password != "" then Some(hash) else u.password)
    ensures v.profilePic == (if edit.profilePic != "" && uploadedUrl != "" then uploadedUrl else u.profilePic)
    ensures v.updatedAt == (if v.(updatedAt := u.updatedAt) == u then u.updatedAt else now)
  {
    var withPassword := if edit.password != "" then u.(password := Some(hash)) else u;
    var pic := if edit.profilePic != "" then uploadedUrl else edit.profilePic;
    var fields := withPassword.(
      name := Or(edit.name, u.name),
      email := Or(edit.email, u.email),
      username := Or(edit.username, u.username),
      profilePic := Or(pic, u.profilePic),
      bio := Or(edit.bio, u.bio));
    if fields == u then u else fields.(updatedAt := now)
  }

  /** The `arrayFilters` update of one reply. */
  function RewriteReply(rep: Reply, userId: Id, username: string, pic: string): Reply
  {
    if rep.userId == userId then rep.(username := username, userProfilePic := pic) else rep
  }

  /** `q` is `p` with each of its replies rewritten and nothing else touched. */
  ghost predicate RepliesRewritten(p: Post, q: Post, userId: Id, username: string, pic: string)
  {
    && q.(replies := p.replies) == p
    && |q.replies| == |p.replies|
    && forall j :: 0 <= j < |p.replies| ==> q.replies[j] == RewriteReply(p.replies[j], userId, username, pic)
  }

  /**
   * `Post.updateMany` of updateUser: in every post, every reply by `userId` gets the
   * new username and picture; every other reply and every other post field stays.
   */
  method RewriteReplies(posts: seq<Post>, userId: Id, username: string, pic: string) returns (r: seq<Post>)
    ensures |r| == |posts|
    ensures forall i :: 0 <= i < |posts| ==> RepliesRewritten(posts[i], r[i], userId, username, pic)
  {
    r := [];
    var i := 0;
    while i < |posts|
      invariant 0 <= i <= |posts| && |r| == i
      invariant forall k :: 0 <= k < i ==> RepliesRewritten(posts[k], r[k], userId, username, pic)
    {
      var replies := posts[i].replies;
      var out: seq<Reply> := [];
      var j := 0;
      while j < |replies|
        invariant 0 <= j <= |replies| && |out| == j
        invariant forall k :: 0 <= k < j ==> out[k] == RewriteReply(replies[k], userId, username, pic)
      {
        out := out + [RewriteReply(replies[j], userId, username, pic)];
        j := j + 1;
      }
      r := r + [posts[i].(replies := out)];
      i := i + 1;
    }
  }

  /**
   * The field-by-field assignments of updateUser on the loaded document: the password
   * when one is supplied, the picture (destroying the old one's public id) when one is
   * supplied, then each field `|| ` its old value, and the timestamp when `save()` sees a change.
   */
  method ApplyEdit(u: User, edit: Edit, hash: string, uploadedUrl: string, now: int)
    returns (user: User, destroyed: Option<string>)
    ensures user == MergeEdit(u, edit, hash, uploadedUrl, now)
    ensures destroyed == (if edit.profilePic != "" && u.profilePic != "" then Some(PublicId(u.profilePic)) else None)
  {
    destroyed := None;
    user := u;
    if edit.password != "" {
      user := user.(password := Some(hash));
    }
    var profilePic := edit.profilePic;
    if profilePic != "" {
      if user.profilePic != "" {
        destroyed := Some(PublicId(user.profilePic));
      }
      profilePic := uploadedUrl;
    }
    user := user.(name := Or(edit.name, user.name));
    user := user.(email := Or(edit.email, user.email));
    user := user.(username := Or(edit.username, user.username));
    user := user.(profilePic := Or(profilePic, user.profilePic));
    user := user.(bio := Or(edit.bio, user.bio));
    if user != u {
      user := user.(updatedAt := now);
    }
  }

  /** The two collections, with the handlers that change them. */
  class Store {
    var users: seq<User>
    var posts: seq<Post>

    ghost predicate Valid()
      reads this
    {
      IdsDistinct(users)
    }

    constructor (users0: seq<User>, posts0: seq<Post>)
      requires IdsDistinct(users0)
      ensures Valid() && users == users0 && posts == posts0
    {
      users := users0;
      posts := posts0;
    }

    /**
     * signupUser: refuses when any user has the same email or the same username;
     * otherwise saves one new user (`newId` is the id the database assigns).
     */
    method SignupUser(newId: Id, name: string, email: string, username: string,
                      hashedPassword: string, bio: Option<string>, now: int)
      returns (r: Result<AuthReply>)
      requires Valid()
      requires forall i :: 0 <= i < |users| ==> users[i].id != newId
      modifies this
      ensures Valid() && posts == old(posts)
      ensures r.Err? <==> exists i :: 0 <= i < |old(users)| && Matches(old(users)[i], ByEmailOrUsername(email, username))
      ensures r.Err? ==> r.msg == "User already exists" && users == old(users)
      ensures r.Ok? ==> users == old(users) + [NewUser(newId, name, email, username, hashedPassword, bio, now)]
      ensures r.Ok? ==> r.value == AuthReply(newId, name, email, username, BioOrDefault(bio), "")
    {
      var found := FindOne(users, ByEmailOrUsername(email, username));
      if found.Some? {
        return Err("User already exists");
      }
      var newUser := NewUser(newId, name, email, username, hashedPassword, bio, now);
      users := users + [newUser];
      r := Ok(AuthReplyOf(newUser));
    }

    /**
     * followUnFollowUser: refuses a self-follow before looking at whether the users
     * exist; otherwise toggles the caller's `following` and the target's `followers` together.
     */
    method FollowUnFollowUser(currentId: Id, id: Id, now: int) returns (r: Result<string>)
      requires Valid()
      modifies this
      ensures Valid() && posts == old(posts)
      ensures id == currentId ==> r == Err("You cannot follow/unfollow yourself") && users == old(users)
      ensures id != currentId && (FindOne(old(users), ById(id)).None? || FindOne(old(users), ById(currentId)).None?) ==>
        r == Err("User not found") && users == old(users)
      ensures id != currentId && FindOne(old(users), ById(id)).Some? && FindOne(old(users), ById(currentId)).Some? ==>
        var ci := FindOne(old(users), ById(currentId)).value;
        var ti := FindOne(old(users), ById(id)).value;
        && users == ToggleFollow(old(users), ci, ti, now)
        && r == Ok(if id in old(users)[ci].following then "User unfollowed successfully" else "User followed successfully")
    {
      var userToModify := FindOne(users, ById(id));
      var currentUser := FindOne(users, ById(currentId));
      if id == currentId {
        return Err("You cannot follow/unfollow yourself");
      }
      if userToModify.None? || currentUser.None? {
        return Err("User not found");
      }
      var ci, ti := currentUser.value, userToModify.value;
      var isFollowing := id in users[ci].following;
      users := ToggleFollow(users, ci, ti, now);
      ToggleKeepsIdsDistinct(old(users), ci, ti, now);
      r := Ok(if isFollowing then "User unfollowed successfully" else "User followed successfully");
    }

    /**
     * updateUser: refuses a missing caller first, then a route id other than the
     * caller's; otherwise merges the edit, destroys the old picture (by its public id)
     * when a new one is supplied, saves, copies the saved name and picture into the
     * caller's replies, and answers with the saved user with a null password.
     */
    method UpdateUser(userId: Id, routeId: Id, edit: Edit, hashedPassword: string, uploadedUrl: string, now: int)
      returns (r: Result<User>, destroyed: Option<string>)
      requires Valid()
      modifies this
      ensures Valid()
      ensures FindOne(old(users), ById(userId)).None? ==>
        r == Err("User not found") && destroyed.None? && users == old(users) && posts == old(posts)
      ensures FindOne(old(users), ById(userId)).Some? && routeId != userId ==>
        r == Err("You cannot update other user's profile") && destroyed.None? && users == old(users) && posts == old(posts)
      ensures FindOne(old(users), ById(userId)).Some? && routeId == userId ==>
        var i := FindOne(old(users), ById(userId)).value;
        var saved := MergeEdit(old(users)[i], edit, hashedPassword, uploadedUrl, now);
        && users == old(users)[i := saved]
        && r == Ok(saved.(password := None))
        && destroyed == (if edit.profilePic != "" && old(users)[i].profilePic != "" then Some(PublicId(old(users)[i].profilePic)) else None)
        && |posts| == |old(posts)|
        && forall k :: 0 <= k < |posts| ==> RepliesRewritten(old(posts)[k], posts[k], userId, saved.username, saved.profilePic)
    {
      destroyed := None;
      var found := FindOne(users, ById(userId));
      if found.None? {
        return Err("User not found"), None;
      }
      if routeId != userId {
        return Err("You cannot update other user's profile"), None;
      }
      var i := found.value;
      var user;
      user, destroyed := ApplyEdit(users[i], edit, hashedPassword, uploadedUrl, now);
      users := users[i := user];
      posts := RewriteReplies(posts, userId, user.username, user.profilePic);
      r := Ok(user.(password := None));
    }
  }

  lemma ToggleKeepsIdsDistinct(users: seq<User>, ci: nat, ti: nat, now: int)
    requires ci < |users| && ti < |users| && ci != ti
    requires IdsDistinct(users)
    ensures IdsDistinct(ToggleFollow(users, ci, ti, now))
  {
  }

  /** A sign-up that passes the duplicate check keeps emails and usernames unique. */
  lemma SignupKeepsKeysUnique(users: seq<User>, u: User)
    requires KeysUnique(users)
    requires FindOne(users, ByEmailOrUsername(u.email, u.username)).None?
    ensures KeysUnique(users + [u])
  {
  }

  /** Right after a sign-up, logging in as the new user succeeds exactly when bcrypt accepts the password against the saved hash. */
  lemma SignupThenLogin(users: seq<User>, id: Id, name: string, email: string, username: string,
                        hash: string, bio: Option<string>, now: int,
                        password: string, compare: (string, string) -> bool)
    requires FindOne(users, ByEmailOrUsername(email, username)).None?
    ensures var u := NewUser(id, name, email, username, hash, bio, now);
      && (LoginUser(users + [u], username, password, compare).Ok? <==> compare(password, hash))
      && (LoginUser(users + [u], username, password, compare).Ok? ==>
            LoginUser(users + [u], username, password, compare).value == AuthReplyOf(u))
  {
    var u := NewUser(id, name, email, username, hash, bio, now);
    var s := users + [u];
    forall j | 0 <= j < |users| ensures s[j].username != username {
      assert !Matches(users[j], ByEmailOrUsername(email, username));
    }
    FindOneFirst(s, ByUsername(username), |users|);
  }

  /** Right after a sign-up, the profile lookup by the new id finds the new user, without its password. */
  lemma SignupThenLookup(users: seq<User>, id: Id, name: string, email: string, username: string,
                         hash: string, bio: Option<string>, now: int)
    requires forall i :: 0 <= i < |users| ==> users[i].id != id
    ensures GetUserProfile(users + [NewUser(id, name, email, username, hash, bio, now)], id, true)
      == Ok(Profile(id, name, email, username, "", BioOrDefault(bio), [], [], now))
  {
    var s := users + [NewUser(id, name, email, username, hash, bio, now)];
    FindOneFirst(s, ById(id), |users|);
  }

  /** A follow or unfollow keeps every user's `following` in step with the others' `followers`. */
  lemma ToggleKeepsFollowGraphConsistent(users: seq<User>, ci: nat, ti: nat, now: int)
    requires ci < |users| && ti < |users| && ci != ti
    requires IdsDistinct(users)
    requires FollowGraphConsistent(users)
    ensures FollowGraphConsistent(ToggleFollow(users, ci, ti, now))
  {
  }

  /**
   * Following and then unfollowing (or the reverse) gives every user back the same
   * memberships and other fields, provided the pair was consistent; `updatedAt`, the order
   * of the two lists and the number of copies of the two toggled ids may differ.
   */
  lemma ToggleTwiceRestoresMembership(users: seq<User>, ci: nat, ti: nat, now1: int, now2: int)
    requires ci < |users| && ti < |users| && ci != ti
    requires users[ci].id != users[ti].id
    requires PairConsistent(users[ci], users[ti])
    ensures var r := ToggleFollow(ToggleFollow(users, ci, ti, now1), ci, ti, now2);
      |r| == |users| && forall k :: 0 <= k < |users| ==> SameMembership(r[k], users[k])
  {
  }

  /** An update that supplies nothing saves the user unchanged, without touching `updatedAt`. */
  lemma EmptyEditKeepsUser(u: User, hash: string, uploadedUrl: string, now: int)
    ensures MergeEdit(u, Edit("", "", "", "", "", ""), hash, uploadedUrl, now) == u
  {
  }

  /** Sending the same update again (without a password or picture) changes nothing more. */
  lemma MergeEditIdempotent(u: User, edit: Edit, hash: string, url: string, now1: int, now2: int)
    requires edit.password == "" && edit.profilePic == ""
    ensures var v := MergeEdit(u, edit, hash, url, now1);
      MergeEdit(v, edit, hash, url, now2) == v
  {
  }

  /** The public id of `dir/name.ext` is `name`, for any directory and any extension. */
  lemma PublicIdOfPath(dir: string, name: string, ext: string)
    requires '/' !in name && '.' !in name && '/' !in ext
    ensures PublicId(dir + "/" + name + "." + ext) == name
  {
    assert dir + "/" + name + "." + ext == dir + "/" + (name + "." + ext);
    LastSegmentAfterSlash(dir, name + "." + ext);
    FirstPieceBeforeDot(name, ext);
  }

  lemma {:induction false} LastSegmentAfterSlash(dir: string, file: string)
    requires '/' !in file
    ensures LastSegment(dir + "/" + file) == file
  {
    if file != [] {
      var s := dir + "/" + file;
      var init := file[..|file| - 1];
      assert s[..|s| - 1] == dir + "/" + init;
      LastSegmentAfterSlash(dir, init);
      assert file == init + [file[|file| - 1]];
    }
  }

  lemma {:induction false} FirstPieceBeforeDot(name: string, rest: string)
    requires '.' !in name
    ensures FirstPiece(name + "." + rest) == name
  {
    if name != [] {
      var s := name + "." + rest;
      assert s[1..] == name[1..] + "." + rest;
      FirstPieceBeforeDot(name[1..], rest);
      assert name == [name[0]] + name[1..];
    }
  }

  /** A typical cloudinary URL gives the file name without its extension. */
  lemma PublicIdOfCloudinaryUrl()
    ensures PublicId("https://res.cloudinary.com/demo/image/upload/v1712/abc123.jpg") == "abc123"
  {
    assert "https://res.cloudinary.com/demo/image/upload/v1712/abc123.jpg"
      == "https://res.cloudinary.com/demo/image/upload/v1712" + "/" + "abc123" + "." + "jpg";
    PublicIdOfPath("https://res.cloudinary.com/demo/image/upload/v1712", "abc123", "jpg");
  }

  /** `findOne` answers with the first match, wherever it is. */
  lemma FindOneFirst(users: seq<User>, q: Query, k: nat)
    requires k < |users| && Matches(users[k], q)
    requires forall j :: 0 <= j < k ==> !Matches(users[j], q)
    ensures FindOne(users, q) == Some(k)
  {
  }
}
