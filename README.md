# PeepPost user accounts and chat-page conversation search, in Dafny

This project models two pieces of decision logic from PeepPost, a social-media application with direct messages.

- **The backend's user-account handlers** (`Backend/controllers/userController.js`), module `UserController`. The `User` and `Post` collections are sequences in natural (insertion) order, so `findOne` answers with the first match. The handlers are:
  - sign-up;
  - login;
  - the follow/unfollow toggle;
  - the profile update, which includes the public id of the old picture and the rewrite of the caller's replies in every post;
  - the profile lookup.

  The handlers that change the collections are methods of the class `Store`. Lookups and decisions are functions.
- **The chat page's state logic** (`Frontend/src/pages/ChatPage.jsx`), module `ChatPage`. This covers:
  - the conversation search (`handleConversationSearch`), which reports an error, selects a listed conversation or appends a provisional ("mock") one;
  - the loading of the conversation list;
  - the online flag shown beside each conversation.

  The page's state (the list, the selection and the `searchingUser` / `loadingConversations` flags) lives in the class `Page`.

Foreign calls become parameters:
- bcrypt: the hash of a new password is passed in, and `compare` is a function parameter.
- `mongoose.Types.ObjectId.isValid(query)`: passed in as a boolean.
- cloudinary: the `secure_url` of the upload is passed in. The public id that `destroy` receives is returned.
- The id the database gives a new user, and the clock reading that Mongoose timestamps use, are passed in.
- `Date.now()`, which keys a provisional conversation, is passed in.
- HTTP replies: the body that the chat page receives is a parameter (`SearchReply`, `LoadReply`).

The search runs on the client. It compares only `participants[0]._id` with the searched id. It appends the provisional conversation at the end of the list. The model follows the code.

## Model

| member | source | states |
|---|---|---|
| UserController.FindOne | Backend/controllers/userController.js:37 | `findOne` returns the position of the first document that matches the filter, and only when one matches. With no match, no document matches. |
| UserController.GetUserProfile | Backend/controllers/userController.js:8-26 | Looks up by id when the query is a valid ObjectId and by username otherwise. It fails with "User not found" exactly when no user has that key. Otherwise it returns the record of the first user with that key, without password and without `updatedAt`. |
| UserController.LoginUser | Backend/controllers/userController.js:77-94 | Succeeds exactly when the first user with that username exists and bcrypt accepts the password against its hash. Every failure, missing user or wrong password, carries the one message "Invalid username or password". On success it returns the id, name, email, username, bio and picture of that first user, the one whose hash was checked. |
| UserController.Store.SignupUser | Backend/controllers/userController.js:34-65 | Fails with "User already exists", and leaves the store unchanged, exactly when some user has the same email or the same username. Otherwise it appends exactly one user: the bio defaults to "", there are no followers or following, and the hash is stored. The reply carries id, name, email, username, bio and picture, and no password. |
| UserController.SignupKeepsKeysUnique | Backend/controllers/userController.js:37-53 | A sign-up that passes the duplicate check keeps emails and usernames unique across all users. |
| UserController.SignupThenLogin | Backend/controllers/userController.js:44-83 | Right after a sign-up, login with the new username succeeds exactly when bcrypt accepts the password against the saved hash, and it answers with the new user. |
| UserController.SignupThenLookup | Backend/controllers/userController.js:17-53 | Right after a sign-up, the profile lookup by the new id returns the new user's profile, with no password and an empty bio when none was supplied. |
| UserController.Pull | Backend/controllers/userController.js:126-127 | `$pull` removes every occurrence of the pulled element and keeps every other element with its multiplicity. A list without that element is left as it is, and a one-element list loses its element exactly when it is the pulled one. |
| UserController.PullConcat | Backend/controllers/userController.js:126-127 | `$pull` of a concatenation is the concatenation of the pulls. With the one-element case this fixes the result: the remaining elements keep their order. |
| UserController.ToggleFollow | Backend/controllers/userController.js:122-133 | When the caller follows the target, both ids are pulled: the target's from the caller's `following` and the caller's from the target's `followers`. Otherwise both are appended at the end of those lists. So the target's id flips membership in the caller's `following`, and the caller's id ends up in the target's `followers` exactly when the target's id ends up in the caller's `following`. The caller's id flips only when the pair was consistent before the toggle. Every other id keeps its membership. Both records get the update time. Every other user record and every other field is unchanged. |
| UserController.Store.FollowUnFollowUser | Backend/controllers/userController.js:112-134 | A self-follow fails with "You cannot follow/unfollow yourself" before the existence check. A missing user fails with "User not found". Otherwise the store becomes the toggle of both records, and the reply says followed or unfollowed according to the caller's previous `following`. |
| UserController.ToggleKeepsIdsDistinct | Backend/controllers/userController.js:126-132 | The two updates of a toggle change no document id. |
| UserController.ToggleKeepsFollowGraphConsistent | Backend/controllers/userController.js:122-133 | If, for every pair of users, "a follows b" holds exactly when "a is among b's followers", a toggle keeps that true for every pair. |
| UserController.ToggleTwiceRestoresMembership | Backend/controllers/userController.js:122-133 | Two successive toggles of a consistent pair give every user back the same membership in both lists and the same other fields. Only `updatedAt`, the order of the lists and the number of copies of the two toggled ids may differ. |
| UserController.LastSegment | Backend/controllers/userController.js:161 | `split("/").pop()` is the longest suffix without '/'. |
| UserController.FirstPiece | Backend/controllers/userController.js:161 | `split(".")[0]` is the longest prefix without '.'. |
| UserController.PublicId | Backend/controllers/userController.js:161 | The public id of a picture URL contains neither '/' nor '.'. |
| UserController.PublicIdOfPath | Backend/controllers/userController.js:161 | The public id of `dir/name.ext` is `name`, for any directory and extension, when `name` holds no '/' or '.' and `ext` holds no '/'. |
| UserController.PublicIdOfCloudinaryUrl | Backend/controllers/userController.js:161 | A typical cloudinary URL `.../upload/v1712/abc123.jpg` gives `abc123`. |
| UserController.MergeEdit | Backend/controllers/userController.js:153-174 | Each of name, email, username and bio becomes the supplied value when it is non-empty, and keeps the old value otherwise. The password becomes the new hash only when a password is supplied. The picture becomes the uploaded URL only when a picture is supplied. The id, follow lists and `createdAt` are unchanged. `updatedAt` moves only when something changed. |
| UserController.ApplyEdit | Backend/controllers/userController.js:153-172 | The handler's step-by-step assignments to the loaded user give exactly the merged record. The old picture's public id is destroyed exactly when a new picture is supplied and the user already has one. |
| UserController.EmptyEditKeepsUser | Backend/controllers/userController.js:168-174 | An update that supplies nothing saves the user exactly as it was. |
| UserController.MergeEditIdempotent | Backend/controllers/userController.js:168-174 | Repeating an update without a password or picture changes nothing more, including `updatedAt`. |
| UserController.RewriteReplies | Backend/controllers/userController.js:177-186 | In every post, every reply whose `userId` is the updater's gets the new username and picture. Every other reply, and every other post field, is unchanged, and no post is added or dropped. |
| UserController.Store.UpdateUser | Backend/controllers/userController.js:141-191 | Fails with "User not found" first, then with "You cannot update other user's profile" when the route id is not the caller's; neither failure changes anything. Otherwise it saves the merged record in place and rewrites the caller's replies in all posts. It answers with the saved record with a null password. It destroys the old picture's public id exactly when an old picture exists and a new one is supplied. |
| ChatPage.FindByCounterpart | Frontend/src/pages/ChatPage.jsx:63 | `find` returns the first conversation whose `participants[0]._id` is the searched id, with every earlier one missing it. It returns "missing" exactly when every conversation has a first participant and none matches. It throws when a conversation without participants comes before any match. |
| ChatPage.SearchEffect | Frontend/src/pages/ChatPage.jsx:45-95 | An error payload or a thrown error is reported. A search for oneself reports "You cannot message yourself". A user who is some listed conversation's first participant selects the first such conversation, as {_id, userId, username, userProfilePic}. When `find` meets a conversation without participants before any match, the browser's TypeError is reported. Exactly when no listed conversation matches, it appends a provisional conversation: `mock`, the fresh id, an empty last message, and the searched user as its only participant. |
| ChatPage.Page.HandleConversationSearch | Frontend/src/pages/ChatPage.jsx:45-95 | The list changes only by appending the provisional conversation at the end, with every existing entry kept in order. The selection changes only when a listed conversation is selected. `searchingUser` is false on every exit. |
| ChatPage.Page.GetConversations | Frontend/src/pages/ChatPage.jsx:24-43 | A list reply replaces the held list wholesale. An error payload or a thrown error leaves it and is reported. `loadingConversations` is false in every case. |
| ChatPage.Page.constructor | Frontend/src/pages/ChatPage.jsx:15-19 | A freshly mounted page is not searching and is loading its conversations. |
| ChatPage.OnlineFlags | Frontend/src/pages/ChatPage.jsx:164-167 | Each listed conversation is shown online exactly when `onlineUsers` contains its `participants[0]._id`. |
| ChatPage.SearchTwiceAppendsAtMostOnce | Frontend/src/pages/ChatPage.jsx:63-88 | Searching the same user twice never appends a second provisional conversation, because the second search finds the first one. At most one entry is added. |
| ChatPage.SearchKeepsCounterpartsDistinct | Frontend/src/pages/ChatPage.jsx:63-88 | If no two listed conversations share a first participant, none do after a search. |
| ChatPage.MockOnlineIffUserOnline | Frontend/src/pages/ChatPage.jsx:164-167 | After a provisional conversation is appended, the existing entries keep their online flags. The new entry is online exactly when the searched user is. |

## Left out

- `logoutUser` only overwrites the `jwt` cookie with an empty value that expires after 1 ms. `generateTokenAndSetCookie` in sign-up and login issues a token cookie. Cookies and tokens are not modelled.
- bcrypt salting, hashing and comparison are parameters. So are cloudinary's upload and destroy, `ObjectId.isValid` and the database's choice of a new id.
- Store.SignupUser: requires that the new id is unused, because the database generates unique ids.
- Exceptions answered with status 500 are not modelled. This includes the cast error `findById` raises for a malformed id: the model treats such an id as matching no user. It also includes the `catch` of `getUserProfile`, which logs an undefined `err`.
- The `else` branch of `signupUser` after `save()` ("Invalid user data") is not modelled: it cannot be reached, since the new document is always an object.
- Store.UpdateUser: does not check that a new username or email is unused, because the controller does not. Uniqueness after an update would rest on indexes in the user schema. Backend/models/userModel.js is not part of this model, and so `KeysUnique` is proved for sign-up only.
- Schema defaults and validation are not modelled. A new user's picture is taken to default to "". Required-field checks are left out.
- Backend/models/postModel.js is not part of this model. A post keeps only its id, author, text and replies, and the post's own timestamps are left out.
- HTTP status codes are left out beyond error versus success. Toasts and rendering are left out too. A reported message is returned as `Effect.Report` or as `GetConversations`' error.
- Page.HandleConversationSearch: the intermediate `searchingUser == true`, visible only while the request is in flight, is set but not observable after the call.
- The sequence of calls is modelled one at a time. Races between the find-then-save of sign-up, between the paired `findByIdAndUpdate` calls, and between React state updates are not modelled.
- The initial values of `conversationsAtom` and `selectedConversationAtom` are constructor parameters. Frontend/src/atoms/messagesAtom.js is not part of this model.
- The `TypeError` message of a conversation without participants is the wording of V8-based browsers.
- Store.FollowUnFollowUser: ids compare as exact strings. Mongo casts a route id to an ObjectId, and that cast accepts upper-case hex. A caller who spells their own id in upper case passes the self-check at line 118, because it compares strings. `findById` then finds the caller for both records, and the source would add the caller to their own lists. The model answers "User not found" for any id that is not stored exactly as given.
- GetUserProfile: ids compare as exact strings. An id in upper-case hex finds the user in the source, but gives "User not found" in the model.
- OnlineFlags: requires every conversation to have a participant. A conversation without one makes the render at line 167 throw a TypeError, and that throw is not modelled here, although FindByCounterpart models the same throw during the search.
- SearchEffect / Page.GetConversations: an error payload is taken to carry a non-empty `error`. The source tests `searchedUser.error` (line 51) and `data.error` (line 29) for truthiness. So a reply `{error: ""}` would fall through. The search would then compare an undefined id with the caller's and append a conversation whose participant is undefined, and the load would store the payload as the list. The model reports such a reply and keeps the list.
