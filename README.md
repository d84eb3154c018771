# Pet adoption client — a Dafny model

This project models the browser side of a pet-adoption site, a React single-page application. The model covers:

- **Session layer.** The axios client keeps the bearer token in `localStorage`. On a 401 it refreshes the token once and replays the requests that failed with the old token.
- **Stores.** The auth store handles login, registration, the current user, refresh, logout and password reset. The pets store handles lists, counts, details, creation and "my listings".
- **Socket client.** The socket.io client carries the token in its handshake.
- **Pages and components.** Each one keeps state and talks to the stores or to the socket: sign-in, sign-up, forgot and reset password, browse, pet details, new and edit pet, my listings, the pet card, profile, the chat page and the route guard.

Each source module becomes one Dafny module:

| Source | Dafny module |
|---|---|
| `src/utils/api.js` | `Api` |
| `src/store/auth.js` | `Auth` |
| `src/store/pets.js` | `Pets` |
| `src/lib/socket.js` | `Socket` |
| `src/pages/ChatPage.jsx` | `Chat` |
| each other page or component | a module of its own name |

Shared modules:

| Module | What it holds |
|---|---|
| `Js` | JavaScript truthiness, `||`, `??`, `String.trim`, an ASCII-only stand-in for `toLowerCase` and `toUpperCase`, the e-mail pattern, digit filtering and UTF-16 `length` |
| `Session` | `localStorage` as a map and the axios default `Authorization` header, shared by api.js, auth.js and socket.js |
| `PetData` | the server's pet record and multipart form entries |
| `Uploads` | the several photo-URL resolvers the pages carry |

Two kinds of source become two kinds of model:

- **Objects that change step by step become classes.** The api client, the stores, the socket client and every page are classes. Their methods state their new state in terms of `old(...)`: each names what changes, and the chat page, the api client and the stores also say that every other field stays as it was. An `async` handler is split in two: one method for the part up to the request, which returns what it sends, and one for the moment the request settles, which takes the reply as a parameter. A `setTimeout` is an armed field plus a method for the moment it fires.
- **Pure computations become functions, with lemmas about them.** Examples are URL cleaning, payload building, validation, the diff of a profile, age formatting and the chat's read marker.

Calls into code that cannot be seen here become parameters:

- `new URL`, given as a `string -> Option<Url>`;
- `Number(...)`, `encodeURIComponent` and `URL.createObjectURL`;
- JWT decoding;
- the server's replies and thrown errors;
- the socket's connection state;
- the current time.

## Model

| member | source | states |
|---|---|---|
| Session.StoreRefreshToken | src/utils/api.js:43-46 | storing a refresh token sets exactly that key when it is truthy, removes it otherwise, and keeps every other key |
| Session.AccessTokenOf | src/utils/api.js:137-141 | the access token of a reply is truthy or absent; `accessToken` wins, and any result is one of the three places a token can be |
| Session.ErrorText | src/store/auth.js:100-104 | an error's text is the server's `message` when truthy, otherwise its `error` or the fallback, and never empty when the fallback is not |
| Api.NormalizeBase | src/utils/api.js:13-15 | an empty or blank base URL becomes "/api"; otherwise the trimmed value with one trailing slash removed |
| Api.ApiStoreToken | src/utils/api.js:29-39 | a truthy token is written under both `accessToken` and `token`, a falsy one removes both, other keys are kept |
| Api.GetAfterSet | src/utils/api.js:25-39 | reading the token back after storing it returns what was stored (absent for a falsy token) |
| Api.CleanRelativeUrl | src/utils/api.js:61-66 | absolute http(s) URLs are untouched; a relative URL gets one leading slash when it has none and is otherwise kept as it is |
| Api.CleanRelativeUrlIdempotent | src/utils/api.js:61-66 | cleaning a URL twice gives what cleaning it once gives |
| Api.PathnameOf | src/utils/api.js:84-91 | the pathname tested is always lower-case, whether `new URL` parses the text or not |
| Api.IsAuthEndpointUrl | src/utils/api.js:94-104 | a URL is an auth endpoint exactly when its lower-cased pathname ends with one of the six listed endings; such a pathname has at least 11 characters |
| Api.AuthEndpointIgnoresCase | src/utils/api.js:84-104 | two URLs whose pathnames differ only in letter case are both auth endpoints or neither |
| Api.ApiGetToken | src/utils/api.js:25-28 | a truthy `accessToken` wins, otherwise the `token` key is read; a truthy token comes back exactly when either key holds one |
| Api.PrepareRequest | src/utils/api.js:69-81 | the request interceptor attaches `Bearer <token>` exactly when a token is stored, cleans the URL, keeps the retry mark |
| Api.Decide | src/utils/api.js:117-124 | the error is rejected untouched when the status is not 401, when the request is already a retry, or when it went to an auth endpoint |
| Api.DecideRefreshes | src/utils/api.js:117-124 | `Decide` starts or joins a refresh for a failed response exactly when it is a 401 on a request that is not a retry and not to an /auth endpoint |
| Api.Replay | src/utils/api.js:165-172 | a replayed request is marked as a retry, keeps its URL and carries the new token |
| Api.ReplayIsNotRetried | src/utils/api.js:118-124 | a replay that fails again is passed through: no second refresh loop |
| Api.ApiRefreshTokenOf | src/utils/api.js:143-146 | the refresh token read from a reply is its `refreshToken` when truthy, else `tokens.refreshToken` when truthy, else none |
| Api.StorageAfterRefresh | src/utils/api.js:137-158 | a successful refresh writes the new access token under both `accessToken` and `token` (and the new refresh token if any); a failed one removes all three keys; every other key is kept |
| Api.RefreshBody | src/utils/api.js:130-131 | the refresh request carries the stored refresh token exactly when it is truthy |
| Api.RefreshPath | src/utils/api.js:107-110 | the refresh URL ends in "/auth/refresh" and is the base joined with one slash |
| Api.StorageAfterSetAuthTokens | src/utils/api.js:186-189 | `setAuthTokens` stores `accessToken || token` and the refresh token only when one is given |
| Api.ApiClient.constructor | src/utils/api.js:48-50 | on start-up a stored token is written back and put on the default header |
| Api.ApiClient.SetToken | src/utils/api.js:29-39 | storage and header after `setToken` agree with `ApiStoreToken` |
| Api.ApiClient.SetAuthTokens | src/utils/api.js:186-189 | storage and header after `setAuthTokens` agree with `StorageAfterSetAuthTokens` |
| Api.ApiClient.ClearAuthTokens | src/utils/api.js:192-195 | no access, legacy or refresh token remains, no header, and other keys are kept |
| Api.ApiClient.OnResponseError | src/utils/api.js:117-163 | a refreshable failure is queued; the first one sends the single refresh, later ones wait on it; others are rejected with nothing changed |
| Api.ApiClient.SettleRefresh | src/utils/api.js:127-175 | when the refresh settles, every queued request is resumed in order, replayed with the new token on success or rejected on failure; storage follows `StorageAfterRefresh` |
| Api.ConcurrentUnauthorized | src/utils/api.js:117-175 | three requests that fail with 401 together send exactly one refresh, and all three are replayed, in order, with the new token |
| Auth.AuthStoreToken | src/store/auth.js:8-16 | the auth store writes only the `token` key |
| Auth.ClearSessionAsWritten | src/store/auth.js:180-190 | as written, clearing the session removes only `token` and `refreshToken` |
| Auth.ClearSessionAsWrittenKeepsBearer | src/store/auth.js:180-190 | for every storage holding a non-empty `accessToken`, the api client still reads it as its bearer after that clear |
| Auth.ClearSession | src/store/auth.js:180-190 | the corrected clear leaves neither module with a token or refresh token and keeps other keys |
| Auth.AuthRefreshTokenOf | src/store/auth.js:87 | the refresh token taken from a reply is `tokens.refreshToken` when truthy, else absent |
| Auth.StorageAfterReply | src/store/auth.js:81-90 | a login or register reply stores its access token and refresh token when present and keeps everything else |
| Auth.LoginBodyFor | src/store/auth.js:67-76 | no body without an e-mail or identifier; an e-mail is normalised; otherwise the trimmed identifier is posted as a lower-cased `email` when it holds "@" and as the `username` when it does not; the password is passed on as given |
| Auth.LoginBodyNormalised | src/store/auth.js:68-73 | every e-mail the store posts is trimmed and lower-case |
| Auth.StorageAfterLoadMe | src/store/auth.js:39-57 | with the `/users/me` request taken as one outcome, `loadMe` changes storage only when it has a token and the request fails, and then clears the session with the corrected `ClearSession` |
| Auth.ForgotPassword | src/store/auth.js:195-203 | the request is `ok` exactly when it does not throw; a failure always has a non-empty message, the server's when given |
| Auth.ResetPassword | src/store/auth.js:208-216 | reset is `ok` exactly when the server answers with `success`; only a thrown request carries a message |
| Auth.AuthStore.constructor | src/store/auth.js:30-33 | a new store has no user, is not signed in and is not loading |
| Auth.AuthStore.BeginLoadMe | src/store/auth.js:39-44 | `loadMe` starts exactly when a token is stored, and then puts it on the default header |
| Auth.AuthStore.SettleLoadMe | src/store/auth.js:45-56 | the user is the reply's user, signed in exactly when there is one; a failure clears the session (the corrected clear) and the header |
| Auth.AuthStore.LoadMe | src/store/auth.js:39-57 | the whole `loadMe` leaves storage as `StorageAfterLoadMe` says |
| Auth.AuthStore.AcceptReply | src/store/auth.js:81-97 | the reply's tokens are stored; with a user, the new access token goes on the header and the visitor is signed in; without one, when a token is stored, `loadMe` decides user, storage and header; otherwise nothing else changes |
| Auth.AuthStore.Login | src/store/auth.js:65-107 | posts `LoginBodyFor`, answers "Missing credentials" without one; an answered reply leaves storage, header and user as `AcceptReply` states; a thrown one reports the server's error text |
| Auth.AuthStore.Register | src/store/auth.js:114-144 | an answered registration leaves storage, header and user as `AcceptReply` states; a thrown one reports the error text and changes nothing else |
| Auth.AuthStore.Refresh | src/store/auth.js:150-175 | succeeds exactly when the reply carries an access token; then the visitor stays signed in with the same user |
| Auth.AuthStore.Logout | src/store/auth.js:180-190 | logout signs out and leaves storage as the corrected `ClearSession` |
| Auth.LogoutLeavesNoToken | src/store/auth.js:180-190 | after the corrected clear, no bearer, auth token or refresh body is left |
| Socket.HandshakeFor | src/lib/socket.js:23 | the handshake token is the stored one when truthy, otherwise none |
| Socket.SocketClient.constructor | src/lib/socket.js:13-18 | a new socket is idle, unconnected and has made no calls |
| Socket.SocketClient.ConnectSocket | src/lib/socket.js:21-25 | the handshake takes the stored token; `connect` is called only when not already connected |
| Socket.SocketClient.RefreshSocketAuth | src/lib/socket.js:28-35 | the new token is stored and put in the handshake; a live socket is disconnected before reconnecting |
| Socket.SocketClient.ForceReconnect | src/lib/socket.js:38-41 | reconnects with the stored token, disconnecting first when connected |
| Chat.PartyKey | src/pages/ChatPage.jsx:148-153 | a missing party has no key; an id key is never empty |
| Chat.ForConversation | src/pages/ChatPage.jsx:201-204 | only messages for this conversation are kept, none added |
| Chat.Arrive | src/pages/ChatPage.jsx:201-204 | `onMsg` keeps the history as a prefix and adds exactly one message, the arriving one, exactly when it is for this conversation |
| Chat.ArriveAll | src/pages/ChatPage.jsx:201-204 | handling a burst keeps the history as a prefix and grows it by at most the burst; `ArrivalOrder` states exactly what is added |
| Chat.ArrivalOrder | src/pages/ChatPage.jsx:201-204 | a burst of arrivals appends exactly this conversation's messages, in arrival order |
| Chat.ParticipantId | src/pages/ChatPage.jsx:141-143 | a participant's id, when present, is non-empty |
| Chat.ParticipantIds | src/pages/ChatPage.jsx:140-143 | the participant ids are non-empty and no more than the participants |
| Chat.MessageKeysMembers | src/pages/ChatPage.jsx:147-155 | a key is collected exactly when some message's sender or recipient has it |
| Chat.IsSelfChat | src/pages/ChatPage.jsx:138-158 | a self-chat needs a signed-in user; two or more participant ids are never a self-chat, nor is a chat with no participant ids and no messages |
| Chat.SelfChatMeaning | src/pages/ChatPage.jsx:138-158 | a chat is a self-chat exactly when I am signed in and either its participant ids are exactly my id, or it has none and its messages name someone and no one but me |
| Chat.FindNotMe | src/pages/ChatPage.jsx:163-166 | as `find` does: the first participant who is not me, every one before it being me; none exactly when every participant is me |
| Chat.OtherParticipant | src/pages/ChatPage.jsx:161-183 | signed out there is no peer; a found id string becomes a peer with that id named "User"; a found object is the peer as it is; with no conversation, or no truthy participant found, the peer comes from the last message (`PeerFromHistory`); a peer is never me |
| Chat.OtherParticipantOfPair | src/pages/ChatPage.jsx:161-170 | in a two-person conversation the peer is the other person |
| Chat.PeerFromHistory | src/pages/ChatPage.jsx:172-180 | an empty history gives no peer; a peer is the last message's sender or its recipient, and never a truthy me |
| Chat.LastMineIndex | src/pages/ChatPage.jsx:335-343 | the index found holds my message; none means I sent nothing |
| Chat.ShowSeen | src/pages/ChatPage.jsx:410-414 | "Seen" shows only under a message of mine with no message of mine after it, and only once a read time is known |
| Chat.SeenMarksMyLastMessage | src/pages/ChatPage.jsx:410-414 | "Seen" shows at most under one message: my last one, and only when the read time is not earlier |
| Chat.LoadErrorFor | src/pages/ChatPage.jsx:122-126 | "Conversation not found" exactly for a 404; every error has a message |
| Chat.BootstrapToken | src/pages/ChatPage.jsx:44-77 | a stored token is used as is; a token taken from elsewhere is stored first; otherwise the page goes to login |
| Chat.LoadOutcome | src/pages/ChatPage.jsx:91-135 | without a conversation id the page shows its own error; a thrown history shows `LoadErrorFor`; the error is empty exactly when the history was answered with success |
| Chat.ChatView.constructor | src/pages/ChatPage.jsx:22-87 | the page starts loading with no messages, no typing and nothing sent; the token is the stored `token` when truthy, else none, and my id is the decoded id only with a token |
| Chat.ChatView.SetToken | src/pages/ChatPage.jsx:80-88 | my id comes from the token only when both are truthy; nothing else changes |
| Chat.ChatView.Load | src/pages/ChatPage.jsx:91-135 | loading ends with the messages, conversation and error `LoadOutcome` gives; nothing else changes |
| Chat.ChatView.JoinIfConnected | src/pages/ChatPage.jsx:192-199 | a join is emitted exactly when the socket is connected; nothing else changes |
| Chat.ChatView.AttachSocket | src/pages/ChatPage.jsx:186-231 | with a conversation and a token, the socket takes the token, reconnects, keeps other storage keys, and the page listens; otherwise neither the page nor the socket changes |
| Chat.ChatView.OnMessage | src/pages/ChatPage.jsx:201-204 | a message is appended exactly when it is for this conversation; nothing else changes |
| Chat.ChatView.OnTyping | src/pages/ChatPage.jsx:206-216 | only the other party's typing in this conversation sets the indicator and arms its timer; any other event changes nothing |
| Chat.ChatView.TheyTypingExpired | src/pages/ChatPage.jsx:214 | the indicator goes off when its timer fires; nothing else changes |
| Chat.ChatView.OnRead | src/pages/ChatPage.jsx:218-221 | the other party's read time replaces the read marker; other events change nothing |
| Chat.ReadMarks | src/pages/ChatPage.jsx:245-254 | the mark-read effect sends something exactly when there are messages, the socket is connected and the last one is not mine; it is then a read POST and a read signal carrying the same time |
| Chat.ChatView.MarkRead | src/pages/ChatPage.jsx:245-254 | a read mark is posted exactly when the last message is someone else's and the socket is connected; nothing else changes |
| Chat.ChatView.SendMessage | src/pages/ChatPage.jsx:262-276 | the trimmed text is sent exactly when it is non-empty, the chat is not a self-chat and the socket is connected; then the box clears and typing stops; nothing else changes |
| Chat.ChatView.Keystroke | src/pages/ChatPage.jsx:279-290 | the box holds the new text; typing is signalled only on a live socket outside a self-chat; only the box, typing, its timer and what is sent change |
| Chat.ChatView.TypingExpired | src/pages/ChatPage.jsx:286-289 | when the typing timer fires, "stopped typing" is sent; only typing, its timer and what is sent change |
| Chat.ChatView.Blur | src/pages/ChatPage.jsx:528-534 | leaving the box sends "stopped typing" only if typing was on; only typing, its timer and what is sent change |
| Chat.ChatView.Teardown | src/pages/ChatPage.jsx:232-241 | unmounting leaves the room, stops listening and clears the other party's typing timer; nothing else changes |
| Chat.ReadMarkerMovesBack | src/pages/ChatPage.jsx:218-221 | a later read event with an earlier time moves the marker back |
| Uploads.StripApiSuffix | src/pages/PetDetails.jsx:43 | one trailing "/api" or "/api/" is removed, nothing else |
| Uploads.StripLeadingSlashes | src/pages/PetDetails.jsx:48 | the result is a suffix with no leading slash, and only slashes were removed |
| Uploads.StripTrailingSlashes | src/pages/MyListings.jsx:22 | the result is a prefix with no trailing slash, and only slashes were removed |
| Uploads.UploadsPath | src/pages/PetDetails.jsx:45-48 | every relative photo path becomes a path under "/uploads/" |
| Uploads.UnderUploads | src/pages/PetDetails.jsx:45-48 | the resolved URL lies under the host's "/uploads/" |
| Uploads.ResolveWith | src/pages/PetDetails.jsx:36-49 | a blank photo has no URL; absolute URLs are kept trimmed; the rest go under the host's uploads |
| Uploads.UploadSpellingsAgree | src/pages/PetDetails.jsx:45-48 | "/api/uploads/x", "/uploads/x" and "uploads/x" all name "/uploads/x" |
| Uploads.ApiSpelling | src/pages/PetDetails.jsx:45 | "/api/uploads/x" names "/uploads/x" |
| Uploads.RootSpelling | src/pages/PetDetails.jsx:46 | "/uploads/x" is kept |
| Uploads.RelativeSpelling | src/pages/PetDetails.jsx:47 | "uploads/x" names "/uploads/x" |
| Uploads.BareNameGoesUnderUploads | src/pages/PetDetails.jsx:48 | a bare file name goes under "/uploads/" |
| Uploads.ResolveIdempotentOnEmptyHost | src/pages/PetDetails.jsx:36-49 | resolving an already resolved photo changes nothing |
| Uploads.UploadsPathFixed | src/pages/PetDetails.jsx:46 | a path already under "/uploads/" is a fixed point |
| Uploads.ApiBaseAndOriginAgree | src/pages/MyListings.jsx:14-27 | resolving against "origin/api" and against "origin" give the same URL |
| Uploads.ResolveAgainstApiBase | src/pages/PetDetails.jsx:36-49 | no URL exactly for a blank photo; an absolute one comes back trimmed; any other goes under the api base's host ("/api" removed) and "/uploads/" |
| Uploads.ResolveAgainstOrigin | src/pages/MyListings.jsx:14-27 | no URL exactly for a blank photo; an absolute one comes back trimmed; any other goes under the origin (trailing slashes removed) and "/uploads/" |
| Uploads.CardPath | src/components/PetCard.jsx:15-23 | the card's resolver also puts every relative path under "/uploads/" |
| Uploads.ResolveForCard | src/components/PetCard.jsx:8-24 | blank photos have no URL; absolute ones are kept; the rest go under the origin's uploads |
| Uploads.CardPathKeepsApiPrefix | src/components/PetCard.jsx:15-23 | for "/api/uploads/x" the card builds "/uploads/api/uploads/x", unlike the other pages |
| Uploads.CardPathAgreesOtherwise | src/components/PetCard.jsx:15-23 | for every other spelling the card's path is the other pages' path |
| Uploads.CardResolverAgreesOtherwise | src/components/PetCard.jsx:8-24 | off the "/api/uploads" spelling, the card and the other pages resolve alike |
| PetData.PetId | src/pages/MyListings.jsx:65 | a pet's id is `_id` when truthy, else `id`; it is truthy exactly when one of them is |
| PetData.PhotoEntries | src/pages/NewPet.jsx:90 | one "photos" entry per file, in order |
| PetData.AppendPhotos | src/pages/EditPet.jsx:170 | the loop appends exactly the photo entries after the fields |
| Pets.NormalizeList | src/store/pets.js:6-12 | a bare array, or the body's `data` array, is the list; anything else is empty |
| Pets.MetaOf | src/store/pets.js:16 | the body's `meta` when present, else its `pagination`, else an empty meta |
| Pets.ReadMeta | src/store/pets.js:14-25 | each meta field takes the caller's fallback first, then the body's meta, then the defaults (page 1, limit 12, total 0); `hasNext` only when true |
| Pets.DeclaredTotal | src/store/pets.js:27-31 | a bare array declares no total; `meta.total` wins when present; any declared total is `meta.total` or `pagination.total` |
| Pets.ReadTotal | src/store/pets.js:27-34 | a declared total wins; otherwise the length of the list, or the caller's fallback when there is none |
| Pets.TotalDefaultsToListLength | src/store/pets.js:27-34 | without a declared total, the total is the list's length |
| Pets.DeclaredZeroIsKept | src/store/pets.js:29-31 | a declared total of 0 is kept even when the list is not empty |
| Pets.MetaAndTotalCanDisagree | src/store/pets.js:14-34 | `meta.total` and the count read by `readTotal` come from different places and can differ |
| Pets.EntriesFor | src/store/pets.js:132-137 | a photo array becomes one entry per file; null fields are skipped; every entry has the field's key |
| Pets.FormOf | src/store/pets.js:132-138 | a payload whose every value is null or undefined builds an empty form |
| Pets.FormOfAppend | src/store/pets.js:132-138 | the form of two field lists is the concatenation of their forms |
| Pets.FormSkipsNulls | src/store/pets.js:132-138 | every entry posted comes from a non-null field of the payload |
| Pets.CreateFormAsWritten | src/store/pets.js:129-138 | as written, the form is rebuilt from the payload's own enumerable fields, so a `FormData` gives an empty form |
| Pets.FormDataPostedEmptyAsWritten | src/store/pets.js:131-132 | as written, a `FormData` payload is posted as an empty form |
| Pets.CreateForm | src/store/pets.js:129-138 | a `FormData` is posted as it is; a plain object is rebuilt as written |
| Pets.BuildForm | src/store/pets.js:131-138 | the loop builds the form that `FormOf` specifies |
| Pets.DetailOf | src/store/pets.js:121 | the detail is the reply's pet, or none without a body |
| Pets.PetsStore.constructor | src/store/pets.js:37-55 | the store starts empty with default meta and nothing loading |
| Pets.PetsStore.FetchList | src/store/pets.js:58-69 | on success the list is the normalised body; on failure it is kept; only list state changes |
| Pets.PetsStore.FetchFeatured | src/store/pets.js:72-82 | featured is the normalised body, or empty on failure |
| Pets.PetsStore.FetchAdopted | src/store/pets.js:85-97 | adopted pets and their count come from the reply; a failure empties both |
| Pets.PetsStore.FetchCounts | src/store/pets.js:100-115 | both counts come from their replies' totals; when either request fails both counts keep their previous values |
| Pets.CurrentAfterFetch | src/store/pets.js:118-126 | `current` after `fetchOne` is empty exactly when the request threw or answered without a body; a single pet in the envelope is held as that pet |
| Pets.PetsStore.FetchOne | src/store/pets.js:118-126 | requests "/pets/<id>" and holds the pet it gets, or none |
| Pets.PetsStore.Create | src/store/pets.js:129-156 | posts the corrected `CreateForm`; a created pet goes to the front of my listings |
| Pets.PetsStore.FetchMyListings | src/store/pets.js:159-191 | the query takes page and limit from the arguments or the previous meta, and status and sort only when truthy; failure empties the listings |
| Pets.MyListingsMetaFollowsQuery | src/store/pets.js:159-181 | the listings' meta reports the page, limit and sort that were asked for |
| NewPet.Capped | src/pages/NewPet.jsx:44-49 | the selection is the old files then the picked ones, cut at five |
| NewPet.CappedKeepsEarlierSelection | src/pages/NewPet.jsx:47 | files already chosen are never displaced by new picks |
| NewPet.RemoveAt | src/pages/NewPet.jsx:51-53 | a valid index removes one file; any other index changes nothing |
| NewPet.RemoveAtKeepsOrder | src/pages/NewPet.jsx:51-53 | removal keeps the other files in order and loses only the one removed |
| NewPet.MaxZero | src/pages/NewPet.jsx:75 | a number is clamped at 0; NaN stays NaN |
| NewPet.FieldAppends | src/pages/NewPet.jsx:64-85 | the submit handler considers exactly twelve fields |
| NewPet.Made | src/pages/NewPet.jsx:64-85 | only the fields whose condition holds are appended |
| NewPet.OtherSpeciesOnlyForOther | src/pages/NewPet.jsx:67-70 | "otherSpecies" is sent only for species "other" |
| NewPet.AgeOnlyWhenGiven | src/pages/NewPet.jsx:74-77 | an age is sent only when typed, and never negative |
| NewPet.OptionalFieldsOnlyWhenFilled | src/pages/NewPet.jsx:72-80 | breed and city are sent only when filled |
| NewPet.FlagsAlwaysSent | src/pages/NewPet.jsx:83-85 | the three health flags are always sent, as "true" or "false" |
| NewPet.EveryFileSentInOrder | src/pages/NewPet.jsx:90 | every chosen file is sent under "photos", in order |
| NewPet.NoFieldUnderPhotos | src/pages/NewPet.jsx:64-85 | no text field uses the "photos" key |
| NewPet.NewPetFormNotEmpty | src/pages/NewPet.jsx:62-90 | the form always carries the pet's name |
| NewPet.NewPetPostsNothingAsWritten | src/pages/NewPet.jsx:92 | as written, that non-empty form reaches the server empty |
| NewPet.NewPetPostsEveryField | src/pages/NewPet.jsx:62-92 | with the corrected create, every chosen file reaches the server under "photos", in order, and so does the pet's name |
| NewPet.AppendFields | src/pages/NewPet.jsx:62-85 | the loop appends exactly the fields `Made` specifies |
| NewPet.NewPetPage.constructor | src/pages/NewPet.jsx:14-31 | the page starts with the initial data and no files |
| NewPet.NewPetPage.HandleFiles | src/pages/NewPet.jsx:44-49 | the selection becomes `Capped` of the old one |
| NewPet.NewPetPage.RemoveFileAt | src/pages/NewPet.jsx:51-53 | the selection becomes `RemoveAt` of the old one |
| NewPet.NewPetPage.Submit | src/pages/NewPet.jsx:55-100 | the form built from the page is posted (through the corrected create); a created pet leads to "/pets"; no other store field changes |
| PetDetails.JsRem | src/pages/PetDetails.jsx:31 | JavaScript's `%`: the sign follows the dividend |
| PetDetails.FormatAge | src/pages/PetDetails.jsx:28-33 | an unknown age gives the placeholder; 0 gives ""; the text starts with the years and ends with the months |
| PetDetails.FormatAgeInjective | src/pages/PetDetails.jsx:28-33 | different ages give different texts |
| PetDetails.OwnerIdChain | src/pages/PetDetails.jsx:64-68 | `ownerId` wins when present; any id comes from `ownerId` or the listing user (never from `owner`); none exactly when neither holds one |
| PetDetails.GetOwnerInfo | src/pages/PetDetails.jsx:54-79 | the name is `ownerName`, else the listing user's full name, else their username, else "Owner"; the phone is `contactPhone`, else `ownerPhone`, else the listing user's phone, else ""; the avatar is the listing user's, resolved, or none; an id is never "" |
| PetDetails.EmptyOwnerIdHidesListedBy | src/pages/PetDetails.jsx:64-75 | an empty `ownerId` on the pet leaves no owner id |
| PetDetails.OwnerIdFromListing | src/pages/PetDetails.jsx:64-68 | without `ownerId`, the id comes from `listedBy` in the order the page tries |
| PetDetails.Links | src/pages/PetDetails.jsx:374-382 | call and WhatsApp links exist exactly when the phone has a digit; the call link dials only digits |
| PetDetails.LinksNeedADigit | src/pages/PetDetails.jsx:374-382 | a phone with a digit always gives a call link made only of digits |
| PetDetails.ResolvedPhotos | src/pages/PetDetails.jsx:117-120 | blank photos are dropped; nothing is added |
| PetDetails.ShownPhotoResolved | src/pages/PetDetails.jsx:117-120 | every photo shown is the resolution of one of the pet's photos |
| PetDetails.EveryResolvedPhotoShown | src/pages/PetDetails.jsx:117-120 | every photo that resolves is shown |
| PetDetails.Gallery | src/pages/PetDetails.jsx:116-122 | the gallery always has a slot, a placeholder when there are no photos |
| PetDetails.SafeIdx | src/pages/PetDetails.jsx:123 | the selected index is clamped into the gallery |
| PetDetails.MainPhoto | src/pages/PetDetails.jsx:122-124 | the main photo is the clamped gallery entry; none only for the placeholder gallery |
| PetDetails.ViewOf | src/pages/PetDetails.jsx:166-184 | the spinner shows exactly while loading with no `current`; otherwise the error box exactly when the error flag is set; the details exactly for a `current` with no error |
| PetDetails.ViewAsWritten | src/pages/PetDetails.jsx:103-183 | as written, the error box never shows; "Pet not found." shows exactly when not loading with no `current` |
| PetDetails.FailedFetchShowsNotFoundAsWritten | src/pages/PetDetails.jsx:103-183 | as written, a fetch that throws shows "Pet not found." |
| PetDetails.FetchView | src/pages/PetDetails.jsx:166-184 | corrected, with `current` taken from the store's `Pets.CurrentAfterFetch`: the error box shows exactly when the fetch threw and nothing is loading; "Pet not found." exactly for an answer without a body |
| PetDetails.FailedFetchShowsError | src/pages/PetDetails.jsx:166-184 | corrected, a fetch that throws shows the error box, not "Pet not found." |
| PetDetails.PetDetailsPage.constructor | src/pages/PetDetails.jsx:109-114 | the page starts on photo 0 with no errors |
| PetDetails.PetDetailsPage.SelectPhoto | src/pages/PetDetails.jsx:220 | a thumbnail click selects its index only |
| PetDetails.PetDetailsPage.ThumbFailed | src/pages/PetDetails.jsx:236 | a broken thumbnail is remembered |
| PetDetails.PetDetailsPage.MainFailed | src/pages/PetDetails.jsx:197 | a broken main photo is flagged |
| PetDetails.PetDetailsPage.MainPhotoChanged | src/pages/PetDetails.jsx:127-129 | a new main photo clears the flag |
| PetDetails.PetDetailsPage.HandleAdopt | src/pages/PetDetails.jsx:157-163 | signed out, "Adopt" goes to login and comes back to this pet; signed in, it shows the owner card |
| EditPet.LoadedData | src/pages/EditPet.jsx:106-121 | the form loads the pet's name, breed, size, city and description or ""; species "dog" and gender "male" unless given; the age as digits; each health flag exactly when true |
| EditPet.LoadedAgeReadsBack | src/pages/EditPet.jsx:111-114 | the loaded age text reads back as the pet's age |
| EditPet.LoadKeepsFilledFields | src/pages/EditPet.jsx:106-121 | fields the pet has are loaded unchanged |
| EditPet.LoadedPhotos | src/pages/EditPet.jsx:124 | the existing photos are the pet's, or none |
| EditPet.NewestExistingPhoto | src/pages/EditPet.jsx:74-78 | the newest photo is the last one |
| EditPet.PrimaryPreview | src/pages/EditPet.jsx:81-91 | a chosen file is previewed first; otherwise the newest existing photo |
| EditPet.AppendedPhotoBecomesPrimary | src/pages/EditPet.jsx:74-91 | a photo added last becomes the preview |
| EditPet.Reversed | src/pages/EditPet.jsx:365 | the gallery shows the photos in reverse |
| EditPet.ReversedShowsNewestFirst | src/pages/EditPet.jsx:365 | the newest photo comes first, and reversing twice restores the order |
| EditPet.AgeValue | src/pages/EditPet.jsx:160 | an empty age is sent as "", anything else as a number |
| EditPet.EditFields | src/pages/EditPet.jsx:155-167 | the edit form sends a fixed set of fields |
| EditPet.SentOnce | src/pages/EditPet.jsx:155-167 | each field is sent exactly once, with its value |
| EditPet.AgeAlwaysSent | src/pages/EditPet.jsx:160 | the age is always sent, even empty |
| EditPet.FieldsAlwaysSent | src/pages/EditPet.jsx:155-167 | name, breed, city and the vaccinated flag are always sent once, as shown |
| EditPet.FlagsAlwaysSent | src/pages/EditPet.jsx:163-165 | the vaccinated, dewormed and sterilized flags are always sent once, as "true" or "false" |
| EditPet.EditFormLayout | src/pages/EditPet.jsx:153-170 | the form `EditForm` builds is the eleven fields of `EditFields`, then one "photos" entry per new file, in order |
| EditPet.OnlyNewFilesSent | src/pages/EditPet.jsx:170 | only the newly chosen files are sent, in order |
| EditPet.NoFieldUnderPhotos | src/pages/EditPet.jsx:155-170 | no text field uses the "photos" key |
| EditPet.AppendEditFields | src/pages/EditPet.jsx:153-167 | the loop builds exactly `EditFields` |
| EditPet.EditPetPage.constructor | src/pages/EditPet.jsx:45-69 | the page starts loading with the initial data |
| EditPet.EditPetPage.LoadPet | src/pages/EditPet.jsx:94-133 | a loaded pet fills the form and the photos; a failure shows an error |
| EditPet.EditPetPage.PickFiles | src/pages/EditPet.jsx:406 | choosing files replaces the new files only |
| EditPet.EditPetPage.Submit | src/pages/EditPet.jsx:146-189 | posts the form of the page; success clears the files, reloads and arms the way back; failure keeps everything |
| EditPet.EditPetPage.MarkAsAdopted | src/pages/EditPet.jsx:192-212 | acts only when idle and confirmed; success shows the message and arms navigation |
| EditPet.EditPetPage.TimerFired | src/pages/EditPet.jsx:205 | the armed navigation happens |
| MyListings.CardPhoto | src/pages/MyListings.jsx:48-51 | the card shows the first photo resolved, or none |
| MyListings.NewPhotoKeepsCard | src/pages/MyListings.jsx:48-51 | adding photos to a pet with one does not change its card |
| MyListings.AgeText | src/pages/MyListings.jsx:55-63 | "—" exactly when neither part counts; otherwise years then months |
| MyListings.AgeTextInjective | src/pages/MyListings.jsx:55-63 | different ages give different texts |
| MyListings.StatusLabel | src/pages/MyListings.jsx:126-130 | one of three labels, matched without case |
| MyListings.StatusIgnoresCase | src/pages/MyListings.jsx:126-130 | lower- or upper-casing the status gives the same label |
| MyListings.CardHref | src/pages/MyListings.jsx:65 | the given link wins; otherwise the pet's page |
| MyListings.EmptyToIsKept | src/pages/MyListings.jsx:65 | an empty link is used as it is |
| MyListings.ListingCard.constructor | src/pages/MyListings.jsx:42-53 | the card starts unliked with its photo |
| MyListings.ListingCard.ToggleLiked | src/pages/MyListings.jsx:141-144 | the like flips |
| MyListings.ListingCard.ImageFailed | src/pages/MyListings.jsx:115 | a broken image hides the photo |
| MyListings.ListingCard.PhotoChanged | src/pages/MyListings.jsx:48-53 | the card's photo follows the pet; a new photo resets the error and shows exactly when there is one; the same photo keeps the error |
| PetCard.MyId | src/components/PetCard.jsx:33 | my id is never "" |
| PetCard.OwnerId | src/components/PetCard.jsx:36-42 | `ownerId` wins when present; any id comes from `ownerId`, `owner`, the listing user or a `listedBy` string; none exactly when no place holds one |
| PetCard.OwnerIdPrecedence | src/components/PetCard.jsx:36-42 | `OwnerId` is `ownerId`, then `owner._id`, then `owner.id` |
| PetCard.IsMine | src/components/PetCard.jsx:44 | a pet is mine exactly when both ids are truthy and equal |
| PetCard.SignedOutOwnsNothing | src/components/PetCard.jsx:44 | signed out, or with an empty owner id, nothing is mine |
| PetCard.Placeholder | src/components/PetCard.jsx:53-55 | the placeholder is never empty |
| PetCard.ResolvedNotEmpty | src/components/PetCard.jsx:8-24 | a resolved photo URL is never empty |
| PetCard.NewestPhoto | src/components/PetCard.jsx:48-49 | the card takes the last photo |
| PetCard.CardPhoto | src/components/PetCard.jsx:47-57 | the card always has an image: the newest photo resolved, else the placeholder |
| PetCard.NewestPhotoShown | src/components/PetCard.jsx:47-57 | a photo added last is what the card shows |
| PetCard.OnOpen | src/components/PetCard.jsx:59-62 | no navigation without an id; the owner goes to edit, others to the details |
| PetCard.EditOnlyForOwner | src/components/PetCard.jsx:59-62 | the owner's click opens the edit page |
| PetCard.CardImage.constructor | src/components/PetCard.jsx:68-69 | the image starts on its photo |
| PetCard.CardImage.Failed | src/components/PetCard.jsx:73-80 | the first error swaps to the placeholder; later ones change nothing |
| Profile.FormOf | src/pages/Profile.jsx:47-55 | the form copies the user, blanks for absent fields |
| Profile.DiffFor | src/pages/Profile.jsx:59-61 | there is a diff exactly when there is a user |
| Profile.UntouchedFormSendsNothing | src/pages/Profile.jsx:59-90 | a form loaded from a user with trimmed names and avatar, left untouched, has no changes |
| Profile.AvatarSrc | src/pages/Profile.jsx:141-145 | the avatar always has a source, the user's resolved one when present |
| Profile.WaLink | src/pages/Profile.jsx:150-155 | a WhatsApp link exists exactly when the phone has digits, and dials them |
| Profile.BuildDiffPayload | src/pages/Profile.jsx:59-90 | the loop builds the diff `DiffFor` specifies |
| Profile.DiffOnlyChanges | src/pages/Profile.jsx:71-87 | the diff carries only fields that differ, including the username |
| Profile.DiffHasEveryChange | src/pages/Profile.jsx:71-87 | every field that differs is in the diff |
| Profile.Applied | src/pages/Profile.jsx:59-90 | applying a diff keeps the user's id; an empty diff changes nothing |
| Profile.DiffSettles | src/pages/Profile.jsx:59-90 | after applying the diff, the same form has no changes left |
| Profile.ValidationError | src/pages/Profile.jsx:98-112 | checks in order: a blank name or username, then a phone whose digits are present but not 10 to 15, then an avatar given that is not a valid http(s) URL, each with its message; no error exactly when all pass |
| Profile.ValidFormSendsValidPhone | src/pages/Profile.jsx:98-104 | a form that passes validation never sends a phone that is not 10 to 15 digits |
| Profile.SubmitDecision | src/pages/Profile.jsx:98-119 | a form failing any check (names, phone or avatar) is rejected; a valid one is sent exactly when signed in with changes |
| Profile.SentDiffIsValid | src/pages/Profile.jsx:98-119 | a PATCH always carries at least one change, and never an invalid phone |
| Profile.ProfilePage.constructor | src/pages/Profile.jsx:35-45 | the page starts idle with a blank form |
| Profile.ProfilePage.UserChanged | src/pages/Profile.jsx:47-55 | a user fills the form |
| Profile.ProfilePage.StartEditing | src/pages/Profile.jsx:175 | editing starts; nothing else changes |
| Profile.ProfilePage.Cancel | src/pages/Profile.jsx:186-200 | cancel restores the user's form and clears messages |
| Profile.ProfilePage.Submit | src/pages/Profile.jsx:92-121 | ignored while saving; otherwise follows `SubmitDecision` |
| Profile.ProfilePage.PatchSettled | src/pages/Profile.jsx:122-138 | success closes editing with a confirmation; failure shows the error text |
| Register.DashRuns | src/pages/Register.jsx:11 | no white space is left, and the text never grows |
| Register.DashRunsSplits | src/pages/Register.jsx:11 | a word followed by a run of white space: the word is kept in order and the whole run becomes exactly one "-" before the rest is dashed |
| Register.DashRunsKeepsPlain | src/pages/Register.jsx:11 | a word without white space is kept |
| Register.Seed | src/pages/Register.jsx:11-12 | a name's seed is non-empty and has no white space |
| Register.FriendIsItsOwnSeed | src/pages/Register.jsx:10 | the fallback "friend" is its own seed |
| Register.AvatarSeed | src/pages/Register.jsx:10-12 | the seed is made from the trimmed username when it is not blank, else the trimmed full name, else it is "friend"; it is never empty and has no white space |
| Register.PlainUsernameIsSeed | src/pages/Register.jsx:10-12 | a plain lower-case username is the seed itself |
| Register.DefaultAvatar | src/pages/Register.jsx:9-16 | the dicebear URL is the fixed prefix, the encoded seed and the fixed suffix, and the seed reads back from the middle |
| Register.ResolvedAvatar | src/pages/Register.jsx:46-47 | auto mode gives exactly `DefaultAvatar` of the form's username and full name; custom mode gives the trimmed URL |
| Register.Validate | src/pages/Register.jsx:49-72 | checks in order, each with its message: names, e-mail, phone digits, password length, confirmation, then the custom avatar URL; "" exactly when all pass |
| Register.Payload | src/pages/Register.jsx:86-95 | the payload sends the trimmed full name and username, the normalised e-mail, the password as typed, only the phone's digits, and an avatar only for a custom URL |
| Register.ValidFormPayload | src/pages/Register.jsx:49-95 | a valid form sends names, 10 to 15 digits, an 8 to 16 unit password, only an http(s) avatar |
| Register.RegisterPage.constructor | src/pages/Register.jsx:25-39 | the page starts idle |
| Register.RegisterPage.Submit | src/pages/Register.jsx:74-95 | ignored while submitting; an invalid form shows its message; a valid one sends `Payload` |
| Register.RegisterPage.Settled | src/pages/Register.jsx:97-108 | success returns to where the visitor came from; failure shows a message |
| Register.RegisterPage.AuthedChanged | src/pages/Register.jsx:116-118 | a signed-in visitor is sent home |
| Login.LoginCheck | src/pages/Login.jsx:29-36 | passes exactly for a valid normalised e-mail and a password of at least 8 units |
| Login.CredentialsFor | src/pages/Login.jsx:29-41 | the page hands over no identifier and the password as typed; the store has a body to post exactly when the normalised e-mail is not empty |
| Login.PageCredentialsArePosted | src/pages/Login.jsx:41 | `CredentialsFor` holds the page's credentials, and the store posts them unchanged |
| Login.LoginPage.constructor | src/pages/Login.jsx:10-13 | the page starts idle |
| Login.LoginPage.Submit | src/pages/Login.jsx:24-41 | ignored while submitting; a failing check shows its message; else sends the credentials |
| Login.LoginPage.Settled | src/pages/Login.jsx:42-48 | success returns to `from`; failure shows the store's message or a default |
| Login.LoginPage.AuthedChanged | src/pages/Login.jsx:20-22 | a signed-in visitor is sent home |
| ResetPassword.TokenOf | src/pages/ResetPassword.jsx:11 | the token is the query's, or "" |
| ResetPassword.ResetCheck | src/pages/ResetPassword.jsx:27-31 | checks in order, each with its message: a token, then 8 to 16 units, then a matching confirmation; passes exactly when all hold |
| ResetPassword.ResetPasswordPage.constructor | src/pages/ResetPassword.jsx:8-20 | the page reads its token once |
| ResetPassword.ResetPasswordPage.Submit | src/pages/ResetPassword.jsx:22-35 | ignored while submitting; a failed check shows its message; else sends token and password |
| ResetPassword.ResetPasswordPage.Settled | src/pages/ResetPassword.jsx:36-46 | success confirms and arms the way to /login; failure shows a non-empty message |
| ResetPassword.ResetPasswordPage.TimerFired | src/pages/ResetPassword.jsx:41 | the armed navigation happens |
| ResetPassword.AnsweredWithoutSuccessFails | src/pages/ResetPassword.jsx:38-45 | a server answer without `success` shows the default failure |
| ForgotPassword.ToRelativeIfSameOrigin | src/pages/ForgotPassword.jsx:8-20 | a link to this site becomes path, query and fragment; any other is kept |
| ForgotPassword.TokenFromLink | src/pages/ForgotPassword.jsx:63-66 | the link's token, or "" |
| ForgotPassword.InlineResetCheck | src/pages/ForgotPassword.jsx:88-94 | checks in order, each with its message: a token, then 8 to 128 units, then a matching confirmation; passes exactly when all hold |
| ForgotPassword.ResetMessage | src/pages/ForgotPassword.jsx:99-107 | never empty; the confirmation on success, the store's message on failure |
| ForgotPassword.InlineResetAgainstStore | src/pages/ForgotPassword.jsx:98-107 | with the store's `resetPassword`: confirmation, expiry hint or the thrown message |
| ForgotPassword.ForgotPasswordPage.constructor | src/pages/ForgotPassword.jsx:26-39 | the page starts empty |
| ForgotPassword.ForgotPasswordPage.Submit | src/pages/ForgotPassword.jsx:41-54 | ignored while submitting; clears everything shown; sends only a valid normalised e-mail |
| ForgotPassword.ForgotPasswordPage.Settled | src/pages/ForgotPassword.jsx:57-80 | a link is shown with its token; without one, the neutral status |
| ForgotPassword.ForgotPasswordPage.InlineReset | src/pages/ForgotPassword.jsx:83-98 | ignored while resetting; a failed check shows its message; else sends token and password |
| ForgotPassword.ForgotPasswordPage.InlineResetSettled | src/pages/ForgotPassword.jsx:99-112 | the message follows `ResetMessage` |
| BrowsePets.ViewAsWritten | src/pages/BrowsePets.jsx:13 | as written, `hasMore` and `error` are always undefined |
| BrowsePets.View | src/pages/BrowsePets.jsx:13 | corrected, `hasMore` is the list's `hasNext` |
| BrowsePets.HasActiveFilters | src/pages/BrowsePets.jsx:68 | nothing is active exactly when there are no filters and the sort is "newest" |
| BrowsePets.IsEmpty | src/pages/BrowsePets.jsx:67 | "nothing found" needs an empty list, and never shows while loading or with an error |
| BrowsePets.IsEmptyAsWritten | src/pages/BrowsePets.jsx:67 | "nothing found" shows exactly for an empty list that is not loading |
| BrowsePets.FirstPage | src/pages/BrowsePets.jsx:24-31 | the refetch asks for page 1 of nine, replacing, with the filters and sort |
| BrowsePets.LoadMoreRequest | src/pages/BrowsePets.jsx:52-62 | a request exactly when not loading and more is known; it asks for the next page to append |
| BrowsePets.LoadMoreNeverRequestsAsWritten | src/pages/BrowsePets.jsx:13-53 | as written, "load more" asks for nothing even when the server has a next page |
| BrowsePets.LoadMoreFollowsHasNext | src/pages/BrowsePets.jsx:52-62 | corrected, "load more" asks for the next page exactly when the server has one |
| BrowsePets.BrowsePetsPage.constructor | src/pages/BrowsePets.jsx:13-18 | no filters, newest first, page 1 |
| BrowsePets.BrowsePetsPage.Effect | src/pages/BrowsePets.jsx:21-39 | a fetch of page 1 exactly when filters or sort differ from the last run |
| BrowsePets.BrowsePetsPage.RefetchSettled | src/pages/BrowsePets.jsx:32 | a successful refetch returns to page 1 |
| BrowsePets.BrowsePetsPage.SetFilters | src/pages/BrowsePets.jsx:14 | the filters are replaced |
| BrowsePets.BrowsePetsPage.SetSort | src/pages/BrowsePets.jsx:15 | the sort is replaced |
| BrowsePets.BrowsePetsPage.ApplyFilters | src/pages/BrowsePets.jsx:41-45 | the same filters, and the panel closes |
| BrowsePets.BrowsePetsPage.ClearFilters | src/pages/BrowsePets.jsx:47-50 | nothing is active any more |
| BrowsePets.BrowsePetsPage.LoadMore | src/pages/BrowsePets.jsx:52-62 | the request is `LoadMoreRequest` |
| BrowsePets.BrowsePetsPage.LoadMoreSettled | src/pages/BrowsePets.jsx:63 | the page moves on only on success |
| BrowsePets.ApplyThenRender | src/pages/BrowsePets.jsx:41-45 | "apply" alone does not refetch |
| BrowsePets.ClearThenRefetch | src/pages/BrowsePets.jsx:47-50 | clearing fetches page 1 of the unfiltered newest list |
| RequireAuth.FromPath | src/components/layout/RequireAuth.jsx:25 | the return path is the path, then the query and the fragment |
| RequireAuth.Decide | src/components/layout/RequireAuth.jsx:6-30 | waits while loading, renders when signed in, otherwise redirects with the return path |
| RequireAuth.ReturnTo | src/pages/Login.jsx:17 | `from` when truthy, else "/" |
| RequireAuth.RedirectComesBack | src/components/layout/RequireAuth.jsx:23-27 | after signing in, the visitor returns to the exact page the guard stopped |
| Js.DigitsOnly | src/pages/PetDetails.jsx:51 | only digits are kept |
| Js.DigitsOnlyIdempotent | src/pages/PetDetails.jsx:51 | filtering twice is filtering once |
| Js.DigitsOnlyKeepsDigits | src/pages/PetDetails.jsx:51 | a string is unchanged exactly when it is all digits |
| Js.TrimIsSlice | src/pages/PetDetails.jsx:38 | `trim` gives a slice of its input with only white space removed at both ends, and the result has none at either end |
| Js.TrimIdempotent | src/pages/PetDetails.jsx:38 | trimming twice is trimming once |
| Js.IsHttpUrlIgnoresCase | src/pages/PetDetails.jsx:40 | the http(s) test holds exactly when the lower-cased text starts with "http://" or "https://" |
| Js.ValidEmailMatchesPattern | src/pages/Login.jsx:30 | the e-mail check is exactly the pattern `^\S+@\S+\.\S+$` |
| Js.NormalizeEmailFixed | src/pages/Login.jsx:29 | `NormalizeEmail` gives an e-mail that is trimmed, lower-case (ASCII) and normalises to itself |
| Js.JsLength | src/pages/Login.jsx:34 | a string's UTF-16 length is between one and two units per character |

## Left out

- I/O and its timing are not modelled. HTTP, the socket transport, `localStorage` persistence across reloads and React rendering are replaced by parameters and fields. Requests that overlap in time are modelled only where the source serialises them: the single refresh in api.js.
- `Socket.SocketClient.OnConnected` and `OnDropped` stand for the transport's events; they have no source of their own.
- JWT decoding, `new URL`, `Number(...)`, `encodeURIComponent`, `URL.createObjectURL` and `Date` parsing are inputs. Timestamps are integers.
- Timers are armed fields, and a method stands for each firing; the delays themselves are not modelled.
- `JSON.stringify` key order in the browse page's dependency key is not modelled; map equality stands in. `AbortController` cancellation is not modelled.
- `useCountUp`, Navbar, App, Footer, Home, the showcase components, `src/lib/http.js`, `ProtectedRoute`, `PetFilters` and the ui components are not part of this model.
- The `catch` blocks of the Register, Login, ResetPassword, NewPet and ForgotPassword pages are unreachable, because the stores catch every error and return a result; they are not modelled.
- ForgotPassword: the store's `forgotPassword` never returns `link`, so with this store the page always shows the neutral status. `ForgotPasswordPage.Settled` therefore takes the link as an input. The `resp.success` branch is unreachable and not modelled.
- BrowsePets: `fetchList` ignores `replace: false` and always replaces the list, so "load more" would replace rather than append. The store's behaviour is modelled in `Pets.PetsStore.FetchList`.
- NewPet.AppendFields: the source is a straight-line chain of conditional `append` calls. The model is a loop over a table of the twelve fields; the entries and their order are the same.
- EditPet: `update()` in the pets store is not part of this model; the PATCH result is an input. The reload after a save is modelled as its reply.
- Profile: the `loadMe` after the PATCH is not modelled; the page's own state after the PATCH is.
- EditPet.LoadedData: an `ageMonths` that is already a string is not modelled; ages are integers.
- PetDetails: `copyLink` (clipboard) is not modelled. The "â€”" placeholder text is kept byte for byte as written.
- Chat.ChatView.OnRead: the source overwrites the read time with each event, so an earlier read time arriving later moves the marker back. The model does the same; `Chat.ReadMarkerMovesBack` shows it.
- Chat.ChatView.SendMessage: the source sets `typing` to false on send but does not cancel the pending typing timer, so the timer stays armed and still fires later. The model does the same.
- EditPetPage (EditPet.EditPetPage): the page keeps one pending navigation. The source can have a save timer and a mark-as-adopted timer pending at once, and both would navigate.
- Case mapping covers ASCII only. `Js.ToLower` and `Js.ToUpper` map the letters A-Z and a-z; JavaScript's `toLowerCase` and `toUpperCase` map all of Unicode ("É" to "é", "ſ" to "S"). Each member below relies on them and so says nothing about other letters:
- LoginBodyFor: the e-mail, and an identifier holding "@", are lower-cased in ASCII only.
- LoginBodyNormalised: "lower-case" means fixed under the ASCII mapping.
- NormalizeEmailFixed: "lower-case" means fixed under the ASCII mapping.
- AvatarSeed: the seed is lower-cased in ASCII only.
- PlainUsernameIsSeed: "lower-case" means fixed under the ASCII mapping.
- Payload: the e-mail is lower-cased in ASCII only.
- StatusLabel: the status is upper-cased in ASCII only.
- Submit (ForgotPassword.ForgotPasswordPage.Submit): the e-mail is lower-cased in ASCII only.
- PathnameOf: the pathname is lower-cased in ASCII only.
- Submit (Login.LoginPage.Submit): the e-mail it sends through `CredentialsFor` is `NormalizeEmail`, lower-cased in ASCII only.
- Submit (Register.RegisterPage.Submit): it sends `Payload`, whose e-mail is lower-cased in ASCII only.
- The session and pet-creation bugs listed under "## Findings" are modelled both ways. The functions and lemmas named there model the code as written. The store and page classes use the corrected behaviour, so their contracts describe the intended program, not the code. Each is listed below:
- StorageAfterLoadMe: a failed `/users/me` clears with `ClearSession`; src/store/auth.js:50-52 removes only `token` and `refreshToken` and keeps `accessToken` (see `ClearSessionAsWritten`).
- SettleLoadMe (Auth.AuthStore.SettleLoadMe): the same corrected clear on a failed `/users/me`.
- LoadMe (Auth.AuthStore.LoadMe): inherits the corrected clear through `StorageAfterLoadMe`.
- AcceptReply (Auth.AuthStore.AcceptReply): its `loadMe` fallback inherits the corrected clear.
- Login (Auth.AuthStore.Login): its `loadMe` fallback inherits the corrected clear through `AcceptReply`.
- Register (Auth.AuthStore.Register): its `loadMe` fallback inherits the corrected clear through `AcceptReply`.
- Refresh (Auth.AuthStore.Refresh): a thrown refresh clears with `ClearSession`; src/store/auth.js:170-171 keeps `accessToken`.
- Logout (Auth.AuthStore.Logout): clears with `ClearSession`; src/store/auth.js:186-187 removes only `token` and `refreshToken`.
- Create (Pets.PetsStore.Create): posts `CreateForm`, which sends a `FormData` as it is; src/store/pets.js:131-138 posts `CreateFormAsWritten`, an empty form for a `FormData`.
- Submit (NewPet.NewPetPage.Submit): the posted form is the page's `FormData`, through the corrected create; as written the server receives an empty form (see `NewPet.NewPetPostsNothingAsWritten`).
- `loadMe`'s `GET /users/me` goes through the api client, so a 401 on it refreshes the tokens and replays the request before `loadMe` sees the answer. The members below take the request's final outcome as one input and do not compose that refresh. A refresh inside the request rewrites `accessToken`, `token`, possibly `refreshToken` and the header (as `Api.StorageAfterRefresh` states), or removes all three keys when it fails. Their storage and header clauses describe a request that did not refresh:
- StorageAfterLoadMe: an answered `/users/me` is stated to leave storage unchanged.
- SettleLoadMe (Auth.AuthStore.SettleLoadMe): an answer keeps storage and the header set from the old token.
- LoadMe (Auth.AuthStore.LoadMe): as `StorageAfterLoadMe` and `SettleLoadMe`.
- AcceptReply (Auth.AuthStore.AcceptReply): its `loadMe` fallback, as `LoadMe`.
- Login (Auth.AuthStore.Login): its `loadMe` fallback, through `AcceptReply`.
- Register (Auth.AuthStore.Register): its `loadMe` fallback, through `AcceptReply`.

## Findings

| source | as written | input that shows it | evidently intended | confidence | as-written member | corrected member |
|---|---|---|---|---|---|---|
| src/store/auth.js:180-190 | logout and a failed `loadMe` remove only `token` and `refreshToken`, but the api client reads `accessToken` first | storage `{accessToken: "A", token: "A"}`, then logout: the api client still sends `Bearer A` | clearing the session removes `accessToken` too, as `clearAuthTokens` does | not executed | Auth.ClearSessionAsWrittenKeepsBearer | Auth.LogoutLeavesNoToken |
| src/store/pets.js:129-138 | `create` rebuilds the form from `Object.entries(payload)`, which is empty for a `FormData` | the new-pet page posts a `FormData` with "name" = "Rex": the server receives an empty form | a `FormData` is posted as it is | not executed | Pets.FormDataPostedEmptyAsWritten | NewPet.NewPetPostsEveryField |
| src/pages/BrowsePets.jsx:13 | the page reads `hasMore` and `error` from the pets store, which defines neither | a list whose meta has `hasNext: true`: "load more" does nothing | `hasMore` is the list's `meta.hasNext` | not executed | BrowsePets.LoadMoreNeverRequestsAsWritten | BrowsePets.LoadMoreFollowsHasNext |
| src/pages/PetDetails.jsx:103 | the page reads `error` from the pets store, which defines none, and `fetchOne` only sets `current` to null when the request throws | `GET /pets/<id>` throws: the page shows "Pet not found." instead of the error box | a failed fetch shows the error box | not executed | PetDetails.FailedFetchShowsNotFoundAsWritten | PetDetails.FailedFetchShowsError |
