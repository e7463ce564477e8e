# snowhub client and upload relay, modelled in Dafny

The model covers the core of snowhub, a React photo-sharing client, and the Cloudflare Worker that uploads media to an R2 bucket for it.

- **Upload relay** (`upload_relay.dfy`). The worker's `fetch` handler has five routes:
  - `OPTIONS` pre-flight;
  - `POST /upload`, which checks the key, then the content type, then the size;
  - `DELETE /delete`;
  - `GET /file`;
  - `GET /health`, plus the 404 fallback.

  It is a specification function, `Handle`, over the bucket. The `Relay` class holds the bucket, and its `Fetch` method is proved equal to `Handle`.
- **Upload client** (`r2_upload.dfy`). Covers:
  - the upload guards;
  - the `prefix_YYYYMMDD_HHmmss_random.ext` filename and the timestamp's round trip;
  - the upload and delete URLs;
  - resolving a stored name to a public URL;
  - the MIME-type allow-list.
- **Browser store** (`storage.dfy`). `localStorage` is a class over a string map.
- **Auth hook** (`auth_hook.dfy`). `useAuth`'s check, login, logout and `requireAuth`.
- **Sign-up, login and sign-in on the store** (`auth_session.dfy`). The fallback chains the sign-up and login handlers use to decide what they write to the store.
- **Forms** (`forms.dfy`, `patterns.dfy`, `signup.dfy`, `login.dfy`, `create_post.dfy`).
  - Each form is a class over its field and error dictionaries. Each validation is a pure function, and the class's `ValidateForm` is proved against it.
  - Each submit handler is a method whose result is stated for every outcome of the backend call.
  - The regular expressions become character predicates.
- **API client** (`api.dfy`). Request headers, response handling, the list URLs and the create/update body choice.
- **Pages** (`js.dfy`, `post_page.dfy`, `app.dfy`, `user_profile.dfy`).
  - Backend records as loosely shaped JSON values, with JavaScript's truthiness, `||`, `??` and `?.`.
  - How the feed, the post page and the profile page normalise those records and update their state.
- **Shared helpers** (`common.dfy`). Option and Result types and string utilities.

Nothing here talks to a network, a clock or a random source. Each of those is a parameter:
- the relay's answer;
- the date fields;
- the `Math.random().toString(36)` string;
- the backend's reply or failure;
- the user's answer to a confirm dialog.

## Model

| member | source | states |
|---|---|---|
| Storage.LocalStorage.GetItem | src/hooks/useAuth.js:21-24 | `getItem` gives the stored string exactly when the key is present, and none (`null`) otherwise |
| Storage.LocalStorage.SetItem | src/hooks/useAuth.js:55-59 | `setItem` makes the key map to the value and changes no other key |
| Storage.LocalStorage.RemoveItem | src/hooks/useAuth.js:64-68 | `removeItem` deletes exactly that key; removing an absent key changes nothing |
| AuthHook.CurrentUser | src/hooks/useAuth.js:26-36 | a user exists exactly when the stored token is non-empty, and its id, username and email are the stored values (possibly `null`) |
| AuthHook.AuthState.constructor | src/hooks/useAuth.js:9-10 | the hook starts unauthenticated with no user |
| AuthHook.AuthState.CheckAuthStatus | src/hooks/useAuth.js:20-37 | afterwards `isAuthenticated` is whether the store holds a non-empty token, and `user` is the stored triple exactly then, else none |
| AuthHook.AuthState.RequireAuth | src/hooks/useAuth.js:39-52 | unauthenticated: returns false, never runs the callback, shows "<message> Go to login page?" (default message when none is passed), navigates only if confirmed; authenticated: returns true, asks nothing, runs the callback exactly when one is given |
| AuthHook.LoginWrites | src/hooks/useAuth.js:54-59 | the five `setItem` calls of `login` in order, with missing user fields written as `''` |
| AuthHook.AuthState.Login | src/hooks/useAuth.js:54-61 | the store is the old store after the five writes; the state is then re-read, so the user is authenticated exactly when the written token string is non-empty |
| AuthHook.LoginEffect | src/hooks/useAuth.js:54-61 | after the writes the five session keys hold the given values (missing fields `''`), the user read back is that data, and every other key keeps its presence and value |
| AuthHook.LoginTokenEdgeCases | src/hooks/useAuth.js:55 | an `undefined` token is stored as the string "undefined" and counts as a session; a `''` token does not, although `isAuthenticated` is written "true" |
| AuthHook.AuthState.Logout | src/hooks/useAuth.js:63-71 | the store loses exactly the five session keys; the state ends unauthenticated with no user, which is also what re-reading the store gives |
| AuthHook.LogoutEffect | src/hooks/useAuth.js:63-71 | after logout no session key is present, the store reads back as no session and no user, and other keys are untouched |
| AuthSession.TokenOf | src/components/Signup.jsx:96 | the token is `token`, else `accessToken`, else `data.token`, and it is truthy iff one of them is |
| AuthSession.SessionWritesEffect | src/components/Signup.jsx:99-108 | token and flag are written only with a truthy token (otherwise they keep their old values); email, username and id are always written; no other key changes |
| AuthSession.StoreSession | src/components/Signup.jsx:99-108 | the store after the handler's `setItem` calls is the old store with the session writes applied in order |
| Patterns.EmailPatternIff | src/components/Signup.jsx:51 | the character-level email predicate holds exactly when `/\S+@\S+\.\S+/` (unanchored) matches somewhere in the string |
| Patterns.EmailExamples | src/components/Login.jsx:58 | "a@b.co" and text around it pass; "a@b." and "a @b.c" fail |
| Patterns.PasswordSingleLine | src/components/Signup.jsx:59 | on a single line the lookahead pattern matches exactly when the password has a lower-case letter, an upper-case letter and a digit |
| Patterns.PasswordNeedsAllClasses | src/components/Signup.jsx:59 | a matching password always contains all three classes |
| Patterns.PasswordClassesMustShareALine | src/components/Signup.jsx:59 | because `.` stops at line breaks, "abc\nABC123" is rejected although it contains all three classes |
| Forms.ClearError | src/components/Signup.jsx:30-35 | typing into a field blanks its shown error only when one is shown; every other entry is unchanged |
| Forms.PutError | src/components/Signup.jsx:38-75 | a failing check sets its field's message; a passing one leaves the dictionary as it was; other fields are untouched |
| Forms.EmailError | src/components/Signup.jsx:49-53 | empty gives "Email is required", a non-matching address "Email is invalid", and no message exactly when the address matches |
| Forms.CollectLookup | src/components/Signup.jsx:38-74 | with one check per field, a field has a message exactly when its check failed, and it is that check's message |
| Forms.CollectEmpty | src/components/Signup.jsx:74 | the error dictionary is empty exactly when every check passed |
| Signup.UsernameError | src/components/Signup.jsx:41-47 | required, then at least 3 characters, then only letters, digits and `_`; no message exactly when all hold |
| Signup.PasswordError | src/components/Signup.jsx:55-61 | required, then at least 8 characters, then the lookahead pattern; no message exactly when both hold |
| Signup.ConfirmError | src/components/Signup.jsx:63-67 | required, then equal to the password; no message exactly when both hold |
| Signup.TermsError | src/components/Signup.jsx:69-71 | a message exactly when the terms are not accepted |
| Signup.SignupErrorsPerField | src/components/Signup.jsx:38-75 | each of the five fields has a message exactly when its own check fails, and it is that check's message |
| Signup.SignupErrorsEmpty | src/components/Signup.jsx:74 | the form is valid exactly when all five checks pass |
| Signup.SignupErrorsOnlyFields | src/components/Signup.jsx:38-75 | validation never produces the `api` error |
| Signup.AcceptedForm | src/components/Signup.jsx:38-75 | an accepted form has a valid username, a matching email, a strong password equal to its confirmation, and accepted terms |
| Signup.SignupStoredValues | src/components/Signup.jsx:96-107 | after a registration the store holds the reply's email, else the form's; the username, else the name, else the form's; the id, else `_id`, else `''` |
| Signup.SignupForm.constructor | src/components/Signup.jsx:11-21 | four empty fields, no errors, terms not accepted, not loading |
| Signup.SignupForm.HandleChange | src/components/Signup.jsx:23-36 | the field takes the value and its shown error is blanked; nothing else changes |
| Signup.SignupForm.HandleTermsChange | src/components/Signup.jsx:259-264 | terms take the checkbox state and the terms error is blanked |
| Signup.SignupForm.ValidateForm | src/components/Signup.jsx:38-75 | the errors become the validation result, and the answer is whether it is empty |
| Signup.SignupForm.HandleSubmit | src/components/Signup.jsx:77-125 | an invalid form sends nothing and shows its errors; a valid one sends username, email and password, on success performs the session writes, on failure shows the error's message or "Registration failed. Please try again."; loading ends |
| Login.PasswordError | src/components/Login.jsx:62-64 | only emptiness is checked: no message exactly when the password is non-empty |
| Login.LoginErrorsPerField | src/components/Login.jsx:53-68 | email and password each have a message exactly when their check fails, there is never an `api` error, and the form is valid exactly when the email matches and the password is non-empty |
| Login.ShortPasswordAccepted | src/components/Login.jsx:62-64 | a one-character password with a valid email is accepted |
| Login.BeforeAt | src/components/Login.jsx:152 | `split('@')[0]` is the longest `@`-free prefix, and it ends at the first `@` when there is one |
| Login.LoginUsernameExamples | src/components/Login.jsx:152 | the stored username falls back from username to name to the email's local part to "User", and an empty local part falls through to "User" |
| Login.LoginStoredValues | src/components/Login.jsx:142-154 | after a login the store holds the reply's email (else the form's), the username fallback chain, and the id, else `_id`, else `''` |
| Login.SocialStoredValues | src/components/Login.jsx:83-95 | after social sign-in the store holds the reply's email, else the provider's; the reply's username, else the provider's; the reply's id, else `_id`, else the provider's id; a provider field that is `null` (src/services/socialAuth.js:16-24) is stored as "null" |
| Login.SocialAuthCall | src/components/Login.jsx:73-80 | the request is sent exactly when the API object has a `socialAuth` member, carrying the sign-in result's fields, and the backend's outcome comes back; otherwise the call fails with the `TypeError` of calling `undefined` |
| Login.SocialAuthAsWritten | src/components/Login.jsx:73 | with the members api.js gives `authAPI`, no request ever goes out and every call fails with "authAPI.socialAuth is not a function" |
| Login.SocialAuthIntended | src/components/Login.jsx:73-80 | once `socialAuth` is added to those members, the provider's data reaches the backend and its outcome is what the handler sees |
| Login.HandleSocialAuthSuccess | src/components/Login.jsx:70-106 | a request goes out exactly when the API object has `socialAuth`, and it carries the sign-in result's fields; without that member the call throws and the toast shows "authAPI.socialAuth is not a function" with nothing stored; with it, an answer performs the social writes in order and a failure writes nothing and yields the error's message or "Failed to authenticate with backend" |
| Login.LoginForm.constructor | src/components/Login.jsx:12-19 | two empty fields, no errors, neither spinner running |
| Login.LoginForm.HandleChange | src/components/Login.jsx:38-51 | the field takes the value and its shown error is blanked |
| Login.LoginForm.ValidateForm | src/components/Login.jsx:53-68 | the errors become the validation result, and the answer is whether it is empty |
| Login.LoginForm.HandleSubmit | src/components/Login.jsx:125-171 | an invalid form sends nothing; a valid one sends the credentials, on success performs the login writes, on failure sets `api` to the message or "Login failed. Please check your credentials and try again."; loading ends |
| Login.LoginForm.HandleGoogleSignIn | src/components/Login.jsx:108-122 | errors are cleared and the social spinner ends; a failed sign-in sends nothing and changes no storage; a successful one continues as HandleSocialAuthSuccess, so with the members `authAPI` has it sends nothing, stores nothing and ends in the `TypeError` toast |
| R2Upload.TimestampShape | src/utils/r2Upload.js:28-33 | for a four-digit year the timestamp has 15 characters, `_` at index 8 and digits everywhere else |
| R2Upload.TimestampPieces | src/utils/r2Upload.js:28-33 | for a four-digit year the timestamp is the year's four digits and the two-digit month (one-based), day, hours, minutes and seconds, each piece reading back to its field |
| R2Upload.TimestampRoundTrip | src/utils/r2Upload.js:28-33 | reading the `YYYYMMDD_HHmmss` timestamp back gives the same date |
| R2Upload.ExtensionAfterLastDot | src/utils/r2Upload.js:24 | the extension is the lower-cased text after the last `.`, or the whole lower-cased name when there is no dot, and it contains no `.` |
| R2Upload.RandomSuffix | src/utils/r2Upload.js:36 | `substring(2, 10)` gives at most eight characters, all base-36 digits for a string shaped like `Math.random().toString(36)` |
| R2Upload.WithTrailingSlash | src/utils/r2Upload.js:52 | the result ends in `/`, extends the base, and equals it when it already ends in `/` |
| R2Upload.UploadSendsIffGuardsPass | src/utils/r2Upload.js:12-49 | a request is sent exactly when there is a file of at most 10 MiB and an upload URL; each failed guard gives its own error |
| R2Upload.UploadNaming | src/utils/r2Upload.js:24-70 | success exactly when the request was sent and answered `ok`; the result is `prefix_timestamp_random.ext`, posted with the file's MIME type to the upload URL for `uploads/` + that name |
| R2Upload.UploadUrlShape | src/utils/r2Upload.js:52-53 | a `/` is inserted between the base and `upload?key=` + path only when the base does not already end in one |
| R2Upload.ResolveCases | src/utils/r2Upload.js:78-100 | no name gives null; no public URL, or an absolute URL, returns the name unchanged; otherwise `public/uploads/` + the name with one leading `uploads/` removed |
| R2Upload.ResolveIgnoresOneNamespace | src/utils/r2Upload.js:96 | a name with one redundant `uploads/` resolves like the bare name |
| R2Upload.ResolveStripsOnlyOnce | src/utils/r2Upload.js:96 | `uploads/uploads/x` keeps its second `uploads/` |
| R2Upload.ResolveRelative | src/utils/r2Upload.js:96-99 | a relative name without the prefix resolves to `public/uploads/name` |
| R2Upload.ResolveUploadedFilename | src/utils/r2Upload.js:39-42 | a filename the uploader produced resolves to the public URL of the exact key the relay was sent |
| R2Upload.FirstSegment | src/utils/r2Upload.js:128 | `split('/')[0]` is the longest `/`-free prefix and stops at the first `/` |
| R2Upload.AnyEntryMatches | src/utils/r2Upload.js:126-132 | `some` holds exactly when one entry of the list matches |
| R2Upload.ValidateFileType | src/utils/r2Upload.js:123-133 | no file is rejected, and a file passes exactly when some entry matches; an empty list rejects everything |
| R2Upload.WildcardEntry | src/utils/r2Upload.js:127-130 | a `seg/*` entry accepts exactly the types that start `seg/` |
| R2Upload.ValidateDefaultMediaTypes | src/utils/r2Upload.js:123 | with the default list a file passes exactly when its type starts `image/` or `video/`; the name plays no part |
| R2Upload.DeleteKey | src/utils/r2Upload.js:153 | the key always starts `uploads/`, is the name itself when it already does, and is `uploads/` + name otherwise |
| R2Upload.DeleteKeyIdempotent | src/utils/r2Upload.js:153 | prefixing an already-prefixed key changes nothing |
| R2Upload.DeleteRequest | src/utils/r2Upload.js:140-163 | no name or no URL sends nothing; otherwise one DELETE to `base/delete?key=` + the namespaced key, succeeding exactly when the relay answered `ok` |
| UploadRelay.CorsCarried | CLOUDFLARE_WORKER_EXAMPLE.js:24-29 | whatever headers a response starts from, the four CORS headers end up with their configured values |
| UploadRelay.CopyHeaders | CLOUDFLARE_WORKER_EXAMPLE.js:295-297 | the `forEach` copy loop yields the headers with every entry set in order, later entries winning |
| UploadRelay.Relay.constructor | CLOUDFLARE_WORKER_EXAMPLE.js:19-20 | the relay fronts the given bucket with the given configuration |
| UploadRelay.Relay.Fetch | CLOUDFLARE_WORKER_EXAMPLE.js:20-354 | the response and the new bucket are those of the decision table `Handle` |
| UploadRelay.OptionsPreflight | CLOUDFLARE_WORKER_EXAMPLE.js:32-36 | OPTIONS on any path answers 200 with no body and the CORS headers, and leaves the bucket alone |
| UploadRelay.UploadCheckOrder | CLOUDFLARE_WORKER_EXAMPLE.js:41-176 | a missing key gives 400, then a bad key shape 400, then a disallowed type 400, then a declared length over the limit 413, then a storage fault 500; each leaves the bucket unchanged; otherwise the object is stored under the key with its content type and the reply is 200 |
| UploadRelay.NoLengthNever413 | CLOUDFLARE_WORKER_EXAMPLE.js:112-115 | a request without a `Content-Length` is never refused as too large |
| UploadRelay.SizeLimit | CLOUDFLARE_WORKER_EXAMPLE.js:113-115 | the default limit is 10 MiB, and a length equal to the limit is accepted |
| UploadRelay.DeleteSemantics | CLOUDFLARE_WORKER_EXAMPLE.js:181-259 | the same key checks apply; on success exactly that key is removed, present or not, and the reply is 200 |
| UploadRelay.FileServing | CLOUDFLARE_WORKER_EXAMPLE.js:267-310 | only a present key is checked, not its shape (400 without one, 500 when the bucket call throws); a stored object is served with its bytes, its stored content type, its etag and a one-year public cache policy; a missing one gives 404; the bucket never changes |
| UploadRelay.UploadThenFetch | CLOUDFLARE_WORKER_EXAMPLE.js:132-143 | after a successful upload, fetching the same key returns the uploaded bytes with the uploaded content type |
| UploadRelay.HealthAndFallback | CLOUDFLARE_WORKER_EXAMPLE.js:315-353 | GET `/health` answers 200; every other path and method pair answers 404; neither changes the bucket |
| UploadRelay.WritesStayInNamespace | CLOUDFLARE_WORKER_EXAMPLE.js:63 | the bucket changes only at a key that starts `uploads/` and contains no `..` |
| UploadRelay.SafeKeysPreserved | CLOUDFLARE_WORKER_EXAMPLE.js:63 | a bucket whose keys are all inside the namespace stays so after any request |
| UploadRelay.CorsOnEveryResponse | CLOUDFLARE_WORKER_EXAMPLE.js:24-354 | every response, errors included, carries `Access-Control-Allow-Origin` with the configured origin or `*`, and a JSON body reports `success` exactly when the status is 200 |
| CreatePost.MediaError | src/components/CreatePost.jsx:46-55 | a type outside `image/*`, `video/*` gives the invalid-file message; otherwise over 10 MiB gives the size message; no message exactly when both checks pass |
| CreatePost.MediaAcceptance | src/components/CreatePost.jsx:46-55 | a picked file is accepted exactly when its type starts `image/` or `video/` and it is at most 10 MiB |
| CreatePost.TitleError | src/components/CreatePost.jsx:80-86 | blank after trimming is required; under 3 characters too short; over 100 too long; so a title of exactly 100 characters passes despite the "less than 100" wording |
| CreatePost.ContentError | src/components/CreatePost.jsx:88-92 | blank after trimming is required; under 10 characters too short; no message exactly when neither applies |
| CreatePost.ImageError | src/components/CreatePost.jsx:94-96 | the image message appears exactly when there is neither a file nor a preview |
| CreatePost.PostErrorsPerField | src/components/CreatePost.jsx:77-100 | title, content and image each have a message exactly when their own check fails; tag, location and `api` never do |
| CreatePost.PostErrorsEmpty | src/components/CreatePost.jsx:99 | the form is valid exactly when title, content and image checks all pass |
| CreatePost.RawLengthCounts | src/components/CreatePost.jsx:80-82 | trimming decides only emptiness: "  a" passes the length check on its untrimmed length |
| CreatePost.CreatePostForm.constructor | src/components/CreatePost.jsx:14-24 | four empty fields, no preview, no file, not loading, no errors |
| CreatePost.CreatePostForm.HandleChange | src/components/CreatePost.jsx:26-36 | the field takes the value and its shown error is blanked |
| CreatePost.CreatePostForm.HandleImageChange | src/components/CreatePost.jsx:42-67 | no file changes nothing; a rejected file sets the image message and keeps the old file; an accepted one becomes the file and blanks the image message |
| CreatePost.CreatePostForm.OnPreviewLoaded | src/components/CreatePost.jsx:62-64 | the preview becomes the data URL the reader produced |
| CreatePost.CreatePostForm.HandleRemoveImage | src/components/CreatePost.jsx:69-75 | file and preview are cleared, nothing else changes |
| CreatePost.CreatePostForm.ValidateForm | src/components/CreatePost.jsx:77-100 | the errors become the validation result, and the answer is whether it is empty |
| CreatePost.CreatePostForm.UploadImage | src/components/CreatePost.jsx:113-124 | without a file nothing is uploaded; with one it is uploaded under the stored user id, else "post"; the outcome is the uploaded name or the upload's error message |
| CreatePost.CreatePostForm.Send | src/components/CreatePost.jsx:109-148 | a failed upload makes no create call and sets `api` to its message; otherwise one create call with the payload, then no errors, or `api` set to the failure's message or "Failed to create post. Please try again."; loading ends |
| CreatePost.CreatePostForm.HandleSubmit | src/components/CreatePost.jsx:102-149 | an invalid form makes no call, keeps its messages and loading state; a valid one proceeds as Send |
| CreatePost.CreatePostForm.HandleCancel | src/components/CreatePost.jsx:151-159 | asks exactly when there is a preview, a title or a description, and leaves unless the question was declined |
| PostPage.CountOf | src/components/PostPage.jsx:21-33 | a numeric count wins even at 0, then an array's length, then a truthy value, else 0, so the shown count is never `undefined`, `null` or `''` |
| PostPage.NormalizePost | src/components/PostPage.jsx:10-13 | a falsy record normalises to nothing, and any other record to something |
| PostPage.NormalizedFields | src/components/PostPage.jsx:15-36 | id is `_id` when truthy, else `id`; author is the username, else the name, else the raw author; avatar is the author's, else the record's; likes and comments follow CountOf on `likeCount`/`likes` and `commentCount`/`comments`; the remaining fields are copied |
| PostPage.NormalizedExamples | src/components/PostPage.jsx:19-25 | a plain-string author is kept; `likeCount: 0` shows 0 beside a two-element `likes`; without `likeCount` the array's length 2 is shown |
| PostPage.FindFallback | src/components/PostPage.jsx:45-47 | none exactly when no sample's id matches the route's as strings; otherwise the first matching sample |
| PostPage.Page.constructor | src/components/PostPage.jsx:42-43 | no post and loading |
| PostPage.Page.Start | src/components/PostPage.jsx:50-59 | mounts; without a route id stops loading and requests nothing; otherwise requests once and is loading |
| PostPage.Page.Finish | src/components/PostPage.jsx:60-81 | once unmounted nothing changes; otherwise an answer shows its normalised record or the fallback; a failure shows the fallback, or nothing with an error toast; loading ends |
| PostPage.Page.Cleanup | src/components/PostPage.jsx:86-88 | clears the mounted flag and nothing else |
| App.ExtractRecords | src/App.jsx:32 | the records array is found for every response except `null` and `undefined`, which make the chain throw |
| App.ExtractOrder | src/App.jsx:32 | the first truthy of `data.posts`, `posts`, `data`, the response itself, then `[]`, is what is taken |
| App.TransformPost | src/App.jsx:35-46 | a nullish record throws; otherwise likes and comments are truthy or exactly 0 |
| App.TransformItems | src/App.jsx:35-46 | mapping succeeds exactly when no record is nullish, and then gives one transformed post per record, in order |
| App.ZeroLikeCountDiffers | src/App.jsx:41 | for `likeCount: 0` beside a two-element `likes` the feed shows 2 where the post page shows 0 |
| App.Home.constructor | src/App.jsx:18-19 | the feed starts with the samples and not loading |
| App.Home.LoadPosts | src/App.jsx:25-58 | a usable response shows the fetched posts followed by all samples; a failure, or records that cannot be mapped, shows the samples alone; loading ends |
| App.FeedOrder | src/App.jsx:49 | the feed holds every fetched post first, in order, then every sample, in order |
| App.Shell.constructor | src/App.jsx:81 | no post is selected at first |
| App.Shell.HandlePostClick | src/App.jsx:83-85 | the clicked post becomes the selected one |
| App.Shell.HandleCloseDetail | src/App.jsx:87-89 | nothing is selected afterwards |
| UserProfile.IsOwnProfile | src/components/UserProfile.jsx:27-31 | the profile is one's own when the route names no user, or names the stored user id |
| UserProfile.ProfileShown | src/components/UserProfile.jsx:27-36 | the page loads the stored user's profile exactly when it is the own profile, and otherwise the route's user, whose id is not the stored one |
| UserProfile.WithFollowers | src/components/UserProfile.jsx:86-92 | the user's `stats.followers` becomes the count; every other stat and every other user field is kept |
| UserProfile.NewFollowers | src/components/UserProfile.jsx:85-101 | a reported count is taken as given; otherwise the old count goes up by one on follow and down by one on unfollow |
| UserProfile.FollowThenUnfollow | src/components/UserProfile.jsx:93-101 | without reported counts, following then unfollowing restores the count |
| UserProfile.AvatarUrl | src/components/UserProfile.jsx:155 | no avatar gives the default picture; otherwise its R2 public URL |
| UserProfile.UploadedPostImageUrl | src/components/UserProfile.jsx:272 | a post without an image keeps none, and an image the client uploaded shows from the public address of its relay key |
| UserProfile.UploadedAvatarUrl | src/components/UserProfile.jsx:155 | an avatar stored under an uploaded filename resolves to the public URL of its key |
| UserProfile.Profile.constructor | src/components/UserProfile.jsx:16-20 | not following, not own profile, loading, no user and no posts |
| UserProfile.Profile.CheckIfOwnProfile | src/components/UserProfile.jsx:27-31 | only the own-profile flag changes, to IsOwnProfile of the route id and stored id |
| UserProfile.Profile.LoadUserProfile | src/components/UserProfile.jsx:33-69 | without any id, sends the user to login, requests nothing and stays loading; otherwise requests the profile, then the posts; shows the user, an `isFollowing` it reports, and the posts; a failed request stops loading and keeps what was already set |
| UserProfile.Profile.HandleFollow | src/components/UserProfile.jsx:72-108 | without a token goes to login, requests nothing and changes nothing; with no user nothing is requested; otherwise one toggle for the user's id, whose answer sets `isFollowing` and the new follower count; a failure changes nothing |
| Api.SocialAuthUndefined | src/services/api.js:40-79 | `authAPI` has the register and login endpoints but no `socialAuth` member |
| Api.CreateHeaders | src/services/api.js:19-34 | `Content-Type: application/json` exactly when the body is not form data; `Authorization: Bearer <token>` exactly when auth is asked for and a non-empty token is stored; no other header |
| Api.HandleResponse | src/services/api.js:10-16 | a success with a JSON body gives that value; every other response is an error, and a success with a non-JSON body is a syntax error |
| Api.ErrorMessages | src/services/api.js:11-13 | a failed response whose body does not parse gives "An error occurred"; a parsed body without a truthy `message` "Request failed"; otherwise that message; a `null` body throws a TypeError instead |
| Api.StringMessageKept | src/services/api.js:13 | a non-empty string `message` becomes the error's message unchanged |
| Api.WithQuery | src/services/api.js:88-89 | an empty query adds nothing; a non-empty one is appended after a single `?` |
| Api.SplitQuery | src/services/api.js:88-89 | cutting at the first `?` gives a `?`-free path and the rest, and the pieces rebuild the URL |
| Api.WithQuerySplits | src/services/api.js:88-89 | the URL built for a `?`-free path splits back into that path and the query, and no query part when the query is empty |
| Api.ListUrlQueries | src/services/api.js:87-214 | the posts list, a user's posts, followers and following URLs carry a `?` part exactly when the query is non-empty, and that part is the query |
| Js.ReparsedIdentity | src/services/api.js:112 | a value nested in JSON text reads back unchanged exactly when no `undefined` occurs in it (an `undefined` item becomes `null`, an `undefined` entry is dropped) |
| Js.JsonRoundTripIff | src/services/api.js:112 | `JSON.parse(JSON.stringify(v))` gives back `v` exactly when `v` holds no `undefined`, and gives no text exactly when `v` is `undefined` |
| Js.JsonLosses | src/services/api.js:123 | `{image: undefined}` reads back as `{}`, `[undefined, 1]` as `[null, 1]`, and `{image: null}` unchanged |
| Api.BodyForRoundTrip | src/services/api.js:107-126 | form data reaches the backend as its entries; other data sent as `JSON.stringify` text reads back unchanged exactly when it holds no `undefined`, and a bare `undefined` sends no body |
| Api.CreateRequest | src/services/api.js:106-115 | an authorised POST to `<base>/api/posts`, where the base is the configured URL when one is set and `http://localhost:5000` otherwise, with the chosen body; the JSON content type is present exactly when the body is JSON text, that is when the data is not form data |
| Api.UpdateRequest | src/services/api.js:118-126 | the same choices, as a PUT to `<base>/api/posts/<id>` on the same base URL |

## Findings

| source | as written | input that shows it | evidently intended | confidence | as-written member | corrected member |
|---|---|---|---|---|---|---|
| src/components/Login.jsx:73 | `handleSocialAuthSuccess` calls `authAPI.socialAuth(...)`, but `authAPI` in src/services/api.js:40-79 has only `register`, `login`, `getProfile` and `updateProfile`, so the call throws a `TypeError` and the catch shows its message | any successful Google sign-in: nothing is sent, nothing is stored, and the toast shows the `TypeError`'s message, "authAPI.socialAuth is not a function" in V8 on an unminified build | a `socialAuth` endpoint wrapper that sends the provider's data, so that the backend's answer is stored as the session | not executed; high | Login.SocialAuthAsWritten | Login.SocialAuthIntended |

Login.HandleSocialAuthSuccess and Login.LoginForm.HandleGoogleSignIn take the API object's members as a parameter. With `Api.AuthApiMembers` they behave as written. With `socialAuth` added they behave as intended.

## Left out

- Network, storage and file I/O are not modelled. Each `fetch`, each R2 `put`/`get`/`delete`, and the `FileReader` load is an abstract outcome passed in as a parameter.
- The clock and `Math.random` are not modelled. The date fields and the `toString(36)` string are parameters, and the relay's ISO timestamp and etag are opaque strings.
- Toasts, timed navigations and console logging are not modelled. A navigation the handlers make is a returned flag where it decides an outcome.
- `uploadMultipleFilesToR2` is left out (src/utils/r2Upload.js:108-115). Its only content is `Promise.all` concurrency over single uploads.
- Firebase's pop-up sign-in is not modelled. `signInWithGoogle` is an abstract outcome whose result has the shape src/services/socialAuth.js:16-24 gives it, with a missing account field as `null`. Login.jsx's redirect-result effect (src/components/Login.jsx:21-35) is left out with it.
- JSX rendering, the display toggles of PostCard, PostDetail and MasonryGrid, and the Navbar's duplicate of logout are not modelled.
- `useAuth`'s `storage` event listener is not modelled. Another tab's change is a later call of `CheckAuthStatus`.
- URLSearchParams serialisation is not modelled: the query string is an opaque string. Path parameters such as the user id are strings.
- Of api.js, only the calls named above are modelled. The other endpoint wrappers are fixed paths over the same headers and response handling.
- `Lower` folds ASCII letters only. Lengths count characters, not UTF-16 code units.
- JavaScript numbers are integers here, so fractional counts and `NaN` do not occur.
- UserProfile.Adjusted: a follower count that is not a number gives `undefined`. JavaScript would instead concatenate a string count, give `NaN`, or throw when the user has no `stats`.
- AuthSession.UserOf: the `if (user)` guard is not modelled, because the fallback chain ends in the reply itself, which is always an object.
- UploadRelay.Handle: the 413 message divides the limit by 1024 twice in floating point. The model keeps the limit and does not render that text.
- UploadRelay.Handle takes the `key` query parameter already decoded, so URL percent-decoding is not modelled.
- AuthHook.AuthState.Login: `token` and the user fields are strings or absent. Other kinds of values are not modelled.
- UserProfile.Profile.LoadUserProfile: the follow-up navigation after an "unauthorized" or "not found" failure (src/components/UserProfile.jsx:66-68) is left out. It is a timed redirect with no effect on state.
- PostPage.Page: one run of the effect is modelled at a time. The cleanup's flag is what keeps a late answer from being applied.
- Signup.SignupForm.HandleChange, Login.LoginForm.HandleChange and CreatePost.CreatePostForm.HandleChange accept any field name, including ones the form has no input for.
