# SafeSpace Salone tele-health: a verified model of its decision logic

This project models, in Dafny, the parts of the SafeSpace Salone tele-health
application that decide things, and proves what those decisions promise:

- **Crisis-signal classifier** (`crisis.dfy`, module `CrisisDetection`).
  A chat message is lower-cased and searched for the phrases of four keyword
  lists: suicide, self-harm, violence and immediate risk. A fixed precedence
  then picks one severity level and one recommended action:
  CRITICAL > URGENT > CONCERNING > NORMAL.
  The classifier is stated over any lexicon; `CrisisKeywords` is the
  application's own.
- **Security utilities** (`security.ts` → `security.dfy`, module `Security`):
  - the five-stage input sanitiser;
  - SQL escaping with its inverse;
  - the upload validator;
  - attack-pattern detection;
  - the e-mail, PIN, username and CSRF predicates;
  - the `RateLimiter` class, as a class whose `check` and `reset` update its
    map in place.
- **Fixed-window rate step** (`fixed_window.dfy`, module `FixedWindow`).
  The one rate-limit step that both `RateLimiter.check` and the request
  gate's `rateLimit` perform, with its quota theorems.
- **Request gate** (`proxy.ts` → `proxy.dfy`, module `Proxy`):
  - route limits and the rate-limit key;
  - CORS header selection from the origin allow-list;
  - the security headers;
  - the order of preflight, rate limit and header decisions.

  The middleware is a class over the module-level rate-limit map. Its
  `forEach` header copies are loops proved against the pure header algebra.
- **Audio upload route** (`audio.dfy`, module `Audio`):
  - magic-byte sniffing;
  - the stored name and public URL;
  - the path-traversal guard of `DELETE`.
- **Anonymous-user creation route** (`users.dfy`, module `Users`):
  - the request schema;
  - the sequence schema → sanitise → username re-check → blocklist;
  - the stored row and the public reply.
- **Translation lookup** (`translations.dfy`, module `Translations`):
  - the English and Krio tables;
  - `t` with its key fallback;
  - language persistence over a local-storage map, as a small class.
- **Five-step sign-up wizard** (`signup.dfy`, module `Signup`).
  The page's state hooks are the fields of `SignupWizard`, and its handlers
  are methods. They are proved against pure gate, toggle and PIN-filter
  functions.

`wrappers.dfy` holds `Option`. `text.dfy` holds the string primitives: ASCII
lower-casing, the JavaScript whitespace set, and `includes` as a scan proved
equal to substring occurrence.

Time (`Date.now()`), the CSP nonce, the random upload token, the inserted
user's id, whether a file exists, whether a browser window exists, and the
contents of local storage are all parameters.

## Model

| member | source | states |
|---|---|---|
| Text.Lower | utils/crisis-detection.ts:53 | `toLowerCase` keeps the length and folds each character on its own |
| Text.ContainsIsSubstring | utils/crisis-detection.ts:58 | `includes` is true exactly when the pattern occurs at some index |
| CrisisDetection.LevelsAreDistinguished | utils/crisis-detection.ts:41-46 | a check of the constants: distinct levels have distinct severity names and distinct recommended actions |
| CrisisDetection.Matches | utils/crisis-detection.ts:57-74 | a category's `filter` keeps exactly the keywords whose lower-cased form occurs in the lower-cased message, and is no longer than the list |
| CrisisDetection.MatchesOfConcat | utils/crisis-detection.ts:76 | filtering a concatenation gives the filtered parts concatenated in order |
| CrisisDetection.AllMatches | utils/crisis-detection.ts:57-76 | the four pushed filters, in order suicide, self-harm, violence, immediate risk, are the filter of the whole lexicon |
| CrisisDetection.MatchesDetectHits | utils/crisis-detection.ts:79-101 | a category's `matches.length > 0` test holds exactly when some keyword of that category occurs |
| CrisisDetection.HitFlags | utils/crisis-detection.ts:79-95 | the four length tests of the if-chain are the four category hits |
| CrisisDetection.LevelOf | utils/crisis-detection.ts:79-107 | CRITICAL iff suicide and immediate risk; URGENT iff suicide or violence but not CRITICAL; CONCERNING iff self-harm without suicide or violence; NORMAL iff none of suicide, self-harm, violence (immediate risk alone is NORMAL) |
| CrisisDetection.DetectCrisisLevel | utils/crisis-detection.ts:48-108 | the level is the precedence applied to the four category hits; the action is the one fixed action of that level; NORMAL has no keywords, any other level reports the lexicon's matches in category then lexicon order |
| CrisisDetection.CrisisKeywordsAreLowerCase | utils/crisis-detection.ts:2-39 | every phrase of the lexicon is non-empty and already lower case, so `keyword.toLowerCase()` changes nothing |
| CrisisDetection.SuicideKeywordLower | utils/crisis-detection.ts:3-13 | a check of the constants, used by `CrisisKeywordsAreLowerCase`: each suicide phrase is non-empty and lower case |
| CrisisDetection.SelfHarmKeywordLower | utils/crisis-detection.ts:14-20 | a check of the constants, used by `CrisisKeywordsAreLowerCase`: each self-harm phrase is non-empty and lower case |
| CrisisDetection.ViolenceKeywordLower | utils/crisis-detection.ts:21-27 | a check of the constants, used by `CrisisKeywordsAreLowerCase`: each violence phrase is non-empty and lower case |
| CrisisDetection.ImmediateRiskKeywordLower | utils/crisis-detection.ts:28-38 | a check of the constants, used by `CrisisKeywordsAreLowerCase`: each immediate-risk phrase is non-empty and lower case |
| CrisisDetection.KeywordsAreOccurrences | utils/crisis-detection.ts:57-76 | outside NORMAL, a phrase is reported iff it is in the lexicon and occurs in the lower-cased message |
| CrisisDetection.CaseInsensitive | utils/crisis-detection.ts:53-74 | a message and its lower-case form get the identical verdict |
| CrisisDetection.MonotoneUnderExtension | utils/crisis-detection.ts:57-101 | adding text before or after a message never lowers its severity |
| CrisisDetection.NoHitsInEmptyMessage | utils/crisis-detection.ts:57-74 | no non-empty phrase occurs in the empty message |
| CrisisDetection.EmptyMessageIsNormal | utils/crisis-detection.ts:103-107 | the empty message is NORMAL with no keywords and CONTINUE_SESSION |
| CrisisDetection.PhraseInMessage | utils/crisis-detection.ts:58 | a lower-case phrase occurs in the lower-cased form of any message built around it |
| CrisisDetection.NoWordBoundaries | utils/crisis-detection.ts:72-74 | matching ignores word boundaries: "gun" is found inside "begun" |
| CrisisDetection.CriticalScenario | utils/crisis-detection.ts:79-85 | "kill myself" and "tonight" anywhere in a message make it CRITICAL, whatever surrounds them |
| FixedWindow.Step | proxy.ts:27-42 | a missing or expired record (now strictly past reset) opens a window with count 1 and allows; a record at or over the limit refuses and changes nothing; otherwise the count grows by one and the request is allowed; other identifiers are untouched |
| FixedWindow.StepKeepsBounded | proxy.ts:37-42 | every stored count stays between 1 and the limit |
| FixedWindow.QuotaWithinWindow | utils/security.ts:127-140 | inside an open window at most `limit - count` further requests pass |
| FixedWindow.QuotaFromNewWindow | utils/security.ts:127-140 | from the request that opens a window to the window's end, at most `limit` requests pass |
| Security.StripAngles | utils/security.ts:17 | no '<' or '>' remains, every other character keeps its count |
| Security.StripAnglesConcat | utils/security.ts:17 | the pass distributes over concatenation and drops a single character exactly when it is '<' or '>', so the kept characters stay in order |
| Security.StripProtocol | utils/security.ts:18 | removing `javascript:` case-insensitively only drops characters; the output is shorter than the input iff `javascript:` occurs in it in any letter case, and equal to it otherwise |
| Security.ProtocolHit | utils/security.ts:18 | a leading window spelling `javascript:` in any letter case is deleted whole and the pass resumes after it |
| Security.PrefixKept | utils/security.ts:18 | four characters that cannot start a match (none after the first folds to 'j', and the character after them does not fold to 's') are kept in front of the pass over the rest |
| Security.KeptPrefixThenHit | utils/security.ts:18 | such four characters followed by `javascript:` and a short tail: the protocol is deleted and the pass resumes after it |
| Security.SinglePassLeavesProtocol | utils/security.ts:18 | the pass does not rescan what it has joined: "javajavascript:script:" becomes "javascript:", which still matches |
| Security.WordRun | utils/security.ts:19 | the greedy `\w+` run from an index: all word characters, followed by a non-word character or the end |
| Security.HandlerAtByRun | utils/security.ts:19 | `/on\w+=/i` matches at an index iff "on" (any case) is followed by a non-empty word run and then '=' |
| Security.HandlerLen | utils/security.ts:19 | the match length is positive iff the pattern matches there, and then ends with '=' and is at least 4 long |
| Security.StripHandlersFrom | utils/security.ts:19 | the global removal from an index only drops characters; the output is shorter than the rest of the input iff `/on\w+=/i` matches at some index from there, and equal to it otherwise |
| Security.StripHandlers | utils/security.ts:19 | removing every `on…=` handler only drops characters; the output is shorter iff a handler match occurs, and the input itself otherwise |
| Security.LeadingSpaces | utils/security.ts:20 | the count of leading JavaScript whitespace characters |
| Security.TrimEnd | utils/security.ts:20 | a prefix of the input whose dropped tail is all whitespace and whose last character is not |
| Security.Trim | utils/security.ts:20 | the slice between the leading and the trailing whitespace; neither end of it is whitespace |
| Security.Truncate | utils/security.ts:21 | the first 1000 characters, or all of them |
| Security.SanitizeInput | utils/security.ts:15-22 | no '<' or '>', at most 1000 characters, no leading whitespace, and no character the input lacked |
| Security.StripAnglesUnchanged | utils/security.ts:17 | the angle pass leaves a string without '<' and '>' unchanged |
| Security.StripProtocolUnchanged | utils/security.ts:18 | the protocol pass leaves a string without ':' unchanged |
| Security.StripHandlersUnchanged | utils/security.ts:19 | the handler pass leaves a string without '=' unchanged |
| Security.TrimUnchanged | utils/security.ts:20 | trimming leaves a string with no whitespace at either end unchanged |
| Security.SanitizeOfPlainText | utils/security.ts:15-22 | a string free of '<', '>', ':', '=' and of whitespace at its ends is only truncated |
| Security.TruncationKeepsTrailingSpace | utils/security.ts:20-21 | truncation follows trimming, so whitespace at index 999 ends the 1000-character output |
| Security.EscapeSqlInput | utils/security.ts:35-37 | the output is the input plus one character per quote, double quote, semicolon or backslash |
| Security.EscapeRoundTrip | utils/security.ts:35-37 | reading the escaped text back, a backslash standing for the next character, gives the input |
| Security.EscapedSpecialsArePrefixed | utils/security.ts:35-37 | every escapable character of the output is a backslash or directly preceded by one |
| Security.ValidateFileUpload | utils/security.ts:40-56 | valid iff size is at most the maximum (absent or 0 means 5 MiB) and the type is in the list (absent means the three defaults); too large is reported first, with the maximum; a wrong type is reported with the list |
| Security.ContainsAny | utils/security.ts:92 | `patterns.some(…)` over literal patterns holds iff one of them occurs |
| Security.ContainsHandlerFrom | utils/security.ts:84 | `/on\w+=/i` matches at some index from the given one |
| Security.DetectAttackPatterns | utils/security.ts:80-93 | true iff one of the seven literal patterns occurs in the lower-cased input or `on`+word characters+`=` occurs in any case |
| Security.EmailSplits | utils/security.ts:96-99 | a valid address is local@domain.tld with three non-empty parts free of whitespace and '@' |
| Security.EmailOfIsValid | utils/security.ts:96-99 | three such parts joined as local@domain.tld, at most 254 long, make a valid address |
| Security.ValidEmailShape | utils/security.ts:96-99 | a valid address holds exactly one '@' and has 5 to 254 characters |
| Security.EmailMatchesPattern | utils/security.ts:96-99 | `isValidEmail` holds iff the address matches `^[^\s@]+@[^\s@]+\.[^\s@]+$` and is at most 254 long |
| Security.IsValidPin | utils/security.ts:102-104 | a PIN of 4 to 6 digits passes the sanitiser and SQL escaping unchanged |
| Security.IsValidUsername | utils/security.ts:107-109 | a username of 3 to 20 characters from [A-Za-z0-9_-] needs no SQL escaping |
| Security.SanitizeKeepsValidUsername | utils/security.ts:107-109 | the sanitiser returns a valid username unchanged |
| Security.CsrfAcceptsOnlyStoredToken | utils/security.ts:30-32 | a check of the definition: a token is accepted iff it equals the stored one |
| Security.RateLimiter.constructor | utils/security.ts:117-121 | an empty store with the given (default 10, 60000) limit and window |
| Security.RateLimiter.Check | utils/security.ts:123-141 | the new store and the answer are one fixed-window step; counts stay within bounds |
| Security.RateLimiter.Reset | utils/security.ts:143-145 | only the given identifier's record is removed |
| Proxy.RouteLimits | proxy.ts:15-25 | API routes get 30 requests per 60000 ms, other routes 100 per 900000 ms |
| Proxy.GateKeepsBounded | proxy.ts:22-43 | whatever the route kind, a gate step keeps every stored count between 1 and 100 |
| Proxy.ApiQuota | proxy.ts:22-43 | once an API window opens, at most 30 requests before its end pass |
| Proxy.PageQuota | proxy.ts:22-43 | once a page window opens, at most 100 requests before its end pass |
| Proxy.SetEach | proxy.ts:162-164 | the `forEach` of `headers.set` calls builds the header map the pairs define |
| Proxy.SetAllLookup | proxy.ts:162-170 | after a run of `set` calls a name holds the value of its last pair, or its old value |
| Proxy.HeadersFromNames | proxy.ts:162-170 | a header map built from names holds exactly those names, each with its value |
| Proxy.ValueEmptyOnlyWhen | proxy.ts:46-117 | every header value the gate sets is non-empty, except X-Powered-By, which it blanks, and Allow-Origin when the request names no origin |
| Proxy.PolicyCarriesNonce | proxy.ts:50-52 | the Content-Security-Policy names the response's nonce, quoted, in script-src |
| Proxy.CorsNames | proxy.ts:101-117 | Allow-Origin and Allow-Credentials are set iff the origin is present and allowed; methods, headers and Max-Age always |
| Proxy.OrElse | proxy.ts:130-132 | `value \|\| fallback` on a header: a missing or empty header gives way |
| Proxy.ClientIp | proxy.ts:130-132 | x-forwarded-for, else x-real-ip, else "unknown"; never empty |
| Proxy.RateLimitKey | proxy.ts:133 | the key is the client ip, '-', and the path |
| Proxy.IsProtectedRoute | proxy.ts:6-9 | a protected route starts with "/counselor/" and is never an API route, so it gets the page limits |
| Proxy.Decide | proxy.ts:119-180 | preflight iff OPTIONS; a preflight or a refusal leaves the store as it was; a refusal asks to retry after 900 s; a forwarded request needs sign-in iff its route is protected |
| Proxy.DecideRateLimits | proxy.ts:129-150 | a non-preflight request takes one rate-limit step on its key with its route's limits; 429 iff that step refuses |
| Proxy.RefusalWaitsFifteenMinutes | proxy.ts:136-150 | a refusal is a 429 with Retry-After 900 and a JSON content type, on API routes too |
| Proxy.PreflightUsesNoQuota | proxy.ts:123-127 | an OPTIONS request leaves the store untouched and answers 204 with only the CORS headers |
| Proxy.PreflightHeaderValues | proxy.ts:107-114 | a preflight answer holds Max-Age 86400 and the methods, and the origin with credentials only when allowed |
| Proxy.DecideForwards | proxy.ts:152-179 | an allowed request is forwarded with the forwarding headers, marked for sign-in exactly on counsellor routes |
| Proxy.ForwardNamesMembership | proxy.ts:160-177 | a forwarded response carries the security and CORS names, the origin ones iff allowed, the API extras iff an API route |
| Proxy.ForwardCors | proxy.ts:160-170 | a forwarded response echoes the origin, with credentials, iff allowed, and carries the policy, frame and sniffing headers |
| Proxy.ApiOnlyHeaders | proxy.ts:173-177 | X-DNS-Prefetch-Control "off" and X-Download-Options "noopen" are set iff the route is an API route |
| Proxy.Middleware.constructor | proxy.ts:12 | the module-level rate-limit map starts empty |
| Proxy.Middleware.RateLimit | proxy.ts:22-43 | the in-place update of the map and the answer are one fixed-window step with the route's limits |
| Proxy.Middleware.Handle | proxy.ts:119-180 | the new map and the answer are the pure decision: preflight, then key, then limit, then headers |
| Audio.AsciiSlice | app/api/audio/route.ts:77 | `toString('ascii', start, end)` clamps the end to the buffer and has the clamped length |
| Audio.ValidateAudioFileHeader | app/api/audio/route.ts:70-92 | accepted iff the buffer starts with 1A 45 DF A3, "RIFF" then "WAVE" at 8, "ID3", FF FB, or "OggS" (letters compared with the high bit cleared) |
| Audio.AsciiSliceSpells | app/api/audio/route.ts:77-87 | comparing a decoded slice with a word is comparing the masked bytes with its letters |
| Audio.ShortBufferRejected | app/api/audio/route.ts:72-91 | a buffer shorter than 2 bytes is rejected |
| Audio.FrameSyncAccepted | app/api/audio/route.ts:82 | the 2-byte buffer FF FB is accepted |
| Audio.HighBitTagAccepted | app/api/audio/route.ts:82 | C9 C4 B3 reads as "ID3" once the high bits are cleared, and is accepted |
| Audio.TruncatedWavRejected | app/api/audio/route.ts:77 | "RIFF" with fewer than 12 bytes is not a WAV header, and nothing else accepts it |
| Audio.AfterLastDot | app/api/audio/route.ts:38 | `split('.').pop()`: a dot-free suffix of the name, preceded by '.' unless it is the whole name |
| Audio.Extension | app/api/audio/route.ts:38 | the piece after the last dot, or "webm" when that piece is empty; never empty, never a dot |
| Audio.DefaultExtension | app/api/audio/route.ts:38 | the fallback is non-empty and dot-free |
| Audio.Decimal | app/api/audio/route.ts:39 | the timestamp prints as a non-empty run of digits with no leading zero (except "0" itself) that reads back as the timestamp |
| Audio.UploadAudio | app/api/audio/route.ts:10-62 | no file gives 400; uploaded iff at most 10 MiB, one of the five audio types, and a known header; then the name is `voice-<time>-<token>.<ext>` and the URL is `/uploads/audio/` plus that name |
| Audio.SizeCheckedFirst | app/api/audio/route.ts:20-27 | an oversized file is reported as too large with the 10 MiB limit, whatever its type |
| Audio.DeleteAudio | app/api/audio/route.ts:95-122 | a missing name gives 400 FilenameRequired; a name with "..", '/' or '\' gives 400 InvalidFilename; a safe name of a missing file gives 404; deleted iff the name is safe and the file exists |
| Audio.SafeFilename | app/api/audio/route.ts:105 | the guard holds iff the name has no '/', no '\' and no two adjacent dots |
| Audio.TraversalRefused | app/api/audio/route.ts:105-107 | any name containing ".." is refused with 400, whatever exists on disk |
| Audio.StoredPrefixPlain | app/api/audio/route.ts:39 | `voice-<time>-<token>` has no '.', '/' or '\' for a base64url token |
| Audio.SingleDotJoin | app/api/audio/route.ts:39 | joining a dot-free prefix and a non-empty dot-free extension with one '.' never yields ".." |
| Audio.JoinHolds | app/api/audio/route.ts:39 | a slash or backslash occurs in the stored name iff it occurs in the extension |
| Audio.StoredNameDeletable | app/api/audio/route.ts:38-39 | a stored name passes the DELETE guard of line 105 iff its extension has no '/' or '\' |
| Users.ParseUsername | app/api/users/route.ts:9 | accepted iff a JSON string of 3 to 20 characters from [A-Za-z0-9_-], and then unchanged |
| Users.ParseAvatar | app/api/users/route.ts:10 | accepted iff a JSON number that is an integer from 1 to 8, and then that number |
| Users.ParseOptionalString | app/api/users/route.ts:11-12 | an absent field is accepted as absent, a string as itself, anything else (null too) fails |
| Users.Strings | app/api/users/route.ts:13 | an array of JSON strings gives their texts in order, anything else fails |
| Users.ParseTopics | app/api/users/route.ts:13 | accepted iff an array of 1 to 10 JSON strings, and then their texts in order |
| Users.ParseCreateUser | app/api/users/route.ts:8-14 | accepted iff the body is an object on which all five field parsers succeed; then username, avatar, topics, age range and gender are the values those parsers return |
| Users.ParseAcceptsWellFormed | app/api/users/route.ts:8-14 | an object whose fields meet the bounds, each optional field absent or a string, is accepted with exactly those values |
| Users.NullOptionalRejected | app/api/users/route.ts:12 | a `null` gender fails the schema |
| Users.HasInappropriateWord | app/api/users/route.ts:38-39 | every blocked word has four letters or more, so a blocked name has at least four characters |
| Users.InappropriateWordOccurs | app/api/users/route.ts:38-39 | the blocklist test holds iff "test", "admin" or "root" occurs in the lower-cased name |
| Users.SanitizeOptional | app/api/users/route.ts:47-48 | only a non-empty string is kept, sanitised and free of angle brackets |
| Users.CreateUser | app/api/users/route.ts:16-61 | every rejection is a 400; "Invalid input data" iff the schema fails |
| Users.UsernameRecheckNeverFails | app/api/users/route.ts:30-35 | the username re-check never fails after the schema, so a user is created iff the schema passes and the name avoids the blocklist |
| Users.CreatedUserShape | app/api/users/route.ts:43-61 | the row keeps the parsed name, avatar and topics, role "user", optional fields only when non-empty and then sanitised (`SanitizeOptional` of the parsed value); the reply exposes only id, username, avatar, topics |
| Users.BlockedWordRefused | app/api/users/route.ts:38-41 | a schema-valid name containing a blocked word in any case is refused as inappropriate |
| Users.ContestantRefused | app/api/users/route.ts:38-41 | "Contestant" passes the schema and is refused as inappropriate |
| Translations.T | utils/translations.ts:105-107 | the entry when present and non-empty, otherwise the key; a key outside the table comes back unchanged |
| Translations.SameKeys | utils/translations.ts:2-100 | the English and Krio tables define the same keys |
| Translations.EntriesNonEmpty | utils/translations.ts:2-100 | every entry is non-empty, so a table key translates to its entry |
| Translations.NonEmptyKeyTranslates | utils/translations.ts:106 | a non-empty key never translates to the empty string |
| Translations.DefaultIsEnglish | utils/translations.ts:105 | the language defaults to English |
| Translations.UnknownKeyEchoed | utils/translations.ts:106 | a key missing from the tables is echoed in either language |
| Translations.SampleEntries | utils/translations.ts:40-90 | a check of the constants: "good" is "Good" in English and "Fayn" in Krio |
| Translations.CurrentLanguageIn | utils/translations.ts:109-114 | "en" without a window, without a stored value, or when the stored value is empty; otherwise the stored text |
| Translations.StoreLanguage | utils/translations.ts:116-120 | with a window the code is stored under `safespace_language`, other keys are kept and no other key is added; without one nothing changes |
| Translations.SetThenGet | utils/translations.ts:109-120 | setting a language and reading back gives its code with a window, "en" without |
| Translations.StoredTextUnchecked | utils/translations.ts:111 | any non-empty stored text comes back as the language, even one with no table |
| Translations.LocalStorage.SetLanguage | utils/translations.ts:116-120 | the storage map becomes the `setLanguage` result |
| Translations.LocalStorage.GetCurrentLanguage | utils/translations.ts:109-114 | the answer is the `getCurrentLanguage` result on the stored map |
| Signup.RemoveAll | app/signup/page.tsx:38 | the filter keeps exactly the other topics and never grows |
| Signup.RemoveAllOfConcat | app/signup/page.tsx:38 | the filter works element by element: filtering a concatenation concatenates the filtered parts, and one topic is kept iff it is not the removed one, so the kept topics keep their order |
| Signup.RemoveAllKeepsNoDuplicates | app/signup/page.tsx:38 | filtering keeps a list free of duplicates |
| Signup.Toggled | app/signup/page.tsx:35-41 | the toggled topic's membership flips, other topics keep theirs, an absent one is appended at the end |
| Signup.ToggleKeepsNoDuplicates | app/signup/page.tsx:35-41 | toggling never introduces a duplicate |
| Signup.ToggleTwiceRestores | app/signup/page.tsx:35-41 | toggling an unselected topic twice restores the selection |
| Signup.RemoveAllAbsent | app/signup/page.tsx:38 | filtering out an absent topic changes nothing |
| Signup.RemoveAllAppended | app/signup/page.tsx:38 | filtering out a just-appended topic removes it again |
| Signup.AtMostNineTopics | app/signup/page.tsx:8-18 | a duplicate-free selection holds at most the nine offered topics |
| Signup.DigitsOf | app/signup/page.tsx:302 | `replace(/\D/g, "")` keeps only digits, every digit of the text as often as it occurs there, and never grows |
| Signup.DigitsOfConcat | app/signup/page.tsx:302 | the filter works character by character: filtering a concatenation concatenates the filtered parts, and one character is kept iff it is a digit, so the digits keep their order |
| Signup.PinInput | app/signup/page.tsx:302 | the field holds the first six of the text's digits (all of them when there are fewer) |
| Signup.PinInputIdempotent | app/signup/page.tsx:302 | filtering a PIN field's own text changes nothing |
| Signup.NextGate | app/signup/page.tsx:45-65 | step 1 needs an avatar, step 2 three characters, step 3 nothing, step 4 a topic, step 5 a 4-6 character PIN (checked first) equal to its confirmation; a failing step shows its own message: no avatar, username too short, no topic, PIN length, PINs do not match |
| Signup.PinGateIsPinRule | app/signup/page.tsx:57-65 | with the PIN filter in force, the step-5 gate passes iff the PIN is valid and confirmed |
| Signup.TopicIds | app/signup/page.tsx:78 | the posted topics are the ids of the selection, in order |
| Signup.PayloadPassesSchema | app/signup/page.tsx:73-79 | a posted body within the wizard's bounds, with a name of [A-Za-z0-9_-], passes the route's schema with exactly its values |
| Signup.SpacedNameRefusedByRoute | app/signup/page.tsx:49-52 | three spaces pass the wizard's length check but not the route's schema |
| Signup.SignupWizard.constructor | app/signup/page.tsx:24-33 | step 1, nothing selected, empty fields, no error, not loading |
| Signup.SignupWizard.SelectAvatar | app/signup/page.tsx:156 | the clicked avatar is selected and nothing else changes |
| Signup.SignupWizard.SetUsername | app/signup/page.tsx:189-192 | the username becomes the typed text cut to 20 characters |
| Signup.SignupWizard.SetAgeRange | app/signup/page.tsx:220 | clicking a range selects it, or clears it when it was selected |
| Signup.SignupWizard.SetGender | app/signup/page.tsx:240 | clicking a gender selects it, or clears it when it was selected |
| Signup.SignupWizard.ToggleTopic | app/signup/page.tsx:271 | the selection becomes the toggled list, still at most nine topics |
| Signup.SignupWizard.SetPin | app/signup/page.tsx:302 | the PIN becomes the filtered text |
| Signup.SignupWizard.SetConfirmPin | app/signup/page.tsx:311 | the confirmation becomes the filtered text |
| Signup.SignupWizard.HandleNext | app/signup/page.tsx:43-117 | the error is the gate's message; the step grows by one only when the gate passes below step 5; on step 5 it starts loading and hands back a payload within bounds with a valid, confirmed PIN |
| Signup.SignupWizard.HandleBack | app/signup/page.tsx:119-122 | the step goes back one and the error is cleared |
| Signup.SignupWizard.Skip | app/signup/page.tsx:353 | step 3 jumps to step 4 and nothing else changes |
| Signup.SignupWizard.SubmissionFailed | app/signup/page.tsx:110-113 | a failed request shows the failure message and stops loading |

## Left out

- Strings are sequences of Unicode code points, not of UTF-16 code units; lengths of text outside the Basic Multilingual Plane differ.
- Text.Lower: `toLowerCase` is modelled for ASCII letters only. JavaScript folds every Unicode letter, and a few non-ASCII characters fold into ASCII: KELVIN SIGN (U+212A) becomes 'k'. So a message such as "\u212Aill myself tonight" is CRITICAL in the source, and "\u212Anife" hits the violence list there, while the model classifies both by their ASCII letters only and finds no phrase.
- CrisisDetection.DetectCrisisLevel: because of the ASCII folding above, the model misses lexicon phrases spelled with a non-ASCII character that folds to an ASCII letter. The blocklist check of the users route is exact, because the schema admits only ASCII usernames before it runs.
- `trim` and `\s` use the full JavaScript whitespace set. Case-insensitive regexes without the `u` flag are exact for their ASCII patterns.
- Node's 'ascii' buffer decoding clears each byte's high bit; the header checks compare bytes taken modulo 128.
- Generating CSRF and upload tokens, the CSP nonce, and hashing and verifying passwords are randomness or cryptography. Tokens and nonces are parameters.
- `validateInput` calls a duck-typed `schema.parse` that is not part of this model. The zod schema is modelled only for the bounds the route states.
- `secureJSONResponse`, `secureErrorResponse` and `NextResponse` are response plumbing that depends on the environment. Replies are status codes with an error kind.
- Error-message texts are not modelled. Neither is the 429 response's JSON body, nor the size in megabytes that `validateFileUpload` prints as a floating-point number.
- Clerk's `auth.protect()` is outside the model. A forwarded decision only records whether the route requires sign-in.
- The middleware's `config.matcher` is build configuration and is not modelled.
- Requests are reduced to their method, path and the `origin`, `x-forwarded-for` and `x-real-ip` headers.
- Header names are case-insensitive, so each header has one spelling.
- The Content-Security-Policy and Permissions-Policy values are written out already joined; `join` itself is not modelled.
- File-system effects are not modelled: creating the upload directory, writing the file, checking that it exists, and unlinking it. Whether the file exists is a parameter of `DELETE`.
- Audio.UploadAudio: the form field is modelled as a file or nothing. A field holding a plain string is not modelled.
- Any exception, for example from malformed JSON or a failed write, answers 500. Such errors are not modelled.
- The users route's database insert is not modelled. The id it returns is a parameter, and the row is returned as built.
- JSON numbers are exact reals, not IEEE doubles.
- The translation lookup only finds keys that are in the tables. It does not see inherited JavaScript object properties such as `constructor`.
- Signup.SignupWizard.SetUsername: `maxLength={20}` is modelled as truncating the typed text to 20 characters.
- After a successful submission the page does three things that are outside the model:
  - it stores the user id, PIN and profile in local storage;
  - it creates an initial conversation;
  - it navigates to the chat.

  `HandleNext` hands back the payload it would post.
- `CRISIS_RESPONSE_TEMPLATE` is data only. No code in the source fills in its `{emergency_number}` placeholder. It is kept as a constant.
- Concurrency: the module-level rate-limit map and the `RateLimiter` store are modelled under sequential calls.
- The sanitiser makes one pass per pattern. `SinglePassLeavesProtocol` proves that the protocol pass turns "javajavascript:script:" into "javascript:"; that the later passes keep it is not proved.
