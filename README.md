# Chat server core, modelled in Dafny

This project models the request-handling core of a small chat web
application: a Next.js server that signs users in, keeps their
conversations with an OpenAI chat model in a relational store, and lists,
reads back and deletes those conversations. The model covers:

- the in-memory per-IP rate limiter (`lib/ratelimit.ts`): the fixed-window
  admission rule and the periodic sweep of stale records, as the class
  `RateLimit.Limiter` whose methods are proved against the pure functions
  `RateLimit.Admit` and `RateLimit.Swept`;
- the chat route (`app/api/chat/route.ts`): the `GET` read-back of one
  conversation's messages and the `POST` turn. The turn runs its checks in
  this order: caller identity, rate limit, body validation, API key. It then
  creates or checks the ownership of the conversation, saves the user
  message, sends the whole history in ascending order to the provider, and
  saves the reply;
- the conversations route (`app/api/conversations/route.ts`): the newest-first
  listing with titles taken from each conversation's first message, and the
  ownership-checked delete;
- the middleware (`middleware.ts`): the public-path allow list, the redirect
  to `/login` when there is no session, the injection of the verified user id
  as `x-user-id`, and the path matcher;
- registration and login (`app/api/auth/register/route.ts`,
  `app/api/auth/login/route.ts`).

The store (module `Store`) is a class `Db` whose tables are sequences kept in
creation order, with a clock that grows strictly. A query sorted by
`createdAt` ascending is then a filter of a table, and one sorted descending
is the reverse of a filter. `Db.Valid()` keeps ids unique, timestamps below
the clock and strictly increasing along each table, and every message
attached to an existing conversation. Ids that the store would generate are
parameters of the creating methods, with a freshness precondition. The
session store, the password hash and the chat provider are not part of this
model. They are parameters: the session as an optional user id, the hash and
verify as functions, and the provider as a function from the message list
to a `Completion`.

## Model

| member | source | states |
|---|---|---|
| RateLimit.Limiter.RateLimit | lib/ratelimit.ts:5-26 | one call returns exactly the admission decision of `Admit` and leaves the record table as `Admit` says |
| RateLimit.Limiter.Sweep | lib/ratelimit.ts:30-37 | the sweep loop leaves exactly the records refreshed within the last 60000 ms |
| RateLimit.FirstCallAdmitted | lib/ratelimit.ts:9-12 | an address with no record is admitted and gets the record count 1, reset at `now` |
| RateLimit.WindowResetIsStrict | lib/ratelimit.ts:14-18 | the window restarts only when strictly more than `windowMs` has passed, admitting with count 1 and reset time `now` whatever the old count; at exactly `windowMs` the old window still applies |
| RateLimit.RejectionChangesNothing | lib/ratelimit.ts:20-22 | inside the window, a count at or above the limit is refused and the record table is left as it was |
| RateLimit.RefusedCallLeavesTable | lib/ratelimit.ts:20-22 | a refused call, whatever the reason, leaves the whole record table unchanged |
| RateLimit.AdmissionIncrements | lib/ratelimit.ts:24-25 | inside the window and under the limit, the call is admitted and the count grows by one with the reset time kept |
| RateLimit.OtherKeysUntouched | lib/ratelimit.ts:5-25 | a call for one address never changes or adds the record of another address |
| RateLimit.AdmitKeepsCountsWithin | lib/ratelimit.ts:5-25 | for a positive limit, if every count is between 1 and the limit before a call, the same holds after it |
| RateLimit.RunInsideWindow | lib/ratelimit.ts:14-25 | a burst of calls inside one window: the i-th call is admitted exactly when the starting count plus i is below the limit, and the count ends at the limit at most (or where it started, when already at the limit) with the reset time kept |
| RateLimit.FreshKeyBurst | lib/ratelimit.ts:5-25 | from no record, a burst inside one window admits exactly the first `limit` calls |
| RateLimit.DefaultPolicySixthCallRefused | lib/ratelimit.ts:5 | with the defaults of 5 calls per 10000 ms, six calls at one instant from a new address admit the first five and refuse the sixth |
| RateLimit.SweptKeys | lib/ratelimit.ts:32-35 | an address survives the sweep exactly when its last reset is at most 60000 ms old, and a surviving record is unchanged |
| RateLimit.SweepKeepsCountsWithin | lib/ratelimit.ts:32-35 | the sweep keeps every count within the limit |
| RateLimit.SweepUnobservable | lib/ratelimit.ts:14-35 | with a window of at most 60000 ms, a later call gets the same answer and leaves the same record for its address whether or not a sweep ran in between |
| Store.Find | app/api/chat/route.ts:30-32 | the lookup by id finds the conversation with that id, and finds nothing exactly when no conversation has it |
| Store.Guard | app/api/chat/route.ts:34-36 | a conversation passes the ownership check only if it has the requested id and belongs to the caller |
| Store.GuardAdmitsOwnerOnly | app/api/chat/route.ts:34-36 | with unique ids, the ownership check passes exactly when the caller owns a conversation with that id |
| Store.TranscriptMembers | app/api/chat/route.ts:38-41 | the messages read back are exactly the stored messages of that conversation |
| Store.TranscriptAppend | app/api/chat/route.ts:102-114 | saving a message extends its own conversation's history by that message at the end and leaves every other history as it was |
| Store.TranscriptAscending | app/api/chat/route.ts:38-41 | the messages read back are strictly ascending by `createdAt` |
| Store.Db.CreateUser | app/api/auth/register/route.ts:19-24 | inserts one account under the username with the given id and hash, keeping the store valid |
| Store.Db.CreateConversation | app/api/chat/route.ts:84-89 | appends one conversation stamped with the current clock, keeping ids unique and the table ascending |
| Store.Db.CreateMessage | app/api/chat/route.ts:102-108 | appends one message to an existing conversation stamped with the current clock |
| Store.Db.DeleteConversation | app/api/conversations/route.ts:58-60 | removes the conversation with that id and all of its messages, and nothing else |
| Http.Prefix | app/api/chat/route.ts:87 | `substring(0, n)`: a prefix of the string, of length n when the string is at least that long and the whole string otherwise |
| Chat.ChatSchema | app/api/chat/route.ts:10-13 | a body is accepted exactly when the message is a string of 1 to 2000 characters and the conversation id is absent, null or a UUID string; the accepted input carries those values |
| Chat.Preflight | app/api/chat/route.ts:52-78 | the early responses come in the source's order: 401 without a caller, then 429 when refused, then 500 for an unreadable body and 400 for an invalid one, then 500 without an API key; no early response applies exactly when all four checks pass |
| Chat.GetMessages | app/api/chat/route.ts:15-48 | 401 without a caller, 400 without a conversation id, 404 unless the caller owns it; when the caller owns it, 200 with that conversation's transcript, which holds exactly its messages, ascending by creation time |
| Chat.Converse | app/api/chat/route.ts:80-157 | the turn after the checks: a missing or foreign requested conversation gives 404 and changes nothing; otherwise the user message is saved, the provider sees the whole history ascending, a failure gives 500 and keeps the user message, and a reply is saved and returned with the conversation id |
| Chat.OpenConversation | app/api/chat/route.ts:80-99 | creates a conversation titled with the first 30 characters of the message when none was requested, and otherwise checks the caller owns the requested one |
| Chat.Exchange | app/api/chat/route.ts:101-157 | saves the user message, sends the ascending history to the provider, and saves the reply only on success |
| Chat.Post | app/api/chat/route.ts:50-163 | the whole handler: the limiter is consulted only when there is a caller, an early response changes no table, and otherwise the turn is as `Converse` states |
| Chat.FreshConversationHasNoHistory | app/api/chat/route.ts:83-90 | a conversation id not yet in the store has no stored messages, so a new conversation starts with an empty history |
| Chat.HistoryAscending | app/api/chat/route.ts:110-119 | the history sent to the provider after saving the user message is ascending and ends with that message |
| Chat.TurnExtendsTranscript | app/api/chat/route.ts:101-152 | a successful turn appends exactly the user message and then the reply to the conversation's history |
| Chat.TurnLeavesOtherTranscripts | app/api/chat/route.ts:101-152 | a turn leaves the history of every other conversation as it was |
| Chat.TwoTurnsReadBack | app/api/chat/route.ts:80-157 | after a first turn creates a conversation and a second turn continues it, reading it back gives the four messages in order |
| Conversations.Summaries | app/api/conversations/route.ts:22-26 | the response has one summary per conversation, in the same order |
| Conversations.ListedTitleShape | app/api/conversations/route.ts:25 | the listed title is "Empty Conversation" when the conversation has no message or its first message is empty, and otherwise a non-empty prefix of at most 30 characters of its first message |
| Conversations.ListedTitleIsCreationTitle | app/api/conversations/route.ts:25 | the listing's title rule and the chat route's title rule agree on every non-empty message |
| Conversations.FreshConversationFirstMessage | app/api/chat/route.ts:102-114 | the first stored message of a new conversation is the first message saved to it, whether or not a reply follows |
| Conversations.CreatedConversationListedUnderStoredTitle | app/api/conversations/route.ts:22-26 | after a chat turn creates a conversation, the lookup finds it owned by the caller, and the title the listing derives from its first message equals the `title` stored at creation, whether or not the provider answered |
| Store.FindAppended | app/api/chat/route.ts:84-90 | a conversation inserted under a new id is the one the lookup by that id returns |
| Conversations.ListingOwnedOnly | app/api/conversations/route.ts:11-26 | the listing has one entry per conversation of the caller, and each entry is one of the caller's conversations |
| Conversations.ListingComplete | app/api/conversations/route.ts:11-26 | every conversation of the caller is summarised in the listing |
| Conversations.ListingNewestFirst | app/api/conversations/route.ts:11-13 | the listing is strictly descending by creation time |
| Conversations.List | app/api/conversations/route.ts:4-33 | 401 without a caller, and otherwise 200 with the caller's listing |
| Conversations.DeletionIsComplete | app/api/conversations/route.ts:58-60 | after the delete, the ownership check on that id fails and its history is empty, while every other conversation and message is kept |
| Conversations.Delete | app/api/conversations/route.ts:35-67 | 401 without a caller, 400 without an id, 404 unless the caller owns it (each leaving the store unchanged), and otherwise success with the conversation and its messages removed |
| RateLimit.Admit | lib/ratelimit.ts:5-26 | one call as a value: the answer and the new table for the four cases (no record, window expired, at the limit, under the limit); its properties are the lemmas above |
| RateLimit.Swept | lib/ratelimit.ts:30-37 | the table the sweep leaves: the records whose last reset is at most 60000 ms old; characterised by `SweptKeys` |
| Store.Transcript | app/api/chat/route.ts:38-41 | the messages of one conversation in creation order; characterised by `TranscriptMembers`, `TranscriptAppend` and `TranscriptAscending` |
| Http.Get | app/api/chat/route.ts:17-18 | a header or query value as the handlers test it: a missing entry and an empty string both count as absent |
| Chat.IsUuid | app/api/chat/route.ts:12 | a UUID string: 8-4-4-4-12 hexadecimal digits separated by hyphens |
| Chat.ClientIp | app/api/chat/route.ts:58 | the limiter key: the forwarded-for header when present and non-empty, otherwise 127.0.0.1 |
| Chat.ToApi | app/api/chat/route.ts:116-119 | the provider's message list: role and content of each history message, in the same order |
| Conversations.ListedTitle | app/api/conversations/route.ts:25 | the listed title: the first 30 characters of the first message, or "Empty Conversation" when there is no message or the prefix is empty; characterised by `ListedTitleShape` |
| Conversations.Listing | app/api/conversations/route.ts:11-26 | the listing: the caller's conversations newest first, each summarised; characterised by `ListingOwnedOnly`, `ListingComplete` and `ListingNewestFirst` |
| Middleware.Middleware | middleware.ts:5-27 | the middleware's decision: public paths pass untouched; otherwise no verified user redirects to `/login`, and a verified user is forwarded with `x-user-id` set to that user; characterised by the middleware lemmas below |
| Middleware.Matched | middleware.ts:29-39 | the matcher: a path starting with `/` whose rest does not begin with `_next/static`, `_next/image` or `public` |
| Middleware.Gateway | middleware.ts:29-39 | what reaches a handler: matched requests go through the middleware, unmatched ones pass untouched; characterised by `ExcludedPathsSkipMiddleware` and `HandlersSeeVerifiedUser` |
| Auth.Registered | app/api/auth/register/route.ts:5-33 | registration as a value: 500 for an unreadable body, 400 for a missing field or a taken username, otherwise one new account and a session; characterised by the registration lemmas below |
| Middleware.PublicPathsAreExact | middleware.ts:6-7 | exactly the four listed paths are public, compared as whole strings |
| Middleware.PublicPathsBypassSession | middleware.ts:9-11 | a public path passes on with its headers untouched, with or without a session |
| Middleware.NoSessionRedirects | middleware.ts:13-16 | a protected path redirects to `/login` exactly when there is no verified user |
| Middleware.SessionInjectsUserId | middleware.ts:18-26 | with a verified user the request passes on with `x-user-id` set to that user and every other header kept |
| Middleware.ExcludedPathsSkipMiddleware | middleware.ts:37 | paths under `/_next/static`, `/_next/image` and `/public` never reach the middleware |
| Middleware.HandlersSeeVerifiedUser | middleware.ts:5-27 | a protected request that reaches a handler carries the verified session's user id as `x-user-id` |
| Middleware.ApiRoutesAreGuarded | middleware.ts:6-37 | the chat and conversations API routes are matched and not public |
| Auth.Login | app/api/auth/login/route.ts:5-30 | a session is issued exactly when both fields are given, the user exists and the password verifies, and it is that user's id; an unreadable body gives 500, a missing or empty field gives 400 "Username and password required", and with both fields given an unknown user or a failed verification gives exactly 401 "Invalid credentials" |
| Auth.RegisterNeedsBothFields | app/api/auth/register/route.ts:9-11 | a missing or empty username or password gives 400 and adds no account |
| Auth.RegisterAddsOneAccount | app/api/auth/register/route.ts:18-28 | a successful registration adds exactly one account, under the username, with the fresh id and the hash of the password |
| Auth.RegisterSessionOnlyOnSuccess | app/api/auth/register/route.ts:26-28 | a session is issued exactly when registration succeeds, and a failure leaves the accounts unchanged |
| Auth.RegisterTwiceFails | app/api/auth/register/route.ts:13-16 | registering a taken username again, with any password, gives 400 "Username already taken" and keeps the first account |
| Auth.LoginFailuresIndistinguishable | app/api/auth/login/route.ts:14-21 | an unknown username and a wrong password give the same 401 response |
| Auth.RegisterThenLogin | app/api/auth/login/route.ts:13-23 | after registering, logging in with the same password issues a session for the new account |
| Auth.Register | app/api/auth/register/route.ts:5-33 | the handler changes the accounts and answers as `Registered` states and touches no other table |

## Left out

- Exceptions thrown by the store, the JSON parser or the network become the 500 "Internal Server Error" responses of each handler's `catch`. The model has no failing store, so those paths are not modelled, except that an unreadable request body gives 500 in the chat POST and in login and registration.
- Sessions are not modelled: cookie handling and JWT signing in `lib/auth.ts` are not part of this model. The session is an optional user id given to the middleware and returned by registration and login.
- Password hashing is a deterministic function parameter. The salt randomness of bcrypt is not modelled; `verify(p, hash(p))` is an assumption of `Auth.RegisterThenLogin`.
- Chat.ChatSchema: the validation error text is one constant message, not the validator's generated text. The UUID check is the 8-4-4-4-12 hexadecimal shape, without the validator's version and variant digit rules.
- Chat.ChatSchema, Http.Prefix: lengths count characters, whereas JavaScript counts UTF-16 code units.
- Header names are compared exactly. HTTP's case-insensitive header matching is not modelled.
- Auth.Login, Auth.Register: `username` and `password` are modelled as strings or absent. Other JSON types, which JavaScript truthiness would let through, are not modelled.
- The provider call is modelled as a function from the message list to `Failed` or `Completed(reply)`. The model name, temperature, token limit, headers and a successful response without `choices[0]` (which would throw and give 500) are not modelled.
- Concurrency is not modelled: each request runs to completion before the next starts, so no two timestamps are equal and no two requests race on the limiter or the store.
- Timestamps come from a strictly increasing clock, so "order by createdAt" has no ties. The store's order between equal timestamps is not modelled.
- Store.Db.DeleteConversation: deleting a conversation also deletes its messages (a cascading relation). The database schema is not part of this model.
- RateLimit.Limiter.RateLimit: the source mutates the stored record object in place. The model writes a new record into the map, which is the same as far as the map is observable.
- RateLimit.Limiter.Sweep: the one-minute timer and the `NODE_ENV` test switch are not modelled. The sweep is a method the caller runs with the current time.
- Middleware: for a protected API path without a session the code redirects to `/login`. It does not answer 401, and the model follows the code.
- The `title` stored with a conversation is written but never read by the listing, which derives titles from the first message. `Conversations.ListedTitleIsCreationTitle` relates the two.
- Client IPs from `x-forwarded-for` are used verbatim as limiter keys, as the code does. Splitting a list of proxies is not modelled.
