# Narwhal quiz engine and blob-store client, modelled in Dafny

This project models two parts of the Narwhal quiz dApp front end and proves properties of them.

**The quiz round engine of the game page** (`src/pages/GamePage.tsx`). The page holds six pieces of state:

- the seconds left on the clock (20 at the start of a question);
- the phase, `Question` or `Leaderboard`;
- the current question index;
- the selected option, or none;
- the local player's score;
- the final standing.

Three things drive it. A one-second timer counts the clock down while a question is shown. A click on an answer locks in one option per question. When the clock reaches 0 the round ends: a correct answer scores, and then either the next question starts or the final standing is built. The standing has one entry per player of the game. The local player gets their real score. Every other player gets a seeded placeholder score from a string hash. The entries are then stable-sorted by score, highest first. The dashboard button reports a win when the first entry's address is the connected account's, compared case-insensitively.

The model has two layers:

- `GamePage.State` is one render's snapshot of the state. The pure functions `SelectOption`, `NextPhase` and `Tick` give each handler's effect on it.
- The class `GamePage.GameRound` holds the same state in fields. Its methods are proved to perform exactly those effects.

A handler reads the values of the render it was created in, and React applies its updates afterwards. So `generateFinalLeaderboard` sees the score from before the last round was added, and adds that round's bonus itself. The model keeps this ordering.

**The blob-store client** (`src/utils/walrus.ts`). An upload tries a list of publishers in order. The first one that returns a blob id wins, and no later publisher is contacted. If every publisher fails, the upload fails with the last recorded error. The request URL is the publisher URL with one trailing slash removed, followed by `?epochs=30`. The blob id is read from three places in the response, in order of precedence. A retrieval URL is the first aggregator, a slash, and the blob id. One publisher attempt's network exchange is a value of `Walrus.Attempt`. A `network` function parameter supplies that value for each request URL.

Modules:

- `Wrappers`: Option and Result.
- `Js`: ToInt32, `<< 5` and `toLowerCase`, written out.
- `MockScore`: the placeholder score.
- `Leaderboard`: the standing and the winner check.
- `GamePage`: the round engine.
- `Walrus`: the blob-store client.

## Model

| member | source | states |
|---|---|---|
| `Js.ToInt32` | src/pages/GamePage.tsx:29 | The result is a signed 32-bit value congruent to the input modulo 2^32, which is how `<<` converts its left operand. |
| `Js.ToInt32Unique` | src/pages/GamePage.tsx:29 | Those two properties determine ToInt32's result, so it is the ECMAScript conversion and nothing else. |
| `Js.ToInt32Identity` | src/pages/GamePage.tsx:29 | Values already in the signed 32-bit range pass through unchanged. |
| `Js.ShiftLeft5` | src/pages/GamePage.tsx:29 | `hash << 5` is a signed 32-bit value congruent to 32·hash modulo 2^32. |
| `Js.ToLower` | src/pages/GamePage.tsx:96 | `toLowerCase` keeps the length and lower-cases each character on its own. |
| `Js.ToLowerIdempotent` | src/pages/GamePage.tsx:96 | Lower-casing twice gives the same string as lower-casing once. |
| `Js.SameAddressCharwise` | src/pages/GamePage.tsx:96 | Two addresses match case-insensitively iff they have the same length and agree at every position up to ASCII letter case. |
| `MockScore.DeterministicScore` | src/pages/GamePage.tsx:26-34 | The mock score depends only on the seed and always lies in [1000, 3999]. Its offset from 1000 is the hash's absolute value modulo 3000. |
| `MockScore.GetDeterministicScore` | src/pages/GamePage.tsx:26-34 | The hash loop over the seed's characters returns exactly `DeterministicScore(seed)`, which is in [1000, 3999]. |
| `MockScore.HashIsPoly31` | src/pages/GamePage.tsx:27-30 | `(hash << 5) - hash` multiplies by 31 modulo 2^32, so the loop's hash agrees modulo 2^32 with the 31-multiplier polynomial hash of the seed (`Poly31`, computed without wrap-around). |
| `MockScore.HashBound` | src/pages/GamePage.tsx:28-30 | The hash's magnitude grows by at most 2^31 + 0x110000 per character of the seed. |
| `MockScore.HashFitsDouble` | src/pages/GamePage.tsx:28-30 | For every seed shorter than 2^21 characters the hash stays below 2^53 in magnitude, so the source's double arithmetic on it is exact. |
| `Leaderboard.Insert` | src/pages/GamePage.tsx:106 | Inserting an entry adds exactly that entry to the multiset of entries. |
| `Leaderboard.InsertSorted` | src/pages/GamePage.tsx:106 | Inserting into a non-increasing list keeps it non-increasing. |
| `Leaderboard.InsertWithScore` | src/pages/GamePage.tsx:106 | An inserted entry goes ahead of the entries it ties with, and keeps the order of every score class. |
| `Leaderboard.InsertAddresses` | src/pages/GamePage.tsx:106 | Inserting an entry adds exactly its address to the multiset of addresses. |
| `Leaderboard.SortByScore` | src/pages/GamePage.tsx:106 | The sort returns a permutation of its input. |
| `Leaderboard.SortByScoreSorted` | src/pages/GamePage.tsx:106 | The sort's output has non-increasing scores (comparator `b.score - a.score`). |
| `Leaderboard.SortByScoreStable` | src/pages/GamePage.tsx:106 | The sort is stable: for every score value, the entries with that score keep their input order. |
| `Leaderboard.SortByScoreAddresses` | src/pages/GamePage.tsx:106 | The sort keeps the multiset of addresses. |
| `Leaderboard.FinalLeaderboardSpec` | src/pages/GamePage.tsx:90-108 | The final standing has one entry per player, with the same multiset of addresses, and scores non-increasing. Ties stay in `players` order. The local account's entries carry the local score and every other entry carries the mock score seeded with game id plus address. |
| `Leaderboard.WinnerHasTopScore` | src/pages/GamePage.tsx:202 | When the winner check succeeds, no entry of the standing exceeds the local player's score. |
| `Leaderboard.TopScorerIsWinner` | src/pages/GamePage.tsx:202 | When the local account is among the players and strictly outscores every other player, the winner check succeeds. |
| `GamePage.SelectionLock` | src/pages/GamePage.tsx:110-113 | The first selection of a round is kept and a second one changes nothing. Selecting touches no state other than the selection. |
| `GamePage.TickCountsDown` | src/pages/GamePage.tsx:57-61 | The clock goes down only in the `Question` phase with time left. When it does, it drops by exactly one second and nothing else changes. |
| `GamePage.Step` | src/pages/GamePage.tsx:57-67 | Every timer event or click keeps the state valid: clock in [0, 20], question index in range, score non-negative, and `Leaderboard` only on the last question. |
| `GamePage.NextPhaseScoresCorrectAnswersOnly` | src/pages/GamePage.tsx:71-75 | Ending a round raises the score iff an answer is selected and it is the correct one. The raise is then 500 plus 50 per second left; otherwise the score is unchanged. |
| `GamePage.TimeoutScoresBasePoints` | src/pages/GamePage.tsx:60-75 | The timer ends a round only when the clock reads 0, so a correct answer earns exactly 500. No other timer event changes the score. |
| `GamePage.NextPhaseAdvances` | src/pages/GamePage.tsx:77-82 | Before the last question, ending a round moves to the next index and resets the clock to 20. It also clears the selection and keeps the phase and the standing. |
| `GamePage.NextPhaseEndsGame` | src/pages/GamePage.tsx:83-87 | On the last question the phase becomes `Leaderboard` and the standing is built from the settled score. It has one entry per player, and the local account's entries carry exactly the page's final score. |
| `GamePage.LeaderboardIsTerminal` | src/pages/GamePage.tsx:57-58 | Once in `Leaderboard`, no sequence of timer events and clicks changes the phase, score, standing, question or clock. |
| `GamePage.StepKeepsReachable` | src/pages/GamePage.tsx:57-113 | One timer event or click keeps the reachable-state invariant: the score is a multiple of 500, at most 500 per settled round, and the standing is empty before the game ends. |
| `GamePage.RunKeepsReachable` | src/pages/GamePage.tsx:42-113 | Every run of timer events and clicks from a reachable state stays reachable. |
| `GamePage.InitialIsReachable` | src/pages/GamePage.tsx:42-47 | The initial state (20 seconds, `Question`, index 0, no selection, score 0, empty standing) is reachable. |
| `GamePage.GameRound.constructor` | src/pages/GamePage.tsx:42-47 | The component starts in the initial state. |
| `GamePage.GameRound.HandleOptionSelect` | src/pages/GamePage.tsx:110-113 | The handler performs `SelectOption` on the component's state. |
| `GamePage.GameRound.GenerateFinalLeaderboard` | src/pages/GamePage.tsx:90-108 | It sets only the standing. The standing is built from the render's players, account and game id, with the render's score plus the bonus of the round being ended. |
| `GamePage.GameRound.HandleNextPhase` | src/pages/GamePage.tsx:69-88 | The handler performs `NextPhase` on the component's state. |
| `GamePage.GameRound.TimerTick` | src/pages/GamePage.tsx:57-67 | One timer event performs `Tick` on the component's state. |
| `Walrus.TrimTrailingSlash` | src/utils/walrus.ts:33 | A URL ending in `/` loses exactly that one slash. Any other URL is returned unchanged. |
| `Walrus.EndpointShape` | src/utils/walrus.ts:33-40 | A request URL is the trimmed publisher URL followed by `?epochs=30`. Removing the query gives back the publisher URL, or that URL minus one trailing slash. |
| `Walrus.NoSlashBeforeQuery` | src/utils/walrus.ts:32-33 | Unless a publisher URL ends in `//`, no slash stands right before the query in its request URL. |
| `Walrus.ConfiguredEndpoints` | src/utils/walrus.ts:1-10 | Each configured publisher is requested as listed, followed by `?epochs=30`. |
| `Walrus.ExtractBlobId` | src/utils/walrus.ts:65-68 | The blob id is `newlyCreated.blobObject.blobId`, then `blobObject.blobId`, then `blobId`. An absent or empty id falls through to the next. The result is truthy iff one of the three is. |
| `Walrus.AttemptResult` | src/utils/walrus.ts:44-74 | An attempt succeeds iff the response is ok, its body parses, and a truthy blob id is found; the result is that id. Otherwise it fails with `RequestFailed` (the request itself failed), `UploadFailed` (not ok), `InvalidJson` or `BlobIdMissing`. |
| `Walrus.UploadToWalrus` | src/utils/walrus.ts:27-84 | The fallback loop returns the reference result `Upload` and sends exactly the requests `Requested`. |
| `Walrus.UploadSucceedsIff` | src/utils/walrus.ts:30-83 | The upload succeeds iff some publisher's attempt succeeds. |
| `Walrus.FirstSuccessWins` | src/utils/walrus.ts:30-74 | When publisher k is the first whose attempt succeeds, the upload returns its blob id. Only publishers 0..k are requested, in order. |
| `Walrus.AllFailReportsLastError` | src/utils/walrus.ts:76-83 | When every attempt fails, every publisher is requested in order. The upload then fails carrying the last publisher's error, or no error for an empty list. |
| `Walrus.WalrusUrlRoundTrip` | src/utils/walrus.ts:90-99 | A retrieval URL is the first aggregator, `/` and the blob id, and the id can be read back from it, so distinct ids give distinct URLs. |

## Left out

- `src/pages/GamePage.tsx` has no round clock anchored to a shared start timestamp, no feedback phase, no score submission to the ledger, no polling of a remote score table and no reward finalizer. It runs a local 20-second countdown and gives every other player a mock score. The reward claim in `src/pages/DashboardPage.tsx` is a mock.
- Timer scheduling (`setInterval`, `clearInterval`, the effect's re-runs) is modelled as explicit timer events. An interval firing and the effect ending the round at 0 are both one `Tick`. Real time is not modelled.
- The player list query, the connected account and the route's game id are inputs to the handlers (`GamePage.Context`). A missing player list is the empty list, a missing account is `None` and a missing game id is the empty string.
- Rendering is not modelled: the JSX, the timer bar width, avatars, toasts, navigation and console logging.
- Js.ToLower: does not model Unicode case mapping beyond `A`–`Z`, because addresses and game ids are hexadecimal ASCII.
- MockScore.DeterministicScore: uses the character's code point as `charCodeAt`. This agrees with JavaScript only for characters in the Basic Multilingual Plane; a character outside it is two UTF-16 code units in the source.
- MockScore.DeterministicScore: hash arithmetic uses unbounded integers, not doubles. `MockScore.HashFitsDouble` shows the two agree for seeds shorter than 2^21 characters.
- Walrus.UploadToWalrus: takes the publisher list as a parameter. The source always passes `WALRUS_PUBLISHERS`; `Walrus.ConfiguredEndpoints` covers that list.
- The HTTP request, `res.text()` and `JSON.parse` are not modelled. Each publisher attempt is an abstract `Walrus.Attempt`: a network failure, a non-ok response, an unparsable body, or the parsed fields the client reads.
- Walrus.ExtractBlobId: a JSON field that is present but is not a string (a number, an object) is treated as absent. The thrown errors are constructors that carry their fields, not formatted message strings.
- `src/pages/DashboardPage.tsx`, `src/pages/JoinPage.tsx`, `src/pages/LobbyPage.tsx`, `src/components/*`, `src/App.tsx` and `tailwind.config.js` are not part of this model. They are transaction building, routing and presentation.
