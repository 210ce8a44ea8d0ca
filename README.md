# discord-telepathy: the game session and its bot commands, in Dafny

The repository is a chat bot for the "telepathy" party game. In each round
every player privately picks a League of Legends champion. The round is won
when all picks name the same champion, ignoring case. A lost round makes its
champions unavailable for the rest of the game, and a new round starts.

This project models:

- `GameSession` (`game.dfy`): the `Game` class of `src/domain/game.ts`.
  It is a Dafny class with the source's six fields. `Valid()` is its
  invariant: player ids in the round are distinct, used-champion keys are
  distinct and lower case, and an active game has at least two players and
  round number at least 1. Every method of the source is a method or a
  function of the class. The getters `active`, `roundCount` and
  `playerCount` are the class's public fields.
- The used-champion `Map<string, boolean>` is modelled by the sequence of its
  keys in insertion order (`chosen`). This is the order `getChosenChampions`
  returns them in. `set` on a new key appends it; `set` on a key already
  present keeps its position (`InsertKey`, `InsertAll`).
- `Bot` (`bot.dfy`): the parts of `src/commands/bot.ts` that touch the game.
  This covers the autocomplete filter, the case-insensitive catalog lookup,
  and the `telepathy`, `surrender` and `champion` command branches. Each
  branch is a method over the bot's one `Game` object. It performs the
  source's calls in the source's order and returns which branch it took, in
  place of the reply text.
- `Text` (`text.dfy`): `toLowerCase` restricted to ASCII letters (`Lower`),
  and `startsWith`.
- `Scenarios` (`scenarios.dfy`): two client methods that play a won round
  and a lost round through the commands. Their asserts about the final state
  follow from the contracts alone.

Where the specification and the code differ, the model follows the code:

- `didPlayersWinRound` on an empty round returns true, because `every` on an
  empty array is true. The specification calls this case undefined or false.
- The bot holds a single `Game` for every channel (`bot.ts:14`, `bot.ts:25`).
  The specification describes one session per channel.
- The `champion` command records the lower-cased name the player typed, not
  the catalog's display name (`bot.ts:159-160`, `bot.ts:181-186`).
- `allPlayersHaveChosenForRound` is true on a new `Game`, since both counts
  are 0.

`AtRest` is the state between two events: no round is being resolved, and
an active round still lacks at least one pick. Every command method keeps
it. So with events handled one at a time, an active round never holds more
picks than there are players, and the `RoundBusy` branch never occurs.

## Model

| member | source | states |
|---|---|---|
| `Text.Lower` | src/domain/game.ts:44 | Lower-casing keeps the length, leaves no ASCII capital, and keeps every other character |
| `Text.LowerIdempotent` | src/domain/game.ts:52 | Lower-casing an already lower-cased name changes nothing, so the stored keys are their own lower case |
| `GameSession.InsertAll` | src/domain/game.ts:43-45 | After `set`ting names into the used map, its keys are exactly the old keys plus the names. Old keys keep their positions, and no key repeats |
| `GameSession.FindIndex` | src/domain/game.ts:58 | `findIndex` gives -1 exactly when no choice has the player id. Otherwise it gives the first position holding that id |
| `GameSession.Record` | src/domain/game.ts:57-80 | A player already in the round keeps the round's length and position; a new player is appended. Afterwards every other player's entry is untouched, the submitting player's entry is the new pick, and player ids stay distinct |
| `GameSession.RecordAll` | src/domain/game.ts:57-80 | Any sequence of submissions keeps the round's player ids distinct |
| `GameSession.RecordAllPlayers` | src/domain/game.ts:57-80 | After a sequence of submissions, the round lists its players in the order of first submission |
| `GameSession.FreshRoundSize` | src/domain/game.ts:57-84 | A round filled from empty has exactly as many entries as distinct players submitted, in first-submission order |
| `GameSession.LatestSubmissionKept` | src/domain/game.ts:60-68 | A player's last submission is the entry the round holds for them |
| `GameSession.AllPicksMatchIffSingleChampion` | src/domain/game.ts:86-89 | Every pick equals the first one, ignoring case, iff at most one champion was picked |
| `GameSession.Game.constructor` | src/domain/game.ts:16-20 | A new session is inactive with both counters 0, no used champions, no choices, the flag clear, and "all chosen" already true |
| `GameSession.Game.StartGame` | src/domain/game.ts:22-36 | While a game is active it fails with InvalidState and changes nothing; this check comes first. With fewer than two players it fails with InvalidArgument and changes nothing. Otherwise the game is active in round 1 with `n` players, nothing is used or chosen, and the processing flag is as before |
| `GameSession.Game.FinishGame` | src/domain/game.ts:38-40 | Clears only `active`, so calling it twice is the same as once |
| `GameSession.Game.FinisheRound` | src/domain/game.ts:42-49 | The used keys become the old keys with each pick's lower-cased name inserted in order. The choices become empty and the round number goes up by one |
| `GameSession.Game.CheckChooseChampion` | src/domain/game.ts:51-55 | Fails with AlreadyUsed iff some used key equals the name ignoring case. It changes nothing |
| `GameSession.Game.ChooseChampionInRound` | src/domain/game.ts:57-80 | Reports "updated" iff the player already had a pick. Only the choices change, as `Record` describes |
| `GameSession.Game.AllPlayersHaveChosenForRound` | src/domain/game.ts:82-84 | True iff the number of distinct players with a pick equals the configured player count |
| `GameSession.Game.DidPlayersWinRound` | src/domain/game.ts:86-89 | True iff all picks are pairwise equal ignoring case, that is, at most one champion was picked (true on an empty round) |
| `GameSession.Game.GetPlayerChoices` | src/domain/game.ts:91-93 | Returns the round's choices, one per player |
| `GameSession.Game.GetChosenChampions` | src/domain/game.ts:95-97 | Returns the used keys in insertion order. They are distinct and lower case |
| `GameSession.Game.IsRoundProcessing` | src/domain/game.ts:99-101 | Returns the re-entrancy flag |
| `GameSession.Game.SetRoundProcessing` | src/domain/game.ts:103-105 | Sets the re-entrancy flag and nothing else |
| `Bot.Matching` | src/commands/bot.ts:267-272 | The filtered catalog holds exactly the entries whose lower-cased name starts with the lower-cased fragment and is not among the lower-cased used names |
| `Bot.MatchingOfPrefix` | src/commands/bot.ts:267-272 | The filter keeps catalog order: filtering a prefix of the catalog gives a prefix of the filtered catalog |
| `Bot.MatchingAt` | src/commands/bot.ts:267-272 | An entry that passes the filter sits in the filtered list right after the passing entries before it |
| `Bot.Suggestions` | src/commands/bot.ts:262-273 | At most 25 entries, all from the catalog, all passing the filter. The result is a prefix of the filtered catalog: either all of it or exactly 25 entries. Every passing entry with fewer than 25 passing entries before it is included |
| `Bot.FindChampion` | src/commands/bot.ts:159-163 | Finds nothing iff no catalog name equals the typed name ignoring case. Otherwise it gives the first catalog entry whose name does |
| `Bot.UsedKeysLowered` | src/commands/bot.ts:264-266 | Lower-casing the used keys again leaves them as they are |
| `Bot.Autocomplete` | src/commands/bot.ts:262-280 | The response is `Suggestions` over the game's used keys. No suggested champion is used in the game |
| `Bot.TelepathyCommand` | src/commands/bot.ts:104-119 | Succeeds iff no game is active and at least two players are asked for. A failure changes nothing; a success starts round 1 fresh |
| `Bot.SurrenderCommand` | src/commands/bot.ts:139-149 | An active game becomes inactive and nothing else changes. Without an active game, nothing changes |
| `Bot.ChampionCommand` | src/commands/bot.ts:151-249 | No active game, an unknown champion, or a used champion each leave the game unchanged. Otherwise the lower-cased pick is recorded as `Record` says. A complete round with the flag clear either ends the game, keeping choices, round and used keys, or runs the lost-round update. In both cases the flag ends clear. A complete round with the flag set changes only the choices |

## Left out

- `src/domain/champions.ts` is not part of this model: it fetches the catalog over HTTP. The catalog is a given `seq<Champion>`.
- `src/index.ts` (health-check server and start-up) is not part of this model: it is I/O only.
- Client setup, login and `registerCommands` (`bot.ts:17-100`) are not modelled: they are platform calls.
- Every `reply`, `send` and `respond` and their text are not modelled; results are datatypes instead. The capitalised pick names (`bot.ts:212`) and the error message text (`game.ts:53`) are left out too.
- The `show_chosen` branch (`bot.ts:121-137`) is not modelled: it only reads `getChosenChampions`, which is modelled.
- `Text.Lower`: does not model Unicode case mapping, because Dafny has no built-in for it; only the letters A-Z are lower-cased.
- Concurrency: events that race while a round is being broadcast, and that `roundProcessing` guards against, are not modelled. The flag is a plain field in a sequential model.
- A failing `send` that skips `setRoundProcessing(false)` is not modelled: it is a platform error.
- Counters are unbounded integers. JavaScript numbers lose precision above 2^53, which is not modelled.
- A missing `players` option is not modelled: the platform makes it required. The typed name is modelled as always present, so the `|| ""` fallback never applies.
