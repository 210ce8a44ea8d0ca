/**
 * The bot's contract with the game session: the champion autocomplete
 * filter, the case-insensitive catalog lookup, and the `telepathy`,
 * `surrender` and `champion` command branches as sequences of `Game` calls.
 * Replies and channel messages are not modelled; a command's result says
 * which branch it took. The bot keeps one `Game` for every channel.
 */
module Bot {
  import opened Text
  import opened GameSession

  /** A catalog entry: the champion's display name and its image. */
  datatype Champion = Champion(name: string, imageUrl: string)

  datatype Option<T> = None | Some(value: T)

  /** How a pick that was recorded affected the round. */
  datatype RoundResolution =
    | RoundOpen  // not every player has picked yet
    | RoundBusy  // the round is complete but another event is resolving it
    | RoundWon   // all picks matched: the game is over
    | RoundLost  // picks differed: their champions are used, next round

  /** Which branch the `champion` command took. */
  datatype ChampionOutcome =
    | NoActiveGame
    | ChampionNotFound
    | ChampionUsed
    | Recorded(changed: bool, resolution: RoundResolution)

  const MaxSuggestions: nat := 25

  /** `list.map(s => s.toLowerCase())`. */
  function LowerAll(names: seq<string>): seq<string> {
    seq(|names|, i requires 0 <= i < |names| => Lower(names[i]))
  }

  /** The autocomplete filter's test for one catalog entry. */
  predicate Suggestible(c: Champion, fragment: string, used: seq<string>) {
    StartsWith(Lower(c.name), Lower(fragment)) && Lower(c.name) !in LowerAll(used)
  }

  /** `catalog.filter(...)`: the suggestible entries, in catalog order. */
  function Matching(catalog: seq<Champion>, fragment: string, used: seq<string>): (m: seq<Champion>)
    ensures forall c :: c in m <==> c in catalog && Suggestible(c, fragment, used)
    ensures |m| <= |catalog|
    decreases |catalog|
  {
    if catalog == [] then []
    else
      var init := Matching(catalog[..|catalog| - 1], fragment, used);
      var last := catalog[|catalog| - 1];
      assert catalog == catalog[..|catalog| - 1] + [last];
      if Suggestible(last, fragment, used) then init + [last] else init
  }

  /** Filtering a prefix of the catalog gives a prefix of the filtered catalog. */
  lemma {:induction false} MatchingOfPrefix(catalog: seq<Champion>, fragment: string, used: seq<string>, i: nat)
    requires i <= |catalog|
    ensures Matching(catalog[..i], fragment, used) <= Matching(catalog, fragment, used)
    decreases |catalog|
  {
    if i < |catalog| {
      var init := catalog[..|catalog| - 1];
      assert init[..i] == catalog[..i];
      MatchingOfPrefix(init, fragment, used, i);
    } else {
      assert catalog[..i] == catalog;
    }
  }

  /** The `i`th catalog entry, if it passes the filter, sits right after the matches before it. */
  lemma MatchingAt(catalog: seq<Champion>, fragment: string, used: seq<string>, i: nat)
    requires i < |catalog| && Suggestible(catalog[i], fragment, used)
    ensures var before := Matching(catalog[..i], fragment, used);
      |before| < |Matching(catalog, fragment, used)| &&
      Matching(catalog, fragment, used)[|before|] == catalog[i]
  {
    var upTo := catalog[..i + 1];
    assert upTo[..i] == catalog[..i];
    assert upTo[..|upTo| - 1] == catalog[..i];
    MatchingOfPrefix(catalog, fragment, used, i + 1);
  }

  /**
   * The autocomplete response: the first 25 catalog entries whose lower-cased
   * name starts with the lower-cased fragment and is not a used champion.
   */
  function Suggestions(catalog: seq<Champion>, fragment: string, used: seq<string>): (r: seq<Champion>)
    ensures |r| <= MaxSuggestions
    ensures forall c :: c in r ==> c in catalog
    ensures forall c :: c in r ==>
      StartsWith(Lower(c.name), Lower(fragment)) && Lower(c.name) !in LowerAll(used)
    ensures r <= Matching(catalog, fragment, used)
    ensures |r| == MaxSuggestions || r == Matching(catalog, fragment, used)
    ensures forall i ::
      (0 <= i < |catalog| && Suggestible(catalog[i], fragment, used) &&
       |Matching(catalog[..i], fragment, used)| < MaxSuggestions) ==> catalog[i] in r
  {
    var m := Matching(catalog, fragment, used);
    var r := if |m| <= MaxSuggestions then m else m[..MaxSuggestions];
    forall i | 0 <= i < |catalog| && Suggestible(catalog[i], fragment, used) &&
      |Matching(catalog[..i], fragment, used)| < MaxSuggestions
      ensures catalog[i] in r
    {
      MatchingAt(catalog, fragment, used, i);
      assert r[|Matching(catalog[..i], fragment, used)|] == catalog[i];
    }
    r
  }

  /** `catalog.find(c => c.name.toLowerCase() === lowered)`. */
  function FindChampion(catalog: seq<Champion>, lowered: string): (r: Option<Champion>)
    ensures r.None? <==> forall i :: 0 <= i < |catalog| ==> Lower(catalog[i].name) != lowered
    ensures r.Some? ==>
      exists i :: (0 <= i < |catalog| && catalog[i] == r.value &&
                   Lower(r.value.name) == lowered &&
                   forall j :: 0 <= j < i ==> Lower(catalog[j].name) != lowered)
    decreases |catalog|
  {
    if catalog == [] then None
    else if Lower(catalog[0].name) == lowered then Some(catalog[0])
    else
      var r := FindChampion(catalog[1..], lowered);
      assert r.Some? ==>
        exists i :: (0 <= i < |catalog[1..]| && catalog[1..][i] == r.value &&
                     forall j :: 0 <= j < i ==> Lower(catalog[1..][j].name) != lowered);
      r
  }

  /** Under the session invariant the used keys are already lower case. */
  lemma UsedKeysLowered(used: seq<string>)
    requires forall k :: k in used ==> Lower(k) == k
    ensures LowerAll(used) == used
  {
  }

  /**
   * Quiet state between events: nobody is resolving a round, and an active
   * round still waits for at least one pick.
   */
  ghost predicate AtRest(game: Game)
    reads game
  {
    !game.roundProcessing && (game.active ==> |game.choices| < game.playerCount)
  }

  /** The autocomplete branch, against the bot's game session. */
  method Autocomplete(game: Game, catalog: seq<Champion>, fragment: string) returns (r: seq<Champion>)
    requires game.Valid()
    ensures r == Suggestions(catalog, fragment, game.chosen)
    ensures forall c :: c in r ==> Lower(c.name) !in game.chosen
  {
    var used := game.GetChosenChampions();
    UsedKeysLowered(used);
    r := Suggestions(catalog, fragment, used);
  }

  /** The `telepathy players:<n>` branch. */
  method TelepathyCommand(game: Game, n: int) returns (r: Outcome)
    requires game.Valid()
    modifies game
    ensures game.Valid()
    ensures r == Pass <==> !old(game.active) && n >= 2
    ensures r.Fail? ==> unchanged(game)
    ensures r == Pass ==>
      (game.active && game.roundCount == 1 && game.playerCount == n &&
       game.chosen == [] && game.choices == [] && game.roundProcessing == old(game.roundProcessing))
    ensures old(AtRest(game)) ==> AtRest(game)
  {
    r := game.StartGame(n);
  }

  /** The `surrender` branch: ends an active game, refuses otherwise. */
  method SurrenderCommand(game: Game) returns (r: Outcome)
    requires game.Valid()
    modifies game
    ensures game.Valid()
    ensures !old(game.active) ==> r == Fail(InvalidState) && unchanged(game)
    ensures old(game.active) ==> r == Pass && !game.active
    ensures game.roundCount == old(game.roundCount) && game.playerCount == old(game.playerCount)
    ensures game.chosen == old(game.chosen) && game.choices == old(game.choices)
    ensures game.roundProcessing == old(game.roundProcessing)
    ensures old(AtRest(game)) ==> AtRest(game)
  {
    if !game.active {
      return Fail(InvalidState);
    }
    game.FinishGame();
    r := Pass;
  }

  /** The `champion champion_name:<name>` branch, submitted by one player. */
  method ChampionCommand(game: Game, catalog: seq<Champion>, playerId: string, playerName: string, typed: string)
    returns (o: ChampionOutcome)
    requires game.Valid()
    modifies game
    ensures game.Valid()
    ensures !old(game.active) ==> o == NoActiveGame && unchanged(game)
    ensures old(game.active) && FindChampion(catalog, Lower(typed)).None? ==>
      o == ChampionNotFound && unchanged(game)
    ensures (old(game.active) && FindChampion(catalog, Lower(typed)).Some? &&
             Lower(typed) in old(game.chosen)) ==> o == ChampionUsed && unchanged(game)
    ensures (old(game.active) && FindChampion(catalog, Lower(typed)).Some? &&
             Lower(typed) !in old(game.chosen)) ==>
      var pick := PlayerChoice(playerId, playerName, Lower(typed), FindChampion(catalog, Lower(typed)).value.imageUrl);
      var round := Record(old(game.choices), pick);
      && o.Recorded?
      && (o.changed <==> playerId in PlayerIds(old(game.choices)))
      && game.playerCount == old(game.playerCount)
      && (|round| != game.playerCount ==>
            o.resolution == RoundOpen && game.choices == round && game.active &&
            game.chosen == old(game.chosen) && game.roundCount == old(game.roundCount) &&
            game.roundProcessing == old(game.roundProcessing))
      && (|round| == game.playerCount && old(game.roundProcessing) ==>
            o.resolution == RoundBusy && game.choices == round && game.active &&
            game.chosen == old(game.chosen) && game.roundCount == old(game.roundCount) &&
            game.roundProcessing)
      && (|round| == game.playerCount && !old(game.roundProcessing) && AllPicksMatch(round) ==>
            o.resolution == RoundWon && !game.active && game.choices == round &&
            game.chosen == old(game.chosen) && game.roundCount == old(game.roundCount) &&
            !game.roundProcessing)
      && (|round| == game.playerCount && !old(game.roundProcessing) && !AllPicksMatch(round) ==>
            o.resolution == RoundLost && game.active && game.choices == [] &&
            game.chosen == InsertAll(old(game.chosen), LoweredNames(round)) &&
            game.roundCount == old(game.roundCount) + 1 &&
            !game.roundProcessing)
    ensures old(AtRest(game)) ==> AtRest(game)
  {
    if !game.active {
      return NoActiveGame;
    }
    var championName := Lower(typed);
    var champion := FindChampion(catalog, championName);
    if champion.None? {
      return ChampionNotFound;
    }
    LowerIdempotent(typed);
    var check := game.CheckChooseChampion(championName);
    if check.Fail? {
      return ChampionUsed;
    }
    var changed := game.ChooseChampionInRound(playerId, playerName, championName, champion.value.imageUrl);
    if !game.AllPlayersHaveChosenForRound() {
      return Recorded(changed, RoundOpen);
    }
    var busy := game.IsRoundProcessing();
    if busy {
      return Recorded(changed, RoundBusy);
    }
    game.SetRoundProcessing(true);
    var resolution;
    if game.DidPlayersWinRound() {
      game.FinishGame();
      resolution := RoundWon;
    } else {
      game.FinisheRound();
      resolution := RoundLost;
    }
    game.SetRoundProcessing(false);
    o := Recorded(changed, resolution);
  }
}
