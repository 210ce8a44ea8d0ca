/**
 * Two games played through the bot's commands, proved from the contracts
 * alone: a won first round, and a lost first round whose champions can no
 * longer be picked.
 */
module Scenarios {
  import opened Text
  import opened GameSession
  import opened Bot

  function Catalog(): seq<Champion> {
    [Champion("Ahri", "Ahri.png"), Champion("Garen", "Garen.png")]
  }

  lemma CatalogNames()
    ensures Lower("Ahri") == "ahri" && Lower("Garen") == "garen"
    ensures Lower("ahri") == "ahri" && Lower("garen") == "garen" && Lower("AHRI") == "ahri"
    ensures FindChampion(Catalog(), "ahri") == Some(Champion("Ahri", "Ahri.png"))
    ensures FindChampion(Catalog(), "garen") == Some(Champion("Garen", "Garen.png"))
  {
    assert Lower("Ahri") == "ahri";
    assert Lower("Garen") == "garen";
    assert Lower("ahri") == "ahri";
    assert Lower("garen") == "garen";
    assert Lower("AHRI") == "ahri";
  }

  method WonRound() {
    var game := new Game();
    CatalogNames();
    var started := TelepathyCommand(game, 2);
    assert started == Pass;
    var alice := PlayerChoice("a", "Alice", "ahri", "Ahri.png");
    var bob := PlayerChoice("b", "Bob", "ahri", "Ahri.png");
    var first := ChampionCommand(game, Catalog(), "a", "Alice", "Ahri");
    assert first == Recorded(false, RoundOpen);
    assert game.choices == [alice] && game.playerCount == 2 && game.chosen == [];
    assert "b" !in PlayerIds([alice]);
    assert Record([alice], bob) == [alice, bob];
    assert AllPicksMatch([alice, bob]);
    var second := ChampionCommand(game, Catalog(), "b", "Bob", "ahri");
    assert second == Recorded(false, RoundWon);
    assert !game.active && game.roundCount == 1;
    var again := TelepathyCommand(game, 3);
    assert again == Pass && game.chosen == [];
  }

  method LostRound() {
    var game := new Game();
    CatalogNames();
    var started := TelepathyCommand(game, 2);
    var alice := PlayerChoice("a", "Alice", "ahri", "Ahri.png");
    var bob := PlayerChoice("b", "Bob", "garen", "Garen.png");
    var first := ChampionCommand(game, Catalog(), "a", "Alice", "Ahri");
    assert first == Recorded(false, RoundOpen);
    assert game.choices == [alice] && game.playerCount == 2 && game.chosen == [];
    assert "b" !in PlayerIds([alice]);
    assert Record([alice], bob) == [alice, bob];
    assert Lower([alice, bob][1].championName) == "garen" != "ahri" == Lower([alice, bob][0].championName);
    assert !AllPicksMatch([alice, bob]);
    var second := ChampionCommand(game, Catalog(), "b", "Bob", "Garen");
    assert second == Recorded(false, RoundLost);
    assert game.active && game.roundCount == 2 && game.choices == [];
    assert "ahri" in game.chosen && "garen" in game.chosen;
    var third := ChampionCommand(game, Catalog(), "b", "Bob", "AHRI");
    assert third == ChampionUsed;
  }
}
