/**
 * The telepathy game session: one game of several rounds, in each of which
 * every player picks a champion; the round is won when all picks agree.
 *
 * The game-wide map of used champions (a JavaScript `Map<string, boolean>`
 * whose keys are the lower-cased names) is modelled by its key sequence in
 * insertion order: `set` on a new key appends it, `set` on a present key
 * leaves the order alone.
 */
module GameSession {
  import opened Text

  /** One player's pick for the current round; `playerId` is its identity. */
  datatype PlayerChoice = PlayerChoice(
    playerId: string,
    playerName: string,
    championName: string,
    championImage: string)

  /** The conditions under which the game's operations throw. */
  datatype GameError =
    | InvalidState     // a game is already in progress
    | InvalidArgument  // fewer than two players
    | AlreadyUsed      // the champion was used in an earlier round

  datatype Outcome = Pass | Fail(error: GameError)

  predicate Distinct(s: seq<string>) {
    forall i, j :: 0 <= i < j < |s| ==> s[i] != s[j]
  }

  function PlayerIds(cs: seq<PlayerChoice>): seq<string> {
    seq(|cs|, i requires 0 <= i < |cs| => cs[i].playerId)
  }

  /** The lower-cased champion names of a round, in submission order. */
  function LoweredNames(cs: seq<PlayerChoice>): seq<string> {
    seq(|cs|, i requires 0 <= i < |cs| => Lower(cs[i].championName))
  }

  lemma LoweredNamesStep(cs: seq<PlayerChoice>, i: int)
    requires 0 <= i < |cs|
    ensures LoweredNames(cs[..i + 1]) == LoweredNames(cs[..i]) + [Lower(cs[i].championName)]
  {
    assert LoweredNames(cs[..i + 1])[i] == Lower(cs[i].championName);
  }

  /** Each pick's lower-cased name is listed, and is its own lower case. */
  lemma LoweredNamesAreLower(cs: seq<PlayerChoice>)
    ensures forall c :: c in cs ==> Lower(c.championName) in LoweredNames(cs)
    ensures forall k :: k in LoweredNames(cs) ==> Lower(k) == k
  {
    forall k | k in LoweredNames(cs)
      ensures Lower(k) == k
    {
      var i :| 0 <= i < |cs| && LoweredNames(cs)[i] == k;
      LowerIdempotent(cs[i].championName);
    }
    forall c | c in cs
      ensures Lower(c.championName) in LoweredNames(cs)
    {
      var i :| 0 <= i < |cs| && cs[i] == c;
      assert LoweredNames(cs)[i] == Lower(c.championName);
    }
  }

  /** The set of (lower-cased) champions picked in a round. */
  function ChampionsPicked(cs: seq<PlayerChoice>): set<string> {
    set i | 0 <= i < |cs| :: Lower(cs[i].championName)
  }

  // ---------------------------------------------------------------------
  // Insertion-ordered keys (the model of a JavaScript Map's key list)
  // ---------------------------------------------------------------------

  function InsertKey(keys: seq<string>, k: string): seq<string> {
    if k in keys then keys else keys + [k]
  }

  /** The keys after `set`ting each element of `ks` in turn. */
  function InsertAll(keys: seq<string>, ks: seq<string>): (r: seq<string>)
    ensures forall x :: x in r <==> x in keys || x in ks
    ensures keys <= r
    ensures Distinct(keys) ==> Distinct(r)
    decreases |ks|
  {
    if ks == [] then keys
    else InsertKey(InsertAll(keys, ks[..|ks| - 1]), ks[|ks| - 1])
  }

  /** A sequence without repetitions has as many elements as its set. */
  lemma {:induction false} DistinctCard(s: seq<string>)
    requires Distinct(s)
    ensures |set x | x in s| == |s|
  {
    if s != [] {
      var t := s[1..];
      assert Distinct(t);
      DistinctCard(t);
      assert (set x | x in s) == (set x | x in t) + {s[0]};
      assert s[0] !in t;
    }
  }

  // ---------------------------------------------------------------------
  // Recording a pick (the pure meaning of chooseChampionInRound)
  // ---------------------------------------------------------------------

  /** `findIndex` on the player id: the first position of `playerId`, or -1. */
  function FindIndex(cs: seq<PlayerChoice>, playerId: string): (k: int)
    ensures -1 <= k < |cs|
    ensures k == -1 <==> playerId !in PlayerIds(cs)
    ensures 0 <= k ==> cs[k].playerId == playerId
    ensures forall i :: 0 <= i < k ==> cs[i].playerId != playerId
    decreases |cs|
  {
    if cs == [] then -1
    else if cs[0].playerId == playerId then
      assert PlayerIds(cs)[0] == playerId;
      0
    else
      var k := FindIndex(cs[1..], playerId);
      assert PlayerIds(cs) == [cs[0].playerId] + PlayerIds(cs[1..]);
      if k == -1 then -1 else k + 1
  }

  /**
   * The round's choices after `c` is submitted: a player already present
   * has the entry overwritten in place, a new player is appended.
   */
  function Record(cs: seq<PlayerChoice>, c: PlayerChoice): (r: seq<PlayerChoice>)
    ensures c.playerId in PlayerIds(cs) ==> |r| == |cs|
    ensures c.playerId !in PlayerIds(cs) ==> r == cs + [c]
    ensures PlayerIds(r) == InsertKey(PlayerIds(cs), c.playerId)
    ensures Distinct(PlayerIds(cs)) ==>
      Distinct(PlayerIds(r)) &&
      forall i :: 0 <= i < |r| ==>
        r[i] == if i < |cs| && cs[i].playerId != c.playerId then cs[i] else c
  {
    var k := FindIndex(cs, c.playerId);
    assert forall i :: 0 <= i < |cs| ==> PlayerIds(cs)[i] == cs[i].playerId;
    if k == -1 then cs + [c] else cs[k := c]
  }

  /** The round's choices after each of `subs` is submitted in turn. */
  function RecordAll(cs: seq<PlayerChoice>, subs: seq<PlayerChoice>): (r: seq<PlayerChoice>)
    ensures Distinct(PlayerIds(cs)) ==> Distinct(PlayerIds(r))
    decreases |subs|
  {
    if subs == [] then cs
    else Record(RecordAll(cs, subs[..|subs| - 1]), subs[|subs| - 1])
  }

  /** Players appear in the order of their first submission, once each. */
  lemma {:induction false} RecordAllPlayers(cs: seq<PlayerChoice>, subs: seq<PlayerChoice>)
    ensures PlayerIds(RecordAll(cs, subs)) == InsertAll(PlayerIds(cs), PlayerIds(subs))
    decreases |subs|
  {
    if subs != [] {
      var init := subs[..|subs| - 1];
      RecordAllPlayers(cs, init);
      var ids := PlayerIds(subs);
      assert ids[..|ids| - 1] == PlayerIds(init);
    }
  }

  /**
   * Starting from an empty round, the number of choices is the number of
   * distinct players who submitted, in first-submission order.
   */
  lemma FreshRoundSize(subs: seq<PlayerChoice>)
    ensures PlayerIds(RecordAll([], subs)) == InsertAll([], PlayerIds(subs))
    ensures |RecordAll([], subs)| == |set id | id in PlayerIds(subs)|
  {
    RecordAllPlayers([], subs);
    var ids := PlayerIds(RecordAll([], subs));
    assert Distinct(PlayerIds([]));
    DistinctCard(ids);
    assert (set id | id in ids) == (set id | id in PlayerIds(subs));
  }

  /** A player's last submission is the one kept in the round. */
  lemma {:induction false} LatestSubmissionKept(cs: seq<PlayerChoice>, subs: seq<PlayerChoice>, j: int)
    requires Distinct(PlayerIds(cs))
    requires 0 <= j < |subs|
    requires forall k :: j < k < |subs| ==> subs[k].playerId != subs[j].playerId
    ensures subs[j] in RecordAll(cs, subs)
    decreases |subs|
  {
    var init := subs[..|subs| - 1];
    var c := subs[|subs| - 1];
    var before := RecordAll(cs, init);
    var after := RecordAll(cs, subs);
    assert after == Record(before, c);
    if j == |subs| - 1 {
      assert after[|after| - 1] == c || c in after;
    } else {
      LatestSubmissionKept(cs, init, j);
      var p :| 0 <= p < |before| && before[p] == subs[j];
      assert before[p].playerId != c.playerId;
      assert after[p] == before[p];
    }
  }

  /** Every pick agrees with the first one (`Array.every`, true on []). */
  predicate AllPicksMatch(cs: seq<PlayerChoice>) {
    forall i :: 0 <= i < |cs| ==> Lower(cs[i].championName) == Lower(cs[0].championName)
  }

  /** All picks agree exactly when at most one champion was picked. */
  lemma AllPicksMatchIffSingleChampion(cs: seq<PlayerChoice>)
    ensures AllPicksMatch(cs) <==> |ChampionsPicked(cs)| <= 1
  {
    if cs != [] {
      var first := Lower(cs[0].championName);
      if AllPicksMatch(cs) {
        assert ChampionsPicked(cs) == {first};
      } else {
        var i :| 0 <= i < |cs| && Lower(cs[i].championName) != first;
        var other := Lower(cs[i].championName);
        assert first in ChampionsPicked(cs);
        assert other in ChampionsPicked(cs);
        var both := {first, other};
        var picked := ChampionsPicked(cs);
        assert picked == (picked - both) + both;
        assert |both| == 2;
      }
    } else {
      assert ChampionsPicked(cs) == {};
    }
  }

  // ---------------------------------------------------------------------
  // The game session
  // ---------------------------------------------------------------------

  class Game {
    var active: bool
    var roundCount: nat
    var playerCount: int
    /** Keys of the used-champion map, in insertion order. */
    var chosen: seq<string>
    /** The current round's choices, at most one per player. */
    var choices: seq<PlayerChoice>
    var roundProcessing: bool

    ghost predicate Valid()
      reads this
    {
      && Distinct(PlayerIds(choices))
      && Distinct(chosen)
      && (forall k :: k in chosen ==> Lower(k) == k)
      && (active ==> playerCount >= 2 && roundCount >= 1)
    }

    /** A new session: no game yet, and (0 == 0) "everybody has chosen". */
    constructor ()
      ensures Valid()
      ensures !active && roundCount == 0 && playerCount == 0
      ensures chosen == [] && choices == [] && !roundProcessing
      ensures AllPlayersHaveChosenForRound()
    {
      active, roundCount, playerCount := false, 0, 0;
      chosen, choices, roundProcessing := [], [], false;
    }

    method StartGame(n: int) returns (r: Outcome)
      requires Valid()
      modifies this
      ensures Valid()
      ensures old(active) ==> r == Fail(InvalidState)
      ensures !old(active) && n < 2 ==> r == Fail(InvalidArgument)
      ensures r.Fail? ==> unchanged(this)
      ensures !old(active) && n >= 2 ==>
        && r == Pass
        && active && roundCount == 1 && playerCount == n
        && chosen == [] && choices == []
        && roundProcessing == old(roundProcessing)
    {
      if active {
        return Fail(InvalidState);
      }
      if n < 2 {
        return Fail(InvalidArgument);
      }
      playerCount := n;
      active := true;
      roundCount := 1;
      chosen := [];
      choices := [];
      r := Pass;
    }

    /** Ends the game; counters, used champions and choices stay as they are. */
    method FinishGame()
      requires Valid()
      modifies this`active
      ensures Valid() && !active
    {
      active := false;
    }

    /** A lost round: its champions become used, and the next round opens. */
    method FinisheRound()
      requires Valid()
      modifies this`chosen, this`choices, this`roundCount
      ensures Valid()
      ensures chosen == InsertAll(old(chosen), LoweredNames(old(choices)))
      ensures forall c :: c in old(choices) ==> Lower(c.championName) in chosen
      ensures forall k :: k in chosen <==> k in old(chosen) || k in LoweredNames(old(choices))
      ensures choices == [] && roundCount == old(roundCount) + 1
    {
      for i := 0 to |choices|
        modifies this`chosen
        invariant chosen == InsertAll(old(chosen), LoweredNames(choices[..i]))
      {
        var key := Lower(choices[i].championName);
        if key !in chosen {
          chosen := chosen + [key];
        }
        LoweredNamesStep(choices, i);
      }
      assert choices[..|choices|] == choices;
      LoweredNamesAreLower(choices);
      choices := [];
      roundCount := roundCount + 1;
    }

    /** Refuses a champion whose name, in any casing, is already used. */
    method CheckChooseChampion(name: string) returns (r: Outcome)
      requires Valid()
      ensures r.Fail? <==> exists k :: k in chosen && Lower(k) == Lower(name)
      ensures r.Fail? ==> r.error == AlreadyUsed
    {
      if Lower(name) in chosen {
        r := Fail(AlreadyUsed);
      } else {
        r := Pass;
      }
    }

    /** Records a pick; `updated` tells whether the player had one already. */
    method ChooseChampionInRound(playerId: string, playerName: string, championName: string, championImage: string)
      returns (updated: bool)
      requires Valid()
      modifies this`choices
      ensures Valid()
      ensures updated <==> playerId in PlayerIds(old(choices))
      ensures choices == Record(old(choices), PlayerChoice(playerId, playerName, championName, championImage))
    {
      var c := PlayerChoice(playerId, playerName, championName, championImage);
      ghost var expected := Record(choices, c);
      var k := FindIndex(choices, playerId);
      if k != -1 {
        choices := choices[k := c];
        assert choices == expected;
        return true;
      }
      choices := choices + [c];
      assert choices == expected;
      return false;
    }

    /** Every configured player has a pick in the current round. */
    function AllPlayersHaveChosenForRound(): (all: bool)
      reads this
      requires Valid()
      ensures all <==> |set id | id in PlayerIds(choices)| == playerCount
    {
      DistinctCard(PlayerIds(choices));
      |choices| == playerCount
    }

    /** The round is won when all picks name one champion, in any casing. */
    function DidPlayersWinRound(): (won: bool)
      reads this
      ensures won <==> |ChampionsPicked(choices)| <= 1
      ensures won <==> forall i, j :: 0 <= i < |choices| && 0 <= j < |choices| ==>
        Lower(choices[i].championName) == Lower(choices[j].championName)
    {
      AllPicksMatchIffSingleChampion(choices);
      AllPicksMatch(choices)
    }

    /** A snapshot of the current round's choices. */
    method GetPlayerChoices() returns (r: seq<PlayerChoice>)
      requires Valid()
      ensures r == choices && Distinct(PlayerIds(r))
    {
      r := choices;
    }

    /** The used champions, lower-cased, in the order they were first used. */
    method GetChosenChampions() returns (r: seq<string>)
      requires Valid()
      ensures r == chosen && Distinct(r)
      ensures forall k :: k in r ==> Lower(k) == k
    {
      r := chosen;
    }

    method IsRoundProcessing() returns (b: bool)
      ensures b == roundProcessing
    {
      b := roundProcessing;
    }

    method SetRoundProcessing(value: bool)
      requires Valid()
      modifies this`roundProcessing
      ensures Valid() && roundProcessing == value
    {
      roundProcessing := value;
    }
  }
}
