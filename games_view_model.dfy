/** The games screen's controller: the list of games shown and the names of the servers a game recommends. */
module GamesViewModels {
  import opened Wrappers
  import opened Lists
  import DnsServers
  import opened GameProfiles

  datatype GamesUiState = GamesUiState(games: seq<GameProfile>)

  class GamesViewModel {
    var uiState: GamesUiState

    /** Starts with no games, then `loadGames` publishes the whole catalog. */
    constructor()
      ensures uiState == GamesUiState(AllGames)
    {
      uiState := GamesUiState([]);
      new;
      LoadGames();
    }

    /** `loadGames`: replaces the game list with the catalog. */
    method LoadGames()
      modifies this
      ensures uiState == old(uiState).(games := AllGames)
    {
      uiState := uiState.(games := AllGames);
    }
  }

  /** The server name for a catalog id, or null for an unknown id. */
  function ServerNameOf(id: int): Option<string> {
    match DnsServers.GetById(id)
    case Some(s) => Some(s.name)
    case None => None
  }

  /**
   * `getRecommendedDnsNames`: the names of the recommended servers, in the
   * game's order, unknown ids dropped. It reads no state of the controller.
   */
  function RecommendedDnsNames(game: GameProfile): (names: seq<string>)
    ensures |names| <= |game.recommendedDns|
  {
    MapNotNull(game.recommendedDns, ServerNameOf)
  }

  /**
   * When every recommended id is a catalog id, no name is dropped and name
   * `j` is the name of catalog server `recommendedDns[j]`.
   */
  lemma {:induction false} RecommendedNamesOfKnownIds(game: GameProfile)
    requires forall j :: 0 <= j < |game.recommendedDns| ==> 1 <= game.recommendedDns[j] <= 11
    ensures |RecommendedDnsNames(game)| == |game.recommendedDns|
    ensures forall j :: 0 <= j < |game.recommendedDns| ==>
      RecommendedDnsNames(game)[j] == DnsServers.AllServers[game.recommendedDns[j] - 1].name
  {
    forall j | 0 <= j < |game.recommendedDns|
      ensures ServerNameOf(game.recommendedDns[j]) == Some(DnsServers.AllServers[game.recommendedDns[j] - 1].name)
    {
      DnsServers.GetByIdDefined(game.recommendedDns[j]);
    }
  }

  /** An id outside the catalog's 1..11 is dropped: the names are those of the other ids, in order. */
  lemma {:induction false} UnknownIdDropped(game: GameProfile, j: int)
    requires 0 <= j < |game.recommendedDns|
    requires game.recommendedDns[j] < 1 || game.recommendedDns[j] > 11
    ensures RecommendedDnsNames(game) ==
      MapNotNull(game.recommendedDns[..j] + game.recommendedDns[j + 1..], ServerNameOf)
  {
    DnsServers.GetByIdDefined(game.recommendedDns[j]);
    MapNotNullDrops(game.recommendedDns, j, ServerNameOf);
  }

  /** A name is shown exactly when it is the name of a catalog server the game recommends. */
  lemma {:induction false} RecommendedNamesMembers(game: GameProfile, name: string)
    ensures name in RecommendedDnsNames(game) <==>
      exists j :: 0 <= j < |game.recommendedDns| && 1 <= game.recommendedDns[j] <= 11 &&
        DnsServers.AllServers[game.recommendedDns[j] - 1].name == name
  {
    MapNotNullMembers(game.recommendedDns, ServerNameOf, name);
    forall j | 0 <= j < |game.recommendedDns|
      ensures ServerNameOf(game.recommendedDns[j]) == Some(name) <==>
        1 <= game.recommendedDns[j] <= 11 && DnsServers.AllServers[game.recommendedDns[j] - 1].name == name
    {
      DnsServers.GetByIdDefined(game.recommendedDns[j]);
    }
  }

  /** For every catalog game, all three recommended servers are named. */
  lemma {:induction false} CatalogGamesNameAllServers(k: int)
    requires 0 <= k < |AllGames|
    ensures |RecommendedDnsNames(AllGames[k])| == |AllGames[k].recommendedDns| == 3
  {
    RecommendationsValid();
    RecommendedNamesOfKnownIds(AllGames[k]);
  }

  /** PUBG Mobile recommends Cloudflare, Google and Cloudflare Gaming, in that order. */
  lemma {:induction false} PubgRecommendations()
    ensures RecommendedDnsNames(AllGames[0]) == ["Cloudflare DNS", "Google DNS", "Cloudflare Gaming"]
  {
    PubgProfile();
    NamesForCloudflareGoogleGaming(AllGames[0]);
  }

  lemma {:induction false} NamesForCloudflareGoogleGaming(game: GameProfile)
    requires game.recommendedDns == [2, 1, 10]
    ensures RecommendedDnsNames(game) == ["Cloudflare DNS", "Google DNS", "Cloudflare Gaming"]
  {
    RecommendedNamesOfKnownIds(game);
    var names := RecommendedDnsNames(game);
    var cloudflare, google, gaming := DnsServers.AllServers[1].name, DnsServers.AllServers[0].name, DnsServers.AllServers[9].name;
    assert names == [cloudflare, google, gaming];
    DnsServers.CatalogNames();
  }
}
