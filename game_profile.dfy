/** Game profiles and the catalog of predefined games, each naming the DNS servers it recommends. */
module GameProfiles {
  import opened Wrappers
  import opened Lists

  datatype GameCategory = Fps | Moba | BattleRoyale | Racing | Sports | Rpg | Strategy | Other

  /** A game; `recommendedDns` holds catalog server ids, best first. */
  datatype GameProfile = GameProfile(
    id: int,
    name: string,
    icon: string,
    packageName: string,
    recommendedDns: seq<int>,
    category: GameCategory,
    description: string,
    isInstalled: bool)

  /** A catalog entry: the constructor with `isInstalled` at its default. */
  function Game(id: int, name: string, icon: string, packageName: string, recommendedDns: seq<int>,
                category: GameCategory, description: string): (g: GameProfile)
    ensures !g.isInstalled
  {
    GameProfile(id, name, icon, packageName, recommendedDns, category, description, false)
  }

  const Pubg: GameProfile :=
    Game(1, "PUBG Mobile", "pubg", "com.tencent.ig", [2, 1, 10], BattleRoyale, "Battle Royale game requiring low latency")
  const CallOfDuty: GameProfile :=
    Game(2, "Call of Duty Mobile", "cod", "com.activision.callofduty.shooter", [2, 4, 1], Fps, "Fast-paced FPS game")
  const FreeFire: GameProfile :=
    Game(3, "Free Fire", "freefire", "com.dts.freefireth", [1, 3, 2], BattleRoyale, "Popular battle royale game")
  const MobileLegends: GameProfile :=
    Game(4, "Mobile Legends", "ml", "com.mobile.legends", [2, 1, 10], Moba, "5v5 MOBA game requiring stable connection")
  const ArenaOfValor: GameProfile :=
    Game(5, "Arena of Valor", "aov", "com.garena.game.kgvn", [1, 4, 2], Moba, "Competitive MOBA game")
  const Fortnite: GameProfile :=
    Game(6, "Fortnite", "fortnite", "com.epicgames.fortnite", [2, 1, 10], BattleRoyale, "Popular battle royale game")
  const ApexLegends: GameProfile :=
    Game(7, "Apex Legends Mobile", "apex", "com.ea.gp.apexlegendsmobilefps", [2, 4, 1], BattleRoyale, "Fast-paced battle royale")
  const Asphalt9: GameProfile :=
    Game(8, "Asphalt 9", "asphalt", "com.gameloft.android.ANMP.GloftA9HM", [1, 2, 3], Racing, "High-speed racing game")
  const RealRacing3: GameProfile :=
    Game(9, "Real Racing 3", "realracing", "com.ea.games.r3_row", [1, 3, 2], Racing, "Realistic racing simulation")
  const FifaMobile: GameProfile :=
    Game(10, "FIFA Mobile", "fifa", "com.ea.gp.fifamobile", [2, 1, 4], Sports, "Football simulation game")
  const EFootball: GameProfile :=
    Game(11, "eFootball", "efootball", "jp.konami.pesam", [1, 2, 3], Sports, "Football game by Konami")
  const GenshinImpact: GameProfile :=
    Game(12, "Genshin Impact", "genshin", "com.miHoYo.GenshinImpact", [2, 1, 10], Rpg, "Open-world action RPG")
  const ClashOfClans: GameProfile :=
    Game(13, "Clash of Clans", "coc", "com.supercell.clashofclans", [1, 2, 3], Strategy, "Strategy game with online battles")
  const ClashRoyale: GameProfile :=
    Game(14, "Clash Royale", "clashroyale", "com.supercell.clashroyale", [2, 1, 4], Strategy, "Real-time strategy card game")

  const AllGames: seq<GameProfile> := [
    Pubg, CallOfDuty, FreeFire, MobileLegends, ArenaOfValor, Fortnite, ApexLegends,
    Asphalt9, RealRacing3, FifaMobile, EFootball, GenshinImpact, ClashOfClans, ClashRoyale
  ]

  function InCategory(category: GameCategory): GameProfile -> bool {
    (g: GameProfile) => g.category == category
  }

  function HasGameId(id: int): GameProfile -> bool {
    (g: GameProfile) => g.id == id
  }

  function HasPackage(packageName: string): GameProfile -> bool {
    (g: GameProfile) => g.packageName == packageName
  }

  /** The catalog games of one category, in catalog order. */
  function GetByCategory(category: GameCategory): (r: seq<GameProfile>)
    ensures |r| <= |AllGames|
  {
    Filter(AllGames, InCategory(category))
  }

  /** The first catalog game with this id, or null. */
  function GetById(id: int): (r: Option<GameProfile>)
    ensures r.Some? ==> r.value in AllGames && r.value.id == id
    ensures r.None? <==> forall i :: 0 <= i < |AllGames| ==> AllGames[i].id != id
  {
    Find(AllGames, HasGameId(id))
  }

  /** The first catalog game with this package name, or null. */
  function GetByPackageName(packageName: string): (r: Option<GameProfile>)
    ensures r.Some? ==> r.value in AllGames && r.value.packageName == packageName
    ensures r.None? <==> forall i :: 0 <= i < |AllGames| ==> AllGames[i].packageName != packageName
  {
    Find(AllGames, HasPackage(packageName))
  }

  /** The catalog holds fourteen games whose ids are 1 to 14 in order, so the ids are distinct. */
  lemma GameIds()
    ensures |AllGames| == 14
    ensures forall k :: 0 <= k < |AllGames| ==> AllGames[k].id == k + 1
  {
  }

  /** No two catalog games share a package name. */
  lemma PackageNamesDistinct()
    ensures forall j, k :: 0 <= j < k < |AllGames| ==> AllGames[j].packageName != AllGames[k].packageName
  {
  }

  /** Every game recommends three servers, each a catalog server id (1 to 11). */
  lemma RecommendationsValid()
    ensures forall k :: 0 <= k < |AllGames| ==>
      |AllGames[k].recommendedDns| == 3 &&
      forall j :: 0 <= j < 3 ==> 1 <= AllGames[k].recommendedDns[j] <= 11
  {
  }

  /** The first catalog entry is PUBG Mobile, recommending servers 2, 1 and 10. */
  lemma PubgProfile()
    ensures AllGames[0].name == "PUBG Mobile" && AllGames[0].recommendedDns == [2, 1, 10]
  {
  }

  /** `getById(id)` finds a game exactly for the ids 1 to 14, and it is the catalog's entry number `id`. */
  lemma {:induction false} GetByIdDefined(id: int)
    ensures GetById(id).Some? <==> 1 <= id <= 14
    ensures 1 <= id <= 14 ==> GetById(id) == Some(AllGames[id - 1])
  {
    GameIds();
    if 1 <= id <= 14 {
      assert AllGames[id - 1].id == id;
      assert forall k :: 0 <= k < |AllGames| && AllGames[k] == GetById(id).value ==> k == id - 1;
    }
  }

  /** Looking a catalog game up by its own package name finds that game. */
  lemma {:induction false} GetByPackageNameFindsGame(k: int)
    requires 0 <= k < |AllGames|
    ensures GetByPackageName(AllGames[k].packageName) == Some(AllGames[k])
  {
    PackageNamesDistinct();
    var r := GetByPackageName(AllGames[k].packageName);
    var j :| 0 <= j < |AllGames| && AllGames[j] == r.value;
    assert AllGames[j].packageName == AllGames[k].packageName;
  }

  function GameId(g: GameProfile): int {
    g.id
  }

  /**
   * A category's list keeps catalog order: ids grow strictly along it, so it
   * also lists no game twice.
   */
  lemma {:induction false} CategoryListOrdered(category: GameCategory)
    ensures forall i, j :: 0 <= i < j < |GetByCategory(category)| ==>
      GetByCategory(category)[i].id < GetByCategory(category)[j].id
  {
    GameIds();
    assert IncreasingBy(AllGames, GameId);
    FilterKeepsIncreasing(AllGames, InCategory(category), GameId);
  }

  /** A catalog game is listed under a category exactly when it is of that category. */
  lemma {:induction false} CategoryMembers(g: GameProfile, category: GameCategory)
    requires g in AllGames
    ensures g in GetByCategory(category) <==> g.category == category
  {
    FilterContains(AllGames, InCategory(category), g);
  }

  /** Every game of a category's list is a catalog game of that category. */
  lemma {:induction false} CategoryListSound(category: GameCategory)
    ensures forall i :: 0 <= i < |GetByCategory(category)| ==>
      GetByCategory(category)[i] in AllGames && GetByCategory(category)[i].category == category
  {
    FilterMembers(AllGames, InCategory(category));
  }
}
