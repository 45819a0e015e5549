/** DNS servers and the catalog of predefined ones. */
module DnsServers {
  import opened Wrappers
  import opened Lists
  import opened DnsTestResults

  datatype DnsCategory = Global | Iran | Gaming | Custom

  datatype DnsServer = DnsServer(
    id: int,
    name: string,
    primaryDns: string,
    secondaryDns: string,
    icon: string,
    category: DnsCategory,
    description: string,
    isCustom: bool,
    isFavorite: bool,
    lastTestResult: Option<DnsTestResult>)

  /** A catalog entry: the constructor with `isCustom`, `isFavorite` and `lastTestResult` at their defaults. */
  function Predefined(id: int, name: string, primaryDns: string, secondaryDns: string,
                      icon: string, category: DnsCategory, description: string): (s: DnsServer)
    ensures !s.isCustom && !s.isFavorite && s.lastTestResult.None?
  {
    DnsServer(id, name, primaryDns, secondaryDns, icon, category, description, false, false, None)
  }

  const GoogleDns: DnsServer :=
    Predefined(1, "Google DNS", "8.8.8.8", "8.8.4.4", "google", Global, "Fast and reliable DNS by Google")
  const CloudflareDns: DnsServer :=
    Predefined(2, "Cloudflare DNS", "1.1.1.1", "1.0.0.1", "cloudflare", Global, "Privacy-focused DNS with great speed")
  const OpenDns: DnsServer :=
    Predefined(3, "OpenDNS", "208.67.222.222", "208.67.220.220", "opendns", Global, "Secure DNS with content filtering")
  const Quad9: DnsServer :=
    Predefined(4, "Quad9", "9.9.9.9", "149.112.112.112", "quad9", Global, "Security-focused DNS blocking malicious domains")
  const AdGuardDns: DnsServer :=
    Predefined(5, "AdGuard DNS", "94.140.14.14", "94.140.15.15", "adguard", Global, "DNS with ad blocking capabilities")
  const Shecan: DnsServer :=
    Predefined(6, "Shecan", "178.22.122.100", "185.51.200.2", "shecan", Iran, "Popular Iranian DNS service")
  const Online403: DnsServer :=
    Predefined(7, "403 Online", "10.202.10.202", "10.202.10.102", "403", Iran, "Fast Iranian DNS service")
  const Electro: DnsServer :=
    Predefined(8, "Electro", "78.157.42.100", "78.157.42.101", "electro", Iran, "Reliable Iranian DNS")
  const RadarGame: DnsServer :=
    Predefined(9, "Radar Game", "10.202.10.10", "10.202.10.11", "radargame", Iran, "Gaming-optimized Iranian DNS")
  const CloudflareGaming: DnsServer :=
    Predefined(10, "Cloudflare Gaming", "1.1.1.1", "1.0.0.1", "cloudflare_gaming", Gaming, "Low latency DNS for gaming")
  const GoogleGaming: DnsServer :=
    Predefined(11, "Google Gaming", "8.8.8.8", "8.8.4.4", "google_gaming", Gaming, "Optimized Google DNS for games")

  const AllServers: seq<DnsServer> := [
    GoogleDns, CloudflareDns, OpenDns, Quad9, AdGuardDns,
    Shecan, Online403, Electro, RadarGame,
    CloudflareGaming, GoogleGaming
  ]

  /** The catalog servers of one category, in catalog order. */
  function GetByCategory(category: DnsCategory): (r: seq<DnsServer>)
  {
    Filter(AllServers, (s: DnsServer) => s.category == category)
  }

  /** The first catalog server with this id, or null. */
  function GetById(id: int): (r: Option<DnsServer>)
    ensures r.Some? ==> r.value in AllServers && r.value.id == id
    ensures r.None? <==> forall i :: 0 <= i < |AllServers| ==> AllServers[i].id != id
  {
    Find(AllServers, (s: DnsServer) => s.id == id)
  }

  /** The catalog holds eleven servers whose ids are 1 to 11 in order, so the ids are distinct. */
  lemma CatalogIds()
    ensures |AllServers| == 11
    ensures forall k :: 0 <= k < |AllServers| ==> AllServers[k].id == k + 1
  {
  }

  /** The names of the catalog servers that games recommend. */
  lemma CatalogNames()
    ensures AllServers[0].name == "Google DNS" && AllServers[1].name == "Cloudflare DNS"
    ensures AllServers[2].name == "OpenDNS" && AllServers[3].name == "Quad9"
    ensures AllServers[9].name == "Cloudflare Gaming"
  {
  }

  /** Every catalog server is predefined: not custom, not a favourite, never tested. */
  lemma CatalogDefaults()
    ensures forall k :: 0 <= k < |AllServers| ==>
      !AllServers[k].isCustom && !AllServers[k].isFavorite && AllServers[k].lastTestResult.None?
  {
  }

  /** `getById(id)` finds a server exactly for the ids 1 to 11, and it is the catalog's entry number `id`. */
  lemma GetByIdDefined(id: int)
    ensures GetById(id).Some? <==> 1 <= id <= 11
    ensures 1 <= id <= 11 ==> GetById(id) == Some(AllServers[id - 1])
  {
    CatalogIds();
    if 1 <= id <= 11 {
      var r := GetById(id);
      assert AllServers[id - 1].id == id;
      assert r.Some?;
      assert forall k :: 0 <= k < |AllServers| && AllServers[k] == r.value ==> k == id - 1;
    }
  }

  /** Categories of the catalog entries: five global, then four Iranian, then two gaming ones. */
  lemma CatalogCategories()
    ensures forall k :: 0 <= k < |AllServers| ==> (AllServers[k].category == Global <==> k < 5)
    ensures forall k :: 0 <= k < |AllServers| ==> (AllServers[k].category == Iran <==> 5 <= k < 9)
    ensures forall k :: 0 <= k < |AllServers| ==> (AllServers[k].category == Gaming <==> 9 <= k)
    ensures forall k :: 0 <= k < |AllServers| ==> AllServers[k].category != Custom
  {
  }

  /**
   * The category lists cut the catalog into consecutive blocks: the five
   * global servers, then four Iranian ones, then two gaming ones; no catalog
   * server is custom.
   */
  lemma CategoriesPartitionCatalog()
    ensures GetByCategory(Global) == AllServers[..5]
    ensures GetByCategory(Iran) == AllServers[5..9]
    ensures GetByCategory(Gaming) == AllServers[9..11]
    ensures GetByCategory(Custom) == []
  {
    GlobalServers();
    IranServers();
    GamingServers();
    CustomServers();
  }

  lemma GlobalServers()
    ensures GetByCategory(Global) == AllServers[..5]
  {
    CatalogCategories();
    CategoryBlock(Global, 0, 5);
  }

  lemma IranServers()
    ensures GetByCategory(Iran) == AllServers[5..9]
  {
    CatalogCategories();
    CategoryBlock(Iran, 5, 9);
  }

  lemma GamingServers()
    ensures GetByCategory(Gaming) == AllServers[9..11]
  {
    CatalogCategories();
    CategoryBlock(Gaming, 9, 11);
  }

  lemma CustomServers()
    ensures GetByCategory(Custom) == []
  {
    CatalogCategories();
    CategoryBlock(Custom, 11, 11);
  }

  lemma {:induction false} CategoryBlock(category: DnsCategory, lo: nat, hi: nat)
    requires lo <= hi <= |AllServers|
    requires forall k :: 0 <= k < |AllServers| ==> (AllServers[k].category == category <==> lo <= k < hi)
    ensures GetByCategory(category) == AllServers[lo..hi]
  {
    FilterExactBlock(AllServers, (s: DnsServer) => s.category == category, lo, hi);
  }

  /** Each catalog server is listed under exactly one category: its own. */
  lemma {:induction false} ExactlyOneCategory(s: DnsServer, category: DnsCategory)
    requires s in AllServers
    ensures s in GetByCategory(category) <==> s.category == category
  {
    FilterContains(AllServers, (t: DnsServer) => t.category == category, s);
  }
}
