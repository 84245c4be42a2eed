/**
 * `PokemonDetailMapper` (PokemonApp/Data/Mappers/PokemonDetailMapper.swift):
 * builds a `PokemonDetail` from the typed DTO and from a scan of the raw
 * JSON tree, collecting sprite URLs into an insertion-ordered set.
 *
 * The pure parts (the stats map, the scan, the de-duplicated list) are
 * functions; the parts the source writes imperatively (`OrderedURLSet`,
 * the recursive `walk` appending to its accumulator, the insertion loops)
 * are a class and methods proved against those functions.
 */
module DetailMapper {
  import opened Base
  import opened Text
  import opened Entities

  // ---------------------------------------------------------------------
  // The JSON scan
  // ---------------------------------------------------------------------

  /** The test `walk` applies to a string: lowercased, it ends in ".png" and contains "http". */
  predicate IsSpriteUrl(str: string)
  {
    var s := Lowercase(str);
    HasSuffix(s, ".png") && Contains(s, "http")
  }

  /** What `walk` appends for a tree: the sprite-like strings, in visiting order. */
  function Scan(j: Json): (r: seq<string>)
    ensures forall i :: 0 <= i < |r| ==> IsSpriteUrl(r[i])
    decreases j
  {
    match j
    case JString(s) => if IsSpriteUrl(s) then [s] else []
    case JArray(items) => ScanItems(items)
    case JObject(members) => ScanMembers(members)
    case _ => []
  }

  function ScanItems(items: seq<Json>): (r: seq<string>)
    ensures forall i :: 0 <= i < |r| ==> IsSpriteUrl(r[i])
    decreases items
  {
    if items == [] then []
    else ScanItems(items[..|items| - 1]) + Scan(items[|items| - 1])
  }

  function ScanMembers(members: seq<Member>): (r: seq<string>)
    ensures forall i :: 0 <= i < |r| ==> IsSpriteUrl(r[i])
    decreases members
  {
    if members == [] then []
    else ScanMembers(members[..|members| - 1]) + Scan(members[|members| - 1].value)
  }

  /** Every string leaf of a tree, in the same visiting order: the reference for `Scan`. */
  function Leaves(j: Json): seq<string>
    decreases j
  {
    match j
    case JString(s) => [s]
    case JArray(items) => LeavesItems(items)
    case JObject(members) => LeavesMembers(members)
    case _ => []
  }

  function LeavesItems(items: seq<Json>): seq<string>
    decreases items
  {
    if items == [] then []
    else LeavesItems(items[..|items| - 1]) + Leaves(items[|items| - 1])
  }

  function LeavesMembers(members: seq<Member>): seq<string>
    decreases members
  {
    if members == [] then []
    else LeavesMembers(members[..|members| - 1]) + Leaves(members[|members| - 1].value)
  }

  /**
   * The scan keeps exactly the string leaves that pass the sprite test,
   * in visiting order; numbers, booleans and nulls contribute nothing.
   */
  lemma {:induction false} ScanIsFilteredLeaves(j: Json)
    ensures Scan(j) == Filter(IsSpriteUrl, Leaves(j))
    decreases j
  {
    match j
    case JString(s) =>
    case JArray(items) => ScanItemsIsFilteredLeaves(items);
    case JObject(members) => ScanMembersIsFilteredLeaves(members);
    case _ =>
  }

  lemma {:induction false} ScanItemsIsFilteredLeaves(items: seq<Json>)
    ensures ScanItems(items) == Filter(IsSpriteUrl, LeavesItems(items))
    decreases items
  {
    if items != [] {
      var init, last := items[..|items| - 1], items[|items| - 1];
      ScanItemsIsFilteredLeaves(init);
      ScanIsFilteredLeaves(last);
      FilterConcat(IsSpriteUrl, LeavesItems(init), Leaves(last));
    }
  }

  lemma {:induction false} ScanMembersIsFilteredLeaves(members: seq<Member>)
    ensures ScanMembers(members) == Filter(IsSpriteUrl, LeavesMembers(members))
    decreases members
  {
    if members != [] {
      var init, last := members[..|members| - 1], members[|members| - 1].value;
      ScanMembersIsFilteredLeaves(init);
      ScanIsFilteredLeaves(last);
      FilterConcat(IsSpriteUrl, LeavesMembers(init), Leaves(last));
    }
  }

  /** A string is collected exactly when it is a leaf of the tree and passes the test. */
  lemma ScanMembership(j: Json, x: string)
    ensures x in Scan(j) <==> x in Leaves(j) && IsSpriteUrl(x)
  {
    ScanIsFilteredLeaves(j);
  }

  /**
   * The first member named `key`, as a dictionary lookup: found exactly when
   * some member carries the key, and then the value of the first such member.
   */
  function Lookup(members: seq<Member>, key: string): (r: Option<Json>)
    ensures r.Some? <==> exists i :: 0 <= i < |members| && members[i].key == key
    ensures r.Some? ==>
      exists i :: 0 <= i < |members| && members[i].key == key && r.value == members[i].value &&
        forall j :: 0 <= j < i ==> members[j].key != key
  {
    if members == [] then None
    else if members[0].key == key then Some(members[0].value)
    else
      var r := Lookup(members[1..], key);
      assert forall i :: 1 <= i < |members| ==> members[i] == members[1..][i - 1];
      if r.Some? then
        var i :| 0 <= i < |members[1..]| && members[1..][i].key == key &&
          r.value == members[1..][i].value && forall j :: 0 <= j < i ==> members[1..][j].key != key;
        assert members[i + 1].key == key && r.value == members[i + 1].value;
        assert forall j :: 0 <= j < i + 1 ==> members[j].key != key by {
          forall j | 0 <= j < i + 1 ensures members[j].key != key {
            if j > 0 { assert members[j] == members[1..][j - 1]; }
          }
        }
        r
      else r
  }

  /**
   * `collectSpriteURLStrings` on a parsed tree: the scan of the root's
   * "sprites" object, or nothing when the root is not an object or has no
   * "sprites" object.
   */
  function SpriteScan(root: Json): seq<string>
  {
    if !root.JObject? then []
    else
      match Lookup(root.members, "sprites")
      case Some(JObject(sprites)) => Scan(JObject(sprites))
      case _ => []
  }

  /**
   * Without a "sprites" object at the root there is nothing to scan: the
   * root is not an object, no member is named "sprites", or the first member
   * named "sprites" holds something other than an object.
   */
  lemma NoSpritesNoScan(root: Json)
    requires !root.JObject?
          || (forall i :: 0 <= i < |root.members| ==> root.members[i].key != "sprites")
          || (exists i :: 0 <= i < |root.members| && root.members[i].key == "sprites" &&
                !root.members[i].value.JObject? &&
                forall j :: 0 <= j < i ==> root.members[j].key != "sprites")
    ensures SpriteScan(root) == []
  {
  }

  /**
   * `walk`, appending to the accumulator it is handed: dictionaries and
   * arrays are visited element by element, strings tested, everything else
   * ignored.
   */
  method Walk(j: Json, acc: seq<string>) returns (out: seq<string>)
    ensures out == acc + Scan(j)
    decreases j
  {
    match j
    case JString(str) =>
      var s := Lowercase(str);
      if HasSuffix(s, ".png") && Contains(s, "http") {
        out := acc + [str];
      } else {
        out := acc;
      }
    case JArray(items) =>
      out := acc;
      var i := 0;
      while i < |items|
        invariant 0 <= i <= |items|
        invariant out == acc + ScanItems(items[..i])
      {
        assert items[..i + 1][..i] == items[..i];
        out := Walk(items[i], out);
        i := i + 1;
      }
      assert items[..|items|] == items;
    case JObject(members) =>
      out := acc;
      var i := 0;
      while i < |members|
        invariant 0 <= i <= |members|
        invariant out == acc + ScanMembers(members[..i])
      {
        assert members[..i + 1][..i] == members[..i];
        out := Walk(members[i].value, out);
        i := i + 1;
      }
      assert members[..|members|] == members;
    case JNull =>
      out := acc;
    case JBool(_) =>
      out := acc;
    case JNumber(_) =>
      out := acc;
  }

  /**
   * `collectSpriteURLStrings`: the parse of the raw bytes is the input
   * `parsed`; a parse that throws makes the whole mapping throw.
   */
  method CollectSpriteUrlStrings<E>(parsed: Result<Json, E>) returns (r: Result<seq<string>, E>)
    ensures parsed.Err? ==> r == Err(parsed.error)
    ensures parsed.Ok? ==> r == Ok(SpriteScan(parsed.value))
  {
    if parsed.Err? {
      return Err(parsed.error);
    }
    var root := parsed.value;
    if !root.JObject? {
      return Ok([]);
    }
    var sprites := Lookup(root.members, "sprites");
    if sprites.None? || !sprites.value.JObject? {
      return Ok([]);
    }
    var acc := Walk(sprites.value, []);
    assert acc == Scan(sprites.value);
    return Ok(acc);
  }

  // ---------------------------------------------------------------------
  // The insertion-ordered set
  // ---------------------------------------------------------------------

  /** No element occurs twice. */
  predicate NoDuplicates<T(==)>(xs: seq<T>)
  {
    forall i, k :: 0 <= i < k < |xs| ==> xs[i] != xs[k]
  }

  /** Keeps the first occurrence of every element, in order of first appearance. */
  function Dedup<T(==)>(xs: seq<T>): (r: seq<T>)
    ensures NoDuplicates(r)
    ensures forall i :: 0 <= i < |r| ==> r[i] in xs
    ensures forall i :: 0 <= i < |xs| ==> xs[i] in r
  {
    if xs == [] then []
    else
      var init, last := xs[..|xs| - 1], xs[|xs| - 1];
      var d := Dedup(init);
      assert xs == init + [last];
      if last in d then d else d + [last]
  }

  /** A duplicate-free list is its own de-duplication. */
  lemma {:induction false} DedupOfDistinct<T>(xs: seq<T>)
    requires NoDuplicates(xs)
    ensures Dedup(xs) == xs
  {
    if xs != [] {
      var init := xs[..|xs| - 1];
      DedupOfDistinct(init);
      assert xs[|xs| - 1] !in init;
      assert xs == init + [xs[|xs| - 1]];
    }
  }

  /**
   * First-seen order: the de-duplication of a prefix is a prefix of the
   * de-duplication of the whole, so what is inserted earlier comes earlier.
   */
  lemma {:induction false} DedupPrefix<T>(a: seq<T>, b: seq<T>)
    ensures |Dedup(a)| <= |Dedup(a + b)|
    ensures Dedup(a + b)[..|Dedup(a)|] == Dedup(a)
    decreases |b|
  {
    if b == [] {
      assert a + b == a;
    } else {
      var n := |b| - 1;
      assert (a + b)[..|a + b| - 1] == a + b[..n];
      DedupPrefix(a, b[..n]);
    }
  }

  /** `OrderedURLSet`: `members` is its `set`, `elements` its `array` (no duplicates, insertion order). */
  class OrderedUrlSet {
    var members: set<Url>
    var elements: seq<Url>
    /** Everything handed to `insert` so far, in order. */
    ghost var inserted: seq<Url>

    ghost predicate Valid()
      reads this
    {
      elements == Dedup(inserted) && (forall u :: u in members <==> u in elements)
    }

    constructor()
      ensures Valid() && inserted == [] && elements == []
    {
      members := {};
      elements := [];
      inserted := [];
    }

    /** `insert`: appends only a URL the set does not hold yet. */
    method Insert(url: Url)
      requires Valid()
      modifies this
      ensures Valid()
      ensures inserted == old(inserted) + [url]
      ensures elements == if url in old(elements) then old(elements) else old(elements) + [url]
    {
      ghost var next := inserted + [url];
      assert next[..|next| - 1] == inserted;
      if url !in members {
        members := members + {url};
        elements := elements + [url];
      }
      inserted := next;
    }

    /** `forEach { urls.insert($0) }`. */
    method InsertAll(urls: seq<Url>)
      requires Valid()
      modifies this
      ensures Valid()
      ensures inserted == old(inserted) + urls
    {
      ghost var start := inserted;
      var i := 0;
      while i < |urls|
        invariant 0 <= i <= |urls|
        invariant Valid()
        invariant inserted == start + urls[..i]
      {
        assert start + urls[..i + 1] == (start + urls[..i]) + [urls[i]];
        Insert(urls[i]);
        i := i + 1;
      }
      assert urls[..|urls|] == urls;
    }
  }

  // ---------------------------------------------------------------------
  // The mapping
  // ---------------------------------------------------------------------

  /** `other?.official_artwork?.front_default`. */
  function Artwork(sp: SpritesDto): Option<string>
  {
    if sp.other.Some? && sp.other.value.officialArtwork.Some? then
      sp.other.value.officialArtwork.value.frontDefault
    else None
  }

  /** The five explicit sprite fields, in the order `toDomain` lists them. */
  function SpriteFields(sp: SpritesDto): seq<Option<string>>
  {
    [sp.frontDefault, sp.frontShiny, sp.backDefault, sp.backShiny, Artwork(sp)]
  }

  /** `compactMap { $0 }`: the present values, in order. */
  function Somes(os: seq<Option<string>>): (r: seq<string>)
    ensures |r| <= |os|
    ensures forall x :: x in r <==> Some(x) in os
  {
    if os == [] then []
    else
      var init, last := os[..|os| - 1], os[|os| - 1];
      assert os == init + [last];
      Somes(init) + (if last.Some? then [last.value] else [])
  }

  /** `Somes` of a longer list extends `Somes` of its prefix. */
  lemma {:induction false} SomesPrefix(os: seq<Option<string>>, j: nat)
    requires j <= |os|
    ensures Somes(os[..j]) <= Somes(os)
    decreases |os| - j
  {
    if j < |os| {
      var next := os[..j + 1];
      assert next[..|next| - 1] == os[..j];
      SomesPrefix(os, j + 1);
    } else {
      assert os[..j] == os;
    }
  }

  /** A present value lands right after the present values before it. */
  lemma SomesAt(os: seq<Option<string>>, i: nat)
    requires i < |os| && os[i].Some?
    ensures |Somes(os[..i])| < |Somes(os)| && Somes(os)[|Somes(os[..i])|] == os[i].value
  {
    var next := os[..i + 1];
    assert next[..|next| - 1] == os[..i];
    SomesPrefix(os, i + 1);
  }

  /**
   * The explicit sprite fields, nil fields skipped: exactly the present
   * values among the five, each after the present ones listed before it,
   * so `front_default`, when present, comes first.
   */
  function ExplicitSprites(sp: SpritesDto): (r: seq<string>)
    ensures |r| <= 5
    ensures forall x :: x in r <==>
      (sp.frontDefault == Some(x) || sp.frontShiny == Some(x) || sp.backDefault == Some(x)
       || sp.backShiny == Some(x) || Artwork(sp) == Some(x))
    ensures sp.frontDefault.Some? ==> |r| > 0 && r[0] == sp.frontDefault.value
  {
    var fields := SpriteFields(sp);
    if sp.frontDefault.Some? then
      assert fields[..0] == [];
      SomesAt(fields, 0);
      Somes(fields)
    else Somes(fields)
  }

  /** Field `i` of the five, when present, sits after exactly the present fields before it. */
  lemma ExplicitSpritesOrder(sp: SpritesDto, i: nat)
    requires i < 5 && SpriteFields(sp)[i].Some?
    ensures var r, k := ExplicitSprites(sp), |Somes(SpriteFields(sp)[..i])|;
      k < |r| && r[k] == SpriteFields(sp)[i].value
  {
    SomesAt(SpriteFields(sp), i);
  }

  /** The `stats` map: same length and order, capitalized name, base stat as value. */
  function MapStats(stats: seq<StatEntryDto>): (r: seq<Stat>)
    ensures |r| == |stats|
    ensures forall i :: 0 <= i < |r| ==>
      r[i].name == Capitalize(stats[i].statName) && r[i].value == stats[i].baseStat
  {
    seq(|stats|, i requires 0 <= i < |stats| => Stat(Capitalize(stats[i].statName), stats[i].baseStat))
  }

  /** The sprite URL list: explicit fields then scanned strings, valid URLs only, first occurrence kept. */
  function SpriteUrls(sp: SpritesDto, scanned: seq<string>, isUrl: string -> bool): seq<Url>
  {
    Dedup(Filter(isUrl, ExplicitSprites(sp)) + Filter(isUrl, scanned))
  }

  /**
   * `toDomain` as a value: the detail built from the DTO and the parsed raw
   * JSON (`URL(string:)` is the predicate `isUrl`).
   */
  function DetailOf<E>(dto: DetailDto, parsed: Result<Json, E>, isUrl: string -> bool): Result<Detail, E>
  {
    match parsed
    case Err(e) => Err(e)
    case Ok(root) =>
      Ok(Detail(dto.id, Capitalize(dto.name), MapStats(dto.stats),
                SpriteUrls(dto.sprites, SpriteScan(root), isUrl)))
  }

  /**
   * `toDomain`: the stats map, then the explicit fields inserted into an
   * ordered set, then the scanned strings.
   */
  method ToDomain<E>(dto: DetailDto, parsed: Result<Json, E>, isUrl: string -> bool)
    returns (r: Result<Detail, E>)
    ensures r == DetailOf(dto, parsed, isUrl)
  {
    var stats := MapStats(dto.stats);
    var urls := new OrderedUrlSet();
    var explicit := Filter(isUrl, ExplicitSprites(dto.sprites));
    urls.InsertAll(explicit);
    assert urls.inserted == explicit;
    var scanned := CollectSpriteUrlStrings(parsed);
    if scanned.Err? {
      return Err(scanned.error);
    }
    var found := Filter(isUrl, scanned.value);
    urls.InsertAll(found);
    assert urls.elements == Dedup(explicit + found);
    return Ok(Detail(dto.id, Capitalize(dto.name), stats, urls.elements));
  }

  /**
   * The properties of the result: id kept, name capitalized, stats mapped;
   * the sprite list has no duplicates and holds exactly the valid URLs
   * among the explicit fields and the scanned strings.
   */
  lemma DetailOfShape<E>(dto: DetailDto, root: Json, isUrl: string -> bool, x: string)
    ensures var r := DetailOf<E>(dto, Ok(root), isUrl);
      && r.Ok?
      && r.value.id == dto.id
      && r.value.name == Capitalize(dto.name)
      && r.value.stats == MapStats(dto.stats)
      && NoDuplicates(r.value.spriteURLs)
      && (x in r.value.spriteURLs <==> isUrl(x) && (x in ExplicitSprites(dto.sprites) || x in SpriteScan(root)))
  {
    var explicit := Filter(isUrl, ExplicitSprites(dto.sprites));
    var scanned := Filter(isUrl, SpriteScan(root));
    var all := explicit + scanned;
    if x in all {
      var i :| 0 <= i < |all| && all[i] == x;
      assert x in Dedup(all);
    }
  }

  /**
   * The explicit sprite fields come first: the list begins with the
   * de-duplicated valid explicit fields, in field order.
   */
  lemma ExplicitFirst<E>(dto: DetailDto, root: Json, isUrl: string -> bool)
    ensures var urls := DetailOf<E>(dto, Ok(root), isUrl).value.spriteURLs;
      var head := Dedup(Filter(isUrl, ExplicitSprites(dto.sprites)));
      |head| <= |urls| && urls[..|head|] == head
  {
    DedupPrefix(Filter(isUrl, ExplicitSprites(dto.sprites)), Filter(isUrl, SpriteScan(root)));
  }

  /** A parse failure of the raw JSON is thrown unchanged. */
  lemma ParseFailureThrows<E>(dto: DetailDto, e: E, isUrl: string -> bool)
    ensures DetailOf(dto, Err(e), isUrl) == Err(e)
  {
  }

  /** The stat "hp" with base stat 60 becomes "Hp", 60. */
  lemma StatExample()
    ensures MapStats([StatEntryDto(60, "hp")]) == [Stat("Hp", 60)]
  {
    assert Capitalize("hp")[0] == 'H';
    assert Capitalize("hp")[1] == 'p';
    assert Capitalize("hp") == "Hp";
  }
}
