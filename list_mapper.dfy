/**
 * `PokemonListMapper.toDomain` (PokemonApp/Data/Mappers/PokemonListMapper.swift):
 * one summary per list entry, its id read from the last path component of
 * the entry's URL.
 */
module ListMapper {
  import opened Base
  import opened Text
  import opened Entities

  /** The URL without one trailing '/', as `URL` ignores it for path components. */
  function TrimTrailingSlash(url: Url): Url
  {
    if |url| > 1 && url[|url| - 1] == '/' then url[..|url| - 1] else url
  }

  /** Everything after the last '/'. */
  function AfterLastSlash(s: string): (r: string)
    ensures '/' !in r
  {
    match LastIndexOf(s, '/')
    case None => s
    case Some(k) => s[k + 1..]
  }

  /** `lastPathComponent`. */
  function LastPathComponent(url: Url): string
  {
    AfterLastSlash(TrimTrailingSlash(url))
  }

  /** `deletingPathExtension` on one component: drops a final ".ext" unless the dot leads. */
  function DeletingPathExtension(component: string): string
  {
    match LastIndexOf(component, '.')
    case Some(k) => if k > 0 then component[..k] else component
    case None => component
  }

  /** `Int(url.deletingPathExtension().lastPathComponent) ?? 0`. */
  function IdFromUrl(url: Url): int
  {
    match ParseInt(DeletingPathExtension(LastPathComponent(url)))
    case Some(id) => id
    case None => 0
  }

  /** One list entry becomes one summary. */
  function ToSummary(item: ListItemDto): Summary
  {
    Summary(IdFromUrl(item.url), Capitalize(item.name), item.url)
  }

  /**
   * `toDomain`: the summaries keep the length and order of `results`; each
   * takes its id from its URL, its name capitalized, its URL unchanged.
   */
  function ToDomain(dto: ListDto): (r: seq<Summary>)
    ensures |r| == |dto.results|
    ensures forall i :: 0 <= i < |r| ==>
      r[i].id == IdFromUrl(dto.results[i].url) &&
      r[i].name == Capitalize(dto.results[i].name) &&
      r[i].detailURL == dto.results[i].url
  {
    seq(|dto.results|, i requires 0 <= i < |dto.results| => ToSummary(dto.results[i]))
  }

  lemma {:induction false} AfterLastSlashOf(prefix: string, tail: string)
    requires '/' !in tail
    ensures AfterLastSlash(prefix + "/" + tail) == tail
  {
    var s := prefix + "/" + tail;
    var k := |prefix|;
    assert s[k] == '/';
    assert s[k + 1..] == tail;
  }

  /**
   * The id is the number the catalog puts in the entry's URL, whether or
   * not the URL ends in '/': `.../pokemon/2/` and `.../pokemon/2` give 2.
   */
  lemma {:induction false} IdFromNumberedUrl(prefix: string, n: int, trailing: bool)
    requires IntMin <= n <= IntMax
    ensures IdFromUrl(prefix + "/" + Decimal(n) + (if trailing then "/" else "")) == n
  {
    var d := Decimal(n);
    var url := prefix + "/" + d + (if trailing then "/" else "");
    assert TrimTrailingSlash(url) == prefix + "/" + d;
    assert '/' !in d;
    AfterLastSlashOf(prefix, d);
    assert '.' !in d;
    assert DeletingPathExtension(d) == d;
    ParseDecimal(n);
  }

  /** A last component that is not an integer gives the sentinel id 0. */
  lemma NonNumericIdIsZero(url: Url)
    requires ParseInt(DeletingPathExtension(LastPathComponent(url))).None?
    ensures IdFromUrl(url) == 0
  {
  }

  /**
   * A URL that ends in a name rather than a number, such as
   * `.../pokemon/bulbasaur/`, gives the sentinel id 0: a component without
   * '/' or '.' holding a lower-case letter never reads as an integer.
   */
  lemma {:induction false} NamedUrlIdIsZero(prefix: string, name: string, trailing: bool)
    requires '/' !in name && '.' !in name
    requires exists k :: 0 <= k < |name| && IsLower(name[k])
    ensures IdFromUrl(prefix + "/" + name + (if trailing then "/" else "")) == 0
  {
    var k :| 0 <= k < |name| && IsLower(name[k]);
    var url := prefix + "/" + name + (if trailing then "/" else "");
    assert TrimTrailingSlash(url) == prefix + "/" + name;
    AfterLastSlashOf(prefix, name);
    assert DeletingPathExtension(name) == name;
    LetterIsNotInt(name, k);
  }

  /** A component holding a lower-case letter is not an integer. */
  lemma LetterIsNotInt(s: string, k: nat)
    requires k < |s| && IsLower(s[k])
    ensures ParseInt(s).None?
  {
    if s[0] == '-' || s[0] == '+' {
      assert s[1..][k - 1] == s[k];
    }
  }

  lemma CapitalizeExamples()
    ensures Capitalize("bulbasaur") == "Bulbasaur"
    ensures Capitalize("ivysaur") == "Ivysaur"
  {
    var b, i := "bulbasaur", "ivysaur";
    CapitalizeLowerWord(b);
    assert [Upper(b[0])] + b[1..] == "Bulbasaur";
    CapitalizeLowerWord(i);
    assert [Upper(i[0])] + i[1..] == "Ivysaur";
  }

  /**
   * The two-entry page of the catalog maps to Bulbasaur (1) and Ivysaur (2),
   * each keeping its URL, whatever base the entry URLs share
   * (`https://pokeapi.co/api/v2/pokemon` in the live catalog).
   */
  lemma ToDomainExample(dto: ListDto, base: string)
    requires dto.results == [
      ListItemDto("bulbasaur", base + "/" + Decimal(1) + "/"),
      ListItemDto("ivysaur", base + "/" + Decimal(2) + "/")]
    ensures var r := ToDomain(dto);
      && |r| == 2
      && r[0] == Summary(1, "Bulbasaur", dto.results[0].url)
      && r[1] == Summary(2, "Ivysaur", dto.results[1].url)
  {
    IdFromNumberedUrl(base, 1, true);
    IdFromNumberedUrl(base, 2, true);
    CapitalizeExamples();
  }
}
