/**
 * `Endpoint.url` (PokemonApp/Core/Networking/Endpoint.swift): the list
 * request `https://pokeapi.co/api/v2/pokemon?limit=L&offset=O`.
 */
module Endpoint {
  import opened Base
  import opened Text

  /** `Endpoint.Path`. */
  datatype Path = PokemonList(limit: int, offset: int)

  const ListBase: string := "https://pokeapi.co/api/v2/pokemon"
  const LimitQuery: string := "?limit="
  const OffsetQuery: string := "&offset="

  /**
   * `Endpoint.url`: the base URL with the query items `limit` and `offset`,
   * in that order, each rendered in decimal. Digits and '-' need no percent
   * encoding, so `URLComponents` adds nothing else.
   */
  function Url(path: Path): string
  {
    match path
    case PokemonList(limit, offset) =>
      ListBase + LimitQuery + Decimal(limit) + OffsetQuery + Decimal(offset)
  }

  /** Index of the first `c` in `s`, if any. */
  function IndexOf(s: string, c: char): (r: Option<nat>)
    ensures r.None? <==> c !in s
    ensures r.Some? ==> r.value < |s| && s[r.value] == c && c !in s[..r.value]
  {
    if s == [] then None
    else if s[0] == c then Some(0)
    else
      var r := IndexOf(s[1..], c);
      if r.None? then None else Some(r.value + 1)
  }

  /** Reads the `limit` and `offset` back out of a list URL. */
  function ParseListUrl(url: string): Option<Path>
  {
    var head := ListBase + LimitQuery;
    if HasPrefix(url, head) then ParseQuery(url[|head|..]) else None
  }

  /** Reads `L&offset=O` back into its two numbers. */
  function ParseQuery(query: string): Option<Path>
  {
    match IndexOf(query, '&')
    case None => None
    case Some(k) =>
      if !HasPrefix(query[k..], OffsetQuery) then None
      else
        match (ParseInt(query[..k]), ParseInt(query[k + |OffsetQuery|..]))
        case (Some(limit), Some(offset)) => Some(PokemonList(limit, offset))
        case _ => None
  }

  lemma {:induction false} IndexOfAfter(x: string, y: string, c: char)
    requires c !in x
    ensures IndexOf(x + [c] + y, c) == Some(|x|)
  {
    if x != [] {
      assert (x + [c] + y)[1..] == x[1..] + [c] + y;
      IndexOfAfter(x[1..], y, c);
    }
  }

  /** A query split at its first '&' hands the two sides to `Int(_)` unchanged. */
  lemma QuerySplit(l: string, o: string)
    requires '&' !in l
    ensures ParseQuery(l + OffsetQuery + o)
         == match (ParseInt(l), ParseInt(o))
            case (Some(limit), Some(offset)) => Some(PokemonList(limit, offset))
            case _ => None
  {
    var query := l + OffsetQuery + o;
    assert query == l + ['&'] + ("offset=" + o);
    IndexOfAfter(l, "offset=" + o, '&');
    var k := |l|;
    assert query[..k] == l;
    assert query[k..] == OffsetQuery + o;
    assert HasPrefix(query[k..], OffsetQuery);
    assert query[k + |OffsetQuery|..] == o;
  }

  lemma QueryRoundTrip(limit: int, offset: int)
    requires IntMin <= limit <= IntMax && IntMin <= offset <= IntMax
    ensures ParseQuery(Decimal(limit) + OffsetQuery + Decimal(offset)) == Some(PokemonList(limit, offset))
  {
    QuerySplit(Decimal(limit), Decimal(offset));
    ParseDecimal(limit);
    ParseDecimal(offset);
  }

  /** The list URL carries both numbers, recoverably: parsing inverts `Url`. */
  lemma ListUrlRoundTrip(limit: int, offset: int)
    requires IntMin <= limit <= IntMax && IntMin <= offset <= IntMax
    ensures ParseListUrl(Url(PokemonList(limit, offset))) == Some(PokemonList(limit, offset))
  {
    var head := ListBase + LimitQuery;
    var l, o := Decimal(limit), Decimal(offset);
    var query := l + OffsetQuery + o;
    var url := Url(PokemonList(limit, offset));
    assert url == ListBase + LimitQuery + l + OffsetQuery + o;
    assert url == head + query;
    assert HasPrefix(url, head);
    assert url[|head|..] == query;
    QueryRoundTrip(limit, offset);
  }

  /** Distinct (limit, offset) pairs give distinct URLs. */
  lemma ListUrlInjective(a: Path, b: Path)
    requires IntMin <= a.limit <= IntMax && IntMin <= a.offset <= IntMax
    requires IntMin <= b.limit <= IntMax && IntMin <= b.offset <= IntMax
    requires Url(a) == Url(b)
    ensures a == b
  {
    ListUrlRoundTrip(a.limit, a.offset);
    ListUrlRoundTrip(b.limit, b.offset);
  }

  /** The query names `limit` before `offset`, and the request for (20, 40) carries both. */
  lemma ListUrlExample()
    ensures Url(PokemonList(20, 40)) == "https://pokeapi.co/api/v2/pokemon?limit=20&offset=40"
    ensures Contains(Url(PokemonList(20, 40)), "limit=20")
    ensures Contains(Url(PokemonList(20, 40)), "offset=40")
  {
    var url := Url(PokemonList(20, 40));
    assert Decimal(20) == "20" && Decimal(40) == "40";
    assert OccursAt(url, "limit=20", 34);
    assert OccursAt(url, "offset=40", 43);
  }
}
