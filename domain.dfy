/** The stock record of `pkg/domain` and its conversions to and from the
    API-facing DTO (`stock.Stock` of the shared schema package, which carries
    only a name and a symbol). */
module Domain {

  import opened GoLib

  /** `domain.Stock`. */
  datatype Stock = Stock(name: string, symbol: string, count: Int64)

  /** `stock.Stock`, the DTO: a name and a symbol, never a count. */
  datatype StockDto = StockDto(name: string, symbol: string)

  /** The zero value `domain.Stock{}`. */
  const ZeroStock := Stock("", "", 0)

  /** `NewDomainStock`: the DTO's name and symbol with the given count. */
  function NewDomainStock(s: StockDto, count: Int64): (r: Stock)
    ensures r.name == s.name && r.symbol == s.symbol && r.count == count
  {
    Stock(s.name, s.symbol, count)
  }

  /** `(*Stock).ToDTO`: name and symbol unchanged, count dropped. */
  function ToDTO(s: Stock): (r: StockDto)
    ensures r.name == s.name && r.symbol == s.symbol
  {
    StockDto(s.name, s.symbol)
  }

  /** A DTO survives the trip through the domain, whatever count it gets. */
  lemma DtoRoundTrip(s: StockDto, count: Int64)
    ensures ToDTO(NewDomainStock(s, count)) == s
  {
  }

  /** A domain stock is rebuilt from its DTO and its own count. */
  lemma DomainRoundTrip(d: Stock)
    ensures NewDomainStock(ToDTO(d), d.count) == d
  {
  }

  /** Two stocks have the same DTO exactly when they differ at most in count. */
  lemma ToDTOForgetsOnlyCount(a: Stock, b: Stock)
    ensures ToDTO(a) == ToDTO(b) <==> a.(count := 0) == b.(count := 0)
  {
  }

  /** `ToDTO` over a slice of stocks, element by element: a nil slice stays nil. */
  function ToDTOs(ss: Slice<Stock>): (r: Slice<StockDto>)
    ensures r.Nil? <==> ss.Nil?
    ensures |r.Items()| == |ss.Items()|
    ensures forall i :: 0 <= i < |ss.Items()| ==> r.Items()[i] == ToDTO(ss.Items()[i])
  {
    match ss
    case Nil => Nil
    case Elems(xs) => Elems(seq(|xs|, i requires 0 <= i < |xs| => ToDTO(xs[i])))
  }
}
