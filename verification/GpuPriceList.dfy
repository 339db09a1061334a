/** The list of GPU device prices, written as `T4:12;A100:15`. */
module GpuPriceList {
  import opened Kube
  import opened Text

  type ParseFloat = string -> Option<real>

  datatype Item = Item(name: string, price: string)

  /** A device and its price, None for a segment that is not of the form `name:price`. */
  function ParseItem(segment: string): Option<Item> {
    var parts := Split(segment, ':');
    if |parts| == 2 then Some(Item(parts[0], parts[1])) else None
  }

  predicate GoodSegment(segment: string, parse: ParseFloat) {
    ParseItem(segment).Some? && parse(ParseItem(segment).value.price).Some?
  }

  function ParseSegments(segments: seq<string>, parse: ParseFloat): Option<map<string, real>> {
    if segments == [] then Some(map[])
    else
      var last := segments[|segments| - 1];
      match ParseSegments(segments[..|segments| - 1], parse)
      case None => None
      case Some(m) =>
        if !GoodSegment(last, parse) then None
        else
          var item := ParseItem(last).value;
          Some(m[item.name := parse(item.price).value])
  }

  function Parse(priceList: string, parse: ParseFloat): Option<map<string, real>> {
    ParseSegments(Split(priceList, ';'), parse)
  }

  method ParseGPUDevicePriceList(priceList: string, parse: ParseFloat) returns (ret: Option<map<string, real>>)
    ensures ret == Parse(priceList, parse)
  {
    var deviceItems := Split(priceList, ';');
    var prices: map<string, real> := map[];
    for i := 0 to |deviceItems|
      invariant ParseSegments(deviceItems[..i], parse) == Some(prices)
    {
      assert deviceItems[..i + 1][..i] == deviceItems[..i];
      var parts := Split(deviceItems[i], ':');
      if |parts| != 2 {
        BadSegmentFails(deviceItems, parse, i);
        return None;
      }
      var deviceName, price := parts[0], parts[1];
      var priceAsFloat := parse(price);
      if priceAsFloat.None? {
        BadSegmentFails(deviceItems, parse, i);
        return None;
      }
      prices := prices[deviceName := priceAsFloat.value];
    }
    assert deviceItems[..|deviceItems|] == deviceItems;
    return Some(prices);
  }

  lemma {:induction false} BadSegmentFails(segments: seq<string>, parse: ParseFloat, i: nat)
    requires i < |segments| && !GoodSegment(segments[i], parse)
    ensures ParseSegments(segments, parse).None?
  {
    if i < |segments| - 1 {
      BadSegmentFails(segments[..|segments| - 1], parse, i);
    }
  }

  // ----- Printing -----

  function PrintItem(item: Item): string { item.name + ":" + item.price }

  function Segments(items: seq<Item>): seq<string> {
    seq(|items|, i requires 0 <= i < |items| => PrintItem(items[i]))
  }

  function Print(items: seq<Item>): string
    requires items != []
  {
    Join(Segments(items), ';')
  }

  predicate Printable(s: string) { Clean(s, ';') && Clean(s, ':') }

  predicate PrintableItem(item: Item, parse: ParseFloat) {
    Printable(item.name) && Printable(item.price) && parse(item.price).Some?
  }

  function Names(items: seq<Item>): set<string> {
    set i | 0 <= i < |items| :: items[i].name
  }

  /** Item `i` is the last one of its name. */
  predicate Last(items: seq<Item>, i: nat)
    requires i < |items|
  {
    forall j | i < j < |items| :: items[j].name != items[i].name
  }

  /** `m` maps every listed name, and no other, to the price it is listed with last. */
  ghost predicate IsLastWins(items: seq<Item>, parse: ParseFloat, m: map<string, real>) {
    && m.Keys == Names(items)
    && forall i | 0 <= i < |items| && Last(items, i) :: parse(items[i].price) == Some(m[items[i].name])
  }

  lemma ParsePrintedItem(item: Item)
    requires Printable(item.name) && Printable(item.price)
    ensures ParseItem(PrintItem(item)) == Some(item) && Clean(PrintItem(item), ';')
  {
    SplitAtFirst(item.name, item.price, ':');
    SplitClean(item.price, ':');
  }

  lemma {:induction false} SegmentsLastWins(items: seq<Item>, parse: ParseFloat)
    requires forall i | 0 <= i < |items| :: PrintableItem(items[i], parse)
    ensures ParseSegments(Segments(items), parse).Some?
    ensures IsLastWins(items, parse, ParseSegments(Segments(items), parse).value)
  {
    if items != [] {
      var n := |items| - 1;
      SegmentsLastWins(items[..n], parse);
      assert Segments(items)[..n] == Segments(items[..n]);
      ParsePrintedItem(items[n]);
      LastWinsOneMore(items, parse, ParseSegments(Segments(items[..n]), parse).value);
    }
  }

  lemma NamesOneMore(items: seq<Item>, n: nat)
    requires |items| == n + 1
    ensures Names(items) == Names(items[..n]) + {items[n].name}
  {
  }

  lemma LastWinsOneMore(items: seq<Item>, parse: ParseFloat, m: map<string, real>)
    requires items != [] && parse(items[|items| - 1].price).Some?
    requires IsLastWins(items[..|items| - 1], parse, m)
    ensures IsLastWins(items, parse, m[items[|items| - 1].name := parse(items[|items| - 1].price).value])
  {
    var n := |items| - 1;
    var front, m' := items[..n], m[items[n].name := parse(items[n].price).value];
    NamesOneMore(items, n);
    forall i | 0 <= i < |items| && Last(items, i)
      ensures parse(items[i].price) == Some(m'[items[i].name])
    {
      if i < n {
        assert items[n].name != items[i].name;
        assert Last(front, i) by {
          forall j | i < j < n ensures front[j].name != front[i].name {
            assert items[j].name != items[i].name;
          }
        }
        assert front[i] == items[i];
      }
    }
  }

  /** Parsing a printed list gives the map in which the last price of a name wins. */
  lemma ParseInvertsPrint(items: seq<Item>, parse: ParseFloat)
    requires items != [] && forall i | 0 <= i < |items| :: PrintableItem(items[i], parse)
    ensures Parse(Print(items), parse).Some?
    ensures IsLastWins(items, parse, Parse(Print(items), parse).value)
  {
    forall i | 0 <= i < |items| ensures Clean(Segments(items)[i], ';') {
      ParsePrintedItem(items[i]);
    }
    SplitJoin(Segments(items), ';');
    SegmentsLastWins(items, parse);
  }

  predicate AllGood(segments: seq<string>, parse: ParseFloat) {
    forall i | 0 <= i < |segments| :: GoodSegment(segments[i], parse)
  }

  lemma {:induction false} SegmentsParseExactly(segments: seq<string>, parse: ParseFloat)
    ensures ParseSegments(segments, parse).Some? <==> AllGood(segments, parse)
  {
    if segments != [] {
      var n := |segments| - 1;
      SegmentsParseExactly(segments[..n], parse);
      assert AllGood(segments, parse) <==> AllGood(segments[..n], parse) && GoodSegment(segments[n], parse) by {
        assert forall i | 0 <= i < n :: segments[..n][i] == segments[i];
      }
    }
  }

  /** Parsing succeeds exactly when every segment has one colon and a readable price. */
  lemma ParsesExactly(priceList: string, parse: ParseFloat)
    ensures Parse(priceList, parse).Some? <==> AllGood(Split(priceList, ';'), parse)
  {
    SegmentsParseExactly(Split(priceList, ';'), parse);
  }

  /** Every list that parses is the print of some items, none of them lost. */
  lemma PrintInvertsParse(priceList: string, parse: ParseFloat) returns (items: seq<Item>)
    requires Parse(priceList, parse).Some?
    ensures items != [] && Print(items) == priceList
    ensures forall i | 0 <= i < |items| :: PrintableItem(items[i], parse)
  {
    var segments := Split(priceList, ';');
    ParsesExactly(priceList, parse);
    items := seq(|segments|, i requires 0 <= i < |segments| => ParseItem(segments[i]).value);
    PartsAreClean(priceList, ';');
    forall i | 0 <= i < |items|
      ensures PrintItem(items[i]) == segments[i] && PrintableItem(items[i], parse)
    {
      PrintParsedItem(segments[i]);
    }
    assert Segments(items) == segments;
    JoinSplit(priceList, ';');
  }

  lemma PrintParsedItem(segment: string)
    requires ParseItem(segment).Some? && Clean(segment, ';')
    ensures var item := ParseItem(segment).value;
            PrintItem(item) == segment && Printable(item.name) && Printable(item.price)
  {
    var item := ParseItem(segment).value;
    JoinSplit(segment, ':');
    PartsAreClean(segment, ':');
    assert Join([item.name, item.price], ':') == item.name + [':'] + Join([item.price], ':');
    assert forall i | 0 <= i < |item.name| :: item.name[i] == segment[i];
    assert forall i | 0 <= i < |item.price| :: item.price[i] == segment[|item.name| + 1 + i];
  }
}
