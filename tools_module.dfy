/** The dashboard's tools panel: the trade form, the user-information grouping, the positions list and
    chart, the order list and the tool buttons. Only the data shaping is modelled; the HTML, the
    fetches and the chart library are not. */
module ToolsModule {
  import opened Wrappers
  import opened Text
  import opened Values
  import opened Sequences
  import opened Sorting
  import opened UiModule

  // ---------------------------------------------------------------- the trade form

  /** The trade form's field values as the browser reports them (always strings, "" when empty). */
  datatype TradeForm = TradeForm(
    symbol: string, quantity: string, side: string, orderType: string,
    limitPrice: string, stopPrice: string)

  /** A price field of the order: left out, or set to `parseFloat` of its input (`None` is NaN). */
  datatype PriceField = Absent | Price(parsed: Option<real>)

  /** The order the form submits; `qty` is `parseFloat` of the quantity (`None` is NaN). */
  datatype OrderData = OrderData(
    symbol: string, qty: Option<real>, side: string, orderType: string,
    limitPrice: PriceField, stopPrice: PriceField)

  /** Order types whose form needs a limit price, and a stop price. */
  predicate NeedsLimit(orderType: string) { orderType == "limit" || orderType == "stop_limit" }
  predicate NeedsStop(orderType: string) { orderType == "stop" || orderType == "stop_limit" }

  /** `collectTradeFormData`: `None` (after an alert) when a required field is empty or the price the
      order type needs is missing; otherwise the order with exactly the price fields its type needs. */
  method CollectTradeFormData(form: TradeForm) returns (r: Option<OrderData>)
    ensures r.None? <==>
      form.symbol == [] || form.quantity == [] || form.side == [] || form.orderType == []
      || (NeedsLimit(form.orderType) && form.limitPrice == [])
      || (NeedsStop(form.orderType) && form.stopPrice == [])
    ensures r.Some? ==>
      var o := r.value;
      o.symbol == form.symbol && o.side == form.side && o.orderType == form.orderType
      && o.qty == JsParseFloat(form.quantity)
      && (o.limitPrice.Price? <==> NeedsLimit(form.orderType))
      && (o.stopPrice.Price? <==> NeedsStop(form.orderType))
      && (o.limitPrice.Price? ==> o.limitPrice.parsed == JsParseFloat(form.limitPrice))
      && (o.stopPrice.Price? ==> o.stopPrice.parsed == JsParseFloat(form.stopPrice))
  {
    if form.symbol == [] || form.quantity == [] || form.side == [] || form.orderType == [] {
      return None;
    }
    var orderData := OrderData(form.symbol, JsParseFloat(form.quantity), form.side, form.orderType, Absent, Absent);
    if form.orderType == "limit" {
      if form.limitPrice == [] {
        return None;
      }
      orderData := orderData.(limitPrice := Price(JsParseFloat(form.limitPrice)));
    } else if form.orderType == "stop" {
      if form.stopPrice == [] {
        return None;
      }
      orderData := orderData.(stopPrice := Price(JsParseFloat(form.stopPrice)));
    } else if form.orderType == "stop_limit" {
      if form.stopPrice == [] || form.limitPrice == [] {
        return None;
      }
      orderData := orderData.(stopPrice := Price(JsParseFloat(form.stopPrice)));
      orderData := orderData.(limitPrice := Price(JsParseFloat(form.limitPrice)));
    }
    return Some(orderData);
  }

  // ---------------------------------------------------------------- information-type headings

  /** JavaScript's `s.split(c)` for a one-character separator: the pieces between separators,
      empty pieces included (so `""` splits into `[""]`). */
  function SplitOn(s: string, c: char): (parts: seq<string>)
    ensures |parts| > 0
  {
    if s == [] then [[]]
    else
      var parts := SplitOn(s[..|s| - 1], c);
      if s[|s| - 1] == c then parts + [[]]
      else parts[..|parts| - 1] + [parts[|parts| - 1] + [s[|s| - 1]]]
  }

  /** `parts.join(sep)`. */
  function JoinWith(parts: seq<string>, sep: string): string {
    if parts == [] then []
    else if |parts| == 1 then parts[0]
    else JoinWith(parts[..|parts| - 1], sep) + sep + parts[|parts| - 1]
  }

  /** `word.charAt(0).toUpperCase() + word.slice(1)`. */
  function Capitalize(word: string): string {
    if word == [] then [] else [UpperChar(word[0])] + word[1..]
  }

  function CapitalizeAll(parts: seq<string>): (r: seq<string>)
    ensures |r| == |parts| && forall i :: 0 <= i < |parts| ==> r[i] == Capitalize(parts[i])
  {
    seq(|parts|, i requires 0 <= i < |parts| => Capitalize(parts[i]))
  }

  /** `_formatInfoType`: split on '_', capitalise each piece, join with spaces. */
  function FormatInfoType(infoType: string): string {
    JoinWith(CapitalizeAll(SplitOn(infoType, '_')), " ")
  }

  /** What `FormatInfoType` puts at position `i`: a space for '_', the upper-case letter at the start of
      a piece, the character itself elsewhere. */
  function HeadingChar(t: string, i: nat): char
    requires i < |t|
  {
    if t[i] == '_' then ' '
    else if i == 0 || t[i - 1] == '_' then UpperChar(t[i])
    else t[i]
  }

  /** The last piece is empty exactly when the text is empty or ends with the separator. */
  lemma SplitLastEmpty(s: string, c: char)
    ensures var parts := SplitOn(s, c); parts[|parts| - 1] == [] <==> s == [] || s[|s| - 1] == c
  {
  }

  lemma JoinAppend(parts: seq<string>, sep: string, p: string)
    requires parts != []
    ensures JoinWith(parts + [p], sep) == JoinWith(parts, sep) + sep + p
  {
    assert (parts + [p])[..|parts|] == parts;
  }

  lemma JoinExtendLast(parts: seq<string>, sep: string, x: string)
    requires parts != []
    ensures JoinWith(parts[..|parts| - 1] + [parts[|parts| - 1] + x], sep) == JoinWith(parts, sep) + x
  {
    var init := parts[..|parts| - 1];
    if |parts| > 1 {
      assert (init + [parts[|parts| - 1] + x])[..|init|] == init;
    }
  }

  /** A separator starts a new, empty piece: the heading gains a space. */
  lemma FormatStepSeparator(s: string)
    ensures FormatInfoType(s + ['_']) == FormatInfoType(s) + " "
  {
    var t := s + ['_'];
    assert t[..|t| - 1] == s;
    var ps := SplitOn(s, '_');
    var caps := CapitalizeAll(ps);
    assert SplitOn(t, '_') == ps + [[]];
    assert CapitalizeAll(ps + [[]]) == caps + [[]];
    JoinAppend(caps, " ", []);
  }

  lemma CapitalizeAppend(word: string, ch: char)
    ensures Capitalize(word + [ch]) == Capitalize(word) + (if word == [] then [UpperChar(ch)] else [ch])
  {
    if word != [] {
      assert (word + [ch])[1..] == word[1..] + [ch];
    }
  }

  lemma CapitalizeAllLast(ps: seq<string>, q: string)
    requires ps != []
    ensures CapitalizeAll(ps[..|ps| - 1] + [q]) == CapitalizeAll(ps)[..|ps| - 1] + [Capitalize(q)]
  {
  }

  /** Any other character extends the last piece, upper-cased when it starts it. */
  lemma FormatStepOther(s: string, ch: char)
    requires ch != '_'
    ensures FormatInfoType(s + [ch]) == FormatInfoType(s) + [HeadingChar(s + [ch], |s|)]
  {
    var t := s + [ch];
    assert t[..|t| - 1] == s;
    var ps := SplitOn(s, '_');
    var caps := CapitalizeAll(ps);
    var last := ps[|ps| - 1];
    assert SplitOn(t, '_') == ps[..|ps| - 1] + [last + [ch]];
    SplitLastEmpty(s, '_');
    var added := if last == [] then [UpperChar(ch)] else [ch];
    assert HeadingChar(t, |s|) == added[0];
    CapitalizeAppend(last, ch);
    CapitalizeAllLast(ps, last + [ch]);
    JoinExtendLast(caps, " ", added);
  }

  /** What one more character adds to the heading. */
  lemma FormatInfoTypeStep(s: string, ch: char)
    ensures FormatInfoType(s + [ch]) == FormatInfoType(s) + [HeadingChar(s + [ch], |s|)]
  {
    if ch == '_' {
      FormatStepSeparator(s);
    } else {
      FormatStepOther(s, ch);
    }
  }

  /** The heading is the type with each '_' turned into a space and the first letter of each piece
      upper-cased: same length, character by character. */
  lemma {:induction false} FormatInfoTypeChars(t: string)
    ensures |FormatInfoType(t)| == |t|
    ensures forall i :: 0 <= i < |t| ==> FormatInfoType(t)[i] == HeadingChar(t, i)
  {
    if t != [] {
      var s := t[..|t| - 1];
      assert t == s + [t[|t| - 1]];
      FormatInfoTypeChars(s);
      FormatInfoTypeStep(s, t[|t| - 1]);
      forall i | 0 <= i < |s|
        ensures FormatInfoType(t)[i] == HeadingChar(t, i)
      {
        assert HeadingChar(t, i) == HeadingChar(s, i);
      }
    }
  }

  // ---------------------------------------------------------------- grouping user information

  /** One stored piece of user information. */
  datatype InfoItem = InfoItem(infoType: string, content: string, updatedAt: string)

  function Types(items: seq<InfoItem>): (r: seq<string>)
    ensures |r| == |items| && forall i :: 0 <= i < |items| ==> r[i] == items[i].infoType
  {
    if items == [] then [] else Types(items[..|items| - 1]) + [items[|items| - 1].infoType]
  }

  /** The items of one type, in their original order. */
  function OfType(items: seq<InfoItem>, t: string): (r: seq<InfoItem>)
    ensures forall x :: x in r <==> x in items && x.infoType == t
    ensures |r| <= |items|
  {
    if items == [] then []
    else
      var last := items[|items| - 1];
      OfType(items[..|items| - 1], t) + (if last.infoType == t then [last] else [])
  }

  lemma TypesAppend(items: seq<InfoItem>, x: InfoItem)
    ensures Types(items + [x]) == Types(items) + [x.infoType]
  {
    assert (items + [x])[..|items|] == items;
  }

  lemma OfTypeAppend(items: seq<InfoItem>, x: InfoItem, t: string)
    ensures OfType(items + [x], t) == OfType(items, t) + (if x.infoType == t then [x] else [])
  {
    assert (items + [x])[..|items|] == items;
  }

  lemma {:induction false} NoneOfType(items: seq<InfoItem>, t: string)
    requires forall i :: 0 <= i < |items| ==> items[i].infoType != t
    ensures OfType(items, t) == []
  {
    if items != [] {
      NoneOfType(items[..|items| - 1], t);
    }
  }

  /** A type that no item has has no items. */
  lemma OfTypeAbsent(items: seq<InfoItem>, t: string)
    requires t !in Types(items)
    ensures OfType(items, t) == []
  {
    forall i | 0 <= i < |items|
      ensures items[i].infoType != t
    {
      assert Types(items)[i] == items[i].infoType;
    }
    NoneOfType(items, t);
  }

  lemma TypesPrefix(items: seq<InfoItem>, i: nat)
    requires i < |items|
    ensures Types(items[..i + 1]) == Types(items[..i]) + [items[i].infoType]
  {
    assert items[..i + 1] == items[..i] + [items[i]];
    TypesAppend(items[..i], items[i]);
  }

  lemma OfTypePrefix(items: seq<InfoItem>, i: nat, t: string)
    requires i < |items|
    ensures OfType(items[..i + 1], t) == OfType(items[..i], t) + (if items[i].infoType == t then [items[i]] else [])
  {
    assert items[..i + 1] == items[..i] + [items[i]];
    OfTypeAppend(items[..i], items[i], t);
  }

  /** The grouping loop of `toggleAllUserInfo`: each item is pushed onto the list of its type, a list
      being created on the type's first appearance. `order` is the object's key order. */
  method GroupByType(items: seq<InfoItem>) returns (order: seq<string>, groups: map<string, seq<InfoItem>>)
    ensures order == Dedup(Types(items))
    ensures forall t :: t in groups <==> t in Types(items)
    ensures forall t :: t in groups ==> groups[t] == OfType(items, t)
  {
    order := [];
    groups := map[];
    for i := 0 to |items|
      invariant order == Dedup(Types(items[..i]))
      invariant forall t :: t in groups <==> t in Types(items[..i])
      invariant forall t :: t in groups ==> groups[t] == OfType(items[..i], t)
    {
      var item := items[i];
      TypesPrefix(items, i);
      DedupAppend(Types(items[..i]), item.infoType);
      var group: seq<InfoItem>;
      if item.infoType in groups {
        group := groups[item.infoType];
      } else {
        OfTypeAbsent(items[..i], item.infoType);
        group := [];
        order := order + [item.infoType];
      }
      assert group == OfType(items[..i], item.infoType);
      ghost var before := groups;
      groups := groups[item.infoType := group + [item]];
      forall t | t in groups
        ensures groups[t] == OfType(items[..i + 1], t)
      {
        OfTypePrefix(items, i, t);
        if t != item.infoType {
          assert groups[t] == before[t];
        }
      }
    }
    assert items[..|items|] == items;
  }

  /** The total size of the groups named by `keys`. */
  function GroupSizes(keys: seq<string>, items: seq<InfoItem>): nat {
    if keys == [] then 0 else GroupSizes(keys[..|keys| - 1], items) + |OfType(items, keys[|keys| - 1])|
  }

  /** How many of `keys` are `t`. */
  function Occurrences(keys: seq<string>, t: string): nat {
    if keys == [] then 0 else Occurrences(keys[..|keys| - 1], t) + (if keys[|keys| - 1] == t then 1 else 0)
  }

  lemma {:induction false} GroupSizesAddItem(keys: seq<string>, items: seq<InfoItem>, x: InfoItem)
    ensures GroupSizes(keys, items + [x]) == GroupSizes(keys, items) + Occurrences(keys, x.infoType)
  {
    if keys != [] {
      GroupSizesAddItem(keys[..|keys| - 1], items, x);
      assert (items + [x])[..|items|] == items;
    }
  }

  lemma {:induction false} OccursOnce(keys: seq<string>, t: string)
    requires Distinct(keys)
    ensures Occurrences(keys, t) == if t in keys then 1 else 0
  {
    if keys != [] {
      var init := keys[..|keys| - 1];
      OccursOnce(init, t);
      assert keys == init + [keys[|keys| - 1]];
      assert keys[|keys| - 1] !in init;
    }
  }

  lemma GroupSizesAddKey(keys: seq<string>, items: seq<InfoItem>, t: string)
    requires t !in Types(items)
    ensures GroupSizes(keys + [t], items) == GroupSizes(keys, items)
  {
    assert (keys + [t])[..|keys|] == keys;
    OfTypeAbsent(items, t);
  }

  /** An item of a type already seen adds one to that type's group. */
  lemma StepKnownType(init: seq<InfoItem>, x: InfoItem)
    requires x.infoType in Types(init)
    ensures GroupSizes(Dedup(Types(init)), init + [x]) == GroupSizes(Dedup(Types(init)), init) + 1
  {
    GroupSizesAddItem(Dedup(Types(init)), init, x);
    OccursOnce(Dedup(Types(init)), x.infoType);
  }

  /** An item of a new type opens a group holding just that item. */
  lemma StepNewType(init: seq<InfoItem>, x: InfoItem)
    requires x.infoType !in Types(init)
    ensures GroupSizes(Dedup(Types(init)) + [x.infoType], init + [x]) == GroupSizes(Dedup(Types(init)), init) + 1
  {
    var keys := Dedup(Types(init));
    var t := x.infoType;
    assert Distinct(keys + [t]) by {
      DedupAppend(Types(init), t);
      assert Dedup(Types(init) + [t]) == keys + [t];
    }
    GroupSizesAddKey(keys, init, t);
    GroupSizesAddItem(keys + [t], init, x);
    OccursOnce(keys + [t], t);
  }

  /** Adding an item adds one to the sizes of the groups of the types seen so far. */
  lemma GroupsStep(init: seq<InfoItem>, x: InfoItem)
    ensures GroupSizes(Dedup(Types(init + [x])), init + [x]) == GroupSizes(Dedup(Types(init)), init) + 1
  {
    TypesAppend(init, x);
    DedupAppend(Types(init), x.infoType);
    if x.infoType in Types(init) {
      StepKnownType(init, x);
    } else {
      StepNewType(init, x);
    }
  }

  lemma LastSplit(items: seq<InfoItem>)
    requires items != []
    ensures items == items[..|items| - 1] + [items[|items| - 1]]
  {
  }

  /** Every item lands in exactly one group: the groups' sizes add up to the number of items. */
  lemma {:induction false} GroupsPartitionItems(items: seq<InfoItem>)
    ensures GroupSizes(Dedup(Types(items)), items) == |items|
  {
    if items != [] {
      var init, x := items[..|items| - 1], items[|items| - 1];
      GroupsPartitionItems(init);
      GroupsStep(init, x);
      LastSplit(items);
    }
  }

  // ---------------------------------------------------------------- positions list and chart

  /** A position as the positions endpoint reports it; `marketValue` is `parseFloat` of its
      `market_value` (`None` is NaN). */
  datatype Position = Position(symbol: string, marketValue: Option<real>)

  /** `parseFloat(position.market_value) > 0.01` (NaN compares false). */
  predicate Significant(p: Position) {
    p.marketValue.Some? && p.marketValue.value > 0.01
  }

  /** The filter of `loadPositions`: the positions worth more than 0.01, in their original order. */
  function SignificantPositions(ps: seq<Position>): (r: seq<Position>)
    ensures forall p :: p in r <==> p in ps && Significant(p)
    ensures |ps| == 1 ==> r == if Significant(ps[0]) then ps else []
    ensures |r| <= |ps|
  {
    if ps == [] then []
    else
      var last := ps[|ps| - 1];
      SignificantPositions(ps[..|ps| - 1]) + (if Significant(last) then [last] else [])
  }

  /** The filter keeps the order of the list: filtering a concatenation concatenates the filtered parts. */
  lemma {:induction false} SignificantConcat(a: seq<Position>, b: seq<Position>)
    ensures SignificantPositions(a + b) == SignificantPositions(a) + SignificantPositions(b)
    decreases |b|
  {
    if b == [] {
      assert a + b == a;
    } else {
      var last := b[|b| - 1];
      SignificantConcat(a, b[..|b| - 1]);
      assert (a + b)[..|a + b| - 1] == a + b[..|b| - 1];
      assert (a + b)[|a + b| - 1] == last;
    }
  }

  /** A list of significant positions passes the filter unchanged. */
  lemma {:induction false} AllSignificantKept(ps: seq<Position>)
    requires forall i :: 0 <= i < |ps| ==> Significant(ps[i])
    ensures SignificantPositions(ps) == ps
  {
    if ps != [] {
      AllSignificantKept(ps[..|ps| - 1]);
      assert ps[..|ps| - 1] + [ps[|ps| - 1]] == ps;
    }
  }

  /** Filtering an already filtered list changes nothing. */
  lemma SignificantIdempotent(ps: seq<Position>)
    ensures SignificantPositions(SignificantPositions(ps)) == SignificantPositions(ps)
  {
    var r := SignificantPositions(ps);
    forall i | 0 <= i < |r|
      ensures Significant(r[i])
    {
      assert r[i] in r;
    }
    AllSignificantKept(r);
  }

  /** The value the chart draws for a significant position. */
  function ValueOf(p: Position): real {
    if p.marketValue.Some? then p.marketValue.value else 0.0
  }

  /** `values.reduce((a, b) => a + b, 0)`. */
  function Total(vs: seq<real>): real {
    if vs == [] then 0.0 else Total(vs[..|vs| - 1]) + vs[|vs| - 1]
  }

  /** `(value / totalValue) * 100` for every value. */
  function Percentages(vs: seq<real>, total: real): (r: seq<real>)
    requires total != 0.0
    ensures |r| == |vs|
    ensures forall i :: 0 <= i < |vs| ==> r[i] == vs[i] / total * 100.0
  {
    if vs == [] then [] else Percentages(vs[..|vs| - 1], total) + [vs[|vs| - 1] / total * 100.0]
  }

  /** The data of the allocation pie chart; `colors[i]` is `getChartColor(i)`. */
  datatype Chart = Chart(labels: seq<string>, values: seq<real>, colors: seq<Option<string>>, percentages: seq<real>)

  /** The order in which `renderPositionsChart` draws the significant positions: by market value,
      largest first. */
  function ChartOrder(positions: seq<Position>): (r: seq<Position>)
    ensures multiset(r) == multiset(SignificantPositions(positions))
    ensures |r| == |SignificantPositions(positions)|
    ensures forall i, j :: 0 <= i < j < |r| ==> ValueOf(r[i]) >= ValueOf(r[j])
  {
    var r := SortBy(SignificantPositions(positions), p => -ValueOf(p));
    assert forall i, j :: 0 <= i < j < |r| ==> -ValueOf(r[i]) <= -ValueOf(r[j]);
    r
  }

  function ChartValues(sorted: seq<Position>): (vs: seq<real>)
    ensures |vs| == |sorted| && forall i :: 0 <= i < |sorted| ==> vs[i] == ValueOf(sorted[i])
  {
    seq(|sorted|, i requires 0 <= i < |sorted| => ValueOf(sorted[i]))
  }

  /** `loadPositions` followed by `renderPositionsChart`: no chart unless the values add up to more
      than zero, which happens exactly when some position is significant. */
  function PositionsChart(positions: seq<Position>): (r: Option<Chart>)
    ensures r.None? <==> SignificantPositions(positions) == []
    ensures r.Some? ==>
      var sorted := ChartOrder(positions);
      var c := r.value;
      |c.labels| == |c.values| == |c.colors| == |c.percentages| == |sorted|
      && (forall i :: 0 <= i < |sorted| ==>
            c.labels[i] == sorted[i].symbol && c.values[i] == ValueOf(sorted[i]) && c.values[i] > 0.01
            && c.colors[i] == Some(Palette[i % 8]))
      && (forall i, j :: 0 <= i < j < |sorted| ==> c.values[i] >= c.values[j])
      && Total(c.values) > 0.0 && c.percentages == Percentages(c.values, Total(c.values))
  {
    var sorted := ChartOrder(positions);
    var values := ChartValues(sorted);
    var total := Total(values);
    ChartValuesSignificant(positions);
    TotalPositive(values);
    if total > 0.0 then
      var labels := seq(|sorted|, i requires 0 <= i < |sorted| => sorted[i].symbol);
      var colors := seq(|sorted|, i requires 0 <= i < |sorted| => GetChartColor(i));
      Some(Chart(labels, values, colors, Percentages(values, total)))
    else None
  }

  /** Every value the chart draws is above the significance threshold. */
  lemma ChartValuesSignificant(positions: seq<Position>)
    ensures forall i :: 0 <= i < |ChartOrder(positions)| ==> ChartValues(ChartOrder(positions))[i] > 0.01
  {
    var sorted := ChartOrder(positions);
    forall i | 0 <= i < |sorted|
      ensures ValueOf(sorted[i]) > 0.01
    {
      assert sorted[i] in multiset(sorted);
      assert sorted[i] in multiset(SignificantPositions(positions));
      assert sorted[i] in SignificantPositions(positions);
    }
  }

  /** Values above 0.01 add up to more than zero exactly when there is at least one. */
  lemma {:induction false} TotalPositive(vs: seq<real>)
    requires forall i :: 0 <= i < |vs| ==> vs[i] > 0.01
    ensures Total(vs) > 0.0 <==> vs != []
    ensures Total(vs) >= 0.0
  {
    if vs != [] {
      TotalPositive(vs[..|vs| - 1]);
    }
  }

  lemma ScaledAdd(a: real, b: real, total: real)
    requires total != 0.0
    ensures a / total * 100.0 + b / total * 100.0 == (a + b) / total * 100.0
  {
    assert a / total + b / total == (a + b) / total;
  }

  /** The percentages add up to the values' total over `total`, times 100. */
  lemma {:induction false} PercentagesTotal(vs: seq<real>, total: real)
    requires total != 0.0
    ensures Total(Percentages(vs, total)) == Total(vs) / total * 100.0
  {
    if vs != [] {
      var init := vs[..|vs| - 1];
      PercentagesTotal(init, total);
      var ps := Percentages(vs, total);
      assert ps[..|ps| - 1] == Percentages(init, total);
      ScaledAdd(Total(init), vs[|vs| - 1], total);
    }
  }

  /** Each value's share of the total, in percent, together make 100. */
  lemma PercentagesOfTotal(vs: seq<real>)
    requires Total(vs) > 0.0
    ensures Total(Percentages(vs, Total(vs))) == 100.0
  {
    PercentagesTotal(vs, Total(vs));
    WholeHundred(Total(vs));
  }

  /** The pie's percentages add up to 100. */
  lemma ChartPercentagesSumToHundred(positions: seq<Position>)
    requires PositionsChart(positions).Some?
    ensures Total(PositionsChart(positions).value.percentages) == 100.0
  {
    PercentagesOfTotal(PositionsChart(positions).value.values);
  }

  lemma WholeHundred(total: real)
    requires total != 0.0
    ensures total / total * 100.0 == 100.0
  {
  }

  // ---------------------------------------------------------------- order list

  /** An order as the orders endpoint reports it (JSON values). */
  datatype Order = Order(symbol: string, status: string, qty: Value, filledQty: Value, filledAvgPrice: Value)

  /** The quantity column: "filled/qty", or the quantity alone. */
  datatype QtyDisplay = FilledOfTotal(filled: Value, qty: Value) | TotalOnly(qty: Value)

  /** The price column: the fill price, or 'Not filled'. */
  datatype PriceDisplay = FillPrice(price: Value) | NotFilled

  /** The display rules of `loadOrders`, chosen by JavaScript truthiness. */
  function ShowQty(o: Order): (d: QtyDisplay)
    ensures d.FilledOfTotal? <==> JsTruthy(o.filledQty)
    ensures d.qty == o.qty
    ensures d.FilledOfTotal? ==> d.filled == o.filledQty
  {
    if JsTruthy(o.filledQty) then FilledOfTotal(o.filledQty, o.qty) else TotalOnly(o.qty)
  }

  function ShowPrice(o: Order): (d: PriceDisplay)
    ensures d.NotFilled? <==> !JsTruthy(o.filledAvgPrice)
    ensures d.FillPrice? ==> d.price == o.filledAvgPrice
  {
    if JsTruthy(o.filledAvgPrice) then FillPrice(o.filledAvgPrice) else NotFilled
  }

  /** An order the service reports as unfilled (filled quantity and price 0, or absent) shows its
      quantity alone and 'Not filled'; a fill shows both columns. */
  lemma UnfilledOrderDisplay(o: Order)
    requires o.filledQty in {VInt(0), VFloat(0.0), VNone} && o.filledAvgPrice in {VInt(0), VFloat(0.0), VNone}
    ensures ShowQty(o) == TotalOnly(o.qty) && ShowPrice(o) == NotFilled
  {
  }

  lemma FilledOrderDisplay(o: Order, q: real, p: real)
    requires o.filledQty == VFloat(q) && q != 0.0 && o.filledAvgPrice == VFloat(p) && p != 0.0
    ensures ShowQty(o) == FilledOfTotal(VFloat(q), o.qty) && ShowPrice(o) == FillPrice(VFloat(p))
  {
  }

  // ---------------------------------------------------------------- tool buttons

  /** The tool buttons and tool panels of the page. `tools[i]` is button i's `data-tool`, `panels[i]`
      is panel i's element id; `active` and `shown` are their `active` class and visibility. */
  class ToolPanel {
    const tools: seq<string>
    const panels: seq<string>
    const active: array<bool>
    const shown: array<bool>
    /** Whether the `tool-contents` container exists, and whether it is displayed. */
    const hasContainer: bool
    var containerShown: bool

    predicate Valid()
      reads this
    {
      active.Length == |tools| && shown.Length == |panels| && active != shown
    }

    constructor(tools: seq<string>, panels: seq<string>, hasContainer: bool)
      ensures Valid() && this.tools == tools && this.panels == panels && this.hasContainer == hasContainer
      ensures !containerShown
      ensures fresh(active) && fresh(shown)
    {
      this.tools := tools;
      this.panels := panels;
      this.hasContainer := hasContainer;
      containerShown := false;
      active := new bool[|tools|](_ => false);
      shown := new bool[|panels|](_ => false);
    }

    /** `showTool`: nothing changes without the container; otherwise the container and the tool's own
        panel are shown, every other panel hidden, and exactly the buttons for the tool are active. */
    method ShowTool(toolName: string)
      requires Valid()
      modifies this, active, shown
      ensures Valid()
      ensures !hasContainer ==> containerShown == old(containerShown) && active[..] == old(active[..]) && shown[..] == old(shown[..])
      ensures hasContainer ==>
        (containerShown
         && (forall i :: 0 <= i < |panels| ==> (shown[i] <==> panels[i] == toolName + "-content"))
         && (forall i :: 0 <= i < |tools| ==> (active[i] <==> tools[i] == toolName)))
    {
      if !hasContainer {
        return;
      }
      for i := 0 to shown.Length
        invariant forall k :: 0 <= k < i ==> !shown[k]
      {
        shown[i] := false;
      }
      containerShown := true;
      var id := toolName + "-content";
      for i := 0 to shown.Length
        invariant forall k :: 0 <= k < i ==> (shown[k] <==> panels[k] == id)
        invariant forall k :: i <= k < shown.Length ==> !shown[k]
        invariant containerShown
      {
        if panels[i] == id {
          shown[i] := true;
        }
      }
      for i := 0 to active.Length
        invariant forall k :: 0 <= k < i ==> (active[k] <==> tools[k] == toolName)
        invariant forall k :: 0 <= k < shown.Length ==> (shown[k] <==> panels[k] == id)
        invariant containerShown
      {
        active[i] := tools[i] == toolName;
      }
    }
  }
}
