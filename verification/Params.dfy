/** The parameters of a request: how they are printed into its body and parsed back. */
module Params {

  const KEY_VALUE_DELIM := '\U{1e}'
  const PAIR_DELIM := '\U{1f}'

  /** One entry of the parameter map. */
  datatype Pair = Pair(key: string, val: string)

  /** The map an enumeration of its entries stands for. */
  function ToMap(items: seq<Pair>): map<string, string> {
    if items == [] then map[] else ToMap(items[..|items| - 1])[items[|items| - 1].key := items[|items| - 1].val]
  }

  ghost predicate DistinctKeys(items: seq<Pair>) {
    forall i, j :: 0 <= i < j < |items| ==> items[i].key != items[j].key
  }

  function PrintPair(p: Pair): string {
    p.key + [KEY_VALUE_DELIM] + p.val + [PAIR_DELIM]
  }

  function Print(items: seq<Pair>): string {
    if items == [] then "" else PrintPair(items[0]) + Print(items[1..])
  }

  // ---------------------------------------------------------------------------------------
  // Parsing

  /** The first position of a character, or the length if there is none. */
  function First(s: string, c: char): (k: nat)
    ensures k <= |s|
    ensures forall i :: 0 <= i < k ==> s[i] != c
    ensures k < |s| ==> s[k] == c
  {
    if s == [] || s[0] == c then 0 else 1 + First(s[1..], c)
  }

  /** What getline(_, _, c) reads, and what it leaves in the stream. */
  function Line(s: string, c: char): string {
    s[..First(s, c)]
  }

  function Rest(s: string, c: char): (r: string)
    ensures s != "" ==> |r| < |s|
  {
    if First(s, c) < |s| then s[First(s, c) + 1..] else ""
  }

  function ParsePair(pair: string): Pair {
    Pair(Line(pair, KEY_VALUE_DELIM), Line(Rest(pair, KEY_VALUE_DELIM), KEY_VALUE_DELIM))
  }

  /** Parsing stops at the end of the text or at the first pair without a delimiter inside. */
  function ParseFrom(params: map<string, string>, s: string): map<string, string>
    decreases |s|
  {
    if s == "" then params
    else
      var pair := Line(s, PAIR_DELIM);
      if KEY_VALUE_DELIM !in pair then params
      else
        var p := ParsePair(pair);
        ParseFrom(params[p.key := p.val], Rest(s, PAIR_DELIM))
  }

  function Parse(s: string): map<string, string> {
    ParseFrom(map[], s)
  }

  class TCPRequest {
    var endpoint: string
    var request: string
    var params: map<string, string>

    /** The printed form is an enumeration of the parameters, in whatever order the map has. */
    ghost predicate Printed()
      reads this
    {
      exists items :: DistinctKeys(items) && ToMap(items) == params && request == Print(items)
    }

    constructor FromText(endpoint: string, request: string)
      ensures this.endpoint == endpoint && this.request == request && params == Parse(request)
    {
      this.endpoint, this.request, params := endpoint, request, map[];
      new;
      var ss := request;
      while ss != ""
        invariant ParseFrom(params, ss) == Parse(request)
        invariant this.endpoint == endpoint && this.request == request
        decreases |ss|
      {
        var pair := Line(ss, PAIR_DELIM);
        if KEY_VALUE_DELIM !in pair {
          break;
        }
        var key := Line(pair, KEY_VALUE_DELIM);
        var val := Line(Rest(pair, KEY_VALUE_DELIM), KEY_VALUE_DELIM);
        params := params[key := val];
        ss := Rest(ss, PAIR_DELIM);
      }
    }

    constructor FromParams(endpoint: string, params: map<string, string>)
      ensures this.endpoint == endpoint && this.params == params && Printed()
    {
      this.endpoint, this.params, request := endpoint, params, "";
      new;
      WriteParams();
    }

    method SetParam(param: string, value: string)
      modifies this
      ensures params == old(params)[param := value] && endpoint == old(endpoint) && Printed()
    {
      params := params[param := value];
      WriteParams();
    }

    method WriteParams()
      modifies this`request
      ensures Printed()
    {
      request := "";
      var todo := params.Keys;
      ghost var items: seq<Pair> := [];
      while todo != {}
        invariant todo <= params.Keys
        invariant request == Print(items) && DistinctKeys(items)
        invariant forall i :: 0 <= i < |items| ==> items[i].key !in todo
        invariant ToMap(items).Keys == params.Keys - todo
        invariant forall k :: k in ToMap(items) ==> ToMap(items)[k] == params[k]
      {
        var param :| param in todo;
        var val := params[param];
        request := request + (param + [KEY_VALUE_DELIM] + val + [PAIR_DELIM]);
        PrintMore(items, Pair(param, val));
        assert (items + [Pair(param, val)])[..|items|] == items;
        items := items + [Pair(param, val)];
        todo := todo - {param};
      }
      assert ToMap(items) == params;
    }
  }

  /** Every entry is printed as its key, the record separator, its value, and the unit separator. */
  lemma PrintedFirst(p: Pair, rest: seq<Pair>)
    ensures Print([p] + rest) == p.key + "\U{1e}" + p.val + "\U{1f}" + Print(rest)
  {
    assert ([p] + rest)[1..] == rest;
  }

  lemma {:induction false} PrintMore(items: seq<Pair>, p: Pair)
    ensures Print(items + [p]) == Print(items) + PrintPair(p)
  {
    if items == [] {
      assert items + [p] == [p] && [p][1..] == [];
      assert Print([p]) == PrintPair(p) + Print([]);
    } else {
      PrintMore(items[1..], p);
      assert (items + [p])[1..] == items[1..] + [p];
      assert Print(items + [p]) == PrintPair(items[0]) + Print(items[1..] + [p]);
    }
  }

  // ---------------------------------------------------------------------------------------
  // Round trip

  predicate Plain(s: string) {
    '\U{1e}' !in s && '\U{1f}' !in s
  }

  ghost predicate PlainMap(m: map<string, string>) {
    forall k :: k in m ==> Plain(k) && Plain(m[k])
  }

  lemma FirstIs(s: string, c: char, k: nat)
    requires k < |s| && s[k] == c && c !in s[..k]
    ensures First(s, c) == k
  {
    assert forall i :: 0 <= i < k ==> s[i] == s[..k][i];
  }

  lemma FirstNone(s: string, c: char)
    requires c !in s
    ensures First(s, c) == |s|
  {
  }

  lemma ParsePrinted(p: Pair)
    requires Plain(p.key) && Plain(p.val)
    ensures ParsePair(p.key + [KEY_VALUE_DELIM] + p.val) == p
  {
    var pair := p.key + [KEY_VALUE_DELIM] + p.val;
    assert pair[..|p.key|] == p.key && pair[|p.key| + 1..] == p.val;
    FirstIs(pair, KEY_VALUE_DELIM, |p.key|);
    FirstNone(p.val, KEY_VALUE_DELIM);
  }

  lemma ParseOne(params: map<string, string>, p: Pair, rest: string)
    requires Plain(p.key) && Plain(p.val)
    ensures ParseFrom(params, PrintPair(p) + rest) == ParseFrom(params[p.key := p.val], rest)
  {
    var s := PrintPair(p) + rest;
    var pair := p.key + [KEY_VALUE_DELIM] + p.val;
    assert s == pair + [PAIR_DELIM] + rest;
    assert s[..|pair|] == pair && s[|pair| + 1..] == rest;
    FirstIs(s, PAIR_DELIM, |pair|);
    assert pair[|p.key|] == KEY_VALUE_DELIM;
    ParsePrinted(p);
  }

  lemma {:induction false} ParseItems(params: map<string, string>, items: seq<Pair>)
    requires forall i :: 0 <= i < |items| ==> Plain(items[i].key) && Plain(items[i].val)
    ensures ParseFrom(params, Print(items)) == params + ToMap(items)
    decreases |items|
  {
    if items == [] {
      assert params + map[] == params;
    } else {
      var p := items[0];
      ParseOne(params, p, Print(items[1..]));
      ParseItems(params[p.key := p.val], items[1..]);
      ToMapFront(items);
      Shift(params, p, ToMap(items[1..]), ToMap(items));
      assert Print(items) == PrintPair(p) + Print(items[1..]);
    }
  }

  lemma Shift(params: map<string, string>, p: Pair, rest: map<string, string>, all: map<string, string>)
    requires all == map[p.key := p.val] + rest
    ensures params[p.key := p.val] + rest == params + all
  {
  }

  lemma {:induction false} ToMapFront(items: seq<Pair>)
    requires items != []
    ensures ToMap(items) == map[items[0].key := items[0].val] + ToMap(items[1..])
  {
    if |items| == 1 {
      assert items[..0] == [] && items[1..] == [];
    } else {
      var front, last := items[..|items| - 1], items[|items| - 1];
      ToMapFront(front);
      assert items[1..][..|items| - 2] == front[1..];
    }
  }

  lemma {:induction false} ToMapHas(items: seq<Pair>)
    ensures forall k :: k in ToMap(items) ==>
      exists i :: 0 <= i < |items| && items[i].key == k && items[i].val == ToMap(items)[k]
    ensures DistinctKeys(items) ==> forall i :: 0 <= i < |items| ==>
      items[i].key in ToMap(items) && ToMap(items)[items[i].key] == items[i].val
  {
    if items != [] {
      ToMapHas(items[..|items| - 1]);
    }
  }

  lemma {:induction false} ParsedPlain(params: map<string, string>, s: string)
    requires PlainMap(params)
    ensures PlainMap(ParseFrom(params, s))
    decreases |s|
  {
    if s != "" && KEY_VALUE_DELIM in Line(s, PAIR_DELIM) {
      var p := ParsePair(Line(s, PAIR_DELIM));
      ParsedPlain(params[p.key := p.val], Rest(s, PAIR_DELIM));
    }
  }

  /** Parsing the printed parameters, in whatever order the map enumerates them, gives the same map
      exactly when no key and no value contains a delimiter. */
  lemma RoundTripIff(items: seq<Pair>)
    requires DistinctKeys(items)
    ensures Parse(Print(items)) == ToMap(items) <==> PlainMap(ToMap(items))
  {
    ParsedPlain(map[], Print(items));
    if PlainMap(ToMap(items)) {
      ToMapHas(items);
      ParseItems(map[], items);
    }
  }
}
