/** What the HTML, plain-text and XML renderers of both HTTP layers share:
    they range over the diagnostics map, in Go's unspecified iteration order,
    and append one row of text per entry. Both layers also render the same
    HTML table and answer with a text or a JSON body. */
module Rendering {
  import Strings
  import Wrappers

  /** A key/value pair of the diagnostics map. */
  type Pair = (string, string)

  /** `order` visits, restricted to the keys not in `rest`, every entry of `m`
      exactly once. */
  ghost predicate VisitedSoFar(order: seq<Pair>, m: map<string, string>, rest: set<string>)
  {
    && (forall i :: 0 <= i < |order| ==> order[i].0 in m && order[i].0 !in rest && m[order[i].0] == order[i].1)
    && (forall i, j :: 0 <= i < j < |order| ==> order[i].0 != order[j].0)
    && (forall k :: k in m && k !in rest ==> exists i :: 0 <= i < |order| && order[i].0 == k)
  }

  /** `order` is one of the orders in which `range m` may visit the entries of `m`. */
  ghost predicate Enumerates(order: seq<Pair>, m: map<string, string>)
  {
    VisitedSoFar(order, m, {})
  }

  /** Extending the visited prefix by one entry not yet visited. */
  lemma VisitNext(order: seq<Pair>, m: map<string, string>, rest: set<string>, key: string)
    requires VisitedSoFar(order, m, rest) && key in rest && key in m
    ensures VisitedSoFar(order + [(key, m[key])], m, rest - {key})
  {
    var order' := order + [(key, m[key])];
    forall k | k in m && k !in rest - {key}
      ensures exists i :: 0 <= i < |order'| && order'[i].0 == k
    {
      if k == key {
        assert order'[|order|].0 == k;
      } else {
        var i :| 0 <= i < |order| && order[i].0 == k;
        assert order'[i].0 == k;
      }
    }
  }

  /** An enumeration visits exactly as many pairs as the map has entries. */
  lemma {:induction false} EnumerationSize(order: seq<Pair>, m: map<string, string>)
    requires Enumerates(order, m)
    ensures |order| == |m|
  {
    var keys := set i | 0 <= i < |order| :: order[i].0;
    assert keys == m.Keys;
    KeysOfDistinct(order);
  }

  lemma {:induction false} KeysOfDistinct(order: seq<Pair>)
    requires forall i, j :: 0 <= i < j < |order| ==> order[i].0 != order[j].0
    ensures |set i | 0 <= i < |order| :: order[i].0| == |order|
  {
    if order != [] {
      var init := order[..|order| - 1];
      KeysOfDistinct(init);
      var last := order[|order| - 1].0;
      var keys := set i | 0 <= i < |order| :: order[i].0;
      var initKeys := set i | 0 <= i < |init| :: init[i].0;
      assert keys == initKeys + {last};
      assert last !in initKeys;
    }
  }

  /** The rows of the pairs, in the given order, each rendered by `row`. */
  function Rows(pairs: seq<Pair>, row: (string, string) -> string): string
  {
    if pairs == [] then ""
    else
      var p := pairs[|pairs| - 1];
      Rows(pairs[..|pairs| - 1], row) + row(p.0, p.1)
  }

  /** The loop of every renderer: starting from what the buffer already
      holds, appends one row per map entry, visiting the entries in whatever
      order `range` chooses. */
  method AppendRows(prefix: string, payload: map<string, string>, row: (string, string) -> string)
    returns (buff: string, ghost order: seq<Pair>)
    ensures Enumerates(order, payload)
    ensures buff == prefix + Rows(order, row)
  {
    buff := prefix;
    order := [];
    var rest := payload.Keys;
    while rest != {}
      invariant rest <= payload.Keys
      invariant VisitedSoFar(order, payload, rest)
      invariant buff == prefix + Rows(order, row)
      decreases rest
    {
      var key :| key in rest;
      var value := payload[key];
      VisitNext(order, payload, rest, key);
      buff := buff + row(key, value);
      RowsNext(order, (key, value), row);
      order := order + [(key, value)];
      rest := rest - {key};
    }
  }

  /** One more pair renders as one more row at the end. */
  lemma RowsNext(pairs: seq<Pair>, p: Pair, row: (string, string) -> string)
    ensures Rows(pairs + [p], row) == Rows(pairs, row) + row(p.0, p.1)
  {
    assert (pairs + [p])[..|pairs|] == pairs;
  }

  /** Rendering is compositional: the rows of a concatenation are the concatenated rows. */
  lemma {:induction false} RowsAppend(a: seq<Pair>, b: seq<Pair>, row: (string, string) -> string)
    ensures Rows(a + b, row) == Rows(a, row) + Rows(b, row)
    decreases |b|
  {
    if b != [] {
      var n := |b| - 1;
      assert (a + b)[..|a + b| - 1] == a + b[..n];
      RowsAppend(a, b[..n], row);
    } else {
      assert a + b == a;
    }
  }

  /** Every pair's row appears in the rendering. */
  lemma RowsShowEachPair(pairs: seq<Pair>, row: (string, string) -> string, i: nat)
    requires i < |pairs|
    ensures Strings.Contains(Rows(pairs, row), row(pairs[i].0, pairs[i].1))
  {
    var before := pairs[..i];
    var after := pairs[i + 1..];
    assert pairs == before + [pairs[i]] + after;
    RowsAppend(before + [pairs[i]], after, row);
    RowsAppend(before, [pairs[i]], row);
    assert Rows([pairs[i]], row) == row(pairs[i].0, pairs[i].1);
    var s := Rows(pairs, row);
    var r := row(pairs[i].0, pairs[i].1);
    var at := |Rows(before, row)|;
    assert s == Rows(before, row) + r + Rows(after, row);
    assert s[at..at + |r|] == r;
    Strings.OccurrenceIsContained(s, r, at);
  }

  /** Rendering an enumeration of `m` shows the row of every entry of `m`. */
  lemma RowsShowEveryEntry(order: seq<Pair>, m: map<string, string>, row: (string, string) -> string, key: string)
    requires Enumerates(order, m) && key in m
    ensures Strings.Contains(Rows(order, row), row(key, m[key]))
  {
    var i :| 0 <= i < |order| && order[i].0 == key;
    RowsShowEachPair(order, row, i);
  }

  /** A rendering framed by a fixed head and tail starts with the head and
      shows the row of every entry of the map. */
  lemma FramedShowsEveryEntry(head: string, tail: string, order: seq<Pair>, m: map<string, string>,
                              row: (string, string) -> string, key: string)
    requires Enumerates(order, m) && key in m
    ensures Strings.HasPrefix(head + Rows(order, row) + tail, head)
    ensures Strings.Contains(head + Rows(order, row) + tail, row(key, m[key]))
  {
    var rows := Rows(order, row);
    var x := head + rows + tail;
    var r := row(key, m[key]);
    assert x[..|head|] == head;
    RowsShowEveryEntry(order, m, row, key);
    var at := Strings.ContainedOccurs(rows, r);
    assert x[|head| + at..|head| + at + |r|] == rows[at..at + |r|];
    Strings.OccurrenceIsContained(x, r, |head| + at);
  }

  /** What a framed rendering of an enumeration of `m` shows, whatever the
      order: the row of every entry, and only the frame for an empty map. */
  lemma FramedFacts(head: string, tail: string, order: seq<Pair>, m: map<string, string>,
                    row: (string, string) -> string)
    requires Enumerates(order, m)
    ensures forall key :: key in m ==> Strings.Contains(head + Rows(order, row) + tail, row(key, m[key]))
    ensures m == map[] ==> head + Rows(order, row) + tail == head + tail
  {
    forall key | key in m
      ensures Strings.Contains(head + Rows(order, row) + tail, row(key, m[key]))
    {
      FramedShowsEveryEntry(head, tail, order, m, row, key);
    }
    if m == map[] {
      EnumerationSize(order, m);
    }
  }

  /** A response body: rendered text, or the JSON encoding of the diagnostics
      snapshot (nil included), whose bytes are not modelled. */
  datatype Body = Text(text: string) | Json(payload: Wrappers.Option<map<string, string>>)

  /** One table row of the HTML rendering. */
  function HtmlRow(key: string, value: string): string
  {
    "<tr>" + "<th>" + key + "</th>" + "<td>" + value + "</td>" + "</tr>"
  }

  /** The HTML rendering of the pairs in the given order; the two HTTP layers
      render the same table. */
  function Html(order: seq<Pair>): string
  {
    "<table><tbody>" + Rows(order, HtmlRow) + "</tbody></table>"
  }

  /** The HTML table starts with its header and shows every diagnostic. */
  lemma HtmlShowsEveryEntry(order: seq<Pair>, m: map<string, string>, key: string)
    requires Enumerates(order, m) && key in m
    ensures Strings.HasPrefix(Html(order), "<table><tbody>")
    ensures Strings.Contains(Html(order), HtmlRow(key, m[key]))
  {
    FramedShowsEveryEntry("<table><tbody>", "</tbody></table>", order, m, HtmlRow, key);
  }

  /** responseAsHTML, the same in both HTTP layers: the table header, one row
      per entry in map order, the closing tags. */
  method ResponseAsHTML(payload: map<string, string>) returns (body: string, ghost order: seq<Pair>)
    ensures Enumerates(order, payload)
    ensures body == Html(order)
    ensures forall key :: key in payload ==> Strings.Contains(body, HtmlRow(key, payload[key]))
    ensures payload == map[] ==> body == "<table><tbody></tbody></table>"
  {
    body, order := AppendRows("<table><tbody>", payload, HtmlRow);
    body := body + "</tbody></table>";
    FramedFacts("<table><tbody>", "</tbody></table>", order, payload, HtmlRow);
  }
}
