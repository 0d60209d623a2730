/** extensions/http/http.go: the probe handlers with Accept-header
    negotiation by quality value, and HTML, plain-text and XML rendering.

    This is a loose form of section 5.3.2 of RFC 7231 (Accept), with quality
    values as in section 5.3.1: an entry without a q parameter weighs 0, not 1,
    and of two entries with the same weight the earlier one is kept. The
    number parser (strconv.ParseFloat) is a parameter. */
module HttpExtension {
  import opened Wrappers
  import opened Strings
  import opened HealthState
  import opened Rendering
  import opened NetHttp

  const ContentTypeJSON: string := "application/json"
  const ContentTypeXML: string := "application/xml"
  const ContentTypeHTML: string := "text/html"
  const ContentTypePlain: string := "text/plain"

  /** The content types the extension can answer with. */
  predicate IsOffered(cType: string)
  {
    cType == ContentTypeHTML || cType == ContentTypePlain || cType == ContentTypeXML || cType == ContentTypeJSON
  }

  /** A quality value outside [0, 1] counts as 0. */
  function Clamp(q: real): (r: real)
    ensures 0.0 <= r <= 1.0
    ensures 0.0 <= q <= 1.0 ==> r == q
    ensures (q < 0.0 || q > 1.0) ==> r == 0.0
  {
    if q > 1.0 || q < 0.0 then 0.0 else q
  }

  /** A (trimmed) parameter that sets the quality value. */
  predicate IsQParam(part: string)
  {
    Contains(part, "q=") || Contains(part, "Q=")
  }

  lemma QParamHasEquals(part: string)
    requires IsQParam(part)
    ensures |Split(part, '=')| >= 2
  {
    if Contains(part, "q=") {
      ContainsPart(part, "q=", 1);
    } else {
      ContainsPart(part, "Q=", 1);
    }
  }

  /** The text a quality parameter gives to the parser: what follows the first '='. */
  function QText(part: string): string
    requires IsQParam(part)
  {
    QParamHasEquals(part);
    Split(part, '=')[1]
  }

  /** The quality value after one parameter: a q parameter sets it, anything else leaves it. */
  function QStep(q: real, part: string, parse: string -> real): real
  {
    var p := TrimSpace(part);
    if IsQParam(p) then Clamp(parse(QText(p))) else q
  }

  /** The quality value after the given parameters, starting from 0. */
  function QFold(parts: seq<string>, parse: string -> real): (q: real)
    ensures 0.0 <= q <= 1.0
  {
    if parts == [] then 0.0
    else QStep(QFold(parts[..|parts| - 1], parse), parts[|parts| - 1], parse)
  }

  /** The parameters are taken one at a time, in order. */
  lemma QFoldNext(parts: seq<string>, j: nat, parse: string -> real)
    requires j < |parts|
    ensures QFold(parts[..j + 1], parse) == QStep(QFold(parts[..j], parse), parts[j], parse)
  {
    assert parts[..j + 1][..j] == parts[..j];
  }

  /** The quality value of one Accept entry (its ';'-separated parameters). */
  function QFactor(entry: string, parse: string -> real): real
  {
    QFold(Split(entry, ';'), parse)
  }

  /** An entry without a q parameter weighs 0. */
  lemma {:induction false} NoQParamMeansZero(parts: seq<string>, parse: string -> real)
    requires forall i :: 0 <= i < |parts| ==> !IsQParam(TrimSpace(parts[i]))
    ensures QFold(parts, parse) == 0.0
  {
    if parts != [] {
      NoQParamMeansZero(parts[..|parts| - 1], parse);
    }
  }

  /** The last q parameter of an entry decides its weight. */
  lemma {:induction false} LastQParamWins(parts: seq<string>, parse: string -> real, j: nat)
    requires j < |parts| && IsQParam(TrimSpace(parts[j]))
    requires forall i :: j < i < |parts| ==> !IsQParam(TrimSpace(parts[i]))
    ensures QFold(parts, parse) == Clamp(parse(QText(TrimSpace(parts[j]))))
  {
    var n := |parts| - 1;
    var init := parts[..n];
    assert QFold(parts, parse) == QStep(QFold(init, parse), parts[n], parse);
    if j < n {
      assert init[j] == parts[j];
      assert forall i :: j < i < |init| ==> init[i] == parts[i];
      LastQParamWins(init, parse, j);
      assert !IsQParam(TrimSpace(parts[n]));
    }
  }

  /** The running choice over the Accept entries: the entry and its weight. */
  datatype Selection = Selection(cType: string, maxQ: real)

  /** One entry, of weight `q`, replaces the choice while none is made yet
      (the choice is still the empty string) or when it weighs strictly more. */
  function SelectStep(sel: Selection, entry: string, q: real): Selection
  {
    if sel.cType == "" || q > sel.maxQ then Selection(entry, q) else sel
  }

  /** The choice after the given entries, each weighed by `weight`. */
  function SelectBy(entries: seq<string>, weight: string -> real): Selection
  {
    if entries == [] then Selection("", 0.0)
    else
      var last := entries[|entries| - 1];
      SelectStep(SelectBy(entries[..|entries| - 1], weight), last, weight(last))
  }

  /** The choice contentNeogiater makes: entries weighed by their quality value. */
  function Select(entries: seq<string>, parse: string -> real): Selection
  {
    SelectBy(entries, e => QFactor(e, parse))
  }

  /** Selection takes the entries one at a time, in header order. */
  lemma SelectNext(entries: seq<string>, entry: string, parse: string -> real)
    ensures Select(entries + [entry], parse) == SelectStep(Select(entries, parse), entry, QFactor(entry, parse))
  {
    assert (entries + [entry])[..|entries|] == entries;
  }

  /** Entry `k` weighs most, and every entry before it weighs strictly less. */
  ghost predicate IsFirstMax(entries: seq<string>, weight: string -> real, k: int)
  {
    && 0 <= k < |entries|
    && (forall j :: 0 <= j < |entries| ==> weight(entries[j]) <= weight(entries[k]))
    && (forall j :: 0 <= j < k ==> weight(entries[j]) < weight(entries[k]))
  }

  /** Without empty entries, the choice is the earliest of the heaviest entries, with its weight. */
  lemma {:induction false} SelectFindsFirstMax(entries: seq<string>, weight: string -> real) returns (k: nat)
    requires |entries| > 0
    requires forall i :: 0 <= i < |entries| ==> entries[i] != ""
    ensures IsFirstMax(entries, weight, k)
    ensures SelectBy(entries, weight) == Selection(entries[k], weight(entries[k]))
  {
    var n := |entries| - 1;
    var init := entries[..n];
    if n == 0 {
      k := 0;
    } else {
      var k' := SelectFindsFirstMax(init, weight);
      assert init[k'] == entries[k'];
      assert forall j :: 0 <= j < n ==> init[j] == entries[j];
      if weight(entries[n]) > weight(entries[k']) {
        k := n;
      } else {
        k := k';
      }
    }
  }

  /** Selection by quality value picks the earliest of the heaviest entries,
      provided no entry is empty (an empty entry never counts as a choice):
      ties keep the earlier entry. */
  lemma SelectPicksFirstMax(entries: seq<string>, parse: string -> real, k: nat)
    requires forall i :: 0 <= i < |entries| ==> entries[i] != ""
    requires k < |entries|
    requires forall j :: 0 <= j < |entries| ==> QFactor(entries[j], parse) <= QFactor(entries[k], parse)
    requires forall j :: 0 <= j < k ==> QFactor(entries[j], parse) < QFactor(entries[k], parse)
    ensures Select(entries, parse).cType == entries[k]
    ensures Select(entries, parse).maxQ == QFactor(entries[k], parse)
  {
    var weight := e => QFactor(e, parse);
    var k' := SelectFindsFirstMax(entries, weight);
    assert weight(entries[k']) <= weight(entries[k]);
    assert weight(entries[k]) <= weight(entries[k']);
  }

  /** The content type for the chosen entry: the first of HTML, plain text,
      XML whose name it contains, else JSON. */
  function DispatchType(chosen: string): (cType: string)
    ensures IsOffered(cType)
    ensures cType == ContentTypeHTML <==> Contains(chosen, ContentTypeHTML)
    ensures cType == ContentTypePlain <==> !Contains(chosen, ContentTypeHTML) && Contains(chosen, ContentTypePlain)
    ensures cType == ContentTypeXML <==>
      !Contains(chosen, ContentTypeHTML) && !Contains(chosen, ContentTypePlain) && Contains(chosen, ContentTypeXML)
  {
    if Contains(chosen, ContentTypeHTML) then ContentTypeHTML
    else if Contains(chosen, ContentTypePlain) then ContentTypePlain
    else if Contains(chosen, ContentTypeXML) then ContentTypeXML
    else ContentTypeJSON
  }

  /** The content type the extension answers with for an Accept header. */
  function NegotiatedType(accept: string, parse: string -> real): string
  {
    DispatchType(Select(Split(accept, ','), parse).cType)
  }

  /** An empty (or missing) Accept header gets JSON. */
  lemma EmptyAcceptIsJson(parse: string -> real)
    ensures NegotiatedType("", parse) == ContentTypeJSON
  {
    SplitWithoutSeparator("", ',');
    SelectOne("", parse);
    NothingInEmpty(ContentTypeHTML);
    NothingInEmpty(ContentTypePlain);
    NothingInEmpty(ContentTypeXML);
  }

  /** A single entry is always the choice. */
  lemma SelectOne(entry: string, parse: string -> real)
    ensures Select([entry], parse).cType == entry
  {
    SelectNext([], entry, parse);
    assert [] + [entry] == [entry];
  }

  /** One table row of the XML rendering. */
  function XmlRow(key: string, value: string): string
  {
    "<status name=\"" + key + "\" value=\"" + value + "\"></status>"
  }

  /** The XML rendering of the pairs in the given order. */
  function Xml(order: seq<Pair>): string
  {
    "<statuses>" + Rows(order, XmlRow) + "</statuses>"
  }

  /** One entry of the extension's plain-text rendering: "k: v | ". */
  function PlainRow(key: string, value: string): string
  {
    key + ": " + value + " | "
  }

  /** The XML document shows every diagnostic. */
  lemma XmlShowsEveryEntry(order: seq<Pair>, m: map<string, string>, key: string)
    requires Enumerates(order, m) && key in m
    ensures HasPrefix(Xml(order), "<statuses>")
    ensures Contains(Xml(order), XmlRow(key, m[key]))
  {
    FramedShowsEveryEntry("<statuses>", "</statuses>", order, m, XmlRow, key);
  }

  /** responseAsPlainText: "k: v | " per entry in map order, nothing for no entries. */
  method ResponseAsPlainText(payload: map<string, string>) returns (body: string, ghost order: seq<Pair>)
    ensures Enumerates(order, payload)
    ensures body == Rows(order, PlainRow)
    ensures forall key :: key in payload ==> Contains(body, PlainRow(key, payload[key]))
    ensures payload == map[] ==> body == ""
  {
    body, order := AppendRows("", payload, PlainRow);
    assert body == "" + body + "";
    FramedFacts("", "", order, payload, PlainRow);
  }

  /** responseAsXML: "<statuses>", one status element per entry in map order, "</statuses>". */
  method ResponseAsXML(payload: map<string, string>) returns (body: string, ghost order: seq<Pair>)
    ensures Enumerates(order, payload)
    ensures body == Xml(order)
    ensures forall key :: key in payload ==> Contains(body, XmlRow(key, payload[key]))
    ensures payload == map[] ==> body == "<statuses></statuses>"
  {
    body, order := AppendRows("<statuses>", payload, XmlRow);
    body := body + "</statuses>";
    FramedFacts("<statuses>", "</statuses>", order, payload, XmlRow);
  }

  /** The body for a negotiated content type. */
  ghost predicate RendersAs(cType: string, body: Body, order: seq<Pair>, payload: Option<map<string, string>>)
  {
    && (cType != ContentTypeJSON ==> Enumerates(order, Entries(payload)))
    && (cType == ContentTypeHTML ==> body == Text(Html(order)))
    && (cType == ContentTypePlain ==> body == Text(Rows(order, PlainRow)))
    && (cType == ContentTypeXML ==> body == Text(Xml(order)))
    && (cType == ContentTypeJSON ==> body == Json(payload))
  }

  /** The inner loop of contentNeogiater: the quality value of one Accept
      entry, set by each of its q parameters in turn and clamped to [0, 1]. */
  method QualityOf(ct: string, parse: string -> real) returns (qFactor: real)
    ensures qFactor == QFactor(ct, parse)
    ensures 0.0 <= qFactor <= 1.0
  {
    qFactor := 0.0;
    var parts := Split(ct, ';');
    for j := 0 to |parts|
      invariant qFactor == QFold(parts[..j], parse)
    {
      QFoldNext(parts, j, parse);
      var part := TrimSpace(parts[j]);
      if Contains(part, "q=") || Contains(part, "Q=") {
        QParamHasEquals(part);
        qFactor := parse(Split(part, '=')[1]);
        if qFactor > 1.0 || qFactor < 0.0 {
          qFactor := 0.0;
        }
      }
    }
    assert parts[..|parts|] == parts;
  }

  /** contentNeogiater: weighs every Accept entry, keeps the first heaviest,
      and renders the diagnostics in the type that entry names. */
  method ContentNegotiator(accept: string, payload: Option<map<string, string>>, parse: string -> real)
    returns (cType: string, body: Body, ghost order: seq<Pair>)
    ensures cType == NegotiatedType(accept, parse)
    ensures IsOffered(cType)
    ensures RendersAs(cType, body, order, payload)
  {
    var ctypes := Split(accept, ',');
    var maxQfactor := 0.0;
    cType := "";
    for i := 0 to |ctypes|
      invariant Selection(cType, maxQfactor) == Select(ctypes[..i], parse)
    {
      var ct := ctypes[i];
      var qFactor := QualityOf(ct, parse);
      assert ctypes[..i + 1] == ctypes[..i] + [ct];
      SelectNext(ctypes[..i], ct, parse);
      if cType == "" || qFactor > maxQfactor {
        maxQfactor := qFactor;
        cType := ct;
      }
    }
    assert ctypes[..|ctypes|] == ctypes;
    assert DispatchType(cType) == NegotiatedType(accept, parse);

    cType, body, order := Dispatch(cType, payload);
  }

  /** The tail of contentNeogiater: the chosen entry names the content type
      (HTML before plain text before XML, JSON by default) and the diagnostics
      are rendered in it. */
  method Dispatch(chosen: string, payload: Option<map<string, string>>)
    returns (cType: string, body: Body, ghost order: seq<Pair>)
    ensures cType == DispatchType(chosen)
    ensures RendersAs(cType, body, order, payload)
  {
    cType := chosen;
    order := [];
    var text: string;
    if Contains(cType, ContentTypeHTML) {
      cType := ContentTypeHTML;
      text, order := ResponseAsHTML(Entries(payload));
      body := Text(text);
    } else if Contains(cType, ContentTypePlain) {
      cType := ContentTypePlain;
      text, order := ResponseAsPlainText(Entries(payload));
      body := Text(text);
    } else if Contains(cType, ContentTypeXML) {
      cType := ContentTypeXML;
      text, order := ResponseAsXML(Entries(payload));
      body := Text(text);
    } else {
      cType := ContentTypeJSON;
      body := Json(payload);
    }
  }

  /** respond: the diagnostics snapshot in the negotiated format (the
      response headers and the write are not modelled). */
  method Respond(h: Handle, accept: string, parse: string -> real)
    returns (cType: string, body: Body, ghost order: seq<Pair>)
    ensures cType == NegotiatedType(accept, parse)
    ensures RendersAs(cType, body, order, h.Snapshot())
  {
    var snapshot := h.HealthResponse();
    cType, body, order := ContentNegotiator(accept, snapshot, parse);
  }

  /** HTTPStartup: 503 while not started, 200 otherwise. */
  method HTTPStartup(h: Handle, accept: string, parse: string -> real)
    returns (status: int, cType: string, body: Body, ghost order: seq<Pair>)
    ensures status == StatusServiceUnavailable <==> h.NotStarted()
    ensures status == StatusOK <==> !h.NotStarted()
    ensures cType == NegotiatedType(accept, parse)
    ensures RendersAs(cType, body, order, h.Snapshot())
  {
    status := StatusOK;
    if h.NotStarted() {
      status := StatusServiceUnavailable;
    }
    cType, body, order := Respond(h, accept, parse);
  }

  /** HTTPReady: 503 while not ready, 200 otherwise. */
  method HTTPReady(h: Handle, accept: string, parse: string -> real)
    returns (status: int, cType: string, body: Body, ghost order: seq<Pair>)
    ensures status == StatusServiceUnavailable <==> h.NotReady()
    ensures status == StatusOK <==> !h.NotReady()
    ensures cType == NegotiatedType(accept, parse)
    ensures RendersAs(cType, body, order, h.Snapshot())
  {
    status := StatusOK;
    if h.NotReady() {
      status := StatusServiceUnavailable;
    }
    cType, body, order := Respond(h, accept, parse);
  }

  /** HTTPLive: 503 while not live, 200 otherwise. */
  method HTTPLive(h: Handle, accept: string, parse: string -> real)
    returns (status: int, cType: string, body: Body, ghost order: seq<Pair>)
    ensures status == StatusServiceUnavailable <==> h.NotLive()
    ensures status == StatusOK <==> !h.NotLive()
    ensures cType == NegotiatedType(accept, parse)
    ensures RendersAs(cType, body, order, h.Snapshot())
  {
    status := StatusOK;
    if h.NotLive() {
      status := StatusServiceUnavailable;
    }
    cType, body, order := Respond(h, accept, parse);
  }
}
