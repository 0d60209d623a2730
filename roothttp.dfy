/** http.go of the root package: the three probe handlers and their simple
    content negotiation (a substring test on the whole Accept header; no
    quality values, no XML). */
module RootHttp {
  import opened Wrappers
  import opened Strings
  import opened HealthState
  import opened Rendering
  import opened NetHttp

  const ContentTypeJSON: string := "application/json"
  const ContentTypeHTML: string := "text/html"
  const ContentTypePlain: string := "text/plain"

  /** One entry of the plain-text rendering of this package: "k: v|". */
  function PlainRow(key: string, value: string): string
  {
    key + ": " + value + "|"
  }

  lemma HtmlOfNothing()
    ensures Html([]) == "<table><tbody></tbody></table>"
    ensures Rows([], PlainRow) == ""
  {
  }

  /** responseAsPlainText: "k: v|" per entry in map order, nothing for no entries. */
  method ResponseAsPlainText(payload: map<string, string>) returns (body: string, ghost order: seq<Pair>)
    ensures Enumerates(order, payload)
    ensures body == Rows(order, PlainRow)
    ensures forall key :: key in payload ==> Contains(body, PlainRow(key, payload[key]))
    ensures payload == map[] ==> body == ""
  {
    body, order := AppendRows("", payload, PlainRow);
    assert body == "" + body + "";
    FramedFacts("", "", order, payload, PlainRow);
  }

  /** The content type http.go answers with for an Accept header. */
  function NegotiatedType(accept: string): (cType: string)
    ensures cType == ContentTypeHTML || cType == ContentTypePlain || cType == ContentTypeJSON
    ensures cType == ContentTypeHTML <==> Contains(accept, ContentTypeHTML)
    ensures cType == ContentTypePlain <==> !Contains(accept, ContentTypeHTML) && Contains(accept, ContentTypePlain)
  {
    if Contains(accept, ContentTypeHTML) then ContentTypeHTML
    else if Contains(accept, ContentTypePlain) then ContentTypePlain
    else ContentTypeJSON
  }

  /** An Accept header that names no media type at all (a missing or empty one
      included) gets JSON. */
  lemma NoTextTypeMeansJson(accept: string)
    requires '/' !in accept
    ensures NegotiatedType(accept) == ContentTypeJSON
  {
    if Contains(accept, ContentTypeHTML) {
      ContainsPart(accept, ContentTypeHTML, 4);
    }
    if Contains(accept, ContentTypePlain) {
      ContainsPart(accept, ContentTypePlain, 4);
    }
  }

  /** contentNeogiater: HTML if the header mentions text/html anywhere, else
      plain text if it mentions text/plain, else JSON. */
  method ContentNegotiator(accept: string, payload: Option<map<string, string>>)
    returns (cType: string, body: Body, ghost order: seq<Pair>)
    ensures cType == NegotiatedType(accept)
    ensures cType == ContentTypeHTML ==> body == Text(Html(order)) && Enumerates(order, Entries(payload))
    ensures cType == ContentTypePlain ==> body == Text(Rows(order, PlainRow)) && Enumerates(order, Entries(payload))
    ensures cType == ContentTypeJSON ==> body == Json(payload)
  {
    var ctype := accept;
    order := [];
    if Contains(ctype, ContentTypeHTML) {
      cType := ContentTypeHTML;
      var text;
      text, order := ResponseAsHTML(Entries(payload));
      body := Text(text);
    } else if Contains(ctype, ContentTypePlain) {
      cType := ContentTypePlain;
      var text;
      text, order := ResponseAsPlainText(Entries(payload));
      body := Text(text);
    } else {
      cType := ContentTypeJSON;
      body := Json(payload);
    }
  }

  /** respond: the diagnostics snapshot in the negotiated format. */
  method Respond(h: Handle, accept: string) returns (cType: string, body: Body, ghost order: seq<Pair>)
    ensures cType == NegotiatedType(accept)
    ensures cType == ContentTypeJSON ==> body == Json(h.Snapshot())
    ensures cType != ContentTypeJSON ==> Enumerates(order, Entries(h.Snapshot()))
    ensures cType == ContentTypeHTML ==> body == Text(Html(order))
    ensures cType == ContentTypePlain ==> body == Text(Rows(order, PlainRow))
  {
    var snapshot := h.HealthResponse();
    cType, body, order := ContentNegotiator(accept, snapshot);
  }

  /** HTTPStartup: 503 while not started, 200 otherwise. */
  method HTTPStartup(h: Handle, accept: string) returns (status: int, cType: string, body: Body, ghost order: seq<Pair>)
    ensures status == StatusServiceUnavailable <==> h.NotStarted()
    ensures status == StatusOK <==> !h.NotStarted()
    ensures cType == NegotiatedType(accept)
    ensures cType == ContentTypeJSON ==> body == Json(h.Snapshot())
    ensures cType != ContentTypeJSON ==> Enumerates(order, Entries(h.Snapshot()))
    ensures cType == ContentTypeHTML ==> body == Text(Html(order))
    ensures cType == ContentTypePlain ==> body == Text(Rows(order, PlainRow))
  {
    status := StatusOK;
    if h.NotStarted() {
      status := StatusServiceUnavailable;
    }
    cType, body, order := Respond(h, accept);
  }

  /** HTTPReady: 503 while not ready, 200 otherwise. */
  method HTTPReady(h: Handle, accept: string) returns (status: int, cType: string, body: Body, ghost order: seq<Pair>)
    ensures status == StatusServiceUnavailable <==> h.NotReady()
    ensures status == StatusOK <==> !h.NotReady()
    ensures cType == NegotiatedType(accept)
    ensures cType == ContentTypeJSON ==> body == Json(h.Snapshot())
    ensures cType != ContentTypeJSON ==> Enumerates(order, Entries(h.Snapshot()))
    ensures cType == ContentTypeHTML ==> body == Text(Html(order))
    ensures cType == ContentTypePlain ==> body == Text(Rows(order, PlainRow))
  {
    status := StatusOK;
    if h.NotReady() {
      status := StatusServiceUnavailable;
    }
    cType, body, order := Respond(h, accept);
  }

  /** HTTPLive: 503 while not live, 200 otherwise. */
  method HTTPLive(h: Handle, accept: string) returns (status: int, cType: string, body: Body, ghost order: seq<Pair>)
    ensures status == StatusServiceUnavailable <==> h.NotLive()
    ensures status == StatusOK <==> !h.NotLive()
    ensures cType == NegotiatedType(accept)
    ensures cType == ContentTypeJSON ==> body == Json(h.Snapshot())
    ensures cType != ContentTypeJSON ==> Enumerates(order, Entries(h.Snapshot()))
    ensures cType == ContentTypeHTML ==> body == Text(Html(order))
    ensures cType == ContentTypePlain ==> body == Text(Rows(order, PlainRow))
  {
    status := StatusOK;
    if h.NotLive() {
      status := StatusServiceUnavailable;
    }
    cType, body, order := Respond(h, accept);
  }
}
