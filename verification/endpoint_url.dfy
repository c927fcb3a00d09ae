/** The endpoint URL that an SSE connection announces, and what a later request to that URL gives back. */
module EndpointUrl {
  import opened Prelude
  import opened FormUrlencoded
  import opened FormText

  const SESSION_ID: Bytes := Ascii("session_id")
  const MESSAGE: Bytes := Ascii("/message")

  datatype HttpReference = Header(name: Bytes) | Query(name: Bytes)

  datatype Authentication = ApiKey(apikey: Bytes, apikeyFrom: HttpReference) | Jwt | NoAuth

  /** A request: its first header value per name in lower case, and the query of its URI. */
  datatype Parts = Parts(headers: map<Bytes, Bytes>, query: Option<Bytes>)

  function GetOrEmpty(o: Option<Bytes>): Bytes {
    if o.Some? then o.value else []
  }

  function FirstValue(pairs: seq<Pair>, key: Bytes): Option<Bytes> {
    if pairs == [] then None
    else if pairs[0].0 == key then Some(pairs[0].1)
    else FirstValue(pairs[1..], key)
  }

  function PickSessionId(parts: Parts): Option<Bytes> {
    FirstValue(Parse(GetOrEmpty(parts.query)), SESSION_ID)
  }

  /** A header value is text if it is visible ASCII, spaces and tabs. */
  predicate IsText(s: Bytes) {
    forall b :: b in s ==> 0x20 <= b < 0x7F || b == 0x09
  }

  function Resolve(ref: HttpReference, src: Parts): Option<Bytes> {
    match ref
    case Header(name) =>
      var key := Lower(name);
      if key in src.headers then Some(if IsText(src.headers[key]) then src.headers[key] else []) else None
    case Query(name) => FirstValue(Parse(GetOrEmpty(src.query)), name)
  }

  /** The query of a URI: between the first `?` and the first `#` after it. */
  function QueryOf(uri: Bytes): Option<Bytes> {
    match SplitFirst(uri, QUESTION).1
    case None => None
    case Some(rest) => Some(SplitFirst(rest, HASH).0)
  }

  function EndpointPairs(sessionId: Bytes, authn: Authentication): seq<Pair> {
    [(SESSION_ID, sessionId)]
    + if authn.ApiKey? && authn.apikeyFrom.Query? then [(authn.apikeyFrom.name, authn.apikey)] else []
  }

  function Endpoint(sessionId: Bytes, authn: Authentication): Bytes {
    MESSAGE + [QUESTION] + Serialize(EndpointPairs(sessionId, authn))
  }

  /** What the handler prints into the endpoint event. */
  method PrintEndpoint(sessionId: Bytes, authn: Authentication) returns (data: Bytes)
    ensures data == Endpoint(sessionId, authn)
  {
    var serializer := new Serializer();
    serializer.AppendPair(SESSION_ID, sessionId);
    match authn {
      case ApiKey(apikey, Query(name)) => serializer.AppendPair(name, apikey);
      case _ =>
    }
    var query := serializer.Finish();
    assert serializer.pairs == EndpointPairs(sessionId, authn);
    data := MESSAGE + [QUESTION] + query;
  }

  lemma EndpointQuery(sessionId: Bytes, authn: Authentication)
    ensures QueryOf(Endpoint(sessionId, authn)) == Some(Serialize(EndpointPairs(sessionId, authn)))
    ensures Parse(Serialize(EndpointPairs(sessionId, authn))) == EndpointPairs(sessionId, authn)
  {
    var pairs := EndpointPairs(sessionId, authn);
    SplitAt(MESSAGE, QUESTION, Serialize(pairs));
    SerializeFitsQuery(pairs);
    SplitNowhere(Serialize(pairs), HASH);
    ParseSerialize(pairs);
  }

  /** What is printed of an API key that came in the query. */
  function KeyText(authn: Authentication): Bytes {
    if authn.ApiKey? && authn.apikeyFrom.Query?
    then Ascii("&") + Encode(authn.apikeyFrom.name) + Ascii("=") + Encode(authn.apikey) else []
  }

  lemma SerializeOne(p: Pair)
    ensures Serialize([p]) == EncodePair(p)
  {
    SerializeAppend([], p);
    assert [] + [p] == [p];
  }

  lemma SerializeTwo(p: Pair, q: Pair)
    ensures Serialize([p, q]) == EncodePair(p) + ([AMPERSAND] + EncodePair(q))
  {
    SerializeAppend([p], q);
    SerializeOne(p);
    assert [p] + [q] == [p, q];
  }

  lemma KeyIsWritten(p: Pair)
    ensures [AMPERSAND] + EncodePair(p) == Ascii("&") + Encode(p.0) + Ascii("=") + Encode(p.1)
  {
    assert Ascii("&") == [AMPERSAND] && Ascii("=") == [EQUALS];
  }

  lemma PairsAreWritten(sessionId: Bytes, authn: Authentication)
    ensures Serialize(EndpointPairs(sessionId, authn)) == EncodePair((SESSION_ID, sessionId)) + KeyText(authn)
  {
    var first := (SESSION_ID, sessionId);
    if authn.ApiKey? && authn.apikeyFrom.Query? {
      SerializeTwo(first, (authn.apikeyFrom.name, authn.apikey));
      KeyIsWritten((authn.apikeyFrom.name, authn.apikey));
    } else {
      SerializeOne(first);
    }
  }

  lemma PathText()
    ensures Ascii("/message?") == MESSAGE + [QUESTION]
  {
    assert "/message?" == "/message" + "?" && Ascii("?") == [QUESTION];
    AsciiJoin("/message", "?");
  }

  lemma NameText()
    ensures Ascii("session_id=") == Encode(SESSION_ID) + [EQUALS]
  {
    assert "session_id=" == "session_id" + "=" && Ascii("=") == [EQUALS];
    AsciiJoin("session_id", "=");
    PlainText("session_id");
  }

  lemma TextBeforeId()
    ensures Ascii("/message?session_id=") == MESSAGE + [QUESTION] + Encode(SESSION_ID) + [EQUALS]
  {
    PathText();
    NameText();
    assert "/message?session_id=" == "/message?" + "session_id=";
    AsciiJoin("/message?", "session_id=");
  }

  lemma Regroup(a: Bytes, b: Bytes, c: Bytes, d: Bytes, e: Bytes, f: Bytes)
    ensures a + b + (c + d + e + f) == a + b + c + d + e + f
  {
  }

  /** The announced text: these characters around what the encoder makes of the id and the key. */
  lemma EndpointText(sessionId: Bytes, authn: Authentication)
    ensures Endpoint(sessionId, authn) == Ascii("/message?session_id=") + Encode(sessionId) + KeyText(authn)
  {
    PairsAreWritten(sessionId, authn);
    TextBeforeId();
    Regroup(MESSAGE, [QUESTION], Encode(SESSION_ID), [EQUALS], Encode(sessionId), KeyText(authn));
  }

  /** The query is what follows the first question mark. */
  lemma QueryExactly(path: Bytes, query: Bytes)
    requires QUESTION !in path && HASH !in query
    ensures QueryOf(path) == None && QueryOf(path + Ascii("?") + query) == Some(query)
  {
    assert Ascii("?") == [QUESTION];
    SplitNowhere(path, QUESTION);
    SplitNowhere(query, HASH);
    SplitAt(path, QUESTION, query);
  }

  /** A fragment does not belong to it. */
  lemma FragmentIsNoQuery(path: Bytes, query: Bytes, fragment: Bytes)
    requires QUESTION !in path && HASH !in query
    ensures QueryOf(path + Ascii("?") + (query + Ascii("#") + fragment)) == Some(query)
  {
    assert Ascii("?") == [QUESTION] && Ascii("#") == [HASH];
    SplitAt(query, HASH, fragment);
    SplitAt(path, QUESTION, query + [HASH] + fragment);
  }

  /** Without a query there is no session id and no query parameter. */
  lemma NothingWithoutQuery(headers: map<Bytes, Bytes>, name: Bytes)
    ensures PickSessionId(Parts(headers, None)) == None && Resolve(Query(name), Parts(headers, None)) == None
  {
  }

  predicate IsVisible(c: char) {
    ' ' <= c <= '~' || c == '\t'
  }

  lemma TextExactly(s: Bytes)
    ensures IsText(s) <==> forall k :: 0 <= k < |s| ==> IsVisible(s[k] as char)
  {
    forall k | 0 <= k < |s| ensures s[k] in s {
    }
    if b :| b in s && !IsVisible(b as char) {
      var k :| 0 <= k < |s| && s[k] == b;
    }
  }

  /**
   * A header is found in any letter case and whatever the URL; its value comes back exactly if it is visible ASCII,
   * and counts as empty if not.
   */
  lemma HeaderComesBackExactly(name: Bytes, headers: map<Bytes, Bytes>, query: Option<Bytes>)
    ensures Resolve(Header(name), Parts(headers, query)).Some? <==> Lower(name) in headers
    ensures Lower(name) in headers ==>
              var value := headers[Lower(name)];
              Resolve(Header(name), Parts(headers, query)) ==
              Some(if forall k :: 0 <= k < |value| ==> IsVisible(value[k] as char) then value else [])
  {
    if Lower(name) in headers {
      TextExactly(headers[Lower(name)]);
    }
  }

  /** A request to the announced URL carries the session id that was printed, whatever the API key is called. */
  lemma SessionIdComesBack(sessionId: Bytes, authn: Authentication, headers: map<Bytes, Bytes>)
    ensures PickSessionId(Parts(headers, QueryOf(Endpoint(sessionId, authn)))) == Some(sessionId)
  {
    EndpointQuery(sessionId, authn);
  }

  /**
   * It also carries the API key under its own name, exactly unless that name is `session_id` and the key differs from
   * the session id: then the session id comes first.
   */
  lemma ApiKeyComesBackExactly(sessionId: Bytes, apikey: Bytes, name: Bytes, headers: map<Bytes, Bytes>)
    ensures var parts := Parts(headers, QueryOf(Endpoint(sessionId, ApiKey(apikey, Query(name)))));
            Resolve(Query(name), parts) == Some(apikey) <==> name != SESSION_ID || apikey == sessionId
  {
    var authn := ApiKey(apikey, Query(name));
    EndpointQuery(sessionId, authn);
    var pairs := EndpointPairs(sessionId, authn);
    assert pairs[1..] == [(name, apikey)];
    assert FirstValue(pairs[1..], name) == Some(apikey);
  }

  /** A key from a header is not printed, so the URL alone gives nothing but the session id. */
  lemma HeaderKeyIsNotPrinted(sessionId: Bytes, apikey: Bytes, header: Bytes, name: Bytes, headers: map<Bytes, Bytes>)
    requires name != SESSION_ID
    ensures Resolve(Query(name), Parts(headers, QueryOf(Endpoint(sessionId, ApiKey(apikey, Header(header)))))) == None
  {
    var authn := ApiKey(apikey, Header(header));
    EndpointQuery(sessionId, authn);
    var pairs := EndpointPairs(sessionId, authn);
    assert pairs == [(SESSION_ID, sessionId)] && pairs[1..] == [];
    assert FirstValue(pairs[1..], name) == None;
    assert FirstValue(pairs, name) == None;
  }
}
