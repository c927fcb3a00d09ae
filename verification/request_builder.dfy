/** Building the upstream request from parts of the incoming one. */
module RequestBuilder {
  import opened Prelude
  import opened FormUrlencoded
  import opened FormText
  import E = EndpointUrl

  type Multimap = map<Bytes, seq<Bytes>>

  datatype Error = NoScheme | NoHostname | NoQuery

  datatype Uri = Uri(scheme: Option<Bytes>, authority: Option<Bytes>, path: Bytes, query: Option<Bytes>)

  /** The incoming request: header names are in lower case, as the header map keeps them. */
  datatype Parts = Parts(query: Option<Bytes>, headers: Multimap)

  /** A regular expression is the set of names it matches. */
  datatype Reference =
    | Header(name: Bytes)
    | Query(name: Bytes)
    | HeaderRegex(matches: Bytes -> bool)
    | QueryRegex(matches: Bytes -> bool)

  function Lookup(m: Multimap, k: Bytes): seq<Bytes> {
    if k in m then m[k] else []
  }

  /** No name is present without a value. */
  ghost predicate IsMultimap(m: Multimap) {
    forall k :: k in m ==> m[k] != []
  }

  // ---------------------------------------------------------------------------------------------------------
  // What a reference list contributes to one name.

  function ValuesFor(pairs: seq<Pair>, k: Bytes): seq<Bytes> {
    if pairs == [] then []
    else
      var before := ValuesFor(pairs[..|pairs| - 1], k);
      var last := pairs[|pairs| - 1];
      if last.0 == k then before + [last.1] else before
  }

  /** The values of a name are in the order of the pairs. */
  lemma {:induction false} ValuesInOrder(p: Pair, pairs: seq<Pair>, k: Bytes)
    ensures ValuesFor([p] + pairs, k) == (if p.0 == k then [p.1] else []) + ValuesFor(pairs, k)
  {
    var all := [p] + pairs;
    if pairs == [] {
      assert all[..0] == [];
    } else {
      assert all[..|all| - 1] == [p] + pairs[..|pairs| - 1];
      ValuesInOrder(p, pairs[..|pairs| - 1], k);
    }
  }

  /** What `resolve` finds under a name is the first of its values. */
  lemma {:induction false} ResolveFindsTheFirst(pairs: seq<Pair>, k: Bytes)
    ensures E.FirstValue(pairs, k) == if ValuesFor(pairs, k) == [] then None else Some(ValuesFor(pairs, k)[0])
  {
    if pairs != [] {
      ResolveFindsTheFirst(pairs[1..], k);
      ValuesInOrder(pairs[0], pairs[1..], k);
      assert pairs == [pairs[0]] + pairs[1..];
    }
  }

  predicate NamesQuery(r: Reference, k: Bytes) {
    (r.Query? && r.name == k) || (r.QueryRegex? && r.matches(k))
  }

  function Matching(refs: seq<Reference>, k: Bytes): nat {
    if refs == [] then 0
    else Matching(refs[..|refs| - 1], k) + if NamesQuery(refs[|refs| - 1], k) then 1 else 0
  }

  function Repeat(values: seq<Bytes>, n: nat): seq<Bytes> {
    if n == 0 then [] else Repeat(values, n - 1) + values
  }

  /** One value for a reference by name, every value for a matching expression. */
  function HeaderGain(r: Reference, headers: Multimap, k: Bytes): seq<Bytes> {
    var values := Lookup(headers, k);
    match r
    case Header(name) => if Lower(name) == k && values != [] then values[..1] else []
    case HeaderRegex(matches) => if matches(k) then values else []
    case _ => []
  }

  /** A reference by name forwards what `resolve` reads from that header, and nothing under other names. */
  lemma HeaderByName(name: Bytes, headers: Multimap, query: Option<Bytes>, k: Bytes)
    requires IsMultimap(headers)
    ensures var firsts := map h | h in headers :: headers[h][0];
            var found := E.Resolve(E.Header(name), E.Parts(firsts, query));
            && (k != Lower(name) ==> HeaderGain(Header(name), headers, k) == [])
            && (found.None? ==> HeaderGain(Header(name), headers, Lower(name)) == [])
            && (found.Some? ==>
                  && |HeaderGain(Header(name), headers, Lower(name))| == 1
                  && (E.IsText(HeaderGain(Header(name), headers, Lower(name))[0]) ==>
                        HeaderGain(Header(name), headers, Lower(name)) == [found.value]))
  {
  }

  function HeaderGains(refs: seq<Reference>, headers: Multimap, k: Bytes): seq<Bytes> {
    if refs == [] then []
    else HeaderGains(refs[..|refs| - 1], headers, k) + HeaderGain(refs[|refs| - 1], headers, k)
  }

  /** `m'` has, per name, the values of `m` and then those of `src` once for every reference that names it. */
  ghost predicate QueryGained(m: Multimap, m': Multimap, src: Multimap, refs: seq<Reference>) {
    forall k :: QueryGainedAt(m, m', src, refs, k)
  }

  ghost predicate QueryGainedAt(m: Multimap, m': Multimap, src: Multimap, refs: seq<Reference>, k: Bytes) {
    GainedTimes(Lookup(m, k), Lookup(m', k), Lookup(src, k), Matching(refs, k))
  }

  ghost predicate GainedTimes(before: seq<Bytes>, after: seq<Bytes>, values: seq<Bytes>, n: nat) {
    after == before + Repeat(values, n)
  }

  /** `m'` has, per name, the values of `m` and then what the references contribute, in their order. */
  ghost predicate HeadersGained(m: Multimap, m': Multimap, src: Multimap, refs: seq<Reference>) {
    forall k :: HeadersGainedAt(m, m', src, refs, k)
  }

  ghost predicate HeadersGainedAt(m: Multimap, m': Multimap, src: Multimap, refs: seq<Reference>, k: Bytes) {
    GainedBy(Lookup(m, k), Lookup(m', k), HeaderGains(refs, src, k))
  }

  ghost predicate GainedBy(before: seq<Bytes>, after: seq<Bytes>, gain: seq<Bytes>) {
    after == before + gain
  }

  lemma OneGain(q: Multimap, q': Multimap, srcQuery: Multimap,
                h: Multimap, h': Multimap, srcHeaders: Multimap, r: Reference)
    requires forall k :: Lookup(q', k) == Lookup(q, k) + (if NamesQuery(r, k) then Lookup(srcQuery, k) else [])
    requires forall k :: Lookup(h', k) == Lookup(h, k) + HeaderGain(r, srcHeaders, k)
    ensures QueryGained(q, q', srcQuery, [r]) && HeadersGained(h, h', srcHeaders, [r])
  {
    assert [r][..0] == [];
    forall k
      ensures QueryGainedAt(q, q', srcQuery, [r], k) && HeadersGainedAt(h, h', srcHeaders, [r], k)
    {
      assert Repeat(Lookup(srcQuery, k), 1) == Repeat(Lookup(srcQuery, k), 0) + Lookup(srcQuery, k);
      assert HeaderGains([r][..0], srcHeaders, k) == [];
    }
  }

  lemma {:induction false} MatchingAppend(a: seq<Reference>, b: seq<Reference>, k: Bytes)
    ensures Matching(a + b, k) == Matching(a, k) + Matching(b, k)
  {
    if b == [] {
      assert a + b == a;
    } else {
      assert (a + b)[..|a + b| - 1] == a + b[..|b| - 1];
      MatchingAppend(a, b[..|b| - 1], k);
    }
  }

  lemma {:induction false} RepeatAppend(values: seq<Bytes>, m: nat, n: nat)
    ensures Repeat(values, m + n) == Repeat(values, m) + Repeat(values, n)
  {
    if n > 0 {
      RepeatAppend(values, m, n - 1);
    }
  }

  lemma {:induction false} HeaderGainsAppend(a: seq<Reference>, b: seq<Reference>, src: Multimap, k: Bytes)
    ensures HeaderGains(a + b, src, k) == HeaderGains(a, src, k) + HeaderGains(b, src, k)
  {
    if b == [] {
      assert a + b == a;
    } else {
      assert (a + b)[..|a + b| - 1] == a + b[..|b| - 1];
      HeaderGainsAppend(a, b[..|b| - 1], src, k);
    }
  }

  lemma GainsAdd(s: seq<Bytes>, s': seq<Bytes>, s'': seq<Bytes>, values: seq<Bytes>, m: nat, n: nat)
    requires GainedTimes(s, s', values, m) && GainedTimes(s', s'', values, n)
    ensures GainedTimes(s, s'', values, m + n)
  {
    RepeatAppend(values, m, n);
  }

  lemma QueryGainsAddAt(
      m: Multimap, m': Multimap, m'': Multimap, src: Multimap, a: seq<Reference>, b: seq<Reference>, k: Bytes)
    requires QueryGainedAt(m, m', src, a, k) && QueryGainedAt(m', m'', src, b, k)
    ensures QueryGainedAt(m, m'', src, a + b, k)
  {
    MatchingAppend(a, b, k);
    GainsAdd(Lookup(m, k), Lookup(m', k), Lookup(m'', k), Lookup(src, k), Matching(a, k), Matching(b, k));
  }

  lemma QueryGainsAdd(m: Multimap, m': Multimap, m'': Multimap, src: Multimap, a: seq<Reference>, b: seq<Reference>)
    requires QueryGained(m, m', src, a) && QueryGained(m', m'', src, b)
    ensures QueryGained(m, m'', src, a + b)
  {
    forall k
      ensures QueryGainedAt(m, m'', src, a + b, k)
    {
      QueryGainsAddAt(m, m', m'', src, a, b, k);
    }
  }

  lemma GainedByBoth(s: seq<Bytes>, s': seq<Bytes>, s'': seq<Bytes>, gain: seq<Bytes>, gain': seq<Bytes>)
    requires GainedBy(s, s', gain) && GainedBy(s', s'', gain')
    ensures GainedBy(s, s'', gain + gain')
  {
  }

  lemma HeaderGainsAddAt(
      m: Multimap, m': Multimap, m'': Multimap, src: Multimap, a: seq<Reference>, b: seq<Reference>, k: Bytes)
    requires HeadersGainedAt(m, m', src, a, k) && HeadersGainedAt(m', m'', src, b, k)
    ensures HeadersGainedAt(m, m'', src, a + b, k)
  {
    HeaderGainsAppend(a, b, src, k);
    GainedByBoth(Lookup(m, k), Lookup(m', k), Lookup(m'', k), HeaderGains(a, src, k), HeaderGains(b, src, k));
  }

  lemma HeaderGainsAdd(m: Multimap, m': Multimap, m'': Multimap, src: Multimap, a: seq<Reference>, b: seq<Reference>)
    requires HeadersGained(m, m', src, a) && HeadersGained(m', m'', src, b)
    ensures HeadersGained(m, m'', src, a + b)
  {
    forall k
      ensures HeadersGainedAt(m, m'', src, a + b, k)
    {
      HeaderGainsAddAt(m, m', m'', src, a, b, k);
    }
  }

  lemma SameMultimap(a: Multimap, b: Multimap)
    requires IsMultimap(a) && IsMultimap(b) && forall k :: Lookup(a, k) == Lookup(b, k)
    ensures a == b
  {
    forall k
      ensures k in a <==> k in b
      ensures k in a && k in b ==> a[k] == b[k]
    {
      assert Lookup(a, k) == Lookup(b, k);
    }
    assert a.Keys == b.Keys;
  }

  /** How many references name `k` depends on which references there are, not on their order. */
  lemma {:induction false} MatchingOfPermutation(a: seq<Reference>, b: seq<Reference>, k: Bytes)
    requires multiset(a) == multiset(b)
    ensures Matching(a, k) == Matching(b, k)
  {
    if a == [] {
      assert |b| == |multiset(b)| == 0;
    } else {
      var before, last := a[..|a| - 1], a[|a| - 1];
      assert a == before + [last];
      var before', after' := SplitAround(b, last);
      assert multiset(before) == multiset(a) - multiset{last} == multiset(before' + after');
      MatchingOfPermutation(before, before' + after', k);
      MatchingWithout(before', last, after', k);
    }
  }

  lemma SplitAround(s: seq<Reference>, x: Reference) returns (before: seq<Reference>, after: seq<Reference>)
    requires x in multiset(s)
    ensures s == before + [x] + after && multiset(before + after) == multiset(s) - multiset{x}
  {
    var i :| 0 <= i < |s| && s[i] == x;
    before, after := s[..i], s[i + 1..];
    assert s == before + [x] + after;
  }

  lemma MatchingWithout(a: seq<Reference>, x: Reference, b: seq<Reference>, k: Bytes)
    ensures Matching(a + [x] + b, k) == Matching(a + b, k) + if NamesQuery(x, k) then 1 else 0
  {
    MatchingAppend(a + [x], b, k);
    MatchingAppend(a, [x], k);
    MatchingAppend(a, b, k);
    assert [x][..0] == [];
  }

  lemma SameGain(s: seq<Bytes>, s': seq<Bytes>, s'': seq<Bytes>, values: seq<Bytes>, m: nat, n: nat)
    requires GainedTimes(s, s', values, m) && GainedTimes(s, s'', values, n) && m == n
    ensures s' == s''
  {
  }

  lemma QueryIgnoresOrderAt(
      m: Multimap, q: Multimap, q': Multimap, src: Multimap, a: seq<Reference>, b: seq<Reference>, k: Bytes)
    requires QueryGainedAt(m, q, src, a, k) && QueryGainedAt(m, q', src, b, k) && multiset(a) == multiset(b)
    ensures Lookup(q, k) == Lookup(q', k)
  {
    MatchingOfPermutation(a, b, k);
    SameGain(Lookup(m, k), Lookup(q, k), Lookup(q', k), Lookup(src, k), Matching(a, k), Matching(b, k));
  }

  /** The query does not depend on the order of the references, nor on the order in which a map yields its entries. */
  lemma QueryIgnoresOrder(m: Multimap, q: Multimap, q': Multimap, src: Multimap, a: seq<Reference>, b: seq<Reference>)
    requires IsMultimap(q) && QueryGained(m, q, src, a)
    requires IsMultimap(q') && QueryGained(m, q', src, b)
    requires multiset(a) == multiset(b)
    ensures q == q'
  {
    forall k
      ensures Lookup(q, k) == Lookup(q', k)
    {
      QueryIgnoresOrderAt(m, q, q', src, a, b, k);
    }
    SameMultimap(q, q');
  }

  /** The headers depend on the order of the references only. */
  lemma HeadersAreDetermined(m: Multimap, h: Multimap, h': Multimap, src: Multimap, refs: seq<Reference>)
    requires IsMultimap(h) && HeadersGained(m, h, src, refs)
    requires IsMultimap(h') && HeadersGained(m, h', src, refs)
    ensures h == h'
  {
    forall k
      ensures Lookup(h, k) == Lookup(h', k)
    {
      assert HeadersGainedAt(m, h, src, refs, k) && HeadersGainedAt(m, h', src, refs, k);
    }
    SameMultimap(h, h');
  }

  // ---------------------------------------------------------------------------------------------------------
  // The multimaps.

  /** `entry(k).or_default().extend(values)` */
  function Extend(m: Multimap, k: Bytes, values: seq<Bytes>): Multimap {
    m[k := Lookup(m, k) + values]
  }

  method Group(pairs: seq<Pair>) returns (m: Multimap)
    ensures IsMultimap(m)
    ensures forall k :: Lookup(m, k) == ValuesFor(pairs, k)
  {
    m := map[];
    for i := 0 to |pairs|
      invariant IsMultimap(m)
      invariant forall k :: Lookup(m, k) == ValuesFor(pairs[..i], k)
    {
      assert pairs[..i + 1][..i] == pairs[..i];
      m := Extend(m, pairs[i].0, [pairs[i].1]);
    }
    assert pairs[..|pairs|] == pairs;
  }

  /** Appends every source entry whose name `matches`; the map yields its entries in an order of its own. */
  method ExtendMatching(m: Multimap, src: Multimap, matches: Bytes -> bool) returns (r: Multimap)
    requires IsMultimap(m) && IsMultimap(src)
    ensures IsMultimap(r)
    ensures forall k :: Lookup(r, k) == Lookup(m, k) + (if matches(k) then Lookup(src, k) else [])
  {
    r := m;
    var left := src.Keys;
    while left != {}
      invariant left <= src.Keys
      invariant IsMultimap(r)
      invariant forall k :: Lookup(r, k) == Lookup(m, k) + (if matches(k) && k !in left then Lookup(src, k) else [])
    {
      var k :| k in left;
      if matches(k) {
        r := Extend(r, k, src[k]);
      }
      left := left - {k};
    }
  }

  class HttpBuilder {
    const src: Parts
    const srcQuery: Multimap
    const scheme: Bytes
    const hostname: Bytes
    const path: Bytes
    var query: Multimap
    var headers: Multimap

    ghost predicate Valid()
      reads this
    {
      IsMultimap(src.headers) && IsMultimap(srcQuery) && IsMultimap(query) && IsMultimap(headers)
    }

    constructor (src: Parts, srcQuery: Multimap, scheme: Bytes, hostname: Bytes, path: Bytes, query: Multimap)
      ensures this.src == src && this.srcQuery == srcQuery && this.scheme == scheme && this.hostname == hostname
      ensures this.path == path && this.query == query && headers == map[]
    {
      this.src, this.srcQuery, this.scheme, this.hostname, this.path := src, srcQuery, scheme, hostname, path;
      this.query, headers := query, map[];
    }

    /** The branch for a header by name: its first value, if it is present. */
    method ApplyHeader(name: Bytes)
      requires Valid()
      modifies `headers
      ensures Valid()
      ensures forall k :: Lookup(headers, k) == Lookup(old(headers), k) + HeaderGain(Header(name), src.headers, k)
    {
      if Lower(name) in src.headers {
        headers := Extend(headers, Lower(name), [src.headers[Lower(name)][0]]);
      }
    }

    /** The branch for a query parameter by name: all its values. */
    method ApplyQuery(name: Bytes)
      requires Valid()
      modifies `query
      ensures Valid()
      ensures forall k :: Lookup(query, k) == Lookup(old(query), k) + (if name == k then Lookup(srcQuery, k) else [])
    {
      if name in srcQuery {
        query := Extend(query, name, srcQuery[name]);
      }
    }

    /** One turn of the loop in `Apply`. */
    method ApplyOne(r: Reference)
      requires Valid()
      modifies this
      ensures Valid()
      ensures QueryGained(old(query), query, srcQuery, [r])
      ensures HeadersGained(old(headers), headers, src.headers, [r])
    {
      match r {
        case Header(name) => ApplyHeader(name);
        case Query(name) => ApplyQuery(name);
        case HeaderRegex(matches) =>
          headers := ExtendMatching(headers, src.headers, matches);
        case QueryRegex(matches) =>
          query := ExtendMatching(query, srcQuery, matches);
      }
      OneGain(old(query), query, srcQuery, old(headers), headers, src.headers, r);
    }

    method Apply(refs: seq<Reference>)
      requires Valid()
      modifies this
      ensures Valid()
      ensures QueryGained(old(query), query, srcQuery, refs)
      ensures HeadersGained(old(headers), headers, src.headers, refs)
    {
      for i := 0 to |refs|
        invariant Valid()
        invariant QueryGained(old(query), query, srcQuery, refs[..i])
        invariant HeadersGained(old(headers), headers, src.headers, refs[..i])
      {
        ghost var q, h := query, headers;
        ApplyOne(refs[i]);
        assert refs[..i + 1] == refs[..i] + [refs[i]];
        QueryGainsAdd(old(query), q, query, srcQuery, refs[..i], [refs[i]]);
        HeaderGainsAdd(old(headers), h, headers, src.headers, refs[..i], [refs[i]]);
      }
      assert refs[..|refs|] == refs;
    }
  }

  datatype Result = Ok(builder: HttpBuilder) | Err(error: Error)

  /** The first of the four missing parts, in the order in which they are asked for. */
  function Missing(src: Parts, dst: Uri): Option<Error> {
    if dst.scheme == None then Some(NoScheme)
    else if dst.authority == None then Some(NoHostname)
    else if dst.query == None || src.query == None then Some(NoQuery)
    else None
  }

  ghost predicate IsNew(b: HttpBuilder, src: Parts, dst: Uri)
    requires Missing(src, dst).None?
    reads b
  {
    && b.Valid() && b.src == src && b.headers == map[]
    && Some(b.scheme) == dst.scheme && Some(b.hostname) == dst.authority && b.path == dst.path
    && (forall k :: Lookup(b.query, k) == ValuesFor(Parse(dst.query.value), k))
    && forall k :: Lookup(b.srcQuery, k) == ValuesFor(Parse(src.query.value), k)
  }

  method New(src: Parts, dst: Uri) returns (r: Result)
    requires IsMultimap(src.headers)
    ensures Missing(src, dst).Some? ==> r == Err(Missing(src, dst).value)
    ensures r == Err(NoScheme) <==> dst.scheme == None
    ensures r == Err(NoHostname) <==> dst.scheme != None && dst.authority == None
    ensures r == Err(NoQuery) <==>
            dst.scheme != None && dst.authority != None && (dst.query == None || src.query == None)
    ensures Missing(src, dst).None? ==> r.Ok? && fresh(r.builder) && IsNew(r.builder, src, dst)
  {
    if dst.scheme == None {
      return Err(NoScheme);
    }
    if dst.authority == None {
      return Err(NoHostname);
    }
    if dst.query == None {
      return Err(NoQuery);
    }
    var query := Group(Parse(dst.query.value));
    if src.query == None {
      return Err(NoQuery);
    }
    var srcQuery := Group(Parse(src.query.value));
    var builder := new HttpBuilder(src, srcQuery, dst.scheme.value, dst.authority.value, dst.path, query);
    return Ok(builder);
  }

  /** The target URL's own values and then the incoming URL's, once for every reference that names them. */
  function BuiltQuery(src: Parts, dst: Uri, refs: seq<Reference>, k: Bytes): seq<Bytes>
    requires dst.query.Some? && src.query.Some?
  {
    ValuesFor(Parse(dst.query.value), k) + Repeat(ValuesFor(Parse(src.query.value), k), Matching(refs, k))
  }

  lemma FinishedQuery(src: Parts, dst: Uri, refs: seq<Reference>, q: Multimap, q': Multimap, srcQuery: Multimap)
    requires dst.query.Some? && src.query.Some? && QueryGained(q, q', srcQuery, refs)
    requires forall k :: Lookup(q, k) == ValuesFor(Parse(dst.query.value), k)
    requires forall k :: Lookup(srcQuery, k) == ValuesFor(Parse(src.query.value), k)
    ensures forall k :: Lookup(q', k) == BuiltQuery(src, dst, refs, k)
  {
    forall k ensures Lookup(q', k) == BuiltQuery(src, dst, refs, k) {
      assert QueryGainedAt(q, q', srcQuery, refs, k);
    }
  }

  lemma FinishedHeaders(src: Parts, refs: seq<Reference>, h: Multimap)
    requires HeadersGained(map[], h, src.headers, refs)
    ensures forall k :: Lookup(h, k) == HeaderGains(refs, src.headers, k)
  {
    forall k ensures Lookup(h, k) == HeaderGains(refs, src.headers, k) {
      assert HeadersGainedAt(map[], h, src.headers, refs, k);
    }
  }

  /** Both steps: what the finished request's query and headers are, from the two URLs and the incoming headers. */
  method Build(src: Parts, dst: Uri, refs: seq<Reference>) returns (r: Result)
    requires IsMultimap(src.headers)
    ensures r.Ok? <==> dst.scheme.Some? && dst.authority.Some? && dst.query.Some? && src.query.Some?
    ensures r.Ok? ==> forall k :: Lookup(r.builder.query, k) == BuiltQuery(src, dst, refs, k)
    ensures r.Ok? ==> forall k :: Lookup(r.builder.headers, k) == HeaderGains(refs, src.headers, k)
  {
    r := New(src, dst);
    if r.Ok? {
      ghost var q := r.builder.query;
      r.builder.Apply(refs);
      FinishedQuery(src, dst, refs, q, r.builder.query, r.builder.srcQuery);
      FinishedHeaders(src, refs, r.builder.headers);
    }
  }
}
