/** The round-robin choice of an upstream server, with a machine-word counter and, for discovery, a reload. */
module RoundRobin {
  import opened Prelude

  datatype Url = Url(text: nat)

  /** The counter is a machine word: `fetch_add` wraps around here. */
  const WORD := 0x1_0000_0000_0000_0000

  function NextCount(counter: nat): nat {
    (counter + 1) % WORD
  }

  class Resolver {
    var counter: nat
    var urls: seq<Url>

    ghost predicate Valid()
      reads this
    {
      counter < WORD
    }

    constructor (urls: seq<Url>)
      ensures Valid() && this.urls == urls && counter == 0
    {
      this.urls, counter := urls, 0;
    }

    /** `None` is the error "no upstream server". */
    method Resolve() returns (url: Option<Url>)
      requires Valid()
      modifies this`counter
      ensures Valid()
      ensures if urls == [] then url == None && counter == old(counter)
              else url == Some(urls[old(counter) % |urls|]) && counter == NextCount(old(counter))
    {
      if urls == [] {
        return None;
      }
      var index := counter % |urls|;
      counter := (counter + 1) % WORD;
      url := Some(urls[index]);
    }

    /**
     * One round of the discovery loop: `found` is the outcome of the lookup, each address already turned into a url
     * or refused. A failed lookup leaves everything as it is.
     */
    method Reload(found: Option<seq<Option<Url>>>)
      requires Valid()
      modifies this
      ensures Valid()
      ensures match found
              case None => counter == old(counter) && urls == old(urls)
              case Some(hosts) => counter == 0 && urls == Accepted(hosts)
    {
      if found.None? {
        return;
      }
      var result := [];
      var i := 0;
      assert found.value[..0] == [];
      while i < |found.value|
        invariant i <= |found.value| && result == Accepted(found.value[..i])
      {
        assert found.value[..i + 1][..i] == found.value[..i];
        if found.value[i].Some? {
          result := result + [found.value[i].value];
        }
        i := i + 1;
      }
      assert found.value[..i] == found.value;
      counter := 0;
      urls := result;
    }
  }

  /** The urls that were not refused, in order. */
  function Accepted(hosts: seq<Option<Url>>): seq<Url> {
    if hosts == [] then []
    else
      var last := hosts[|hosts| - 1];
      Accepted(hosts[..|hosts| - 1]) + if last.Some? then [last.value] else []
  }

  /** A lookup's urls are those of its first host, if it was not refused, and then those of the others. */
  lemma {:induction false} AcceptedInOrder(host: Option<Url>, hosts: seq<Option<Url>>)
    ensures Accepted([host] + hosts) == (if host.Some? then [host.value] else []) + Accepted(hosts)
  {
    var all := [host] + hosts;
    if hosts == [] {
      assert all[..0] == [];
    } else {
      assert all[..|all| - 1] == [host] + hosts[..|hosts| - 1];
      AcceptedInOrder(host, hosts[..|hosts| - 1]);
    }
  }

  /** So a url is offered exactly if some host was accepted with it, and as often as hosts were. */
  lemma {:induction false} AcceptedExactly(hosts: seq<Option<Url>>, url: Url)
    ensures multiset(Accepted(hosts))[url] == multiset(hosts)[Some(url)]
  {
    if hosts != [] {
      AcceptedExactly(hosts[..|hosts| - 1], url);
      assert hosts == hosts[..|hosts| - 1] + [hosts[|hosts| - 1]];
    }
  }

  // ---------------------------------------------------------------------------------------------------------
  // Fairness.

  /** The counter after `m` calls. */
  function CounterAfter(counter: nat, m: nat): nat {
    if m == 0 then counter else NextCount(CounterAfter(counter, m - 1))
  }

  /** How often position `u` of `n` urls is served in `m` consecutive calls. */
  function Served(counter: nat, n: nat, m: nat, u: nat): nat
    requires n > 0
  {
    if m == 0 then 0
    else Served(counter, n, m - 1, u) + if CounterAfter(counter, m - 1) % n == u then 1 else 0
  }

  /** How many of the `m` numbers from `from` on leave remainder `u`. */
  function Hits(from: nat, n: nat, m: nat, u: nat): nat
    requires n > 0
  {
    if m == 0 then 0 else Hits(from, n, m - 1, u) + if (from + m - 1) % n == u then 1 else 0
  }

  lemma {:induction false} CounterBeforeWrap(counter: nat, m: nat)
    requires counter + m < WORD
    ensures CounterAfter(counter, m) == counter + m
  {
    if m > 0 {
      CounterBeforeWrap(counter, m - 1);
    }
  }

  lemma {:induction false} ServedBeforeWrap(counter: nat, n: nat, m: nat, u: nat)
    requires n > 0 && counter + m <= WORD
    ensures Served(counter, n, m, u) == Hits(counter, n, m, u)
  {
    if m > 0 {
      ServedBeforeWrap(counter, n, m - 1, u);
      CounterBeforeWrap(counter, m - 1);
    }
  }

  /** After the wrap the calls count on from zero. */
  lemma {:induction false} CounterAfterWrap(counter: nat, m: nat)
    requires counter < WORD <= counter + m < 2 * WORD
    ensures CounterAfter(counter, m) == counter + m - WORD
  {
    if counter + m == WORD {
      CounterBeforeWrap(counter, m - 1);
    } else {
      CounterAfterWrap(counter, m - 1);
    }
  }

  lemma {:induction false} ServedAcrossWrap(counter: nat, n: nat, m: nat, u: nat)
    requires n > 0 && counter < WORD <= counter + m <= 2 * WORD
    ensures Served(counter, n, m, u) == Hits(counter, n, WORD - counter, u) + Hits(0, n, counter + m - WORD, u)
  {
    if counter + m == WORD {
      ServedBeforeWrap(counter, n, m, u);
    } else {
      ServedAcrossWrap(counter, n, m - 1, u);
      CounterAfterWrap(counter, m - 1);
    }
  }

  lemma {:induction false} HitsSplit(from: nat, n: nat, k: nat, m: nat, u: nat)
    requires n > 0
    ensures Hits(from, n, k + m, u) == Hits(from, n, k, u) + Hits(from + k, n, m, u)
  {
    if m > 0 {
      HitsSplit(from, n, k, m - 1, u);
    }
  }

  lemma AtLeastOnce(d: int, n: int)
    requires n >= 0
    ensures d >= 1 ==> d * n >= n
    ensures d <= -1 ==> d * n <= -n
  {
    if d >= 1 {
      assert (d - 1) * n >= 0;
    } else if d <= -1 {
      assert (d + 1) * n <= 0;
    }
  }

  lemma RemainderIs(x: nat, n: nat, q: nat, r: nat)
    requires n > 0 && r < n && x == q * n + r
    ensures x / n == q && x % n == r
  {
    assert x == (x / n) * n + x % n;
    assert (x / n - q) * n == (x / n) * n - q * n;
    AtLeastOnce(x / n - q, n);
  }

  lemma OneRoundLess(m: nat, n: nat)
    requires 0 < n <= m
    ensures m / n > 0 && (m - n) / n == m / n - 1 && (m - n) % n == m % n
  {
    var q, r := m / n, m % n;
    assert q > 0;
    assert m - n == (q - 1) * n + r;
    RemainderIs(m - n, n, q - 1, r);
  }

  /** Within `n` consecutive numbers the remainder `u` comes up when the distance from the first one says so. */
  lemma HitAtDistance(from: nat, n: nat, k: nat, u: nat)
    requires 0 < n && k < n && u < n
    ensures (from + k) % n == u <==> k == if from % n <= u then u - from % n else u + n - from % n
  {
    var q, r := from / n, from % n;
    if r + k < n {
      RemainderIs(from + k, n, q, r + k);
    } else {
      assert from + k == (q + 1) * n + (r + k - n);
      RemainderIs(from + k, n, q + 1, r + k - n);
    }
  }

  lemma {:induction false} HitsInOneRound(from: nat, n: nat, m: nat, u: nat)
    requires 0 < n && m <= n && u < n
    ensures Hits(from, n, m, u) == if (if from % n <= u then u - from % n else u + n - from % n) < m then 1 else 0
  {
    if m > 0 {
      HitsInOneRound(from, n, m - 1, u);
      HitAtDistance(from, n, m - 1, u);
    }
  }

  lemma {:induction false} HitsAreEven(from: nat, n: nat, m: nat, u: nat)
    requires 0 < n && u < n
    ensures m / n <= Hits(from, n, m, u) <= m / n + if m % n == 0 then 0 else 1
    decreases m
  {
    if m < n {
      HitsInOneRound(from, n, m, u);
      RemainderIs(m, n, 0, m);
    } else {
      HitsSplit(from, n, n, m - n, u);
      HitsInOneRound(from, n, n, u);
      HitsAreEven(from + n, n, m - n, u);
      OneRoundLess(m, n);
    }
  }

  /** Served floor(m/n) or ceil(m/n) times. */
  predicate IsFairShare(served: nat, n: nat, m: nat)
    requires n > 0
  {
    m / n <= served <= m / n + if m % n == 0 then 0 else 1
  }

  /** Until the counter wraps, `m` calls serve each of `n` urls floor(m/n) or ceil(m/n) times. */
  lemma FairBeforeWrap(counter: nat, n: nat, m: nat, u: nat)
    requires 0 < n && u < n && counter + m <= WORD
    ensures IsFairShare(Served(counter, n, m, u), n, m)
  {
    ServedBeforeWrap(counter, n, m, u);
    HitsAreEven(counter, n, m, u);
  }

  lemma ShareBounds(counter: nat, n: nat, m: nat, u: nat)
    requires 0 < n && u < n && counter < WORD <= counter + m <= 2 * WORD
    ensures var before, after := WORD - counter, counter + m - WORD;
            before / n + after / n <= Served(counter, n, m, u) <= before / n + after / n + 2
  {
    ServedAcrossWrap(counter, n, m, u);
    HitsAreEven(counter, n, WORD - counter, u);
    HitsAreEven(0, n, counter + m - WORD, u);
  }

  /** If it wraps once in between, two urls are served equally often but for at most two calls. */
  lemma FairAcrossWrap(counter: nat, n: nat, m: nat, u: nat, v: nat)
    requires 0 < n && u < n && v < n && counter < WORD <= counter + m <= 2 * WORD
    ensures -2 <= Served(counter, n, m, u) - Served(counter, n, m, v) <= 2
  {
    ShareBounds(counter, n, m, u);
    ShareBounds(counter, n, m, v);
  }

  // ---------------------------------------------------------------------------------------------------------
  // When the wrap does no harm.

  lemma ShiftByMultiple(x: nat, n: nat, k: nat)
    requires n > 0 && x % n == 0
    ensures (x + k) % n == k % n
  {
    var q := x / n;
    assert x + k == (q + k / n) * n + k % n by {
      assert x == q * n && k == (k / n) * n + k % n;
      Distribute(q, k / n, n);
    }
    RemainderIs(x + k, n, q + k / n, k % n);
  }

  lemma Distribute(a: int, b: int, n: int)
    ensures (a + b) * n == a * n + b * n
  {
  }

  lemma {:induction false} HitsShift(x: nat, n: nat, m: nat, u: nat)
    requires n > 0 && x % n == 0
    ensures Hits(x, n, m, u) == Hits(0, n, m, u)
  {
    if m > 0 {
      HitsShift(x, n, m - 1, u);
      ShiftByMultiple(x, n, m - 1);
    }
  }

  /** If the number of urls divides the word, a wrap goes unnoticed. */
  lemma WrapUnnoticed(counter: nat, n: nat, m: nat, u: nat)
    requires 0 < n && u < n && WORD % n == 0 && counter < WORD <= counter + m <= 2 * WORD
    ensures IsFairShare(Served(counter, n, m, u), n, m)
  {
    var before, after := WORD - counter, counter + m - WORD;
    ServedAcrossWrap(counter, n, m, u);
    HitsShift(WORD, n, after, u);
    HitsSplit(counter, n, before, after, u);
    HitsAreEven(counter, n, m, u);
  }

  /**
   * If it does not, then around the wrap the first url is served twice in a window in which another one is not served
   * at all: the calls before the wrap end in the middle of the list, and the first call after it starts again.
   */
  lemma WrapFavoursByTwo(n: nat)
    requires 0 < n && WORD % n != 0
    ensures var r := WORD % n;
            r <= WORD && Served(WORD - r, n, r + 1, 0) == 2 && Served(WORD - r, n, r + 1, r) == 0
  {
    var r, q := WORD % n, WORD / n;
    assert WORD == q * n + r;
    AtLeastOnce(q, n);
    RemainderIs(WORD - r, n, q, 0);
    ServedAcrossWrap(WORD - r, n, r + 1, 0);
    ServedAcrossWrap(WORD - r, n, r + 1, r);
    HitsInOneRound(WORD - r, n, r, 0);
    HitsInOneRound(WORD - r, n, r, r);
    RemainderIs(0, n, 0, 0);
    HitsInOneRound(0, n, 1, 0);
    HitsInOneRound(0, n, 1, r);
  }

  ghost predicate IsFairWindow(counter: nat, n: nat, m: nat, u: nat)
    requires n > 0
  {
    u < n && counter < WORD <= counter + m <= 2 * WORD ==> IsFairShare(Served(counter, n, m, u), n, m)
  }

  /** Every window with one wrap is as fair as one without exactly when the number of urls divides the word. */
  lemma FairAcrossWrapExactly(n: nat)
    requires n > 0
    ensures (forall counter: nat, m: nat, u: nat :: IsFairWindow(counter, n, m, u)) <==> WORD % n == 0
  {
    if WORD % n == 0 {
      forall counter: nat, m: nat, u: nat ensures IsFairWindow(counter, n, m, u) {
        if u < n && counter < WORD <= counter + m <= 2 * WORD {
          WrapUnnoticed(counter, n, m, u);
        }
      }
    } else {
      var r := WORD % n;
      WrapFavoursByTwo(n);
      if r + 1 < n {
        RemainderIs(r + 1, n, 0, r + 1);
      } else {
        RemainderIs(r + 1, n, 1, 0);
      }
      assert !IsFairWindow(WORD - r, n, r + 1, 0);
    }
  }

  // ---------------------------------------------------------------------------------------------------------
  // The calls themselves.

  /** What `m` calls answer. */
  function Answers(counter: nat, urls: seq<Url>, m: nat): seq<Url>
    requires urls != []
  {
    if m == 0 then [] else Answers(counter, urls, m - 1) + [urls[CounterAfter(counter, m - 1) % |urls|]]
  }

  lemma {:induction false} AnswersCount(counter: nat, urls: seq<Url>, m: nat, u: nat)
    requires u < |urls| && NoDuplicates(urls)
    ensures multiset(Answers(counter, urls, m))[urls[u]] == Served(counter, |urls|, m, u)
  {
    if m > 0 {
      AnswersCount(counter, urls, m - 1, u);
      var i := CounterAfter(counter, m - 1) % |urls|;
      if urls[i] == urls[u] {
        NoDuplicatesAt(urls, i, u);
      }
    }
  }

  /** `m` requests in turn: on a list of distinct urls each one is served as often as `Served` says. */
  method ResolveInTurn(resolver: Resolver, m: nat) returns (served: seq<Url>)
    requires resolver.Valid() && resolver.urls != []
    modifies resolver`counter
    ensures resolver.Valid() && resolver.counter == CounterAfter(old(resolver.counter), m)
    ensures served == Answers(old(resolver.counter), resolver.urls, m)
    ensures NoDuplicates(resolver.urls) ==>
      forall u :: 0 <= u < |resolver.urls| ==>
        multiset(served)[resolver.urls[u]] == Served(old(resolver.counter), |resolver.urls|, m, u)
  {
    served := [];
    for i := 0 to m
      invariant resolver.Valid() && resolver.counter == CounterAfter(old(resolver.counter), i)
      invariant served == Answers(old(resolver.counter), resolver.urls, i)
    {
      var url := resolver.Resolve();
      served := served + [url.value];
    }
    if NoDuplicates(resolver.urls) {
      forall u | 0 <= u < |resolver.urls|
        ensures multiset(served)[resolver.urls[u]] == Served(old(resolver.counter), |resolver.urls|, m, u)
      {
        AnswersCount(old(resolver.counter), resolver.urls, m, u);
      }
    }
  }
}
