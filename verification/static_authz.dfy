/** Entering a session under the static authorizer: lists of allowed and refused claim values or API keys. */
module StaticAuthz {
  import opened Prelude
  import opened JsonValue

  datatype ClaimType = OneString | StringArray

  datatype Rule = Rule(
    path: seq<string>,
    required: bool,
    claimType: ClaimType,
    whitelist: set<string>,
    blacklist: set<string>)

  datatype Outcome =
    | Allow
    | Deny
    | Unauthorized
    | TypeError(path: seq<string>, expected: string, actual: string)

  // ---------------------------------------------------------------------------------------------------------
  // Looking a claim up: a JSON Pointer (section 4 of RFC 6901), as the list of its unescaped tokens.

  predicate IsDigit(c: char) {
    0x30 <= c as int <= 0x39
  }

  predicate AllDigits(s: string) {
    forall k :: 0 <= k < |s| ==> IsDigit(s[k])
  }

  function Decimal(digits: string): nat
    requires AllDigits(digits)
  {
    if digits == [] then 0
    else Decimal(digits[..|digits| - 1]) * 10 + (digits[|digits| - 1] as int - 0x30)
  }

  /** Digits without a leading zero. */
  predicate IsIndex(token: string) {
    token != [] && AllDigits(token) && (token[0] == '0' ==> |token| == 1)
  }

  function Resolve(v: Json, path: seq<string>): Option<Json> {
    if path == [] then Some(v)
    else
      match v
      case Object(members) =>
        if path[0] in members then Resolve(members[path[0]], path[1..]) else None
      case Array(items) =>
        if IsIndex(path[0]) && Decimal(path[0]) < |items| then Resolve(items[Decimal(path[0])], path[1..]) else None
      case _ => None
  }

  function ActualType(v: Json): string {
    match v
    case String(_) => "string"
    case Object(_) => "object"
    case Null => "null"
    case Bool(_) => "boolean"
    case Number(_) => "number"
    case Array(items) =>
      if forall k :: 0 <= k < |items| ==> items[k].String? then "string[]"
      else if forall k :: 0 <= k < |items| ==> items[k].Number? then "number[]"
      else if forall k :: 0 <= k < |items| ==> items[k].Bool? then "boolean[]"
      else if forall k :: 0 <= k < |items| ==> items[k].Object? then "object[]"
      else "array"
  }

  // ---------------------------------------------------------------------------------------------------------
  // The rule list as data: every rule and every value of its claim is a place where the answer may be decided.

  function Verdict(rule: Rule, val: string): Option<Outcome> {
    if val in rule.blacklist then Some(Deny)
    else if val in rule.whitelist then Some(Allow)
    else None
  }

  ghost predicate FirstNonString(items: seq<Json>, k: nat) {
    k < |items| && !items[k].String? && forall m :: 0 <= m < k ==> items[m].String?
  }

  /** Rule `rule` is decided before any value is compared. */
  ghost predicate DecidesAtOnce(rule: Rule, claims: Json, o: Outcome) {
    match Resolve(claims, rule.path)
    case None => rule.required && o == Deny
    case Some(v) =>
      match rule.claimType
      case OneString => !v.String? && o == TypeError(rule.path, "string", ActualType(v))
      case StringArray =>
        if v.Array? then
          exists k: nat :: FirstNonString(v.items, k) && o == TypeError(rule.path, "string", ActualType(v.items[k]))
        else o == TypeError(rule.path, "string[]", ActualType(v))
  }

  ghost predicate IsWellTyped(rule: Rule, v: Json) {
    match rule.claimType
    case OneString => v.String?
    case StringArray => v.Array? && forall k :: 0 <= k < |v.items| ==> v.items[k].String?
  }

  /** The values a rule compares: those of its claim, in the order of the array. */
  function ValuesOf(v: Json): seq<string>
    requires v.String? || (v.Array? && forall k :: 0 <= k < |v.items| ==> v.items[k].String?)
  {
    if v.String? then [v.s] else seq(|v.items|, k requires 0 <= k < |v.items| => v.items[k].s)
  }

  /** Value number `j` of the rule's claim decides. */
  ghost predicate DecidesAt(rule: Rule, claims: Json, j: nat, o: Outcome) {
    var v := Resolve(claims, rule.path);
    v.Some? && IsWellTyped(rule, v.value) && j < |ValuesOf(v.value)| && Verdict(rule, ValuesOf(v.value)[j]) == Some(o)
  }

  ghost predicate Decides(rule: Rule, claims: Json, j: nat, o: Outcome) {
    (j == 0 && DecidesAtOnce(rule, claims, o)) || DecidesAt(rule, claims, j, o)
  }

  ghost predicate Event(rules: seq<Rule>, claims: Json, i: nat, j: nat, o: Outcome) {
    i < |rules| && Decides(rules[i], claims, j, o)
  }

  ghost predicate Silent(rules: seq<Rule>, claims: Json, i: nat, j: nat) {
    forall o :: !Event(rules, claims, i, j, o)
  }

  ghost predicate Earlier(i: nat, j: nat, i': nat, j': nat) {
    i < i' || (i == i' && j < j')
  }

  ghost predicate SilentBefore(rules: seq<Rule>, claims: Json, i: nat, j: nat) {
    forall i': nat, j': nat :: Earlier(i', j', i, j) ==> Silent(rules, claims, i', j')
  }

  ghost predicate First(rules: seq<Rule>, claims: Json, i: nat, j: nat, o: Outcome) {
    Event(rules, claims, i, j, o) && SilentBefore(rules, claims, i, j)
  }

  /** The first deciding place in the order of rules and then of values, and refusal when there is none. */
  ghost predicate IsOutcome(rules: seq<Rule>, claims: Json, o: Outcome) {
    || (exists i: nat, j: nat :: First(rules, claims, i, j, o))
    || (o == Deny && forall i: nat, j: nat :: Silent(rules, claims, i, j))
  }

  // ---------------------------------------------------------------------------------------------------------
  // The loops.

  datatype Collected = Values(vals: seq<string>) | Mistyped(o: Outcome)

  /** The rule's claim as a list of strings, or the error for the first thing that is not one. */
  method Collect(rule: Rule, v: Json) returns (r: Collected)
    ensures r.Values? ==> IsWellTyped(rule, v) && r.vals == ValuesOf(v)
    ensures r.Mistyped? ==> forall claims :: Resolve(claims, rule.path) == Some(v) ==> DecidesAtOnce(rule, claims, r.o)
  {
    match rule.claimType {
      case OneString =>
        if v.String? {
          return Values([v.s]);
        }
        return Mistyped(TypeError(rule.path, "string", ActualType(v)));
      case StringArray =>
        if !v.Array? {
          return Mistyped(TypeError(rule.path, "string[]", ActualType(v)));
        }
        var vals := [];
        for k := 0 to |v.items|
          invariant |vals| == k
          invariant forall m :: 0 <= m < k ==> v.items[m].String? && vals[m] == v.items[m].s
        {
          if !v.items[k].String? {
            assert FirstNonString(v.items, k);
            return Mistyped(TypeError(rule.path, "string", ActualType(v.items[k])));
          }
          vals := vals + [v.items[k].s];
        }
        return Values(vals);
    }
  }

  method AuthorizeJwt(rules: seq<Rule>, claims: Json) returns (o: Outcome)
    ensures IsOutcome(rules, claims, o)
  {
    for i := 0 to |rules|
      invariant SilentBefore(rules, claims, i, 0)
    {
      var rule := rules[i];
      var resolved := Resolve(claims, rule.path);
      if resolved.None? {
        if rule.required {
          assert First(rules, claims, i, 0, Deny);
          return Deny;
        }
        continue;
      }
      var collected := Collect(rule, resolved.value);
      if collected.Mistyped? {
        assert First(rules, claims, i, 0, collected.o);
        return collected.o;
      }
      var vals := collected.vals;
      for j := 0 to |vals|
        invariant SilentBefore(rules, claims, i, j)
      {
        if vals[j] in rule.blacklist {
          assert First(rules, claims, i, j, Deny);
          return Deny;
        }
        if vals[j] in rule.whitelist {
          assert First(rules, claims, i, j, Allow);
          return Allow;
        }
      }
    }
    return Deny;
  }

  // ---------------------------------------------------------------------------------------------------------
  // What the answer means.

  lemma OneDecision(rule: Rule, claims: Json, j: nat, o: Outcome, o': Outcome)
    requires Decides(rule, claims, j, o) && Decides(rule, claims, j, o')
    ensures o == o'
  {
  }

  lemma Heard(rules: seq<Rule>, claims: Json, i: nat, j: nat, o: Outcome)
    requires i < |rules| && Decides(rules[i], claims, j, o)
    ensures Event(rules, claims, i, j, o) && !Silent(rules, claims, i, j)
  {
    assert Event(rules, claims, i, j, o);
  }

  lemma NothingIsEarlier(rules: seq<Rule>, claims: Json, i: nat, j: nat, o: Outcome, i': nat, j': nat, o': Outcome)
    requires First(rules, claims, i, j, o) && Event(rules, claims, i', j', o')
    ensures !Earlier(i', j', i, j)
  {
  }

  lemma FirstIsTheOutcome(rules: seq<Rule>, claims: Json, i: nat, j: nat, o: Outcome, o': Outcome)
    requires First(rules, claims, i, j, o) && IsOutcome(rules, claims, o')
    ensures o == o'
  {
    assert !Silent(rules, claims, i, j);
    var i': nat, j': nat :| First(rules, claims, i', j', o');
    NothingIsEarlier(rules, claims, i, j, o, i', j', o');
    NothingIsEarlier(rules, claims, i', j', o', i, j, o);
    OneDecision(rules[i], claims, j, o, o');
  }

  /** The specification leaves one answer. */
  lemma OneOutcome(rules: seq<Rule>, claims: Json, o: Outcome, o': Outcome)
    requires IsOutcome(rules, claims, o) && IsOutcome(rules, claims, o')
    ensures o == o'
  {
    if i: nat, j: nat :| First(rules, claims, i, j, o) {
      FirstIsTheOutcome(rules, claims, i, j, o, o');
    } else if i: nat, j: nat :| First(rules, claims, i, j, o') {
      FirstIsTheOutcome(rules, claims, i, j, o', o);
    }
  }

  /** `rule'` allows more values. */
  ghost predicate AllowsMore(rule: Rule, rule': Rule) {
    rule' == rule.(whitelist := rule'.whitelist) && rule.whitelist <= rule'.whitelist
  }

  /** `rule'` refuses more values. */
  ghost predicate RefusesMore(rule: Rule, rule': Rule) {
    rule' == rule.(blacklist := rule'.blacklist) && rule.blacklist <= rule'.blacklist
  }

  lemma AllowsMoreAt(rule: Rule, rule': Rule, claims: Json, j: nat, o: Outcome)
    requires AllowsMore(rule, rule')
    ensures Decides(rule, claims, j, o) ==> Decides(rule', claims, j, o)
    ensures Decides(rule', claims, j, o) && o != Allow ==> Decides(rule, claims, j, o)
  {
  }

  lemma RefusesMoreAt(rule: Rule, rule': Rule, claims: Json, j: nat, o: Outcome)
    requires RefusesMore(rule, rule')
    ensures Decides(rule', claims, j, Allow) ==> Decides(rule, claims, j, Allow)
    ensures Decides(rule, claims, j, o) ==> Decides(rule', claims, j, o) || Decides(rule', claims, j, Deny)
  {
  }

  /** Whoever was allowed before whitelists grew is allowed after. */
  lemma WhitelistGrows(rules: seq<Rule>, rules': seq<Rule>, claims: Json, o: Outcome)
    requires |rules| == |rules'| && forall i :: 0 <= i < |rules| ==> AllowsMore(rules[i], rules'[i])
    requires IsOutcome(rules, claims, Allow) && o != Allow
    ensures !IsOutcome(rules', claims, o)
  {
    var i: nat, j: nat :| First(rules, claims, i, j, Allow);
    AllowsMoreAt(rules[i], rules'[i], claims, j, Allow);
    Heard(rules', claims, i, j, Allow);
    if i': nat, j': nat :| First(rules', claims, i', j', o) {
      NothingIsEarlier(rules', claims, i', j', o, i, j, Allow);
      AllowsMoreAt(rules[i'], rules'[i'], claims, j', o);
      Heard(rules, claims, i', j', o);
      NothingIsEarlier(rules, claims, i, j, Allow, i', j', o);
      OneDecision(rules[i], claims, j, o, Allow);
    }
  }

  /** Whoever was not allowed before blacklists grew is not allowed after. */
  lemma BlacklistGrows(rules: seq<Rule>, rules': seq<Rule>, claims: Json, o: Outcome)
    requires |rules| == |rules'| && forall i :: 0 <= i < |rules| ==> RefusesMore(rules[i], rules'[i])
    requires IsOutcome(rules, claims, o) && o != Allow
    ensures !IsOutcome(rules', claims, Allow)
  {
    if i': nat, j': nat :| First(rules', claims, i', j', Allow) {
      RefusesMoreAt(rules[i'], rules'[i'], claims, j', Allow);
      Heard(rules, claims, i', j', Allow);
      var i: nat, j: nat :| First(rules, claims, i, j, o);
      NothingIsEarlier(rules, claims, i, j, o, i', j', Allow);
      RefusesMoreAt(rules[i], rules'[i], claims, j, o);
      var seen := if Decides(rules'[i], claims, j, o) then o else Deny;
      Heard(rules', claims, i, j, seen);
      NothingIsEarlier(rules', claims, i', j', Allow, i, j, seen);
      OneDecision(rules[i], claims, j, o, Allow);
    }
  }

  /** A type error never names the expected type as the actual one. */
  lemma TypeErrorsDiffer(rules: seq<Rule>, claims: Json, path: seq<string>, expected: string, actual: string)
    requires IsOutcome(rules, claims, TypeError(path, expected, actual))
    ensures expected != actual
  {
    var i: nat, j: nat :| First(rules, claims, i, j, TypeError(path, expected, actual));
    TypeErrorDiffers(rules[i], claims, TypeError(path, expected, actual));
  }

  lemma TypeErrorDiffers(rule: Rule, claims: Json, o: Outcome)
    requires DecidesAtOnce(rule, claims, o) && o.TypeError?
    ensures o.expected != o.actual
  {
  }

  // How the answer relates to a conjunction of the rules.

  ghost predicate IsListed(rule: Rule, val: string) {
    val in rule.whitelist || val in rule.blacklist
  }

  /** The first listed value of a well-typed claim is number `j`, and it is whitelisted only. */
  ghost predicate AllowsValue(rule: Rule, vals: seq<string>, j: nat) {
    && j < |vals| && vals[j] in rule.whitelist && vals[j] !in rule.blacklist
    && forall m :: 0 <= m < j ==> !IsListed(rule, vals[m])
  }

  /** The claim is there, well typed, and its first listed value is an allowed one. */
  ghost predicate RuleAllows(rule: Rule, claims: Json) {
    var v := Resolve(claims, rule.path);
    v.Some? && IsWellTyped(rule, v.value) && exists j: nat :: AllowsValue(rule, ValuesOf(v.value), j)
  }

  /** The claim is missing and not required, or well typed without a listed value. */
  ghost predicate RuleIsSilent(rule: Rule, claims: Json) {
    match Resolve(claims, rule.path)
    case None => !rule.required
    case Some(v) => IsWellTyped(rule, v) && forall j :: 0 <= j < |ValuesOf(v)| ==> !IsListed(rule, ValuesOf(v)[j])
  }

  /** Rule number `i` allows, and every rule before it is silent. */
  ghost predicate AllowsFirst(rules: seq<Rule>, claims: Json, i: nat) {
    i < |rules| && RuleAllows(rules[i], claims) && forall k :: 0 <= k < i ==> RuleIsSilent(rules[k], claims)
  }

  lemma {:induction false} FirstOtherThanString(items: seq<Json>, n: nat) returns (k: nat)
    requires n < |items| && !items[n].String?
    ensures FirstNonString(items, k)
  {
    if m: nat :| m < n && !items[m].String? {
      k := FirstOtherThanString(items, m);
    } else {
      k := n;
    }
  }

  /** A claim that is not well typed decides at once. */
  lemma IllTypedDecides(rule: Rule, claims: Json) returns (o: Outcome)
    requires Resolve(claims, rule.path).Some? && !IsWellTyped(rule, Resolve(claims, rule.path).value)
    ensures DecidesAtOnce(rule, claims, o)
  {
    var v := Resolve(claims, rule.path).value;
    if rule.claimType.OneString? {
      o := TypeError(rule.path, "string", ActualType(v));
    } else if !v.Array? {
      o := TypeError(rule.path, "string[]", ActualType(v));
    } else {
      var n: nat :| n < |v.items| && !v.items[n].String?;
      var k := FirstOtherThanString(v.items, n);
      o := TypeError(rule.path, "string", ActualType(v.items[k]));
    }
  }

  /** What number `j` of a well-typed claim decides is up to the lists. */
  lemma WellTypedDecides(rule: Rule, claims: Json, j: nat)
    requires Resolve(claims, rule.path).Some? && IsWellTyped(rule, Resolve(claims, rule.path).value)
    ensures var vals := ValuesOf(Resolve(claims, rule.path).value);
            && (forall o :: Decides(rule, claims, j, o) <==> j < |vals| && Verdict(rule, vals[j]) == Some(o))
            && (Silent([rule], claims, 0, j) <==> (j < |vals| ==> !IsListed(rule, vals[j])))
  {
    var vals := ValuesOf(Resolve(claims, rule.path).value);
    if j < |vals| && IsListed(rule, vals[j]) {
      assert Event([rule], claims, 0, j, Verdict(rule, vals[j]).value);
    }
  }

  /** A rule is silent at every place exactly when the lists and the claim say so. */
  lemma SilentExactly(rule: Rule, claims: Json)
    ensures (forall j: nat :: Silent([rule], claims, 0, j)) <==> RuleIsSilent(rule, claims)
  {
    var v := Resolve(claims, rule.path);
    if v.Some? && IsWellTyped(rule, v.value) {
      forall j: nat
        ensures Silent([rule], claims, 0, j) <==> (j < |ValuesOf(v.value)| ==> !IsListed(rule, ValuesOf(v.value)[j]))
      {
        WellTypedDecides(rule, claims, j);
      }
    } else if v.Some? {
      var o := IllTypedDecides(rule, claims);
      assert Event([rule], claims, 0, 0, o);
      assert !Silent([rule], claims, 0, 0);
    } else if rule.required {
      assert Event([rule], claims, 0, 0, Deny);
      assert !Silent([rule], claims, 0, 0);
    } else {
      forall j: nat ensures Silent([rule], claims, 0, j) {
      }
    }
  }

  /** A rule on its own allows exactly when the first listed value of its claim is an allowed one. */
  lemma AllowsAlone(rule: Rule, claims: Json)
    ensures IsOutcome([rule], claims, Allow) <==> RuleAllows(rule, claims)
  {
    var v := Resolve(claims, rule.path);
    if IsOutcome([rule], claims, Allow) {
      var z: nat, j: nat :| First([rule], claims, z, j, Allow);
      AllowedAt(rule, claims, j);
    }
    if RuleAllows(rule, claims) {
      var j: nat :| AllowsValue(rule, ValuesOf(v.value), j);
      WellTypedDecides(rule, claims, j);
      forall z: nat, m: nat | Earlier(z, m, 0, j) ensures Silent([rule], claims, z, m) {
        WellTypedDecides(rule, claims, m);
      }
      assert First([rule], claims, 0, j, Allow);
    }
  }

  lemma AllowedAt(rule: Rule, claims: Json, j: nat)
    requires First([rule], claims, 0, j, Allow)
    ensures RuleAllows(rule, claims)
  {
    var v := Resolve(claims, rule.path);
    WellTypedDecides(rule, claims, j);
    forall m | 0 <= m < j ensures !IsListed(rule, ValuesOf(v.value)[m]) {
      assert Earlier(0, m, 0, j);
      WellTypedDecides(rule, claims, m);
    }
    assert AllowsValue(rule, ValuesOf(v.value), j);
  }

  /** What happens at a rule does not depend on the list it stands in. */
  lemma AloneAt(rules: seq<Rule>, claims: Json, i: nat, j: nat)
    requires i < |rules|
    ensures Silent([rules[i]], claims, 0, j) <==> Silent(rules, claims, i, j)
    ensures forall o :: Event([rules[i]], claims, 0, j, o) <==> Event(rules, claims, i, j, o)
  {
    var alone := [rules[i]];
    forall o
      ensures Event(alone, claims, 0, j, o) <==> Event(rules, claims, i, j, o)
    {
    }
    if Silent(alone, claims, 0, j) {
      forall o ensures !Event(rules, claims, i, j, o) {
        assert !Event(alone, claims, 0, j, o);
      }
    }
    if Silent(rules, claims, i, j) {
      forall o ensures !Event(alone, claims, 0, j, o) {
        assert !Event(rules, claims, i, j, o);
      }
    }
  }

  lemma AllowedByFirst(rules: seq<Rule>, claims: Json, i: nat, j: nat)
    requires First(rules, claims, i, j, Allow)
    ensures AllowsFirst(rules, claims, i)
  {
    AloneAt(rules, claims, i, j);
    forall i': nat, j': nat | Earlier(i', j', 0, j)
      ensures Silent([rules[i]], claims, i', j')
    {
      AloneAt(rules, claims, i, j');
      assert Earlier(i, j', i, j);
    }
    assert First([rules[i]], claims, 0, j, Allow);
    AllowedAt(rules[i], claims, j);
    forall k | 0 <= k < i
      ensures RuleIsSilent(rules[k], claims)
    {
      forall j': nat ensures Silent([rules[k]], claims, 0, j') {
        AloneAt(rules, claims, k, j');
        assert Earlier(k, j', i, j);
      }
      SilentExactly(rules[k], claims);
    }
  }

  lemma FirstAllows(rules: seq<Rule>, claims: Json, i: nat)
    requires AllowsFirst(rules, claims, i)
    ensures IsOutcome(rules, claims, Allow)
  {
    AllowsAlone(rules[i], claims);
    var z: nat, j: nat :| First([rules[i]], claims, z, j, Allow);
    AloneAt(rules, claims, i, j);
    forall i': nat, j': nat | Earlier(i', j', i, j)
      ensures Silent(rules, claims, i', j')
    {
      AloneAt(rules, claims, i', j');
      if i' == i {
        assert Earlier(0, j', 0, j);
      } else {
        SilentExactly(rules[i'], claims);
      }
    }
    assert First(rules, claims, i, j, Allow);
  }

  /** The loops allow exactly when some rule allows and all rules before it are silent. */
  lemma AllowsExactly(rules: seq<Rule>, claims: Json)
    ensures IsOutcome(rules, claims, Allow) <==> exists i: nat :: AllowsFirst(rules, claims, i)
  {
    if IsOutcome(rules, claims, Allow) {
      var i: nat, j: nat :| First(rules, claims, i, j, Allow);
      AllowedByFirst(rules, claims, i, j);
    }
    if i: nat :| AllowsFirst(rules, claims, i) {
      FirstAllows(rules, claims, i);
    }
  }

  /** The conjunction that the documentation promises: there are rules, and each of them allows. */
  ghost predicate Conjunction(rules: seq<Rule>, claims: Json) {
    rules != [] && forall i :: 0 <= i < |rules| ==> RuleAllows(rules[i], claims)
  }

  /** Whom all rules allow, the loops allow. */
  lemma ConjunctionSuffices(rules: seq<Rule>, claims: Json)
    requires Conjunction(rules, claims)
    ensures IsOutcome(rules, claims, Allow)
  {
    assert AllowsFirst(rules, claims, 0);
    FirstAllows(rules, claims, 0);
  }

  /**
   * So "allowed" is the conjunction exactly when nobody but the first rule can be the one that decides to allow, and
   * if it does, all the others allow as well.
   */
  lemma ConjunctionExactly(rules: seq<Rule>, claims: Json)
    ensures (IsOutcome(rules, claims, Allow) <==> Conjunction(rules, claims)) <==>
            forall i: nat :: AllowsFirst(rules, claims, i) ==> i == 0 && OthersAllow(rules, claims)
  {
    AllowsExactly(rules, claims);
    if Conjunction(rules, claims) {
      ConjunctionSuffices(rules, claims);
      forall i: nat | AllowsFirst(rules, claims, i) ensures i == 0 {
        if i > 0 {
          NotBoth(rules[0], claims);
        }
      }
    } else if i: nat :| AllowsFirst(rules, claims, i) {
      assert !(i == 0 && OthersAllow(rules, claims));
    }
  }

  ghost predicate OthersAllow(rules: seq<Rule>, claims: Json) {
    forall k :: 0 < k < |rules| ==> RuleAllows(rules[k], claims)
  }

  lemma NotBoth(rule: Rule, claims: Json)
    ensures !(RuleAllows(rule, claims) && RuleIsSilent(rule, claims))
  {
    if RuleAllows(rule, claims) {
      var v := Resolve(claims, rule.path).value;
      var j: nat :| AllowsValue(rule, ValuesOf(v), j);
      assert IsListed(rule, ValuesOf(v)[j]);
    }
  }

  /** The rules are not all required to agree: a value that an earlier rule allows hides a later refusal. */
  lemma EarlierRuleDecides(claims: Json, claim: seq<string>, other: seq<string>, who: string)
    requires Resolve(claims, claim) == Some(String(who)) && Resolve(claims, other) == Some(String(who))
    ensures var rules := [Rule(claim, true, OneString, {who}, {}), Rule(other, true, OneString, {}, {who})];
            IsOutcome(rules, claims, Allow) && IsOutcome(rules[1..], claims, Deny)
  {
    var allows := Rule(claim, true, OneString, {who}, {});
    var refuses := Rule(other, true, OneString, {}, {who});
    assert First([allows, refuses], claims, 0, 0, Allow);
    assert [allows, refuses][1..] == [refuses];
    assert First([refuses], claims, 0, 0, Deny);
  }

  // ---------------------------------------------------------------------------------------------------------
  // API keys and entry.

  datatype Lists = Lists(whitelist: set<string>, blacklist: set<string>)

  datatype Caller = ApiKey(key: string) | Jwt(claims: Json) | NoAuth

  method AuthorizeApiKey(lists: Lists, key: string) returns (o: Outcome)
    ensures o == Allow <==> key in lists.whitelist - lists.blacklist
    ensures o != Allow ==> o == Deny
  {
    if key in lists.blacklist {
      o := Deny;
    } else if key in lists.whitelist {
      o := Allow;
    } else {
      o := Deny;
    }
  }

  method AuthorizeEnter(lists: Lists, rules: seq<Rule>, caller: Caller) returns (o: Outcome)
    ensures caller.ApiKey? ==> o == (if caller.key in lists.whitelist - lists.blacklist then Allow else Deny)
    ensures caller.Jwt? ==> IsOutcome(rules, caller.claims, o)
    ensures caller.NoAuth? ==> o == Unauthorized
  {
    match caller
    case ApiKey(key) => o := AuthorizeApiKey(lists, key);
    case Jwt(claims) => o := AuthorizeJwt(rules, claims);
    case NoAuth => o := Unauthorized;
  }
}
