/** What the static authorizer's answers mean, rule by rule, and where a pointer leads. */
module AuthzMeaning {
  import opened Prelude
  import opened JsonValue
  import opened StaticAuthz

  // ---------------------------------------------------------------------------------------------------------
  // Pointers.

  const DIGITS := "0123456789"

  /** The decimal numeral of `n`. */
  function Show(n: nat): string {
    if n < 10 then [DIGITS[n]] else Show(n / 10) + [DIGITS[n % 10]]
  }

  lemma DigitsAreDigits(d: nat)
    requires d < 10
    ensures IsDigit(DIGITS[d]) && DIGITS[d] as int - 0x30 == d
  {
  }

  lemma {:induction false} ShownIsIndex(n: nat)
    ensures IsIndex(Show(n)) && Decimal(Show(n)) == n && (Show(n)[0] == '0' ==> n == 0)
  {
    DigitsAreDigits(n % 10);
    if n >= 10 {
      ShownIsIndex(n / 10);
      var s := Show(n);
      assert s[..|s| - 1] == Show(n / 10);
    } else {
      assert Show(n)[..0] == [];
    }
  }

  lemma {:induction false} IndexIsShown(token: string)
    requires IsIndex(token)
    ensures token == Show(Decimal(token)) && (token[0] != '0' ==> Decimal(token) > 0)
  {
    var before, last := token[..|token| - 1], token[|token| - 1];
    DigitsAreDigits(last as int - 0x30);
    assert DIGITS[last as int - 0x30] == last;
    if before != [] {
      IndexIsShown(before);
      assert Decimal(token) == Decimal(before) * 10 + (last as int - 0x30);
      assert token == before + [last];
    }
  }

  /** A path leads where its second part leads from where its first part leads. */
  lemma {:induction false} ResolveJoin(v: Json, first: seq<string>, second: seq<string>)
    ensures Resolve(v, first + second) ==
            if Resolve(v, first).None? then None else Resolve(Resolve(v, first).value, second)
  {
    if first == [] {
      assert first + second == second;
    } else {
      assert (first + second)[1..] == first[1..] + second;
      match v
      case Object(members) =>
        if first[0] in members {
          ResolveJoin(members[first[0]], first[1..], second);
        }
      case Array(items) =>
        if IsIndex(first[0]) && Decimal(first[0]) < |items| {
          ResolveJoin(items[Decimal(first[0])], first[1..], second);
        }
      case _ =>
    }
  }

  /** One token leads to a member of an object by name, and to an item of an array by its decimal number only. */
  lemma ResolveOne(v: Json, token: string, w: Json)
    ensures Resolve(v, []) == Some(v)
    ensures Resolve(v, [token]) == Some(w) <==>
              || (v.Object? && token in v.members && w == v.members[token])
              || (v.Array? && exists i: nat :: i < |v.items| && token == Show(i) && w == v.items[i])
  {
    assert [token][1..] == [];
    if v.Array? {
      if IsIndex(token) {
        IndexIsShown(token);
      }
      forall i: nat | i < |v.items| && token == Show(i) ensures IsIndex(token) && Decimal(token) == i {
        ShownIsIndex(i);
      }
    }
  }

  // ---------------------------------------------------------------------------------------------------------
  // Type names.

  /** Every kind of value but arrays has its name. */
  lemma TypeNames(b: bool, text: string, members: map<string, Json>)
    ensures ActualType(Null) == "null" && ActualType(Bool(b)) == "boolean" && ActualType(Number(text)) == "number"
    ensures ActualType(String(text)) == "string" && ActualType(Object(members)) == "object"
  {
  }

  predicate SameKind(v: Json, w: Json) {
    || (v.String? && w.String?) || (v.Number? && w.Number?) || (v.Bool? && w.Bool?) || (v.Object? && w.Object?)
  }

  ghost predicate AreOfOneKind(items: seq<Json>)
    requires items != []
  {
    forall k :: 0 <= k < |items| ==> SameKind(items[0], items[k])
  }

  /** An array whose items are all of one of four kinds has the name of that kind with brackets. */
  lemma ArrayTypeNames(items: seq<Json>)
    requires items != []
    ensures ActualType(Array(items)) == if AreOfOneKind(items) then ActualType(items[0]) + "[]" else "array"
  {
    if AreOfOneKind(items) {
      assert SameKind(items[0], items[0]);
    } else {
      var k :| 0 <= k < |items| && !SameKind(items[0], items[k]);
    }
  }

  // ---------------------------------------------------------------------------------------------------------
  // Answers.

  /** The claim is missing but required, or its first listed value is a refused one. */
  ghost predicate RuleRefuses(rule: Rule, claims: Json) {
    match Resolve(claims, rule.path)
    case None => rule.required
    case Some(v) => IsWellTyped(rule, v) && exists j: nat :: RefusesValue(rule, ValuesOf(v), j)
  }

  /** The first listed value is number `j`, and it is blacklisted. */
  ghost predicate RefusesValue(rule: Rule, vals: seq<string>, j: nat) {
    j < |vals| && vals[j] in rule.blacklist && forall m :: 0 <= m < j ==> !IsListed(rule, vals[m])
  }

  ghost predicate IsFirstMisfit(items: seq<Json>, v: Json) {
    exists k: nat :: FirstNonString(items, k) && v == items[k]
  }

  /** The claim is there, but `v`, the claim or its first item that is no string, is not of the `expected` type. */
  ghost predicate Misfits(rule: Rule, claims: Json, v: Json, expected: string) {
    var claim := Resolve(claims, rule.path);
    && claim.Some?
    && match rule.claimType {
         case OneString => v == claim.value && !v.String? && expected == "string"
         case StringArray =>
           if !claim.value.Array? then v == claim.value && expected == "string[]"
           else expected == "string" && IsFirstMisfit(claim.value.items, v)
       }
  }

  ghost predicate RuleErrs(rule: Rule, claims: Json, o: Outcome) {
    exists v, expected :: Misfits(rule, claims, v, expected) && o == TypeError(rule.path, expected, ActualType(v))
  }

  /** What a rule says that is not silent. */
  ghost predicate RuleSays(rule: Rule, claims: Json, o: Outcome) {
    (o == Allow && RuleAllows(rule, claims)) || (o == Deny && RuleRefuses(rule, claims)) || RuleErrs(rule, claims, o)
  }

  /** Rule number `i` says `o`, and every rule before it is silent. */
  ghost predicate SaysFirst(rules: seq<Rule>, claims: Json, i: nat, o: Outcome) {
    i < |rules| && RuleSays(rules[i], claims, o) && forall k :: 0 <= k < i ==> RuleIsSilent(rules[k], claims)
  }

  lemma ErrsAtOnce(rule: Rule, claims: Json, o: Outcome)
    ensures RuleErrs(rule, claims, o) <==> Resolve(claims, rule.path).Some? && DecidesAtOnce(rule, claims, o)
  {
    var claim := Resolve(claims, rule.path);
    if claim.Some? && DecidesAtOnce(rule, claims, o) {
      if rule.claimType.StringArray? && claim.value.Array? {
        var k: nat :| FirstNonString(claim.value.items, k)
          && o == TypeError(rule.path, "string", ActualType(claim.value.items[k]));
        assert Misfits(rule, claims, claim.value.items[k], "string");
      } else {
        assert Misfits(rule, claims, claim.value, o.expected);
      }
    }
  }

  lemma SaysAt(rule: Rule, claims: Json, j: nat, o: Outcome)
    requires First([rule], claims, 0, j, o)
    ensures RuleSays(rule, claims, o)
  {
    var claim := Resolve(claims, rule.path);
    ErrsAtOnce(rule, claims, o);
    if claim.Some? && IsWellTyped(rule, claim.value) {
      WellTypedDecides(rule, claims, j);
      var vals := ValuesOf(claim.value);
      forall m | 0 <= m < j ensures !IsListed(rule, vals[m]) {
        assert Earlier(0, m, 0, j);
        WellTypedDecides(rule, claims, m);
      }
      if o == Deny {
        assert RefusesValue(rule, vals, j);
      } else {
        assert AllowsValue(rule, vals, j);
      }
    }
  }

  lemma FirstAt(rule: Rule, claims: Json, j: nat, o: Outcome)
    requires Decides(rule, claims, j, o)
    requires forall m :: 0 <= m < j ==> Silent([rule], claims, 0, m)
    ensures First([rule], claims, 0, j, o)
  {
    assert Event([rule], claims, 0, j, o);
    forall z: nat, m: nat | Earlier(z, m, 0, j) ensures Silent([rule], claims, z, m) {
    }
  }

  lemma ValueDecidesFirst(rule: Rule, claims: Json, j: nat)
    requires var claim := Resolve(claims, rule.path);
             && claim.Some? && IsWellTyped(rule, claim.value) && j < |ValuesOf(claim.value)|
             && IsListed(rule, ValuesOf(claim.value)[j])
             && forall m :: 0 <= m < j ==> !IsListed(rule, ValuesOf(claim.value)[m])
    ensures var val := ValuesOf(Resolve(claims, rule.path).value)[j];
            First([rule], claims, 0, j, if val in rule.blacklist then Deny else Allow)
  {
    WellTypedDecides(rule, claims, j);
    forall m | 0 <= m < j ensures Silent([rule], claims, 0, m) {
      WellTypedDecides(rule, claims, m);
    }
    var val := ValuesOf(Resolve(claims, rule.path).value)[j];
    FirstAt(rule, claims, j, if val in rule.blacklist then Deny else Allow);
  }

  lemma SaysSomewhere(rule: Rule, claims: Json, o: Outcome) returns (j: nat)
    requires RuleSays(rule, claims, o)
    ensures First([rule], claims, 0, j, o)
  {
    var claim := Resolve(claims, rule.path);
    ErrsAtOnce(rule, claims, o);
    j := 0;
    if o == Allow && RuleAllows(rule, claims) {
      j :| AllowsValue(rule, ValuesOf(claim.value), j);
      ValueDecidesFirst(rule, claims, j);
    } else if o == Deny && claim.Some? && RuleRefuses(rule, claims) {
      j :| RefusesValue(rule, ValuesOf(claim.value), j);
      ValueDecidesFirst(rule, claims, j);
    } else {
      FirstAt(rule, claims, 0, o);
    }
  }

  lemma FirstIsSaid(rules: seq<Rule>, claims: Json, i: nat, j: nat, o: Outcome)
    requires First(rules, claims, i, j, o)
    ensures SaysFirst(rules, claims, i, o)
  {
    AloneAt(rules, claims, i, j);
    forall i': nat, j': nat | Earlier(i', j', 0, j) ensures Silent([rules[i]], claims, i', j') {
      AloneAt(rules, claims, i, j');
      assert Earlier(i, j', i, j);
    }
    assert First([rules[i]], claims, 0, j, o);
    SaysAt(rules[i], claims, j, o);
    forall k | 0 <= k < i ensures RuleIsSilent(rules[k], claims) {
      forall j': nat ensures Silent([rules[k]], claims, 0, j') {
        AloneAt(rules, claims, k, j');
        assert Earlier(k, j', i, j);
      }
      SilentExactly(rules[k], claims);
    }
  }

  lemma SaidIsFirst(rules: seq<Rule>, claims: Json, i: nat, o: Outcome) returns (j: nat)
    requires SaysFirst(rules, claims, i, o)
    ensures First(rules, claims, i, j, o)
  {
    j := SaysSomewhere(rules[i], claims, o);
    AloneAt(rules, claims, i, j);
    forall i': nat, j': nat | Earlier(i', j', i, j) ensures Silent(rules, claims, i', j') {
      AloneAt(rules, claims, i', j');
      if i' == i {
        assert Earlier(0, j', 0, j);
      } else {
        SilentExactly(rules[i'], claims);
      }
    }
  }

  lemma SilentThroughout(rules: seq<Rule>, claims: Json)
    ensures (forall i: nat, j: nat :: Silent(rules, claims, i, j)) <==>
            forall i :: 0 <= i < |rules| ==> RuleIsSilent(rules[i], claims)
  {
    if forall i: nat, j: nat :: Silent(rules, claims, i, j) {
      forall i | 0 <= i < |rules| ensures RuleIsSilent(rules[i], claims) {
        forall j: nat ensures Silent([rules[i]], claims, 0, j) {
          AloneAt(rules, claims, i, j);
        }
        SilentExactly(rules[i], claims);
      }
    } else {
      var i: nat, j: nat :| !Silent(rules, claims, i, j);
      AloneAt(rules, claims, i, j);
      SilentExactly(rules[i], claims);
    }
  }

  /**
   * The loops answer what the first rule says that is not silent - allowance or refusal by its first listed value,
   * refusal for a missing claim, or the error about a claim of the wrong type - and refuse if all rules are silent.
   */
  lemma OutcomeExactly(rules: seq<Rule>, claims: Json, o: Outcome)
    ensures IsOutcome(rules, claims, o) <==>
              || (exists i: nat :: SaysFirst(rules, claims, i, o))
              || (o == Deny && forall i :: 0 <= i < |rules| ==> RuleIsSilent(rules[i], claims))
  {
    SilentThroughout(rules, claims);
    if i: nat, j: nat :| First(rules, claims, i, j, o) {
      FirstIsSaid(rules, claims, i, j, o);
    }
    if i: nat :| SaysFirst(rules, claims, i, o) {
      var j := SaidIsFirst(rules, claims, i, o);
    }
  }

  /** So no claims leave a caller with a token merely unauthorized. */
  lemma NeverUnauthorized(rules: seq<Rule>, claims: Json)
    ensures !IsOutcome(rules, claims, Unauthorized)
  {
    OutcomeExactly(rules, claims, Unauthorized);
  }
}
