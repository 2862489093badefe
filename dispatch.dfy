/** Ordered keyword dispatch, the shape every classifier of the application
    shares: a list of rules is tried top to bottom and the first rule whose
    keyword test passes decides the outcome (an `if ... else if ...` chain of
    `text.includes(...)` tests). */
module Dispatch {
  import opened Base

  /** A rule matches when every clause holds, and a clause holds when the text
      includes at least one of its keywords: `[["a", "b"]]` is
      `includes('a') || includes('b')`, `[["a"], ["b"]]` is
      `includes('a') && includes('b')`. */
  datatype Rule<A> = Rule(clauses: seq<seq<string>>, action: A)

  predicate AnyContains(s: string, keywords: seq<string>) {
    keywords != [] && (Contains(s, keywords[0]) || AnyContains(s, keywords[1..]))
  }

  /** A clause holds exactly when one of its keywords occurs in the text. */
  lemma {:induction false} AnyContainsIff(s: string, keywords: seq<string>)
    ensures AnyContains(s, keywords) <==> exists k | 0 <= k < |keywords| :: Contains(s, keywords[k])
  {
    if keywords != [] {
      AnyContainsIff(s, keywords[1..]);
      if !Contains(s, keywords[0]) && AnyContains(s, keywords[1..]) {
        var k :| 0 <= k < |keywords| - 1 && Contains(s, keywords[1..][k]);
        assert keywords[k + 1] == keywords[1..][k];
      }
      if !Contains(s, keywords[0]) && exists k | 0 <= k < |keywords| :: Contains(s, keywords[k]) {
        var k :| 1 <= k < |keywords| && Contains(s, keywords[k]);
        assert keywords[1..][k - 1] == keywords[k];
      }
    }
  }

  predicate Matches<A>(s: string, rule: Rule<A>) {
    forall c {:trigger AnyContains(s, rule.clauses[c])} | 0 <= c < |rule.clauses| :: AnyContains(s, rule.clauses[c])
  }

  /** Rule `i` is the one an if-chain over `rules` takes: it matches and no
      earlier rule does. */
  predicate FirstMatching<A>(s: string, rules: seq<Rule<A>>, i: int) {
    && 0 <= i < |rules|
    && Matches(s, rules[i])
    && forall j {:trigger Matches(s, rules[j])} | 0 <= j < i :: !Matches(s, rules[j])
  }

  /** The action of the first matching rule, or None when no rule matches
      (FirstMatchSpec). */
  function FirstMatch<A>(s: string, rules: seq<Rule<A>>): Option<A> {
    if rules == [] then None
    else if Matches(s, rules[0]) then Some(rules[0].action)
    else FirstMatch(s, rules[1..])
  }

  /** The if-chain finds nothing exactly when no rule matches, and otherwise
      yields the action of the first matching rule. */
  lemma {:induction false} FirstMatchSpec<A>(s: string, rules: seq<Rule<A>>)
    ensures var r := FirstMatch(s, rules);
            && (r.None? <==> forall i {:trigger Matches(s, rules[i])} | 0 <= i < |rules| :: !Matches(s, rules[i]))
            && (r.Some? ==> exists i :: FirstMatching(s, rules, i) && r.value == rules[i].action)
            && (forall i :: FirstMatching(s, rules, i) ==> r == Some(rules[i].action))
  {
    if rules != [] && !Matches(s, rules[0]) {
      FirstMatchSpec(s, rules[1..]);
      assert forall i :: FirstMatching(s, rules, i) ==> i > 0 && FirstMatching(s, rules[1..], i - 1);
      assert forall i :: FirstMatching(s, rules[1..], i) ==> FirstMatching(s, rules, i + 1);
    } else if rules != [] {
      assert FirstMatching(s, rules, 0);
    }
  }

  /** Whatever the first matching rule is, an earlier rule that matches would
      have taken precedence: a rule of higher priority always wins. */
  lemma EarlierRuleWins<A>(s: string, rules: seq<Rule<A>>, i: nat)
    requires i < |rules| && Matches(s, rules[i])
    ensures exists j :: j <= i && FirstMatching(s, rules, j) && FirstMatch(s, rules) == Some(rules[j].action)
  {
    FirstMatchSpec(s, rules);
    assert FirstMatch(s, rules).Some?;
    var j :| FirstMatching(s, rules, j) && FirstMatch(s, rules) == Some(rules[j].action);
    assert j <= i;
  }
}
