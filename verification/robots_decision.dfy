/** `RobotsRules.can_fetch`: the most specific matching rule decides, and allow wins a tie. */
module RobotsDecision {
  import opened PythonText
  import opened RobotsPattern
  import opened RobotsRules

  /** `urlsplit` of the target. */
  datatype SplitUri = SplitUri(scheme: string, hostname: string, path: string, query: string)

  /** How many octets of UTF-8 a character takes. */
  function OctetCount(c: char): nat {
    if c as int > 127 then |Utf8(c)| else 1
  }

  function LiteralOctets(body: string): nat {
    if body == [] then 0 else (if body[0] == '*' then 0 else OctetCount(body[0])) + LiteralOctets(body[1..])
  }

  /** Octets of the pattern apart from wildcards and the final `$`. */
  function Specificity(pattern: string): nat {
    LiteralOctets(Body(pattern))
  }

  /** The text without its stars. */
  ghost function WithoutStars(s: string): string {
    if s == [] then [] else (if s[0] == '*' then "" else [s[0]]) + WithoutStars(s[1..])
  }

  /** The text in UTF-8. */
  ghost function Encoded(s: string): seq<nat> {
    if s == [] then [] else (if s[0] as int > 127 then Utf8(s[0]) else [s[0] as int]) + Encoded(s[1..])
  }

  /** Specificity is the length in UTF-8 of what is left of the pattern without its stars and its anchor. */
  lemma {:induction false} SpecificityIs(body: string)
    ensures '*' !in WithoutStars(body)
    ensures Specificity(body + "$") == |Encoded(WithoutStars(body))|
    ensures (body == [] || body[|body| - 1] != '$') ==> Specificity(body) == |Encoded(WithoutStars(body))|
  {
    LiteralOctetsAre(body);
    assert Body(body + "$") == body;
  }

  lemma {:induction false} LiteralOctetsAre(body: string)
    ensures '*' !in WithoutStars(body) && LiteralOctets(body) == |Encoded(WithoutStars(body))|
  {
    if body != [] {
      var rest := WithoutStars(body[1..]);
      LiteralOctetsAre(body[1..]);
      if body[0] == '*' {
        assert WithoutStars(body) == rest;
      } else {
        assert ([body[0]] + rest)[1..] == rest;
      }
    }
  }

  function GroupsNaming(groups: seq<Group>, name: string): seq<Group> {
    if groups == [] then []
    else (if name in groups[0].agents then [groups[0]] else []) + GroupsNaming(groups[1..], name)
  }

  function Applicable(groups: seq<Group>, token: string): seq<Group> {
    var exact := GroupsNaming(groups, token);
    if exact != [] then exact else GroupsNaming(groups, "*")
  }

  function MatchingIn(rules: seq<Rule>, target: string): seq<Rule> {
    if rules == [] then []
    else (if Matches(rules[0].pattern, target) then [rules[0]] else []) + MatchingIn(rules[1..], target)
  }

  function Matching(groups: seq<Group>, target: string): seq<Rule> {
    if groups == [] then [] else MatchingIn(groups[0].rules, target) + Matching(groups[1..], target)
  }

  function MostSpecific(rules: seq<Rule>): nat {
    if rules == [] then 0
    else
      var m := MostSpecific(rules[1..]);
      if Specificity(rules[0].pattern) > m then Specificity(rules[0].pattern) else m
  }

  function Target(uri: SplitUri): string {
    CanonicalTarget(if uri.path == [] then "/" else uri.path, uri.query)
  }

  function CanFetch(groups: seq<Group>, uri: SplitUri, productToken: string): Decision {
    var token := Strip(productToken);
    if !IsProductToken(token) then InvalidToken
    else if !(Lower(uri.scheme) == "http" || Lower(uri.scheme) == "https") || uri.hostname == [] then InvalidUri
    else if uri.path == "/robots.txt" && uri.query == [] then Allowed
    else
      var matches := Matching(Applicable(groups, Lower(token)), Target(uri));
      if matches == [] then Allowed
      else if exists i ::
                0 <= i < |matches| && Specificity(matches[i].pattern) == MostSpecific(matches) && matches[i].allow
      then Allowed
      else Denied
  }

  // ----- what the comprehensions select

  lemma {:induction false} GroupsNamingSelects(groups: seq<Group>, name: string)
    ensures forall g :: g in GroupsNaming(groups, name) <==> g in groups && name in g.agents
  {
    if groups != [] {
      GroupsNamingSelects(groups[1..], name);
      assert groups == [groups[0]] + groups[1..];
    }
  }

  lemma {:induction false} MatchingInSelects(rules: seq<Rule>, target: string)
    ensures forall r :: r in MatchingIn(rules, target) <==> r in rules && Matches(r.pattern, target)
  {
    hide Matches;
    if rules != [] {
      MatchingInSelects(rules[1..], target);
      assert rules == [rules[0]] + rules[1..];
    }
  }

  ghost predicate InSome(groups: seq<Group>, r: Rule) {
    exists g :: g in groups && r in g.rules
  }

  lemma {:induction false} MatchingSelects(groups: seq<Group>, target: string)
    ensures forall r :: r in Matching(groups, target) <==> InSome(groups, r) && Matches(r.pattern, target)
  {
    hide Matches;
    if groups != [] {
      MatchingSelects(groups[1..], target);
      MatchingInSelects(groups[0].rules, target);
      assert groups == [groups[0]] + groups[1..];
      forall r ensures InSome(groups, r) <==> r in groups[0].rules || InSome(groups[1..], r) {
        if r in groups[0].rules {
          assert groups[0] in groups;
        }
      }
    }
  }

  lemma {:induction false} MostSpecificIsMaximum(rules: seq<Rule>)
    requires rules != []
    ensures exists r :: r in rules && Specificity(r.pattern) == MostSpecific(rules)
    ensures forall r :: r in rules ==> Specificity(r.pattern) <= MostSpecific(rules)
  {
    hide Specificity;
    assert rules == [rules[0]] + rules[1..];
    assert rules[0] in rules;
    if |rules| > 1 {
      MostSpecificIsMaximum(rules[1..]);
    } else {
      assert MostSpecific(rules[1..]) == 0;
    }
  }

  // ----- the decision, read off the lines

  /** The lines give `r` to the crawler: under its own token if any line names it, else under `*`. */
  ghost predicate Heard(lines: seq<Line>, token: string, r: Rule) {
    StatedFor(lines, if Agent(token) in lines then token else "*", r)
  }

  /** A matching disallow rule strictly more specific than every matching allow rule. */
  ghost predicate Forbids(lines: seq<Line>, token: string, target: string, d: Rule) {
    && Heard(lines, token, d) && !d.allow && Matches(d.pattern, target)
    && forall a :: Heard(lines, token, a) && a.allow && Matches(a.pattern, target) ==>
                     Specificity(a.pattern) < Specificity(d.pattern)
  }

  lemma ApplicableIsHeard(lines: seq<Line>, groups: seq<Group>, token: string, r: Rule)
    requires SaysTheSame(lines, groups)
    ensures InSome(Applicable(groups, token), r) <==> Heard(lines, token, r)
  {
    hide StatedFor;
    GroupsNamingSelects(groups, token);
    GroupsNamingSelects(groups, "*");
    var exact := GroupsNaming(groups, token);
    var name := if exact != [] then token else "*";
    if exact != [] {
      assert exact[0] in exact;
    }
    assert Names(groups, token) <==> exact != [];
    assert InSome(Applicable(groups, token), r) <==> GroupedFor(groups, name, r);
  }

  lemma {:induction false} DecisionOfMatches(matches: seq<Rule>)
    requires matches != []
    ensures (exists i ::
               0 <= i < |matches| && Specificity(matches[i].pattern) == MostSpecific(matches) && matches[i].allow) <==>
            !exists d :: d in matches && !d.allow &&
                         forall a :: a in matches && a.allow ==> Specificity(a.pattern) < Specificity(d.pattern)
  {
    hide Specificity, MostSpecific;
    MostSpecificIsMaximum(matches);
    var top :| top in matches && Specificity(top.pattern) == MostSpecific(matches);
    if i :| 0 <= i < |matches| && Specificity(matches[i].pattern) == MostSpecific(matches) && matches[i].allow {
      assert matches[i] in matches;
    } else {
      assert !top.allow by {
        var j :| 0 <= j < |matches| && matches[j] == top;
      }
      forall a | a in matches && a.allow ensures Specificity(a.pattern) < Specificity(top.pattern) {
        var j :| 0 <= j < |matches| && matches[j] == a;
      }
    }
  }

  /** Main result: parse-then-decide is the direct reading of the lines. */
  lemma {:induction false} DecisionFollowsLines(raw: seq<string>, uri: SplitUri, productToken: string)
    requires IsProductToken(Strip(productToken))
    requires (Lower(uri.scheme) == "http" || Lower(uri.scheme) == "https") && uri.hostname != []
    ensures CanFetch(Grouped(raw), uri, productToken) == Denied <==>
            !(uri.path == "/robots.txt" && uri.query == []) &&
            exists d :: Forbids(ReadLines(raw), Lower(Strip(productToken)), Target(uri), d)
  {
    hide Matches, Heard, Grouped, Strip, Lower, Target, Matching, Applicable, MostSpecific, Specificity, Forbids,
         ReadLines, SaysTheSame, IsProductToken;
    var lines, token, target := ReadLines(raw), Lower(Strip(productToken)), Target(uri);
    var matches := Matching(Applicable(Grouped(raw), token), target);
    GroupingIsFaithful(raw);
    forall r ensures r in matches <==> Heard(lines, token, r) && Matches(r.pattern, target) {
      ApplicableIsHeard(lines, Grouped(raw), token, r);
      MatchingSelects(Applicable(Grouped(raw), token), target);
    }
    LinesDecide(lines, token, target, matches);
  }

  lemma {:induction false} LinesDecide(lines: seq<Line>, token: string, target: string, matches: seq<Rule>)
    requires forall r :: r in matches <==> Heard(lines, token, r) && Matches(r.pattern, target)
    ensures (exists d :: Forbids(lines, token, target, d)) <==>
            matches != [] &&
            !exists i ::
              0 <= i < |matches| && Specificity(matches[i].pattern) == MostSpecific(matches) && matches[i].allow
  {
    hide Heard, Matches, Specificity, MostSpecific;
    if matches != [] {
      DecisionOfMatches(matches);
      if d :| Forbids(lines, token, target, d) {
        assert d in matches;
      }
      if d :| d in matches && !d.allow && forall a :: a in matches && a.allow ==>
           Specificity(a.pattern) < Specificity(d.pattern) {
        assert Forbids(lines, token, target, d);
      }
    }
  }

  /** Neither the order of rules nor how they are split into groups matters. */
  lemma OrderIsIrrelevant(raw: seq<string>, other: seq<string>, uri: SplitUri, productToken: string)
    requires forall name, r :: StatedFor(ReadLines(raw), name, r) <==> StatedFor(ReadLines(other), name, r)
    requires forall name :: Agent(name) in ReadLines(raw) <==> Agent(name) in ReadLines(other)
    ensures CanFetch(Grouped(raw), uri, productToken) == CanFetch(Grouped(other), uri, productToken)
  {
    hide StatedFor, Grouped, Matches, Target;
    if IsProductToken(Strip(productToken)) && (Lower(uri.scheme) == "http" || Lower(uri.scheme) == "https") &&
       uri.hostname != [] {
      DecisionFollowsLines(raw, uri, productToken);
      DecisionFollowsLines(other, uri, productToken);
      var token, target := Lower(Strip(productToken)), Target(uri);
      forall d ensures Forbids(ReadLines(raw), token, target, d) <==> Forbids(ReadLines(other), token, target, d) {
      }
    }
  }
}
