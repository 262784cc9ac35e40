/** robots.txt from its text: what a line says, and what a file decides (RFC 9309 section 2.2). */
module RobotsLines {
  import opened Wrappers
  import opened PythonText
  import opened RobotsPattern
  import opened RobotsRules
  import opened RobotsDecision

  ghost predicate Blank(s: string) {
    forall i :: 0 <= i < |s| ==> IsSpace(s[i])
  }

  ghost predicate Trimmed(s: string) {
    s != [] ==> !IsSpace(s[0]) && !IsSpace(s[|s| - 1])
  }

  /** A line with a key and a value, spaces around both, and perhaps a comment. */
  datatype LineText = LineText(
    indent: string, key: string, gap: string, pad: string, value: string, rest: string, comment: string)
  {
    ghost predicate Valid() {
      && Blank(indent) && Blank(gap) && Blank(pad) && Blank(rest)
      && Trimmed(key) && Trimmed(value)
      && ':' !in key && '#' !in key && '#' !in value
      && (comment != [] ==> comment[0] == '#')
    }

    ghost function Left(): string {
      indent + key + gap
    }

    ghost function Right(): string {
      pad + value + rest
    }

    ghost function Text(): string {
      Left() + ":" + Right() + comment
    }
  }

  // ----- stripping

  lemma {:induction false} StripEnd(s: string)
    requires s != [] && IsSpace(s[|s| - 1])
    ensures Strip(s) == Strip(s[..|s| - 1])
    decreases |s|
  {
    if |s| > 1 && IsSpace(s[0]) {
      StripEnd(s[1..]);
      assert s[1..][..|s| - 2] == s[..|s| - 1][1..];
    }
  }

  lemma {:induction false} StripBefore(a: string, s: string)
    requires Blank(a)
    ensures Strip(a + s) == Strip(s)
  {
    if a == [] {
      assert a + s == s;
    } else {
      assert (a + s)[0] == a[0] && (a + s)[1..] == a[1..] + s;
      StripBefore(a[1..], s);
    }
  }

  lemma {:induction false} StripAfter(s: string, b: string)
    requires Blank(b)
    ensures Strip(s + b) == Strip(s)
    decreases |b|
  {
    if b == [] {
      assert s + b == s;
    } else {
      var c := b[..|b| - 1];
      assert (s + b)[|s + b| - 1] == b[|b| - 1] && (s + b)[..|s + b| - 1] == s + c;
      StripEnd(s + b);
      StripAfter(s, c);
    }
  }

  lemma {:induction false} StripTrimmed(a: string, s: string, b: string)
    requires Blank(a) && Trimmed(s) && Blank(b)
    ensures Strip(a + s + b) == s
  {
    StripAfter(a + s, b);
    StripBefore(a, s);
    if s != [] {
      TrimmedIsItself(s);
    }
  }

  lemma {:induction false} StripIsTrimmed(s: string)
    ensures Trimmed(Strip(s)) && |Strip(s)| <= |s|
    decreases |s|
  {
    if s != [] {
      StripIsTrimmed(s[1..]);
      StripIsTrimmed(s[..|s| - 1]);
    }
  }

  /** Every text is spaces, its stripped form, and spaces. */
  lemma {:induction false} StripParts(s: string) returns (a: string, b: string)
    ensures Blank(a) && Blank(b) && s == a + Strip(s) + b
    decreases |s|
  {
    hide IsSpace;
    a, b := [], [];
    if s != [] && IsSpace(s[0]) {
      var c, d := StripParts(s[1..]);
      a, b := [s[0]] + c, d;
      assert s == [s[0]] + s[1..];
    } else if s != [] && IsSpace(s[|s| - 1]) {
      var c, d := StripParts(s[..|s| - 1]);
      a, b := c, d + [s[|s| - 1]];
      assert s == s[..|s| - 1] + [s[|s| - 1]];
    }
  }

  lemma {:induction false} StripKeeps(s: string, c: char)
    requires c !in s
    ensures c !in Strip(s)
  {
    hide Strip;
    var a, b := StripParts(s);
    assert forall i :: 0 <= i < |Strip(s)| ==> s[|a| + i] == Strip(s)[i];
  }

  lemma {:induction false} IndexIs(s: string, c: char, i: nat)
    requires i <= |s| && (i < |s| ==> s[i] == c) && c !in s[..i]
    ensures IndexOf(s, c) == i
  {
    forall k | 0 <= k < i ensures s[k] != c {
      assert s[..i][k] == s[k];
    }
  }

  lemma BlankHasNo(s: string, c: char)
    requires Blank(s) && !IsSpace(c)
    ensures c !in s
  {
  }

  // ----- what a line is read as

  /** The line without its comment, stripped, and the place of its colon. */
  lemma {:induction false} KeyAndValue(l: LineText)
    requires l.Valid()
    ensures var raw := l.Text();
            var line := Strip(raw[..IndexOf(raw, '#')]);
            var colon := IndexOf(line, ':');
            colon < |line| && Strip(line[..colon]) == l.key && Strip(line[colon + 1..]) == l.value
  {
    var raw, body := l.Text(), l.Left() + ":" + l.Right();
    BlankHasNo(l.indent, '#');
    BlankHasNo(l.gap, '#');
    BlankHasNo(l.pad, '#');
    BlankHasNo(l.rest, '#');
    BlankHasNo(l.indent, ':');
    BlankHasNo(l.gap, ':');
    assert raw[..|body|] == body;
    IndexIs(raw, '#', |body|);
    StripColon(l);
  }

  /** What stripping leaves of a text around a colon. */
  lemma {:induction false} StripAround(key: string, gap: string, pad: string, value: string)
    requires Blank(gap) && Blank(pad) && Trimmed(key) && Trimmed(value)
    ensures Strip(key + gap + ":" + (pad + value)) ==
              (if key == [] then [] else key + gap) + ":" + (if value == [] then [] else pad + value)
  {
    hide Strip, Blank, Trimmed;
    var a, b := if key == [] then [] else key + gap, if value == [] then [] else pad + value;
    var s := a + ":" + b;
    assert Strip(s) == s by {
      assert !IsSpace(s[0]) && !IsSpace(s[|s| - 1]) by {
        TrimmedEnds(key, value, gap, pad);
      }
      TrimmedIsItself(s);
    }
    if key == [] {
      assert key + gap + ":" + (pad + value) == gap + (":" + (pad + value));
      StripBefore(gap, ":" + (pad + value));
      assert ":" + (pad + value) == a + ":" + (pad + value);
    }
    if value == [] {
      assert a + ":" + (pad + value) == (a + ":") + pad;
      StripAfter(a + ":", pad);
      assert a + ":" == s;
    }
  }

  lemma {:induction false} TrimmedEnds(key: string, value: string, gap: string, pad: string)
    requires Trimmed(key) && Trimmed(value)
    ensures var s := (if key == [] then [] else key + gap) + ":" + (if value == [] then [] else pad + value);
            !IsSpace(s[0]) && !IsSpace(s[|s| - 1])
  {
    hide IsSpace;
    assert !IsSpace(':') by { ColonIsNoSpace(); }
  }

  lemma ColonIsNoSpace()
    ensures !IsSpace(':') && !IsSpace('#')
  {
  }

  lemma {:induction false} StripColon(l: LineText)
    requires l.Valid() && ':' !in l.Left()
    ensures var line := Strip(l.Left() + ":" + l.Right());
            var colon := IndexOf(line, ':');
            colon < |line| && Strip(line[..colon]) == l.key && Strip(line[colon + 1..]) == l.value
  {
    hide Strip, Blank, Trimmed;
    var core := l.key + l.gap + ":" + (l.pad + l.value);
    assert l.Left() + ":" + l.Right() == l.indent + (core + l.rest);
    StripBefore(l.indent, core + l.rest);
    StripAfter(core, l.rest);
    StripAround(l.key, l.gap, l.pad, l.value);
    var a, b := if l.key == [] then [] else l.key + l.gap, if l.value == [] then [] else l.pad + l.value;
    var line := a + ":" + b;
    assert ':' !in a && line[..|a|] == a && line[|a| + 1..] == b;
    IndexIs(line, ':', |a|);
    StripSides(l.key, l.gap, l.pad, l.value);
  }

  lemma {:induction false} StripSides(key: string, gap: string, pad: string, value: string)
    requires Blank(gap) && Blank(pad) && Trimmed(key) && Trimmed(value)
    ensures Strip(if key == [] then [] else key + gap) == key
    ensures Strip(if value == [] then [] else pad + value) == value
  {
    hide Trimmed;
    assert [] + key + gap == key + gap && pad + value + [] == pad + value;
    StripTrimmed([], key, gap);
    StripTrimmed(pad, value, []);
  }

  /** A product token is a nonempty text over `[A-Za-z_-]`. */
  lemma ProductTokenIs(s: string)
    ensures IsProductToken(s) <==>
            |s| >= 1 && forall c :: c in s ==> 65 <= c as int <= 90 || 97 <= c as int <= 122 || c as int in {95, 45}
  {
    assert forall i :: 0 <= i < |s| ==> s[i] in s;
  }

  /** A usable value of an agent line. */
  predicate NamesAgent(value: string) {
    value == "*" || IsProductToken(value)
  }

  /** `user-agent`, in any letter case, with a usable value names that agent; with another one it says nothing. */
  lemma {:induction false} AgentLineIsRead(l: LineText)
    requires l.Valid() && Lower(l.key) == "user-agent"
    ensures ReadLine(l.Text()) == if NamesAgent(l.value) then Agent(Lower(l.value)) else Other
  {
    hide Strip, Lower, IsProductToken, IndexOf;
    KeyAndValue(l);
  }

  /** `allow` and `disallow`, in any letter case, state what they say of the value's canonical spelling. */
  lemma {:induction false} RuleLineIsRead(l: LineText)
    requires l.Valid() && (Lower(l.key) == "allow" || Lower(l.key) == "disallow")
    ensures ReadLine(l.Text()).RuleLine?
    ensures var rule := ReadLine(l.Text()).rule;
            && (rule.Some? <==> l.value != [] && CanonicalRulePattern(l.value).Some?)
            && (rule.Some? && Lower(l.key) == "allow" ==> rule.value.allow)
            && (rule.Some? && Lower(l.key) == "disallow" ==> !rule.value.allow)
            && (rule.Some? ==> rule.value.pattern == CanonicalRulePattern(l.value).value)
  {
    hide Strip, Lower, CanonicalRulePattern, IndexOf;
    KeyAndValue(l);
  }

  lemma {:induction false} OtherLineIsRead(l: LineText)
    requires l.Valid() && Lower(l.key) !in {"user-agent", "allow", "disallow"}
    ensures ReadLine(l.Text()) == Other
  {
    hide Strip, Lower, IndexOf;
    KeyAndValue(l);
  }

  /** A line whose text before the comment has no colon says nothing; every other line has a key and a value. */
  lemma {:induction false} EveryLineIsRead(raw: string) returns (l: Option<LineText>)
    ensures l.None? ==> ReadLine(raw) == Other && ':' !in raw[..IndexOf(raw, '#')]
    ensures l.Some? ==> l.value.Valid() && l.value.Text() == raw
  {
    hide Strip, Blank, Trimmed;
    var hash := IndexOf(raw, '#');
    var body, comment := raw[..hash], raw[hash..];
    assert forall k :: 0 <= k < |body| ==> body[k] == raw[k];
    var colon := IndexOf(body, ':');
    if colon == |body| {
      NoColon(body);
      return None;
    }
    assert body == body[..colon] + ":" + body[colon + 1..];
    var a, b := StripParts(body[..colon]);
    var c, d := StripParts(body[colon + 1..]);
    var key, value := Strip(body[..colon]), Strip(body[colon + 1..]);
    var parts := LineText(a, key, b, c, value, d, comment);
    assert '#' !in body && ':' !in body[..colon];
    StripKeeps(body[..colon], ':');
    StripKeeps(body[..colon], '#');
    StripKeeps(body[colon + 1..], '#');
    StripIsTrimmed(body[..colon]);
    StripIsTrimmed(body[colon + 1..]);
    assert parts.Left() == body[..colon] && parts.Right() == body[colon + 1..];
    assert raw == body + comment;
    return Some(parts);
  }

  lemma {:induction false} NoColon(body: string)
    requires IndexOf(body, ':') == |body|
    ensures IndexOf(Strip(body), ':') == |Strip(body)| && ':' !in body
  {
    assert ':' !in body;
    StripKeeps(body, ':');
    IndexIs(Strip(body), ':', |Strip(body)|);
  }

  // ----- what a pattern text means

  /** A character no pattern may hold. */
  ghost predicate Unusable(c: char) {
    c as int < 0x21 || c == '#'
  }

  /** A pattern without a final `$` is spelled canonically as it stands; a final `$` stays an anchor. */
  lemma {:induction false} PatternIs(body: string)
    requires body != [] && (forall c :: c in body ==> !Unusable(c))
    ensures body[|body| - 1] != '$' ==> CanonicalRulePattern(body) == Some(Canonical(body))
    ensures CanonicalRulePattern(body + "$") == Some(Canonical(body) + "$")
  {
    hide Canonical;
    assert (body + "$")[..|body|] == body;
    assert forall i :: 0 <= i < |body| ==> body[i] in body && !Unusable(body[i]);
    assert Canonical(body) + "" == Canonical(body);
  }

  lemma {:induction false} PatternIsNot(body: string)
    requires exists c :: c in body && Unusable(c)
    ensures CanonicalRulePattern(body).None?
  {
    hide Canonical;
    var c :| c in body && Unusable(c);
    var i :| 0 <= i < |body| && body[i] == c;
    var kept := if body[|body| - 1] == '$' then body[..|body| - 1] else body;
    assert i < |kept| && kept[i] == c;
    assert HoldsInvalid(kept);
  }

  // ----- what the texts of a file state

  /** This text names an agent. */
  ghost predicate AgentText(raw: string, name: string) {
    exists l: LineText ::
      l.Valid() && l.Text() == raw && Lower(l.key) == "user-agent" && NamesAgent(l.value) && name == Lower(l.value)
  }

  ghost predicate RuleText(raw: string, allow: bool, pattern: Option<string>) {
    exists l: LineText ::
      && l.Valid() && l.Text() == raw
      && Lower(l.key) == (if allow then "allow" else "disallow")
      && pattern == if l.value == [] then None else CanonicalRulePattern(l.value)
  }

  lemma {:induction false} AgentTextIsRead(raw: string, name: string)
    ensures ReadLine(raw) == Agent(name) <==> AgentText(raw, name)
  {
    hide ReadLine, CanonicalRulePattern, IsProductToken, Lower, LineText.Valid, LineText.Text;
    if l: LineText :| l.Valid() && l.Text() == raw && Lower(l.key) == "user-agent" && NamesAgent(l.value) &&
                      name == Lower(l.value) {
      AgentLineIsRead(l);
    }
    var parts := EveryLineIsRead(raw);
    if parts.Some? {
      ReadAsKey(parts.value);
    }
  }

  /** Whatever a line is read as, its key says so. */
  lemma {:induction false} ReadAsKey(l: LineText)
    requires l.Valid()
    ensures ReadLine(l.Text()).Agent? ==>
              Lower(l.key) == "user-agent" && NamesAgent(l.value) && ReadLine(l.Text()).name == Lower(l.value)
    ensures ReadLine(l.Text()).RuleLine? ==> Lower(l.key) == "allow" || Lower(l.key) == "disallow"
  {
    hide ReadLine, CanonicalRulePattern, IsProductToken, Lower, LineText.Valid, LineText.Text;
    if Lower(l.key) == "user-agent" {
      AgentLineIsRead(l);
    } else if Lower(l.key) == "allow" || Lower(l.key) == "disallow" {
      RuleLineIsRead(l);
    } else {
      OtherLineIsRead(l);
    }
  }

  lemma {:induction false} RuleTextIsRead(raw: string, r: Rule)
    ensures ReadLine(raw) == RuleLine(Some(r)) <==> RuleText(raw, r.allow, Some(r.pattern))
  {
    hide ReadLine, CanonicalRulePattern, Lower, LineText.Valid, LineText.Text;
    if RuleText(raw, r.allow, Some(r.pattern)) {
      var l: LineText :|
        && l.Valid() && l.Text() == raw
        && Lower(l.key) == (if r.allow then "allow" else "disallow")
        && Some(r.pattern) == if l.value == [] then None else CanonicalRulePattern(l.value);
      RuleLineIsRead(l);
    }
    if ReadLine(raw) == RuleLine(Some(r)) {
      var parts := EveryLineIsRead(raw);
      ReadAsKey(parts.value);
      RuleLineIsRead(parts.value);
    }
  }

  lemma {:induction false} AnyRuleTextIsRead(raw: string)
    ensures ReadLine(raw).RuleLine? <==> exists allow, pattern :: RuleText(raw, allow, pattern)
  {
    hide ReadLine, CanonicalRulePattern, Lower, LineText.Valid, LineText.Text;
    if allow, pattern :| RuleText(raw, allow, pattern) {
      var l: LineText :|
        l.Valid() && l.Text() == raw && Lower(l.key) == (if allow then "allow" else "disallow");
      RuleLineIsRead(l);
    }
    if ReadLine(raw).RuleLine? {
      var parts := EveryLineIsRead(raw);
      var l := parts.value;
      ReadAsKey(l);
      var allow := Lower(l.key) == "allow";
      assert RuleText(raw, allow, if l.value == [] then None else CanonicalRulePattern(l.value));
    }
  }

  /** Text `j` states rule `r`, and text `i` names an agent it is for: no agent text after a rule text between. */
  ghost predicate TextStatesAt(raw: seq<string>, name: string, r: Rule, i: int, j: int) {
    && 0 <= i < j < |raw|
    && AgentText(raw[i], name)
    && RuleText(raw[j], r.allow, Some(r.pattern))
    && !exists k, l, allow, pattern, other ::
         i < k < l < j && RuleText(raw[k], allow, pattern) && AgentText(raw[l], other)
  }

  ghost predicate TextStates(raw: seq<string>, name: string, r: Rule) {
    exists i, j :: TextStatesAt(raw, name, r, i, j)
  }

  ghost predicate TextNames(raw: seq<string>, name: string) {
    exists i :: 0 <= i < |raw| && AgentText(raw[i], name)
  }

  lemma {:induction false} BetweenIsText(raw: seq<string>, i: int, j: int)
    requires 0 <= i < j < |raw|
    ensures Between(ReadLines(raw), i, j) <==>
            exists k, l, allow, pattern, other ::
              i < k < l < j && RuleText(raw[k], allow, pattern) && AgentText(raw[l], other)
  {
    hide ReadLine, RuleText, AgentText;
    var lines := ReadLines(raw);
    if k, l :| i < k < l < j && lines[k].RuleLine? && lines[l].Agent? {
      AnyRuleTextIsRead(raw[k]);
      AgentTextIsRead(raw[l], lines[l].name);
      var allow, pattern :| RuleText(raw[k], allow, pattern);
      assert AgentText(raw[l], lines[l].name);
    }
    if k, l, allow, pattern, other :| i < k < l < j && RuleText(raw[k], allow, pattern) && AgentText(raw[l], other) {
      AnyRuleTextIsRead(raw[k]);
      AgentTextIsRead(raw[l], other);
      assert lines[k].RuleLine? && lines[l].Agent?;
    }
  }

  lemma {:induction false} TextStatesAtIsStated(raw: seq<string>, name: string, r: Rule, i: int, j: int)
    ensures StatedAt(ReadLines(raw), name, r, i, j) <==> TextStatesAt(raw, name, r, i, j)
  {
    hide ReadLine, RuleText, AgentText, Between;
    if 0 <= i < j < |raw| {
      AgentTextIsRead(raw[i], name);
      RuleTextIsRead(raw[j], r);
      BetweenIsText(raw, i, j);
    }
  }

  /** What is read off the lines is what the texts state. */
  lemma {:induction false} TextStatesIsStated(raw: seq<string>, name: string, r: Rule)
    ensures StatedFor(ReadLines(raw), name, r) <==> TextStates(raw, name, r)
  {
    hide ReadLines, TextStatesAt, StatedAt;
    if i, j :| StatedAt(ReadLines(raw), name, r, i, j) {
      TextStatesAtIsStated(raw, name, r, i, j);
    }
    if i, j :| TextStatesAt(raw, name, r, i, j) {
      TextStatesAtIsStated(raw, name, r, i, j);
    }
  }

  lemma {:induction false} TextNamesIsNamed(raw: seq<string>, name: string)
    ensures Agent(name) in ReadLines(raw) <==> TextNames(raw, name)
  {
    hide ReadLine, AgentText;
    if Agent(name) in ReadLines(raw) {
      var i :| 0 <= i < |raw| && ReadLines(raw)[i] == Agent(name);
      AgentTextIsRead(raw[i], name);
    }
    if i :| 0 <= i < |raw| && AgentText(raw[i], name) {
      AgentTextIsRead(raw[i], name);
      assert ReadLines(raw)[i] == Agent(name);
    }
  }

  /** The texts give `r` to the crawler: under its own token if one names it, else under `*`. */
  ghost predicate TextHeard(raw: seq<string>, token: string, r: Rule) {
    TextStates(raw, if TextNames(raw, token) then token else "*", r)
  }

  /** What a rule is matched against, before it is spelled canonically. */
  ghost function PathAndQuery(uri: SplitUri): string {
    if uri.query == "" then
      if uri.path == "" then "/" else uri.path
    else if uri.path == "" then "/?" + uri.query
    else uri.path + "?" + uri.query
  }

  lemma TargetIs(uri: SplitUri)
    ensures Target(uri) == Canonical(PathAndQuery(uri))
  {
    hide Canonical;
    assert uri.path + "" == uri.path && "/" + "" == "/" && "/" + ("?" + uri.query) == "/?" + uri.query;
    assert uri.path + ("?" + uri.query) == uri.path + "?" + uri.query;
  }

  /** The two errors, and the only ones. */
  lemma {:induction false} RefusedTargets(groups: seq<Group>, uri: SplitUri, productToken: string)
    ensures CanFetch(groups, uri, productToken) == InvalidToken <==> !IsProductToken(Strip(productToken))
    ensures CanFetch(groups, uri, productToken) == InvalidUri <==>
            && IsProductToken(Strip(productToken))
            && (Lower(uri.scheme) !in {"http", "https"} || uri.hostname == "")
  {
  }

  /**
   Main result: a file denies a URL exactly if its texts state, for the crawler, a matching disallow rule that is
   strictly more specific than every matching allow rule they state.
   */
  lemma {:induction false} DecisionFollowsText(raw: seq<string>, uri: SplitUri, productToken: string)
    requires IsProductToken(Strip(productToken))
    requires (Lower(uri.scheme) == "http" || Lower(uri.scheme) == "https") && uri.hostname != []
    ensures var token, target := Lower(Strip(productToken)), Canonical(PathAndQuery(uri));
            CanFetch(Grouped(raw), uri, productToken) == Denied <==>
            && !(uri.path == "/robots.txt" && uri.query == [])
            && exists d ::
                 && TextHeard(raw, token, d) && !d.allow && Matches(d.pattern, target)
                 && forall a :: TextHeard(raw, token, a) && a.allow && Matches(a.pattern, target) ==>
                                  Specificity(a.pattern) < Specificity(d.pattern)
  {
    hide CanFetch, Grouped, ReadLines, StatedFor, TextStates, TextNames, Matches, Specificity, Target, Strip, Lower,
      IsProductToken, Canonical, PathAndQuery;
    TargetIs(uri);
    var token := Lower(Strip(productToken));
    DecisionFollowsLines(raw, uri, productToken);
    forall r ensures Heard(ReadLines(raw), token, r) <==> TextHeard(raw, token, r) {
      TextNamesIsNamed(raw, token);
      TextStatesIsStated(raw, if TextNames(raw, token) then token else "*", r);
    }
    var target := Target(uri);
    if d :| Forbids(ReadLines(raw), token, target, d) {
      assert TextHeard(raw, token, d);
    }
    if d :| TextHeard(raw, token, d) && !d.allow && Matches(d.pattern, target) &&
            forall a :: TextHeard(raw, token, a) && a.allow && Matches(a.pattern, target) ==>
                          Specificity(a.pattern) < Specificity(d.pattern) {
      assert Forbids(ReadLines(raw), token, target, d);
    }
  }

  // ----- a file of two lines

  /** `key: value`. */
  ghost function Plainly(key: string, value: string): string {
    key + ": " + value
  }

  lemma {:induction false} PlainlyIsLine(key: string, value: string)
    requires Trimmed(key) && Trimmed(value) && ':' !in key && '#' !in key && '#' !in value
    ensures var l := LineText([], key, [], " ", value, [], []); l.Valid() && l.Text() == Plainly(key, value)
  {
    assert Plainly(key, value) == key + ":" + (" " + value);
    assert [] + key + [] == key && " " + value + [] == " " + value;
  }

  lemma TokenIsPlain(token: string)
    requires IsProductToken(token)
    ensures Trimmed(token) && '#' !in token && ':' !in token
  {
  }

  lemma PathIsPlain(path: string)
    requires path != [] && forall c :: c in path ==> !Unusable(c) && !IsSpace(c)
    ensures Trimmed(path) && '#' !in path
  {
  }

  lemma {:induction false} KeysAreLower()
    ensures Lower("User-agent") == "user-agent" && Lower("Allow") == "allow" && Lower("Disallow") == "disallow"
    ensures Trimmed("User-agent") && Trimmed("Allow") && Trimmed("Disallow")
    ensures forall key :: key in {"User-agent", "Allow", "Disallow"} ==> ':' !in key && '#' !in key
  {
  }

  /** How the two lines are read. */
  lemma {:induction false} TwoLinesAreRead(agent: string, allow: bool, path: string)
    requires IsProductToken(agent)
    requires path != [] && (forall c :: c in path ==> !Unusable(c) && !IsSpace(c)) && path[|path| - 1] != '$'
    ensures ReadLines([Plainly("User-agent", agent), Plainly(if allow then "Allow" else "Disallow", path)]) ==
              [Agent(Lower(agent)), RuleLine(Some(Rule(allow, Canonical(path))))]
  {
    hide ReadLine, Canonical, CanonicalRulePattern, IsProductToken, Lower, LineText.Valid, LineText.Text, IsSpace;
    KeysAreLower();
    TokenIsPlain(agent);
    PathIsPlain(path);
    var key := if allow then "Allow" else "Disallow";
    PlainlyIsLine("User-agent", agent);
    AgentLineIsRead(LineText([], "User-agent", [], " ", agent, [], []));
    PlainlyIsLine(key, path);
    RuleLineIsRead(LineText([], key, [], " ", path, [], []));
    PatternIs(path);
  }

  /**
   For the agent it names, `Disallow: p` denies exactly what matches the canonical spelling of `p`, and `Allow: p`
   nothing.
   */
  lemma {:induction false} TwoLineFile(agent: string, allow: bool, path: string, uri: SplitUri, productToken: string)
    requires IsProductToken(agent) && IsProductToken(Strip(productToken)) && Lower(agent) == Lower(Strip(productToken))
    requires path != [] && (forall c :: c in path ==> !Unusable(c) && !IsSpace(c)) && path[|path| - 1] != '$'
    requires (Lower(uri.scheme) == "http" || Lower(uri.scheme) == "https") && uri.hostname != []
    ensures var raw := [Plainly("User-agent", agent), Plainly(if allow then "Allow" else "Disallow", path)];
            CanFetch(Grouped(raw), uri, productToken) ==
              if !allow && !(uri.path == "/robots.txt" && uri.query == []) &&
                 Matches(Canonical(path), Canonical(PathAndQuery(uri)))
              then Denied else Allowed
  {
    hide Grouped, ReadLines, Canonical, Matches, Specificity, Target, Strip, Lower, IsProductToken, IsSpace, Unusable,
      Plainly, Matching, Applicable, MostSpecific, PathAndQuery;
    TargetIs(uri);
    var raw := [Plainly("User-agent", agent), Plainly(if allow then "Allow" else "Disallow", path)];
    DecisionFollowsLines(raw, uri, productToken);
    TwoLinesAreRead(agent, allow, path);
    var lines, token, rule := ReadLines(raw), Lower(agent), Rule(allow, Canonical(path));
    assert lines[0] == Agent(token);
    OnlyRule(lines, token, rule);
    if !allow && Matches(Canonical(path), Target(uri)) {
      assert Forbids(lines, token, Target(uri), rule);
    }
  }

  lemma {:induction false} OnlyRule(lines: seq<Line>, token: string, rule: Rule)
    requires lines == [Agent(token), RuleLine(Some(rule))]
    ensures forall r :: Heard(lines, token, r) <==> r == rule
  {
    assert StatedAt(lines, token, rule, 0, 1);
  }
}
