/**
 robots.txt path patterns (RFC 9309 section 2.2.3): the greedy matcher of
 src/tarkka/domain/robots_rules.py against the meaning of `*` and `$`.
 */
module RobotsPattern {

  // ----- what a pattern means

  /** `*` stands for any run of characters; every other character stands for itself. */
  predicate Glob(p: string, t: string)
    decreases |p|
  {
    if p == [] then t == []
    else if p[0] == '*' then exists k :: 0 <= k <= |t| && Glob(p[1..], t[k..])
    else t != [] && t[0] == p[0] && Glob(p[1..], t[1..])
  }

  predicate Anchored(pattern: string) {
    pattern != [] && pattern[|pattern| - 1] == '$'
  }

  function Body(pattern: string): string {
    if Anchored(pattern) then pattern[..|pattern| - 1] else pattern
  }

  /** A final `$` ties the pattern to the end of the target; otherwise any continuation is accepted. */
  predicate Matches(pattern: string, target: string) {
    if Anchored(pattern) then Glob(Body(pattern), target) else Glob(pattern + "*", target)
  }

  // ----- Python string operations

  predicate OccursAt(t: string, part: string, k: int) {
    0 <= k <= |t| - |part| && t[k..k + |part|] == part
  }

  predicate EndsWith(t: string, part: string) {
    |part| <= |t| && t[|t| - |part|..] == part
  }

  /** `t.find(part, start)`. */
  method Find(t: string, part: string, start: nat) returns (found: int)
    requires start <= |t|
    ensures found < 0 ==> forall k :: start <= k ==> !OccursAt(t, part, k)
    ensures found >= 0 ==> start <= found && OccursAt(t, part, found) && forall k :: start <= k < found ==>
              !OccursAt(t, part, k)
  {
    found := start;
    while found + |part| <= |t|
      invariant start <= found
      invariant forall k :: start <= k < found ==> !OccursAt(t, part, k)
      decreases |t| - found
    {
      if t[found..found + |part|] == part {
        return;
      }
      found := found + 1;
    }
    found := -1;
  }

  /** `t.rfind(part)`. */
  method RFind(t: string, part: string) returns (found: int)
    ensures found < 0 ==> forall k :: !OccursAt(t, part, k)
    ensures found >= 0 ==> OccursAt(t, part, found) && forall k :: OccursAt(t, part, k) ==> k <= found
    ensures EndsWith(t, part) ==> found == |t| - |part|
  {
    assert EndsWith(t, part) <==> OccursAt(t, part, |t| - |part|);
    found := |t| - |part|;
    while found >= 0
      invariant found <= |t| - |part|
      invariant forall k :: OccursAt(t, part, k) ==> k <= found
    {
      if t[found..found + |part|] == part {
        return;
      }
      found := found - 1;
    }
    found := -1;
  }

  /** `body.split("*")`. */
  function Split(body: string): (parts: seq<string>)
    ensures parts != []
  {
    if body == [] then [""]
    else
      var rest := Split(body[1..]);
      if body[0] == '*' then [""] + rest else [[body[0]] + rest[0]] + rest[1..]
  }

  /** The parts joined again, each behind a `*`. */
  function Stars(parts: seq<string>): string {
    if parts == [] then [] else "*" + parts[0] + Stars(parts[1..])
  }

  predicate Plain(part: string) {
    '*' !in part
  }

  lemma {:induction false} SplitJoins(body: string)
    ensures body == Split(body)[0] + Stars(Split(body)[1..])
    ensures forall i :: 0 <= i < |Split(body)| ==> Plain(Split(body)[i])
  {
    if body != [] {
      SplitJoins(body[1..]);
      var rest, parts := Split(body[1..]), Split(body);
      assert body == [body[0]] + body[1..];
      if body[0] == '*' {
        assert parts[1..] == rest;
        assert Stars(rest) == "*" + rest[0] + Stars(rest[1..]);
      } else {
        assert parts[1..] == rest[1..];
      }
    }
  }

  /** Where the empty first and last parts come from. */
  lemma {:induction false} SplitEnds(body: string)
    ensures body != [] && body[0] == '*' ==> |Split(body)| > 1 && Split(body)[0] == []
    ensures |Split(body)| > 1 ==> body != [] && (Split(body)[|Split(body)| - 1] == [] <==> body[|body| - 1] == '*')
    ensures |Split(body)| == 1 ==> Split(body)[0] == body
  {
    if body != [] {
      SplitEnds(body[1..]);
      var rest, parts := Split(body[1..]), Split(body);
      assert body == [body[0]] + body[1..];
      assert body[1..] != [] ==> body[|body| - 1] == body[1..][|body| - 2];
      if |rest| > 1 {
        assert parts[|parts| - 1] == rest[|rest| - 1];
      } else if body[0] == '*' && body[1..] != [] {
        SplitJoins(body[1..]);
        assert Plain(rest[0]) && body[1..][|body| - 2] in rest[0];
      }
    }
  }

  // ----- laws of the meaning

  lemma {:induction false} PlainPrefix(part: string, rest: string, t: string)
    requires Plain(part)
    ensures Glob(part + rest, t) <==> part <= t && Glob(rest, t[|part|..])
    decreases |part|
  {
    if part == [] {
      assert part + rest == rest && t[0..] == t;
    } else {
      assert (part + rest)[0] == part[0] && part[0] in part;
      assert (part + rest)[1..] == part[1..] + rest;
      if t != [] && t[0] == part[0] {
        PlainPrefix(part[1..], rest, t[1..]);
        assert t == [t[0]] + t[1..];
        assert part == [part[0]] + part[1..];
        assert part <= t ==> t[1..][|part| - 1..] == t[|part|..];
      }
    }
  }

  lemma {:induction false} StarAnywhere(p: string, t: string, k: nat)
    requires p != [] && p[0] == '*' && k <= |t| && Glob(p, t[k..])
    ensures Glob(p, t)
  {
    var j :| 0 <= j <= |t[k..]| && Glob(p[1..], t[k..][j..]);
    assert t[k..][j..] == t[k + j..];
  }

  /** A `*` before a `*` adds nothing. */
  lemma {:induction false} DoubleStar(p: string, t: string)
    requires p != [] && p[0] == '*'
    ensures Glob("*" + p, t) <==> Glob(p, t)
  {
    assert ("*" + p)[1..] == p;
    assert t[0..] == t;
    if Glob("*" + p, t) {
      var k :| 0 <= k <= |t| && Glob(p, t[k..]);
      StarAnywhere(p, t, k);
    }
  }

  lemma {:induction false} StarAcceptsAll(t: string)
    ensures Glob("*", t)
  {
    assert Glob([], t[|t|..]);
  }

  lemma {:induction false} PartAt(part: string, rest: string, t: string, k: nat)
    requires Plain(part) && k <= |t|
    ensures Glob(part + rest, t[k..]) <==> OccursAt(t, part, k) && Glob(rest, t[k + |part|..])
  {
    hide Glob;
    PlainPrefix(part, rest, t[k..]);
    if k + |part| <= |t| {
      assert t[k..][..|part|] == t[k..k + |part|];
      assert t[k..][|part|..] == t[k + |part|..];
    }
  }

  predicate PlacedAt(part: string, rest: string, t: string, k: int) {
    OccursAt(t, part, k) && Glob(rest, t[k + |part|..])
  }

  lemma {:induction false} StarPart(part: string, rest: string, t: string)
    requires Plain(part)
    ensures Glob("*" + part + rest, t) <==> exists k :: PlacedAt(part, rest, t, k)
  {
    var p := "*" + part + rest;
    assert p[1..] == part + rest;
    if Glob(p, t) {
      var k :| 0 <= k <= |t| && Glob(p[1..], t[k..]);
      PartAt(part, rest, t, k);
      assert PlacedAt(part, rest, t, k);
    }
    if k :| PlacedAt(part, rest, t, k) {
      PartAt(part, rest, t, k);
      assert Glob(p[1..], t[k..]);
    }
  }

  /** The exchange argument: behind a `*`, when another `*` follows, the first occurrence is as good as any. */
  lemma {:induction false} FirstOccurrenceSuffices(part: string, rest: string, t: string, found: nat)
    requires Plain(part) && rest != [] && rest[0] == '*'
    requires OccursAt(t, part, found) && forall k :: 0 <= k < found ==> !OccursAt(t, part, k)
    ensures Glob("*" + part + rest, t) <==> Glob(rest, t[found + |part|..])
  {
    hide Glob;
    StarPart(part, rest, t);
    assert PlacedAt(part, rest, t, found) <==> Glob(rest, t[found + |part|..]);
    if k :| PlacedAt(part, rest, t, k) {
      assert t[found + |part|..][k - found..] == t[k + |part|..];
      StarAnywhere(rest, t[found + |part|..], k - found);
    }
  }

  /** A last part behind a `*` and tied to the end matches exactly the suffixes. */
  lemma {:induction false} LastPart(part: string, t: string)
    requires Plain(part)
    ensures Glob("*" + part, t) <==> OccursAt(t, part, |t| - |part|)
  {
    StarPart(part, [], t);
    assert "*" + part + [] == "*" + part;
    assert PlacedAt(part, [], t, |t| - |part|) <==> OccursAt(t, part, |t| - |part|);
  }

  lemma {:induction false} TrailingStars(p: string, t: string)
    ensures Glob(p + "*" + "*", t) <==> Glob(p + "*", t)
    decreases |p|
  {
    if p == [] {
      assert p + "*" + "*" == "*" + "*" && p + "*" == "*";
      DoubleStar("*", t);
    } else {
      assert (p + "*" + "*")[1..] == p[1..] + "*" + "*" && (p + "*")[1..] == p[1..] + "*";
      forall k | 0 <= k <= |t| ensures Glob(p[1..] + "*" + "*", t[k..]) <==> Glob(p[1..] + "*", t[k..]) {
        TrailingStars(p[1..], t[k..]);
      }
    }
  }

  // ----- the matcher

  predicate EndsWithStar(body: string) {
    body != [] && body[|body| - 1] == '*'
  }

  /** What must still match once all parts are placed. */
  function Tail(pattern: string): string {
    if Anchored(pattern) && !EndsWithStar(Body(pattern)) then "" else "*"
  }

  lemma {:induction false} TailMeaning(pattern: string, target: string)
    ensures Matches(pattern, target) <==> Glob(Body(pattern) + Tail(pattern), target)
  {
    var body := Body(pattern);
    if Anchored(pattern) {
      if EndsWithStar(body) {
        var p := body[..|body| - 1];
        assert body == p + "*" && body + "*" == p + "*" + "*";
        TrailingStars(p, target);
      } else {
        assert body + "" == body;
      }
    }
  }

  /** What is still to be matched after `position`, with these parts left. */
  predicate Owed(parts: seq<string>, pattern: string, target: string, position: nat)
    requires position <= |target|
  {
    Glob(Stars(parts) + Tail(pattern), target[position..])
  }

  lemma StartOwed(pattern: string, target: string)
    ensures var parts, body := Split(Body(pattern)), Body(pattern);
            if body != [] && body[0] == '*' then Matches(pattern, target) <==> Owed(parts, pattern, target, 0)
            else Matches(pattern, target) <==> parts[0] <= target && Owed(parts[1..], pattern, target, |parts[0]|)
  {
    var parts, body, tail := Split(Body(pattern)), Body(pattern), Tail(pattern);
    SplitJoins(body);
    SplitEnds(body);
    TailMeaning(pattern, target);
    assert target[0..] == target;
    if body != [] && body[0] == '*' {
      assert Stars(parts) + tail == "*" + (body + tail);
      DoubleStar(body + tail, target);
    } else {
      assert body + tail == parts[0] + (Stars(parts[1..]) + tail);
      PlainPrefix(parts[0], Stars(parts[1..]) + tail, target);
    }
  }

  lemma {:induction false} StarsHead(parts: seq<string>, tail: string)
    requires parts != []
    ensures Stars(parts) + tail == "*" + parts[0] + (Stars(parts[1..]) + tail)
  {
  }

  lemma {:induction false} StarsStart(parts: seq<string>, tail: string)
    requires parts == [] ==> tail == "*"
    ensures (Stars(parts) + tail) != [] && (Stars(parts) + tail)[0] == '*'
  {
  }

  lemma OccursShift(t: string, part: string, position: nat, k: int)
    requires position <= |t|
    ensures OccursAt(t[position..], part, k) <==> k >= 0 && OccursAt(t, part, position + k)
  {
    if 0 <= k <= |t| - position - |part| {
      assert t[position..][k..k + |part|] == t[position + k..position + k + |part|];
    }
  }

  lemma SkipEmpty(parts: seq<string>, pattern: string, target: string, position: nat)
    requires position <= |target| && parts != [] && parts[0] == []
    requires |parts| == 1 ==> Tail(pattern) == "*"
    ensures Owed(parts, pattern, target, position) <==> Owed(parts[1..], pattern, target, position)
  {
    hide Glob, Split;
    var rest := Stars(parts[1..]) + Tail(pattern);
    StarsHead(parts, Tail(pattern));
    assert "*" + [] + rest == "*" + rest;
    StarsStart(parts[1..], Tail(pattern));
    DoubleStar(rest, target[position..]);
  }

  lemma PlaceFirst(parts: seq<string>, pattern: string, target: string, position: nat, found: int)
    requires position <= |target| && parts != [] && Plain(parts[0])
    requires |parts| == 1 ==> Tail(pattern) == "*"
    requires found < 0 ==> forall k :: position <= k ==> !OccursAt(target, parts[0], k)
    requires found >= 0 ==> position <= found && OccursAt(target, parts[0], found) &&
                            forall k :: position <= k < found ==> !OccursAt(target, parts[0], k)
    ensures Owed(parts, pattern, target, position) <==>
            found >= 0 && Owed(parts[1..], pattern, target, found + |parts[0]|)
  {
    hide Glob, Split, OccursAt, Stars, Plain;
    var part, rest, t := parts[0], Stars(parts[1..]) + Tail(pattern), target[position..];
    StarsHead(parts, Tail(pattern));
    StarsStart(parts[1..], Tail(pattern));
    forall k ensures OccursAt(t, part, k) <==> k >= 0 && OccursAt(target, part, position + k) {
      OccursShift(target, part, position, k);
    }
    if found >= 0 {
      FirstOccurrenceSuffices(part, rest, t, found - position);
      AfterOccurrence(target, part, position, found);
    } else {
      StarPart(part, rest, t);
    }
  }

  lemma AfterOccurrence(t: string, part: string, position: nat, found: nat)
    requires position <= found && OccursAt(t, part, found)
    ensures found + |part| <= |t| && t[position..][found - position + |part|..] == t[found + |part|..]
  {
  }

  lemma PlaceLast(parts: seq<string>, pattern: string, target: string, position: nat)
    requires position <= |target| && |parts| == 1 && Plain(parts[0]) && Tail(pattern) == ""
    ensures Owed(parts, pattern, target, position) <==>
            EndsWith(target, parts[0]) && |target| - |parts[0]| >= position
  {
    hide Glob, Split;
    var part, t := parts[0], target[position..];
    assert Stars(parts) + Tail(pattern) == "*" + part;
    LastPart(part, t);
    if |target| - |part| >= position {
      assert t[|t| - |part|..|t|] == target[|target| - |part|..];
    }
  }

  /** The parts the loop goes through. */
  lemma RemainingParts(pattern: string, partIndex: nat)
    requires if partIndex == 0 then Body(pattern) != [] && Body(pattern)[0] == '*' else partIndex == 1
    ensures var remaining := Split(Body(pattern))[partIndex..];
            && (forall i :: 0 <= i < |remaining| ==> Plain(remaining[i]))
            && (remaining != [] && remaining[|remaining| - 1] == [] ==> Tail(pattern) == "*")
  {
    SplitJoins(Body(pattern));
    SplitEnds(Body(pattern));
  }

  method PatternMatches(pattern: string, target: string) returns (matched: bool)
    ensures matched == Matches(pattern, target)
  {
    hide Glob, Split, Matches, Owed, OccursAt, EndsWith, Plain, Stars;
    var anchored := pattern != [] && pattern[|pattern| - 1] == '$';
    var body := if anchored then pattern[..|pattern| - 1] else pattern;
    var parts := Split(body);
    var position: nat := 0;
    var partIndex: nat := 0;
    StartOwed(pattern, target);
    if !(body != [] && body[0] == '*') {
      var first := parts[0];
      if !(first <= target) {
        return false;
      }
      position := |first|;
      partIndex := 1;
    }

    var remaining := parts[partIndex..];
    RemainingParts(pattern, partIndex);
    for index := 0 to |remaining|
      invariant position <= |target|
      invariant Owed(remaining[index..], pattern, target, position) == Matches(pattern, target)
    {
      var part := remaining[index];
      ghost var left := remaining[index..];
      assert left[0] == part && left[1..] == remaining[index + 1..] && |left| == |remaining| - index;
      if part == [] {
        SkipEmpty(left, pattern, target, position);
        continue;
      }
      var isLast := index == |remaining| - 1;
      if anchored && isLast && !EndsWithStar(body) {
        PlaceLast(left, pattern, target, position);
        if !EndsWith(target, part) {
          return false;
        }
        var last := RFind(target, part);
        return last >= position;
      }
      var found := Find(target, part, position);
      PlaceFirst(left, pattern, target, position, found);
      if found < 0 {
        return false;
      }
      position := found + |part|;
    }
    TailOwed(pattern, target, position);
    return !anchored || EndsWithStar(body) || position == |target|;
  }

  lemma TailOwed(pattern: string, target: string, position: nat)
    requires position <= |target|
    ensures Owed([], pattern, target, position) <==> Tail(pattern) == "*" || position == |target|
  {
    assert Stars([]) + Tail(pattern) == Tail(pattern);
    StarAcceptsAll(target[position..]);
  }
}
