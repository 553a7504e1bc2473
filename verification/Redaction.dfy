/** Removal of sensitive text from evidence payloads. */
module Redaction {
  import opened Contracts
  import opened Text

  const PLACEHOLDER: string := "[REDACTED]"

  const SENSITIVE_KEYS: set<string> :=
    {"password", "passwd", "secret", "token", "api_key", "authorization", "cookie", "set_cookie"}

  // ---- Text ------------------------------------------------------------------------

  /** Every non-overlapping occurrence of `v`, from the left, becomes `p`. */
  function Replace(s: string, v: string, p: string): string
    requires v != ""
  {
    var first := FindFrom(s, v, 0);
    if first.None? then s
    else s[..first.value] + p + Replace(s[first.value + |v|..], v, p)
  }

  function ReplaceAll(s: string, v: string): string
    requires v != ""
  {
    Replace(s, v, PLACEHOLDER)
  }

  /** One pass per value, in the given order. */
  function Redacted(s: string, order: seq<string>): string
    decreases order
  {
    if order == [] then s
    else Redacted(if order[0] == "" then s else ReplaceAll(s, order[0]), order[1..])
  }

  method RedactText(value: string, order: seq<string>) returns (redacted: string)
    ensures redacted == Redacted(value, order)
  {
    redacted := value;
    assert order[0..] == order;
    for i := 0 to |order|
      invariant Redacted(value, order) == Redacted(redacted, order[i..])
    {
      assert order[i..][0] == order[i] && order[i..][1..] == order[i + 1..];
      if order[i] != "" {
        redacted := ReplaceAll(redacted, order[i]);
      }
    }
  }

  /** The order in which a set of values is replaced: longer first, ties in any order. */
  ghost predicate LongestFirst(order: seq<string>) {
    forall i, j :: 0 <= i < j < |order| ==> |order[i]| >= |order[j]| && order[i] != order[j]
  }

  predicate NoBrackets(v: string) { '[' !in v && ']' !in v }

  ghost predicate Plain(order: seq<string>) {
    forall i :: 0 <= i < |order| ==> NoBrackets(order[i])
  }

  /** No non-empty value occurs in the text. */
  ghost predicate Free(s: string, order: seq<string>) {
    forall i :: 0 <= i < |order| && order[i] != "" ==> !Contains(s, order[i])
  }

  /** One of the two begins with the other. */
  predicate Comparable(a: string, b: string) { a <= b || b <= a }

  /** The last `k` characters of the placeholder are a proper beginning of the value. */
  predicate Continues(v: string, k: nat) {
    0 < k < |v| && k <= |PLACEHOLDER| && v[..k] == PLACEHOLDER[|PLACEHOLDER| - k..]
  }

  predicate ContinuesPlaceholder(v: string) {
    exists k: nat | k < |v| :: Continues(v, k)
  }

  /** From its `a`-th character on, the value and the placeholder begin alike. */
  predicate Reaches(v: string, a: nat) {
    0 < a < |v| && Comparable(v[a..], PLACEHOLDER)
  }

  /** It does, and the text before it can stand in front of the value without the value occurring earlier. */
  predicate Completes(v: string, a: nat) {
    Reaches(v, a) && FindFrom(v[..a] + v, v, 0) == Some(a)
  }

  /** An occurrence of the value can reach neither into nor across the edge of a placeholder. */
  predicate Untouched(v: string) {
    && !Contains(PLACEHOLDER, v) && !ContinuesPlaceholder(v)
    && forall a: nat | a < |v| :: !Reaches(v, a)
  }

  /**
   * Replacing the value never makes it occur again: where it could run into a placeholder, the text that would have
   * to precede its occurrence contained an earlier one, which was replaced instead.
   */
  predicate Harmless(v: string) {
    && !Contains(PLACEHOLDER, v) && !ContinuesPlaceholder(v)
    && forall a: nat | a < |v| :: !Completes(v, a)
  }

  lemma ContinuingTakesBracket(v: string, k: nat)
    requires Continues(v, k)
    ensures ']' in v
  {
    assert v[..k][k - 1] == PLACEHOLDER[|PLACEHOLDER| - k..][k - 1] == ']';
    assert v[k - 1] == ']';
  }

  lemma ReachingTakesBracket(v: string, a: nat)
    requires Reaches(v, a)
    ensures '[' in v
  {
    assert v[a..][0] == PLACEHOLDER[0] == '[';
    assert v[a] == '[';
  }

  /** Values without brackets cannot reach a placeholder's edge, so they need only not occur inside it. */
  lemma PlainIsUntouched(v: string)
    requires NoBrackets(v) && !Contains(PLACEHOLDER, v)
    ensures Untouched(v)
  {
    forall k: nat | k < |v|
      ensures Continues(v, k) ==> ']' in v
    {
      if Continues(v, k) {
        ContinuingTakesBracket(v, k);
      }
    }
    forall a: nat | a < |v|
      ensures Reaches(v, a) ==> '[' in v
    {
      if Reaches(v, a) {
        ReachingTakesBracket(v, a);
      }
    }
  }

  /** How an occurrence around a placeholder can lie: before it, inside it, from inside out, from outside in, after it. */
  lemma OccurrenceAround(pre: string, post: string, u: string, i: nat)
    requires OccursAt(pre + PLACEHOLDER + post, u, i) && u != ""
    ensures
      || OccursAt(pre, u, i) || Contains(PLACEHOLDER, u) || ContinuesPlaceholder(u)
      || (i >= |pre| + |PLACEHOLDER| && OccursAt(post, u, i - |pre| - |PLACEHOLDER|))
      || (i < |pre| && Reaches(u, |pre| - i) && u[..|pre| - i] == pre[i..])
  {
    var edge, end := |pre|, |pre| + |PLACEHOLDER|;
    Parts(pre, PLACEHOLDER, post, u, i);
    if i < edge < i + |u| {
      RunsIn(pre, PLACEHOLDER, post, u, i);
    } else if edge <= i < end < i + |u| {
      RunsOut(pre, PLACEHOLDER, post, u, i);
      assert Continues(u, end - i);
    }
  }

  /** An occurrence that crosses neither edge is one in a part. */
  lemma Parts(pre: string, p: string, post: string, u: string, i: nat)
    requires OccursAt(pre + p + post, u, i)
    ensures i + |u| <= |pre| ==> OccursAt(pre, u, i)
    ensures |pre| <= i && i + |u| <= |pre| + |p| ==> OccursAt(p, u, i - |pre|) && Contains(p, u)
    ensures |pre| + |p| <= i ==> OccursAt(post, u, i - |pre| - |p|)
  {
    var s := pre + p + post;
    assert forall j :: 0 <= j < |u| ==> u[j] == s[i..i + |u|][j] == s[i + j];
    if i + |u| <= |pre| {
      assert pre[i..i + |u|] == u;
    }
    if |pre| <= i && i + |u| <= |pre| + |p| {
      assert p[i - |pre|..i - |pre| + |u|] == u;
      assert OccursAt(p, u, i - |pre|);
    }
    if |pre| + |p| <= i {
      assert post[i - |pre| - |p|..i - |pre| - |p| + |u|] == u;
    }
  }

  lemma RunsIn(pre: string, p: string, post: string, u: string, i: nat)
    requires OccursAt(pre + p + post, u, i) && i < |pre| < i + |u|
    ensures u[..|pre| - i] == pre[i..] && Comparable(u[|pre| - i..], p)
  {
    var s, a := pre + p + post, |pre| - i;
    assert forall j :: 0 <= j < |u| ==> u[j] == s[i..i + |u|][j] == s[i + j];
    assert u[..a] == pre[i..];
    var y := u[a..];
    assert forall j :: 0 <= j < |y| && j < |p| ==> y[j] == p[j];
    if |y| <= |p| {
      assert y == p[..|y|];
    } else {
      assert y[..|p|] == p;
    }
  }

  lemma RunsOut(pre: string, p: string, post: string, u: string, i: nat)
    requires OccursAt(pre + p + post, u, i) && |pre| <= i < |pre| + |p| < i + |u|
    ensures var k := |pre| + |p| - i; 0 < k < |u| && k <= |p| && u[..k] == p[|p| - k..]
  {
    var s, k := pre + p + post, |pre| + |p| - i;
    assert forall j :: 0 <= j < |u| ==> u[j] == s[i..i + |u|][j] == s[i + j];
    assert u[..k] == p[|p| - k..];
  }

  /** Putting a placeholder between two clean texts keeps them clean. */
  lemma JoinIsClean(pre: string, post: string, u: string)
    requires u != "" && Untouched(u) && !Contains(pre, u) && !Contains(post, u)
    ensures !Contains(pre + PLACEHOLDER + post, u)
  {
    var joined := pre + PLACEHOLDER + post;
    if Contains(joined, u) {
      var i: nat :| i <= |joined| && OccursAt(joined, u, i);
      OccurrenceAround(pre, post, u, i);
    }
  }

  /** The text around the first occurrence of `v`. */
  ghost predicate FirstCut(s: string, v: string, pre: string, rest: string) {
    FindFrom(s, v, 0) == Some(|pre|) && s == pre + v + rest
  }

  ghost predicate Lacks(s: string, v: string) { FindFrom(s, v, 0).None? }

  lemma UnfoldReplace(s: string, v: string, p: string) returns (pre: string, rest: string)
    requires v != ""
    ensures Lacks(s, v) ==> Replace(s, v, p) == s
    ensures !Lacks(s, v) ==> FirstCut(s, v, pre, rest) && |rest| < |s| && Replace(s, v, p) == pre + p + Replace(rest, v, p)
  {
    var first := FindFrom(s, v, 0);
    pre, rest := s, "";
    if first.Some? {
      pre, rest := s[..first.value], s[first.value + |v|..];
      assert s == pre + s[first.value..first.value + |v|] + rest;
    }
  }

  /** The parts with a separator between each two. */
  function Joined(parts: seq<string>, separator: string): string
    requires parts != []
  {
    if |parts| == 1 then parts[0] else parts[0] + separator + Joined(parts[1..], separator)
  }

  /** The parts of a text between the occurrences of a value, found from the left without overlap. */
  ghost predicate PartedBy(parts: seq<string>, v: string) {
    && parts != [] && Lacks(parts[|parts| - 1], v)
    && forall k :: 0 <= k < |parts| - 1 ==> FindFrom(parts[k] + v, v, 0) == Some(|parts[k]|)
  }

  /** Replacement keeps the parts and changes what stands between them. */
  lemma {:induction false} ReplaceMeans(s: string, v: string, p: string) returns (parts: seq<string>)
    requires v != ""
    ensures PartedBy(parts, v) && s == Joined(parts, v) && Replace(s, v, p) == Joined(parts, p)
    decreases |s|
  {
    var pre, rest := UnfoldReplace(s, v, p);
    if Lacks(s, v) {
      parts := [s];
    } else {
      var more := ReplaceMeans(rest, v, p);
      parts := [pre] + more;
      FirstWithout(pre, v, rest);
      assert parts[1..] == more;
    }
  }

  /** The first occurrence of the value in a text is the first in the part of it that ends there. */
  lemma FirstWithout(pre: string, v: string, rest: string)
    requires FindFrom(pre + v + rest, v, 0) == Some(|pre|)
    ensures FindFrom(pre + v, v, 0) == Some(|pre|)
  {
    OccursBehind(pre, v);
    var b := FindFrom(pre + v, v, 0).value;
    assert (pre + v + rest)[b..b + |v|] == (pre + v)[b..b + |v|];
    assert OccursAt(pre + v + rest, v, b);
  }

  /** What `free` claims of texts without the value, and keeps when one occurrence is replaced, it claims of the replacement. */
  lemma {:induction false} ReplaceInduction(v: string, p: string, ok: string -> bool, free: string -> bool, s: string)
    requires v != "" && ok(s) && ReplacingFrees(v, p, ok, free)
    ensures free(Replace(s, v, p))
    decreases |s|
  {
    var pre, rest := UnfoldReplace(s, v, p);
    if !Lacks(s, v) {
      ReplaceInduction(v, p, ok, free, rest);
    }
  }

  ghost predicate ReplacingFrees(v: string, p: string, ok: string -> bool, free: string -> bool) {
    && (forall t :: ok(t) && Lacks(t, v) ==> free(t))
    && (forall t, pre, rest {:trigger FirstCut(t, v, pre, rest)} :: ok(t) && FirstCut(t, v, pre, rest) ==> ok(rest))
    && (forall t, pre, rest, after {:trigger FirstCut(t, v, pre, rest), free(after)} :: ok(t) && FirstCut(t, v, pre, rest) && free(after) ==> free(pre + p + after))
  }

  /** A replacement removes its value and brings back no other. */
  lemma ReplacementIsClean(s: string, v: string, u: string)
    requires v != "" && u != "" && Untouched(u)
    requires u == v || !Contains(s, u)
    ensures !Contains(ReplaceAll(s, v), u)
  {
    var ok, free := t => u == v || !Contains(t, u), t => !Contains(t, u);
    forall t, pre, rest {:trigger FirstCut(t, v, pre, rest)} | ok(t) && FirstCut(t, v, pre, rest)
      ensures ok(rest)
    {
      if u != v {
        TextAfterIsClean(pre + v, rest, u);
      }
    }
    forall t, pre, rest, after {:trigger FirstCut(t, v, pre, rest), free(after)} | ok(t) && FirstCut(t, v, pre, rest) && free(after)
      ensures free(pre + PLACEHOLDER + after)
    {
      TextBeforeIsClean(pre, v, rest, u);
      JoinIsClean(pre, after, u);
    }
    ReplaceInduction(v, PLACEHOLDER, ok, free, s);
  }

  lemma TextAfterIsClean(front: string, rest: string, u: string)
    requires !Contains(front + rest, u)
    ensures !Contains(rest, u)
  {
    forall i: nat | i <= |rest| && OccursAt(rest, u, i)
      ensures false
    {
      OccursLater(front, rest, u, i);
    }
  }

  lemma OccursLater(front: string, rest: string, u: string, i: nat)
    requires OccursAt(rest, u, i)
    ensures OccursAt(front + rest, u, |front| + i) && Contains(front + rest, u)
  {
    var whole, at := front + rest, |front| + i;
    assert whole[at..at + |u|] == rest[i..i + |u|];
    assert OccursAt(whole, u, at);
  }

  lemma TextBeforeIsClean(pre: string, v: string, rest: string, u: string)
    requires v != "" && (u == v || !Contains(pre + v + rest, u))
    requires FindFrom(pre + v + rest, v, 0) == Some(|pre|)
    ensures !Contains(pre, u)
  {
    forall i: nat | i <= |pre| && OccursAt(pre, u, i)
      ensures false
    {
      OccursFurther(pre, v, rest, u, i);
    }
  }

  lemma OccursFurther(pre: string, v: string, rest: string, u: string, i: nat)
    requires OccursAt(pre, u, i)
    ensures OccursAt(pre + v + rest, u, i) && Contains(pre + v + rest, u)
  {
    assert (pre + v + rest)[i..i + |u|] == pre[i..i + |u|];
    assert OccursAt(pre + v + rest, u, i);
  }

  lemma {:induction false} RedactedStaysFree(s: string, order: seq<string>, u: string)
    requires u != "" && Untouched(u) && (u in order || !Contains(s, u))
    ensures !Contains(Redacted(s, order), u)
    decreases order
  {
    if order != [] {
      if order[0] != "" && (u == order[0] || !Contains(s, u)) {
        ReplacementIsClean(s, order[0], u);
      }
      assert order == [order[0]] + order[1..];
      RedactedStaysFree(if order[0] == "" then s else ReplaceAll(s, order[0]), order[1..], u);
    }
  }

  /** Redaction leaves no value in any text. */
  ghost predicate Cleans(order: seq<string>) {
    forall s :: Free(Redacted(s, order), order)
  }

  // ---- One value, exactly ---------------------------------------------------------------

  /** A harmless value does not occur where it was replaced. */
  lemma HarmlessIsGone(s: string, v: string)
    requires v != "" && Harmless(v)
    ensures !Contains(ReplaceAll(s, v), v)
  {
    var ok, free := (t: string) => true, t => !Contains(t, v);
    forall t, pre, rest, after {:trigger FirstCut(t, v, pre, rest), free(after)} | FirstCut(t, v, pre, rest) && free(after)
      ensures free(pre + PLACEHOLDER + after)
    {
      HarmlessJoin(pre, v, rest, after);
    }
    ReplaceInduction(v, PLACEHOLDER, ok, free, s);
  }

  lemma HarmlessJoin(pre: string, v: string, rest: string, post: string)
    requires v != "" && Harmless(v) && FindFrom(pre + v + rest, v, 0) == Some(|pre|) && !Contains(post, v)
    ensures !Contains(pre + PLACEHOLDER + post, v)
  {
    TextBeforeIsClean(pre, v, rest, v);
    forall i: nat | i <= |pre + PLACEHOLDER + post| && OccursAt(pre + PLACEHOLDER + post, v, i)
      ensures false
    {
      OccurrenceAround(pre, post, v, i);
      NothingRunsIn(pre, v, rest, i);
    }
  }

  /** Text that runs from before the first occurrence into its placeholder completes the value. */
  lemma NothingRunsIn(pre: string, v: string, rest: string, i: nat)
    requires FindFrom(pre + v + rest, v, 0) == Some(|pre|)
    ensures i < |pre| && Reaches(v, |pre| - i) && v[..|pre| - i] == pre[i..] ==> Completes(v, |pre| - i)
  {
    if i < |pre| {
      FirstStaysFirst(pre, v, rest, i);
    }
  }

  /** What is first in a text is first in the part of it that ends there. */
  lemma FirstStaysFirst(pre: string, v: string, rest: string, i: nat)
    requires i < |pre| && FindFrom(pre + v + rest, v, 0) == Some(|pre|)
    ensures FindFrom(pre[i..] + v, v, 0) == Some(|pre| - i)
  {
    OccursBehind(pre[i..], v);
    var b := FindFrom(pre[i..] + v, v, 0).value;
    OccursInWhole(pre, v, rest, i, b);
  }

  lemma OccursInWhole(pre: string, v: string, rest: string, i: nat, b: nat)
    requires i <= |pre| && OccursAt(pre[i..] + v, v, b)
    ensures OccursAt(pre + v + rest, v, i + b)
  {
    var part, whole, at := pre[i..] + v, pre + v + rest, i + b;
    assert forall j :: 0 <= j < |part| ==> part[j] == whole[i + j];
    assert whole[at..at + |v|] == part[b..b + |v|];
  }

  /** A text whose redaction shows the value again, for each way of not being harmless. */
  lemma HarmfulReturns(v: string) returns (s: string)
    requires v != "" && !Harmless(v)
    ensures Contains(ReplaceAll(s, v), v)
  {
    if Contains(PLACEHOLDER, v) {
      s := ReturnsAlone(v);
    } else if ContinuesPlaceholder(v) {
      var k: nat :| k < |v| && Continues(v, k);
      s := ReturnsAfter(v, k);
    } else {
      var a: nat :| a < |v| && Completes(v, a);
      s := ReturnsBefore(v, a);
    }
  }

  lemma ReturnsAlone(v: string) returns (s: string)
    requires v != "" && Contains(PLACEHOLDER, v)
    ensures Contains(ReplaceAll(s, v), v)
  {
    s := v;
    AloneIsReplaced(v);
  }

  lemma AloneIsReplaced(v: string)
    requires v != ""
    ensures ReplaceAll(v, v) == PLACEHOLDER
  {
    BeginningIsReplaced(v, "");
    assert v + "" == v && PLACEHOLDER + "" == PLACEHOLDER;
  }

  lemma ReturnsAfter(v: string, k: nat) returns (s: string)
    requires Continues(v, k)
    ensures Contains(ReplaceAll(s, v), v)
  {
    var at := |PLACEHOLDER| - k;
    assert PLACEHOLDER == PLACEHOLDER[..at] + PLACEHOLDER[at..] && v == v[..k] + v[k..];
    s := ReturnsBehind(PLACEHOLDER[..at], v[..k], v[k..]);
  }

  lemma ReturnsBefore(v: string, a: nat) returns (s: string)
    requires Completes(v, a)
    ensures Contains(ReplaceAll(s, v), v)
  {
    var x, y := v[..a], v[a..];
    assert v == x + y;
    if y <= PLACEHOLDER {
      assert PLACEHOLDER == y + PLACEHOLDER[|y|..];
      s := ReturnsInside(x, y, PLACEHOLDER[|y|..]);
    } else {
      assert y == PLACEHOLDER + y[|PLACEHOLDER|..];
      s := ReturnsAcross(x, y, y[|PLACEHOLDER|..]);
    }
  }

  /** The value `x + y`, where the placeholder ends in `x`. */
  lemma ReturnsBehind(open: string, x: string, y: string) returns (s: string)
    requires PLACEHOLDER == open + x && x != ""
    ensures Contains(ReplaceAll(s, x + y), x + y)
  {
    s := (x + y) + y;
    BeginningIsReplaced(x + y, y);
    assert PLACEHOLDER + y == open + (x + y);
    OccursBehind(open, x + y);
  }

  lemma BeginningIsReplaced(v: string, rest: string)
    requires |rest| < |v|
    ensures ReplaceAll(v + rest, v) == PLACEHOLDER + rest
  {
    assert "" + v == v && OccursAt(v, v, 0);
    ReplacedOnce("", v, rest);
    assert "" + v + rest == v + rest && "" + PLACEHOLDER + rest == PLACEHOLDER + rest;
  }

  /** The value `x + y`, where the placeholder begins with `y`. */
  lemma ReturnsInside(x: string, y: string, more: string) returns (s: string)
    requires x != "" && PLACEHOLDER == y + more && FindFrom(x + (x + y), x + y, 0) == Some(|x|)
    ensures Contains(ReplaceAll(s, x + y), x + y)
  {
    var v := x + y;
    s := x + v + "";
    ReplacedOnce(x, v, "");
    Regrouped(x, y, more, PLACEHOLDER);
    OccursBefore(v, more);
  }

  /** The value `x + y`, where `y` begins with the placeholder. */
  lemma ReturnsAcross(x: string, y: string, z: string) returns (s: string)
    requires x != "" && y == PLACEHOLDER + z && FindFrom(x + (x + y), x + y, 0) == Some(|x|)
    ensures Contains(ReplaceAll(s, x + y), x + y)
  {
    var v := x + y;
    s := x + v + z;
    ReplacedOnce(x, v, z);
    RegroupedBehind(x, y, z, PLACEHOLDER);
    OccursBefore(v, "");
  }

  lemma Regrouped(x: string, y: string, more: string, p: string)
    requires p == y + more
    ensures x + p + "" == (x + y) + more
  {
  }

  lemma RegroupedBehind(x: string, y: string, z: string, p: string)
    requires y == p + z
    ensures x + p + z == (x + y) + ""
  {
  }

  lemma OccursBehind(x: string, v: string)
    ensures OccursAt(x + v, v, |x|) && Contains(x + v, v)
  {
    assert OccursAt(x + v, v, |x|);
  }

  lemma OccursBefore(v: string, z: string)
    ensures OccursAt(v + z, v, 0) && Contains(v + z, v)
  {
    assert OccursAt(v + z, v, 0);
  }

  /** A value whose first occurrence comes after `pre`, with a rest too short for another, is replaced once. */
  lemma ReplacedOnce(pre: string, v: string, rest: string)
    requires v != "" && |rest| < |v| && FindFrom(pre + v, v, 0) == Some(|pre|)
    ensures ReplaceAll(pre + v + rest, v) == pre + PLACEHOLDER + rest
  {
    FirstIsBehind(pre, v, rest);
    var x, y := UnfoldReplace(pre + v + rest, v, PLACEHOLDER);
    SameCut(pre, x, v, rest, y);
    ShortIsKept(rest, v);
  }

  lemma FirstIsBehind(pre: string, v: string, rest: string)
    requires FindFrom(pre + v, v, 0) == Some(|pre|)
    ensures FindFrom(pre + v + rest, v, 0) == Some(|pre|)
  {
    var s := pre + v + rest;
    assert s[|pre|..|pre| + |v|] == v && OccursAt(s, v, |pre|);
    var first := FindFrom(s, v, 0).value;
    if first < |pre| {
      assert (pre + v)[first..first + |v|] == s[first..first + |v|];
      assert OccursAt(pre + v, v, first);
    }
  }

  lemma SameCut(pre: string, x: string, v: string, rest: string, y: string)
    requires pre + v + rest == x + v + y && |pre| == |x|
    ensures pre == x && rest == y
  {
    assert pre == (pre + v + rest)[..|pre|] && x == (x + v + y)[..|x|];
    assert rest == (pre + v + rest)[|pre| + |v|..] && y == (x + v + y)[|x| + |v|..];
  }

  lemma ShortIsKept(rest: string, v: string)
    requires v != "" && |rest| < |v|
    ensures Replace(rest, v, PLACEHOLDER) == rest
  {
    assert FindFrom(rest, v, 0).None?;
  }

  /** One value is removed from every text exactly when it is harmless. */
  lemma OneValueExactly(v: string)
    requires v != ""
    ensures Cleans([v]) <==> Harmless(v)
  {
    forall s
      ensures Redacted(s, [v]) == ReplaceAll(s, v)
    {
      assert [v][1..] == [];
    }
    if Harmless(v) {
      forall s
        ensures Free(Redacted(s, [v]), [v])
      {
        HarmlessIsGone(s, v);
      }
    } else {
      var s := HarmfulReturns(v);
      assert [v][0] == v && !Free(Redacted(s, [v]), [v]);
    }
  }

  // ---- Any order of values --------------------------------------------------------------

  /** Every value is untouched by placeholders, except that the last to be replaced may be only harmless. */
  ghost predicate Settled(order: seq<string>) {
    forall i :: 0 <= i < |order| && order[i] != "" ==>
      Untouched(order[i]) || (Harmless(order[i]) && forall j :: i < j < |order| ==> order[j] == "")
  }

  lemma {:induction false} LastIsGone(s: string, order: seq<string>, i: nat)
    requires i < |order| && order[i] != "" && Harmless(order[i])
    requires forall j :: i < j < |order| ==> order[j] == ""
    ensures !Contains(Redacted(s, order), order[i])
    decreases order
  {
    var passed := if order[0] == "" then s else ReplaceAll(s, order[0]);
    if i == 0 {
      HarmlessIsGone(s, order[0]);
      assert Free(passed, order[1..]);
      NothingToRedact(passed, order[1..]);
    } else {
      assert forall j :: i - 1 < j < |order[1..]| ==> order[1..][j] == order[j + 1];
      LastIsGone(passed, order[1..], i - 1);
    }
  }

  /** Settled values are removed from every text, for any number of them, in whatever order. */
  lemma SettledIsComplete(order: seq<string>)
    requires Settled(order)
    ensures Cleans(order)
  {
    forall s, i | 0 <= i < |order| && order[i] != ""
      ensures !Contains(Redacted(s, order), order[i])
    {
      if Untouched(order[i]) {
        RedactedStaysFree(s, order, order[i]);
      } else {
        LastIsGone(s, order, i);
      }
    }
  }

  /** Values without brackets are removed from every text exactly when none occurs in the placeholder. */
  lemma RedactionIsComplete(order: seq<string>)
    requires LongestFirst(order) && Plain(order)
    ensures Cleans(order) <==> Free(PLACEHOLDER, order)
  {
    if Free(PLACEHOLDER, order) {
      forall i | 0 <= i < |order| && order[i] != ""
        ensures Untouched(order[i])
      {
        PlainIsUntouched(order[i]);
      }
      SettledIsComplete(order);
    } else {
      var k := LastInPlaceholder(order);
      ValueSurvives(order, k);
      assert !Free(Redacted(order[k], order), order);
    }
  }

  lemma {:induction false} LastInPlaceholder(order: seq<string>) returns (k: nat)
    requires !Free(PLACEHOLDER, order)
    ensures k < |order| && order[k] != "" && Contains(PLACEHOLDER, order[k])
    ensures Free(PLACEHOLDER, order[k + 1..])
  {
    k := |order| - 1;
    while order[k] == "" || !Contains(PLACEHOLDER, order[k])
      invariant k < |order| && Free(PLACEHOLDER, order[k + 1..])
      decreases k
    {
      assert order[k..] == [order[k]] + order[k + 1..];
      assert Free(PLACEHOLDER, order[k..]) && order[0..] == order;
      if k == 0 {
        assert false;
      }
      k := k - 1;
    }
  }

  lemma {:induction false} NothingToRedact(s: string, order: seq<string>)
    requires Free(s, order)
    ensures Redacted(s, order) == s
  {
    if order != [] {
      if order[0] != "" && FindFrom(s, order[0], 0).Some? {
        assert Contains(s, order[0]);
      }
      assert order == [order[0]] + order[1..];
      NothingToRedact(s, order[1..]);
    }
  }

  /** The last value that occurs in the placeholder survives as part of it. */
  lemma {:induction false} ValueSurvives(order: seq<string>, k: nat)
    requires LongestFirst(order) && k < |order| && order[k] != "" && Contains(PLACEHOLDER, order[k])
    requires Free(PLACEHOLDER, order[k + 1..])
    ensures Redacted(order[k], order) == PLACEHOLDER
  {
    var v := order[k];
    if k == 0 {
      AloneIsReplaced(v);
      NothingToRedact(PLACEHOLDER, order[1..]);
    } else {
      var u := order[0];
      assert |u| >= |v| && u != v;
      assert FindFrom(v, u, 0).None?;
      assert order[1..][k - 1..][1..] == order[k + 1..];
      assert order[1..][k - 1 + 1..] == order[k + 1..];
      ValueSurvives(order[1..], k - 1);
    }
  }

  /** Being free of the placeholder is not enough: a replacement can complete a new occurrence, but only of some values. */
  lemma BracketsBreakRedaction()
    ensures !Harmless("]x") && Harmless("[x")
    ensures Free(PLACEHOLDER, ["]x"]) && LongestFirst(["]x"])
    ensures !Free(Redacted("]xx", ["]x"]), ["]x"])
  {
    assert "]x"[..1] == PLACEHOLDER[|PLACEHOLDER| - 1..];
    assert Continues("]x", 1);
    OpeningIsHarmless();
    ClosingIsNotInside();
    ClosingReturns();
  }

  lemma ClosingReturns()
    ensures Contains(Redacted("]xx", ["]x"]), "]x")
  {
    var v := "]x";
    assert "]xx" == v + "x";
    BeginningIsReplaced(v, "x");
    var left := PLACEHOLDER + "x";
    assert Redacted("]xx", [v]) == left by {
      assert [v][1..] == [];
    }
    assert left[|PLACEHOLDER| - 1..|PLACEHOLDER| + 1] == v && OccursAt(left, v, |PLACEHOLDER| - 1);
  }

  lemma ClosingIsNotInside()
    ensures !Contains(PLACEHOLDER, "]x")
  {
    forall i: nat | i + 2 <= |PLACEHOLDER|
      ensures !OccursAt(PLACEHOLDER, "]x", i)
    {
      assert PLACEHOLDER[i..i + 2][0] == PLACEHOLDER[i] != "]x"[0];
    }
  }

  lemma OpeningIsHarmless()
    ensures Harmless("[x")
  {
    forall i: nat | i + 2 <= |PLACEHOLDER|
      ensures !OccursAt(PLACEHOLDER, "[x", i)
    {
      assert PLACEHOLDER[i..i + 2][1] == PLACEHOLDER[i + 1] != "[x"[1];
    }
    forall k: nat | k < 2
      ensures !Continues("[x", k) && !Completes("[x", k)
    {
      if k == 1 {
        assert "[x"[..1][0] != PLACEHOLDER[|PLACEHOLDER| - 1..][0];
        assert "[x"[1..][0] != PLACEHOLDER[0];
      }
    }
  }

  // ---- Payloads ----------------------------------------------------------------------

  datatype Key = StringKey(name: string) | OtherKey

  datatype Entry = Entry(key: Key, item: Payload)

  /** A stamp is a UUID, date or time, which is written as its text without being searched. */
  datatype Payload =
    | Secret(hidden: string) | Scalar(number: int) | Words(text: string) | Stamp(iso: string)
    | List(items: seq<Payload>) | Dict(entries: seq<Entry>) | Unsupported

  function Lower(s: string): string {
    seq(|s|, i requires 0 <= i < |s| => if 'A' <= s[i] <= 'Z' then s[i] - 'A' + 'a' else s[i])
  }

  predicate IsSensitive(key: string) { Lower(key) in SENSITIVE_KEYS }

  /** The texts differ in the case of letters only. */
  predicate SameLetters(a: string, b: string) {
    |a| == |b| && forall i :: 0 <= i < |a| ==>
      a[i] == b[i] || ('A' <= a[i] <= 'Z' && b[i] == a[i] - 'A' + 'a') || ('A' <= b[i] <= 'Z' && a[i] == b[i] - 'A' + 'a')
  }

  /** A key is sensitive in whatever case it is written. */
  lemma CaseDoesNotMatter(a: string, b: string)
    requires SameLetters(a, b)
    ensures IsSensitive(a) <==> IsSensitive(b)
    ensures a in {"password", "passwd", "secret", "token", "api_key", "authorization", "cookie", "set_cookie"} ==> IsSensitive(b)
  {
    assert Lower(a) == Lower(b);
    if a in SENSITIVE_KEYS {
      LowerKeeps(a);
    }
  }

  lemma LowerKeeps(a: string)
    requires a in SENSITIVE_KEYS
    ensures Lower(a) == a
  {
    forall i | 0 <= i < |a|
      ensures !('A' <= a[i] <= 'Z')
    {
    }
  }

  /** The sanitized payload, or None where the source raises a type error. */
  function RedactValue(p: Payload, order: seq<string>): Option<Payload>
    decreases p, 1
  {
    match p
    case Secret(_) => Some(Words(PLACEHOLDER))
    case Scalar(_) => Some(p)
    case Words(text) => Some(Words(Redacted(text, order)))
    case Stamp(iso) => Some(Words(iso))
    case List(items) =>
      var r := RedactItems(items, order);
      if r.None? then None else Some(List(r.value))
    case Dict(entries) =>
      var r := RedactEntries(entries, order);
      if r.None? then None else Some(Dict(r.value))
    case Unsupported => None
  }

  function RedactItems(items: seq<Payload>, order: seq<string>): Option<seq<Payload>>
    decreases items, 0
  {
    if items == [] then Some([])
    else
      var first, rest := RedactValue(items[0], order), RedactItems(items[1..], order);
      if first.None? || rest.None? then None else Some([first.value] + rest.value)
  }

  function RedactEntry(e: Entry, order: seq<string>): Option<Entry>
    decreases e, 2
  {
    if e.key.OtherKey? then None
    else if IsSensitive(e.key.name) then Some(Entry(e.key, Words(PLACEHOLDER)))
    else
      var item := RedactValue(e.item, order);
      if item.None? then None else Some(Entry(e.key, item.value))
  }

  function RedactEntries(entries: seq<Entry>, order: seq<string>): Option<seq<Entry>>
    decreases entries, 0
  {
    if entries == [] then Some([])
    else
      var first, rest := RedactEntry(entries[0], order), RedactEntries(entries[1..], order);
      if first.None? || rest.None? then None else Some([first.value] + rest.value)
  }

  /** No string leaf contains a value. */
  ghost predicate LeavesFree(p: Payload, order: seq<string>) {
    match p
    case Secret(text) => Free(text, order)
    case Words(text) => Free(text, order)
    case Stamp(iso) => Free(iso, order)
    case List(items) => forall i :: 0 <= i < |items| ==> LeavesFree(items[i], order)
    case Dict(entries) => forall i :: 0 <= i < |entries| ==> LeavesFree(entries[i].item, order)
    case _ => true
  }

  /** The stamps a payload writes contain no value. */
  ghost predicate StampsFree(p: Payload, order: seq<string>) {
    match p
    case Stamp(iso) => Free(iso, order)
    case List(items) => forall i :: 0 <= i < |items| ==> StampsFree(items[i], order)
    case Dict(entries) => forall i :: 0 <= i < |entries| ==>
      (entries[i].key.StringKey? && IsSensitive(entries[i].key.name)) || StampsFree(entries[i].item, order)
    case _ => true
  }

  /** Same nesting, same keys; what is hidden is the placeholder, and a text without a value is kept. */
  ghost predicate Corresponds(p: Payload, q: Payload, order: seq<string>) {
    match p
    case Secret(_) => q == Words(PLACEHOLDER)
    case Scalar(_) => q == p
    case Words(text) => q.Words? && (Free(text, order) ==> q.text == text)
    case Stamp(iso) => q == Words(iso)
    case List(items) =>
      q.List? && |q.items| == |items| && forall i :: 0 <= i < |items| ==> Corresponds(items[i], q.items[i], order)
    case Dict(entries) => q.Dict? && |q.entries| == |entries| && forall i :: 0 <= i < |entries| ==>
      && q.entries[i].key == entries[i].key && entries[i].key.StringKey?
      && if IsSensitive(entries[i].key.name) then q.entries[i].item == Words(PLACEHOLDER)
         else Corresponds(entries[i].item, q.entries[i].item, order)
    case Unsupported => false
  }

  /** Nothing unsupported and no key but strings, except under a sensitive key. */
  predicate Supported(p: Payload) {
    match p
    case List(items) => forall i :: 0 <= i < |items| ==> Supported(items[i])
    case Dict(entries) => forall i :: 0 <= i < |entries| ==>
      entries[i].key.StringKey? && (IsSensitive(entries[i].key.name) || Supported(entries[i].item))
    case Unsupported => false
    case _ => true
  }

  /** A payload is sanitized at all exactly when it is supported. */
  lemma {:induction false} SupportedExactly(p: Payload, order: seq<string>)
    ensures RedactValue(p, order).Some? <==> Supported(p)
    decreases p, 1
  {
    match p
    case List(items) => ItemsSupported(items, order);
    case Dict(entries) => EntriesSupported(entries, order);
    case _ =>
  }

  lemma {:induction false} ItemsSupported(items: seq<Payload>, order: seq<string>)
    ensures RedactItems(items, order).Some? <==> forall i :: 0 <= i < |items| ==> Supported(items[i])
    decreases items, 0
  {
    if items != [] {
      SupportedExactly(items[0], order);
      ItemsSupported(items[1..], order);
      assert items == [items[0]] + items[1..];
    }
  }

  lemma {:induction false} EntriesSupported(entries: seq<Entry>, order: seq<string>)
    ensures RedactEntries(entries, order).Some? <==> forall i :: 0 <= i < |entries| ==> EntrySupported(entries[i])
    decreases entries, 0
  {
    if entries != [] {
      EntrySupportedExactly(entries[0], order);
      EntriesSupported(entries[1..], order);
      assert entries == [entries[0]] + entries[1..];
    }
  }

  lemma {:induction false} EntrySupportedExactly(e: Entry, order: seq<string>)
    ensures RedactEntry(e, order).Some? <==> EntrySupported(e)
    decreases e, 2
  {
    if e.key.StringKey? && !IsSensitive(e.key.name) {
      SupportedExactly(e.item, order);
    }
  }

  predicate EntrySupported(e: Entry) {
    e.key.StringKey? && (IsSensitive(e.key.name) || Supported(e.item))
  }

  /** What comes out corresponds to the payload, and is clean exactly when the stamps it writes are. */
  ghost predicate ComesOut(p: Payload, q: Payload, order: seq<string>) {
    Corresponds(p, q, order) && (LeavesFree(q, order) <==> StampsFree(p, order))
  }

  /** The sanitized payload has the shape and keys of the payload, and is clean exactly when its stamps are. */
  lemma {:induction false} PayloadRedaction(p: Payload, order: seq<string>)
    requires Cleans(order) && Free(PLACEHOLDER, order) && RedactValue(p, order).Some?
    ensures ComesOut(p, RedactValue(p, order).value, order)
    decreases p, 1
  {
    match p
    case Words(text) =>
      assert Free(Redacted(text, order), order);
      if Free(text, order) {
        NothingToRedact(text, order);
      }
    case List(items) => ItemsRedaction(items, order);
    case Dict(entries) => EntriesRedaction(entries, order);
    case _ =>
  }

  lemma {:induction false} ItemsRedaction(items: seq<Payload>, order: seq<string>)
    requires Cleans(order) && Free(PLACEHOLDER, order) && RedactItems(items, order).Some?
    ensures var r := RedactItems(items, order).value;
      |r| == |items| && forall i :: 0 <= i < |items| ==> ComesOut(items[i], r[i], order)
    decreases items, 0
  {
    if items != [] {
      PayloadRedaction(items[0], order);
      ItemsRedaction(items[1..], order);
      var first, rest := RedactValue(items[0], order).value, RedactItems(items[1..], order).value;
      assert RedactItems(items, order).value == [first] + rest;
      forall i | 0 <= i < |items|
        ensures ComesOut(items[i], ([first] + rest)[i], order)
      {
        if i > 0 {
          assert items[i] == items[1..][i - 1];
        }
      }
    }
  }

  lemma {:induction false} EntryRedaction(e: Entry, order: seq<string>)
    requires Cleans(order) && Free(PLACEHOLDER, order) && RedactEntry(e, order).Some?
    ensures EntryClean(e, RedactEntry(e, order).value, order)
    decreases e, 2
  {
    if !IsSensitive(e.key.name) {
      PayloadRedaction(e.item, order);
    }
  }

  ghost predicate EntryClean(e: Entry, r: Entry, order: seq<string>) {
    && r.key == e.key && r.key.StringKey?
    && if IsSensitive(r.key.name) then r.item == Words(PLACEHOLDER)
       else ComesOut(e.item, r.item, order)
  }

  lemma {:induction false} EntriesRedaction(entries: seq<Entry>, order: seq<string>)
    requires Cleans(order) && Free(PLACEHOLDER, order) && RedactEntries(entries, order).Some?
    ensures var r := RedactEntries(entries, order).value;
      |r| == |entries| && forall i :: 0 <= i < |entries| ==> EntryClean(entries[i], r[i], order)
    decreases entries, 0
  {
    if entries != [] {
      EntryRedaction(entries[0], order);
      EntriesRedaction(entries[1..], order);
      assert entries == [entries[0]] + entries[1..];
    }
  }

  /** A supported payload comes out with its shape, and clean exactly when its stamps are; no other comes out. */
  ghost predicate Sanitized(p: Payload, order: seq<string>) {
    && (RedactValue(p, order).Some? <==> Supported(p))
    && (Supported(p) && RedactValue(p, order).Some? ==>
          ComesOut(p, RedactValue(p, order).value, order))
  }

  /** Every payload is sanitized exactly when every text is cleaned. */
  lemma PayloadsAreSanitizedExactly(order: seq<string>)
    requires LongestFirst(order)
    ensures (forall p :: Sanitized(p, order)) <==> Cleans(order)
  {
    if Cleans(order) {
      CleaningFreesPlaceholder(order);
      forall p
        ensures Sanitized(p, order)
      {
        SupportedExactly(p, order);
        if RedactValue(p, order).Some? {
          PayloadRedaction(p, order);
        }
      }
    } else {
      var s :| !Free(Redacted(s, order), order);
      assert RedactValue(Words(s), order) == Some(Words(Redacted(s, order)));
      assert !Sanitized(Words(s), order);
    }
  }

  lemma CleaningFreesPlaceholder(order: seq<string>)
    requires LongestFirst(order) && Cleans(order)
    ensures Free(PLACEHOLDER, order)
  {
    if !Free(PLACEHOLDER, order) {
      var k := LastInPlaceholder(order);
      ValueSurvives(order, k);
    }
  }
}
