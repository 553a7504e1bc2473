/** The few string operations the model needs, over ASCII whitespace. */
module Text {
  import opened Contracts

  predicate IsSpace(c: char) {
    '\t' <= c <= '\r' || '\U{1C}' <= c <= ' '
  }

  /** The string without surrounding whitespace. */
  function Strip(s: string): (r: string)
    ensures |r| <= |s|
    ensures r == [] || (!IsSpace(r[0]) && !IsSpace(r[|r| - 1]))
  {
    if s == [] then []
    else if IsSpace(s[0]) then Strip(s[1..])
    else if IsSpace(s[|s| - 1]) then Strip(s[..|s| - 1])
    else s
  }

  /** What is stripped off is whitespace, and what is left has none at its ends. */
  lemma {:induction false} StripTrims(s: string) returns (from: nat, to: nat)
    ensures from <= to <= |s| && Strip(s) == s[from..to]
    ensures forall i :: 0 <= i < |s| && (i < from || to <= i) ==> IsSpace(s[i])
  {
    from, to := 0, |s|;
    if s != [] && IsSpace(s[0]) {
      var rest := s[1..];
      var a, b := StripTrims(rest);
      from, to := a + 1, b + 1;
      assert forall i :: 0 < i < |s| ==> s[i] == rest[i - 1];
    } else if s != [] && IsSpace(s[|s| - 1]) {
      var rest := s[..|s| - 1];
      from, to := StripTrims(rest);
      assert rest[from..to] == s[from..to];
      assert forall i :: 0 <= i < |rest| ==> s[i] == rest[i];
    }
  }

  predicate AllSpace(s: string) { forall i :: 0 <= i < |s| ==> IsSpace(s[i]) }

  predicate Trimmed(s: string) { s == "" || (!IsSpace(s[0]) && !IsSpace(s[|s| - 1])) }

  /** `s` is `core` between whitespace, and `core` neither begins nor ends with any. */
  ghost predicate TrimsTo(s: string, core: string) {
    Trimmed(core) && exists front, back :: AllSpace(front) && AllSpace(back) && s == front + core + back
  }

  /** Every string trims to one core, the stripped one. */
  lemma StripMeans(s: string, core: string)
    ensures Strip(s) == core <==> TrimsTo(s, core)
  {
    var from, to := StripTrims(s);
    assert AllSpace(s[..from]) && AllSpace(s[to..]) && s == s[..from] + s[from..to] + s[to..];
    if TrimsTo(s, core) {
      var front, back :| AllSpace(front) && AllSpace(back) && s == front + core + back;
      CoreIsUnique(front, core, back, s, from, to);
    }
  }

  lemma CoreIsUnique(front: string, core: string, back: string, s: string, from: nat, to: nat)
    requires AllSpace(front) && AllSpace(back) && Trimmed(core) && s == front + core + back
    requires from <= to <= |s| && Trimmed(s[from..to])
    requires forall i :: 0 <= i < |s| && (i < from || to <= i) ==> IsSpace(s[i])
    ensures core == s[from..to]
  {
    var lo, hi := |front|, |front| + |core|;
    assert core == s[lo..hi];
    assert forall i :: 0 <= i < lo ==> s[i] == front[i];
    assert forall i :: hi <= i < |s| ==> s[i] == back[i - hi];
    if core != "" {
      assert s[lo] == core[0] && s[hi - 1] == core[|core| - 1];
    }
    if from < to {
      assert s[from] == s[from..to][0] && s[to - 1] == s[from..to][to - from - 1];
    }
  }

  /** `part` occurs in `s` at position `i`. */
  predicate OccursAt(s: string, part: string, i: nat) {
    i + |part| <= |s| && s[i..i + |part|] == part
  }

  predicate Contains(s: string, part: string) {
    exists i: nat | i <= |s| :: OccursAt(s, part, i)
  }

  /** The first occurrence at or after `from`. */
  function FindFrom(s: string, part: string, from: nat): (r: Option<nat>)
    requires from <= |s|
    ensures r.Some? ==> from <= r.value && OccursAt(s, part, r.value)
    ensures forall i :: from <= i <= |s| && OccursAt(s, part, i) ==> r.Some? && r.value <= i
    decreases |s| - from
  {
    if OccursAt(s, part, from) then Some(from)
    else if from == |s| then None
    else FindFrom(s, part, from + 1)
  }
}
