/** White space around names. */
module Text {
  /** Unicode white space, as Go's strings.TrimSpace removes it. */
  predicate IsSpace(c: char) {
    c == ' ' || '\t' <= c <= '\r' || c in "\U{0085}\U{00A0}\U{1680}\U{2028}\U{2029}\U{202F}\U{205F}\U{3000}" ||
    '\U{2000}' <= c <= '\U{200A}'
  }

  function TrimLeft(s: string): string {
    if s != "" && IsSpace(s[0]) then TrimLeft(s[1..]) else s
  }

  function TrimRight(s: string): string {
    if s != "" && IsSpace(s[|s| - 1]) then TrimRight(s[..|s| - 1]) else s
  }

  function TrimSpace(s: string): string { TrimRight(TrimLeft(s)) }

  lemma {:induction false} TrimmedLeft(s: string)
    ensures TrimLeft(s) == [] || !IsSpace(TrimLeft(s)[0])
  {
    if s != [] && IsSpace(s[0]) {
      TrimmedLeft(s[1..]);
    }
  }

  lemma {:induction false} TrimmedRight(s: string)
    ensures TrimRight(s) == [] || !IsSpace(TrimRight(s)[|TrimRight(s)| - 1])
    ensures s != [] && !IsSpace(s[0]) ==> TrimRight(s) != [] && TrimRight(s)[0] == s[0]
    decreases |s|
  {
    if s != [] && IsSpace(s[|s| - 1]) {
      TrimmedRight(s[..|s| - 1]);
    }
  }

  predicate AllSpace(s: string) { forall i :: 0 <= i < |s| ==> IsSpace(s[i]) }

  /** No white space at either end. */
  predicate IsTrimmed(s: string) { s != "" ==> !IsSpace(s[0]) && !IsSpace(s[|s| - 1]) }

  lemma {:induction false} LeftAway(s: string) returns (left: string)
    ensures AllSpace(left) && s == left + TrimLeft(s)
  {
    left := "";
    if s != "" && IsSpace(s[0]) {
      var rest := LeftAway(s[1..]);
      left := [s[0]] + rest;
      assert s == [s[0]] + s[1..];
    }
  }

  lemma {:induction false} RightAway(s: string) returns (right: string)
    ensures AllSpace(right) && s == TrimRight(s) + right
    decreases |s|
  {
    right := "";
    if s != "" && IsSpace(s[|s| - 1]) {
      var rest := RightAway(s[..|s| - 1]);
      right := rest + [s[|s| - 1]];
      assert s == s[..|s| - 1] + [s[|s| - 1]];
    }
  }

  /** Trimming takes white space away at both ends, and nothing else, until there is none. */
  lemma TrimSpaceExactly(s: string) returns (left: string, right: string)
    ensures AllSpace(left) && AllSpace(right) && s == left + TrimSpace(s) + right && IsTrimmed(TrimSpace(s))
  {
    left := LeftAway(s);
    right := RightAway(TrimLeft(s));
    TrimmedLeft(s);
    TrimmedRight(TrimLeft(s));
  }

  predicate FirstAt(s: string, i: nat) { i < |s| && !IsSpace(s[i]) && forall j :: 0 <= j < i ==> IsSpace(s[j]) }

  predicate LastAt(s: string, i: nat) { i < |s| && !IsSpace(s[i]) && forall j :: i < j < |s| ==> IsSpace(s[j]) }

  lemma Decomposed(s: string, left: string, middle: string, right: string)
    requires AllSpace(left) && AllSpace(right) && s == left + middle + right && IsTrimmed(middle)
    ensures middle == "" <==> AllSpace(s)
    ensures middle != "" ==> FirstAt(s, |left|) && LastAt(s, |left| + |middle| - 1) && middle == s[|left|..|left| + |middle|]
  {
    if middle != "" {
      assert s[|left|] == middle[0] && s[|left| + |middle| - 1] == middle[|middle| - 1];
      assert forall j :: 0 <= j < |left| ==> s[j] == left[j];
      assert forall j :: |left| + |middle| <= j < |s| ==> s[j] == right[j - |left| - |middle|];
    }
  }

  /** There is only one way to do that. */
  lemma TrimSpaceIsUnique(s: string, left: string, middle: string, right: string)
    requires AllSpace(left) && AllSpace(right) && s == left + middle + right && IsTrimmed(middle)
    ensures TrimSpace(s) == middle
  {
    var l, r := TrimSpaceExactly(s);
    Decomposed(s, left, middle, right);
    Decomposed(s, l, TrimSpace(s), r);
  }

  lemma TrimSpaceIsIdempotent(s: string)
    ensures TrimSpace(TrimSpace(s)) == TrimSpace(s)
  {
    TrimmedLeft(s);
    TrimmedRight(TrimLeft(s));
  }
}
