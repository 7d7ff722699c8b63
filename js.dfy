/** The JavaScript built-ins the web client relies on: absent values, String.prototype.indexOf,
    String.prototype.replace with a string pattern, and an object used as a set whose
    Object.keys lists each key once, in the order it was first inserted. */
module Js {

  /** A value that may be `undefined` / `null`. */
  datatype Option<T> = None | Some(value: T)

  /** `pat` occurs in `s` starting at position `i`. */
  predicate OccursAt(s: string, pat: string, i: int)
  {
    0 <= i && i + |pat| <= |s| && s[i..i + |pat|] == pat
  }

  /** `s.indexOf(pat) !== -1`. */
  predicate Contains(s: string, pat: string)
  {
    exists i :: 0 <= i <= |s| - |pat| && OccursAt(s, pat, i)
  }

  /** `s.indexOf(pat, from)`: the first position at or after `from` where `pat` occurs, or -1. */
  function IndexOfFrom(s: string, pat: string, from: nat): (r: int)
    decreases |s| - from
    ensures r == -1 || (from <= r && OccursAt(s, pat, r))
    ensures forall j :: from <= j && (r == -1 || j < r) ==> !OccursAt(s, pat, j)
  {
    if from + |pat| > |s| then -1
    else if s[from..from + |pat|] == pat then from
    else IndexOfFrom(s, pat, from + 1)
  }

  /** `s.indexOf(pat)`. */
  function IndexOf(s: string, pat: string): (r: int)
    ensures r == -1 <==> !Contains(s, pat)
    ensures r != -1 ==> OccursAt(s, pat, r) && forall j :: 0 <= j < r ==> !OccursAt(s, pat, j)
  {
    IndexOfFrom(s, pat, 0)
  }

  /** `s.replace(pat, '')`: the first occurrence of `pat` removed, `s` itself when there is none. */
  function RemoveFirst(s: string, pat: string): (r: string)
    ensures !Contains(s, pat) ==> r == s
    ensures Contains(s, pat) ==> |r| == |s| - |pat|
    ensures Contains(s, pat) ==>
      var k := IndexOf(s, pat); r == s[..k] + s[k + |pat|..]
  {
    var k := IndexOf(s, pat);
    if k < 0 then s else s[..k] + s[k + |pat|..]
  }

  /** If `s` starts with `pat`, `s.replace(pat, '')` strips that prefix. */
  lemma RemoveFirstOfPrefix(pat: string, rest: string)
    ensures RemoveFirst(pat + rest, pat) == rest
  {
    var s := pat + rest;
    assert s[0..|pat|] == pat;
    assert OccursAt(s, pat, 0);
    assert IndexOf(s, pat) == 0;
    assert s[|pat|..] == rest;
  }

  /** No element of `s` appears twice. */
  predicate NoDuplicates<T(==)>(s: seq<T>)
  {
    forall i, j :: 0 <= i < j < |s| ==> s[i] != s[j]
  }

  /** `Object.keys(o)` after `o[x] = true` has been run for every `x` of `xs` in turn: each key once,
      in order of first insertion. (Keys that look like array indices, which JavaScript lists first
      in numeric order, are not distinguished here.) */
  function KeysInserted(xs: seq<string>): (r: seq<string>)
    decreases |xs|
  {
    if xs == [] then []
    else
      var prev := KeysInserted(xs[..|xs| - 1]);
      if xs[|xs| - 1] in prev then prev else prev + [xs[|xs| - 1]]
  }

  /** The keys are exactly the inserted strings, each once. */
  lemma {:induction false} KeysInsertedAreTheSet(xs: seq<string>)
    ensures forall x :: x in KeysInserted(xs) <==> x in xs
    ensures NoDuplicates(KeysInserted(xs))
  {
    if xs != [] {
      var init := xs[..|xs| - 1];
      KeysInsertedAreTheSet(init);
      assert xs == init + [xs[|xs| - 1]];
    }
  }

  /** Inserting nothing new leaves the keys empty exactly when nothing was inserted. */
  lemma {:induction false} KeysInsertedEmpty(xs: seq<string>)
    ensures KeysInserted(xs) == [] <==> xs == []
  {
    if xs != [] {
      KeysInsertedAreTheSet(xs);
      assert xs[0] in KeysInserted(xs);
    }
  }
}
