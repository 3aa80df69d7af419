/** The part of PHP's string library the ledger relies on: `stripos`. */
module PhpStrings {
  import opened Wrappers

  /** ASCII lower-casing of one character, the folding `stripos` applies. */
  function LowerChar(c: char): char {
    if 'A' <= c <= 'Z' then (c as int + 32) as char else c
  }

  /** `s` with every ASCII capital replaced by its small letter. */
  function Lower(s: string): (r: string)
    ensures |r| == |s|
  {
    seq(|s|, i requires 0 <= i < |s| => LowerChar(s[i]))
  }

  /** `needle` occurs in `hay` starting at position `i`. */
  predicate OccursAt(hay: string, needle: string, i: int) {
    0 <= i && i + |needle| <= |hay| && hay[i..i + |needle|] == needle
  }

  /** The first position at or after `from` where `needle` occurs in `hay`, or None. */
  function IndexFrom(hay: string, needle: string, from: nat): (r: Option<nat>)
    ensures r.Some? ==> from <= r.value && OccursAt(hay, needle, r.value)
    ensures r.Some? ==> forall i :: from <= i < r.value ==> !OccursAt(hay, needle, i)
    ensures r.None? <==> forall i :: from <= i ==> !OccursAt(hay, needle, i)
    decreases |hay| - from
  {
    if from + |needle| > |hay| then None
    else if hay[from..from + |needle|] == needle then assert OccursAt(hay, needle, from); Some(from)
    else IndexFrom(hay, needle, from + 1)
  }

  /** PHP's `stripos($hay, $needle)`: the first position of `needle` in `hay`
      ignoring ASCII case, or None where PHP returns `false`. An empty needle
      is found at position 0. */
  function StrIPos(hay: string, needle: string): (r: Option<nat>)
    ensures r.Some? ==> OccursAt(Lower(hay), Lower(needle), r.value)
    ensures r.Some? ==> forall i :: 0 <= i < r.value ==> !OccursAt(Lower(hay), Lower(needle), i)
    ensures r.None? <==> forall i :: 0 <= i ==> !OccursAt(Lower(hay), Lower(needle), i)
  {
    IndexFrom(Lower(hay), Lower(needle), 0)
  }

  /** Folding either operand first does not change what `stripos` finds. */
  lemma {:induction false} StrIPosIgnoresCase(hay: string, needle: string)
    ensures StrIPos(Lower(hay), needle) == StrIPos(hay, needle)
    ensures StrIPos(hay, Lower(needle)) == StrIPos(hay, needle)
  {
    LowerIdempotent(hay);
    LowerIdempotent(needle);
  }

  lemma LowerIdempotent(s: string)
    ensures Lower(Lower(s)) == Lower(s)
  {
  }

  /** An empty search term is found in every string, at position 0. */
  lemma EmptyNeedleFound(hay: string)
    ensures StrIPos(hay, "") == Some(0)
  {
  }
}
