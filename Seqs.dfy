/**
 * The loop every list parser runs: walk the input in order, convert each
 * item, skip (`continue`) the ones that yield nothing, push the rest.
 */
module Seqs {
  import opened Wrappers

  function Keep<B>(o: Option<B>): seq<B> {
    match o
    case None => []
    case Some(b) => [b]
  }

  /** `iter().filter_map(f).collect()`: the converted items, in input order. */
  function FilterMap<A, B>(s: seq<A>, f: A -> Option<B>): seq<B> {
    if s == [] then [] else FilterMap(s[..|s| - 1], f) + Keep(f(s[|s| - 1]))
  }

  /** `if v.is_empty() { None } else { Some(v) }`. */
  function NonEmpty<B>(s: seq<B>): (r: Option<seq<B>>)
    ensures r.None? <==> s == []
    ensures r.Some? ==> r.value == s
  {
    if s == [] then None else Some(s)
  }

  /** Conversion distributes over concatenation: survivors keep their relative order. */
  lemma {:induction false} FilterMapAppend<A, B>(a: seq<A>, b: seq<A>, f: A -> Option<B>)
    ensures FilterMap(a + b, f) == FilterMap(a, f) + FilterMap(b, f)
  {
    if b == [] {
      assert a + b == a;
    } else {
      assert (a + b)[..|a + b| - 1] == a + b[..|b| - 1];
      FilterMapAppend(a, b[..|b| - 1], f);
    }
  }

  /** Every element `f` keeps shows up in the result. */
  lemma FilterMapKeeps<A, B>(s: seq<A>, f: A -> Option<B>, i: nat)
    requires i < |s| && f(s[i]).Some?
    ensures f(s[i]).value in FilterMap(s, f)
  {
    assert s == s[..i] + [s[i]] + s[i + 1..];
    FilterMapAppend(s[..i] + [s[i]], s[i + 1..], f);
    FilterMapAppend(s[..i], [s[i]], f);
    assert FilterMap([s[i]], f) == [f(s[i]).value] by {
      assert [s[i]][..0] == [];
    }
  }

  lemma {:induction false} FilterMapLength<A, B>(s: seq<A>, f: A -> Option<B>)
    ensures |FilterMap(s, f)| <= |s|
  {
    if s != [] {
      FilterMapLength(s[..|s| - 1], f);
    }
  }

  /** The output is empty exactly when every item is dropped. */
  lemma {:induction false} FilterMapEmpty<A, B>(s: seq<A>, f: A -> Option<B>)
    ensures FilterMap(s, f) == [] <==> forall i :: 0 <= i < |s| ==> f(s[i]).None?
  {
    if s != [] {
      var init := s[..|s| - 1];
      FilterMapEmpty(init, f);
      assert forall i :: 0 <= i < |init| ==> init[i] == s[i];
    }
  }

  /** Every output element is the conversion of some input item. */
  lemma {:induction false} FilterMapFrom<A, B>(s: seq<A>, f: A -> Option<B>, j: nat)
    requires j < |FilterMap(s, f)|
    ensures exists i :: 0 <= i < |s| && f(s[i]) == Some(FilterMap(s, f)[j])
  {
    var init := s[..|s| - 1];
    if j < |FilterMap(init, f)| {
      FilterMapFrom(init, f, j);
      var i :| 0 <= i < |init| && f(init[i]) == Some(FilterMap(init, f)[j]);
      assert s[i] == init[i];
    } else {
      assert f(s[|s| - 1]) == Some(FilterMap(s, f)[j]);
    }
  }

  /** The push loop of the list parsers. */
  method Collect<A, B>(items: seq<A>, f: A -> Option<B>) returns (out: seq<B>)
    ensures out == FilterMap(items, f)
  {
    out := [];
    for i := 0 to |items|
      invariant out == FilterMap(items[..i], f)
    {
      assert items[..i + 1][..i] == items[..i];
      var converted := f(items[i]);
      if converted.None? {
        continue;
      }
      out := out + [converted.value];
    }
    assert items[..|items|] == items;
  }
}
