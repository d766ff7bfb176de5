/** Element-wise mapping of a sequence (JavaScript's `Array.prototype.map`)
    and its partial inverse, shared by every list the node formats. */
module Lists {

  import opened Wrappers

  /** Applies `f` to every element, keeping length and order. */
  function MapSeq<A, B>(f: A -> B, s: seq<A>): (r: seq<B>)
    ensures |r| == |s|
    ensures forall i :: 0 <= i < |s| ==> r[i] == f(s[i])
  {
    if s == [] then [] else [f(s[0])] + MapSeq(f, s[1..])
  }

  /** Decodes every element with `g`; fails if any element fails. */
  function ParseSeq<A, B>(g: A -> Option<B>, s: seq<A>): (r: Option<seq<B>>)
    ensures r.Some? ==> |r.value| == |s|
    ensures r.Some? ==> forall i :: 0 <= i < |s| ==> g(s[i]) == Some(r.value[i])
  {
    if s == [] then Some([])
    else
      match (g(s[0]), ParseSeq(g, s[1..]))
      case (Some(b), Some(bs)) => Some([b] + bs)
      case _ => None
  }

  /** Decoding a mapped sequence element-wise recovers, for each element,
      what the decoder recovers from that element's encoding. */
  lemma {:induction false} ParseSeqOfMapSeq<A, B, C>(f: A -> B, g: B -> Option<C>, h: A -> C, s: seq<A>)
    requires forall x :: g(f(x)) == Some(h(x))
    ensures ParseSeq(g, MapSeq(f, s)) == Some(MapSeq(h, s))
  {
    if s != [] {
      ParseSeqOfMapSeq(f, g, h, s[1..]);
      var r := MapSeq(f, s);
      assert r[1..] == MapSeq(f, s[1..]);
    }
  }
}
