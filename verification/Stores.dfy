/** Element stores into one memory, in whatever order parallel writers issue them. */
module Stores {

  datatype Store<T> = Store(at: nat, v: T)

  function Run<T>(mem: seq<T>, ss: seq<Store<T>>): (r: seq<T>)
    ensures |r| == |mem|
    decreases |ss|
  {
    if ss == [] then mem
    else Run(if ss[0].at < |mem| then mem[ss[0].at := ss[0].v] else mem, ss[1..])
  }

  /** No position gets two different values. */
  ghost predicate Agree<T(!new)>(ss: seq<Store<T>>) {
    forall a, b :: a in ss && b in ss && a.at == b.at ==> a == b
  }

  predicate Untouched<T>(ss: seq<Store<T>>, p: nat) { forall i :: 0 <= i < |ss| ==> ss[i].at != p }

  lemma {:induction false} RunElsewhere<T>(mem: seq<T>, ss: seq<Store<T>>, p: nat)
    requires p < |mem| && Untouched(ss, p)
    ensures Run(mem, ss)[p] == mem[p]
    decreases |ss|
  {
    if ss != [] {
      RunElsewhere(if ss[0].at < |mem| then mem[ss[0].at := ss[0].v] else mem, ss[1..], p);
    }
  }

  /** A stored value is there in the end, wherever its store came in the order. */
  lemma {:induction false} RunReads<T(!new)>(mem: seq<T>, ss: seq<Store<T>>, s: Store<T>)
    requires s.at < |mem| && s in ss && Agree(ss)
    ensures Run(mem, ss)[s.at] == s.v
    decreases |ss|
  {
    var next := if ss[0].at < |mem| then mem[ss[0].at := ss[0].v] else mem;
    if s in ss[1..] {
      forall a, b | a in ss[1..] && b in ss[1..] && a.at == b.at ensures a == b { assert a in ss && b in ss; }
      RunReads(next, ss[1..], s);
    } else {
      assert s == ss[0];
      forall i | 0 <= i < |ss[1..]| ensures ss[1..][i].at != s.at {
        var x := ss[1..][i];
        assert x in ss[1..] && x in ss;
      }
      RunElsewhere(next, ss[1..], s.at);
    }
  }

  /** Two orders of the same agreeing stores leave the same memory. */
  lemma AnyOrder<T(!new)>(mem: seq<T>, a: seq<Store<T>>, b: seq<Store<T>>)
    requires Agree(a) && forall s :: s in a <==> s in b
    ensures Run(mem, a) == Run(mem, b)
  {
    forall p | 0 <= p < |mem| ensures Run(mem, a)[p] == Run(mem, b)[p] {
      if i :| 0 <= i < |a| && a[i].at == p {
        RunReads(mem, a, a[i]);
        RunReads(mem, b, a[i]);
      } else {
        forall j | 0 <= j < |b| ensures b[j].at != p { assert b[j] in a; }
        RunElsewhere(mem, a, p);
        RunElsewhere(mem, b, p);
      }
    }
  }

  lemma {:induction false} RunSnoc<T>(mem: seq<T>, ss: seq<Store<T>>, s: Store<T>)
    ensures Run(mem, ss + [s]) == if s.at < |mem| then Run(mem, ss)[s.at := s.v] else Run(mem, ss)
    decreases |ss|
  {
    if ss == [] {
      assert ([] + [s])[1..] == [];
      assert Run(mem, [s]) == Run(if s.at < |mem| then mem[s.at := s.v] else mem, [s][1..]);
    } else {
      assert (ss + [s])[0] == ss[0] && (ss + [s])[1..] == ss[1..] + [s];
      RunSnoc(if ss[0].at < |mem| then mem[ss[0].at := ss[0].v] else mem, ss[1..], s);
    }
  }
}
