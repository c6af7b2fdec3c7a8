/** Histories of what threads did, in order. */
module Histories {
  datatype Entry<T> = Entry(t: nat, item: T)

  function Items<T>(hs: seq<Entry<T>>): seq<T> {
    if hs == [] then [] else Items(hs[..|hs| - 1]) + [hs[|hs| - 1].item]
  }

  /** The part of a history that belongs to thread `t`. */
  function By<T>(hs: seq<Entry<T>>, t: nat): seq<T> {
    if hs == [] then []
    else By(hs[..|hs| - 1], t) + if hs[|hs| - 1].t == t then [hs[|hs| - 1].item] else []
  }

  lemma {:induction false} Concat<T>(a: seq<Entry<T>>, b: seq<Entry<T>>, t: nat)
    ensures Items(a + b) == Items(a) + Items(b) && By(a + b, t) == By(a, t) + By(b, t)
  {
    if b == [] {
      assert a + b == a;
    } else {
      var init, last := b[..|b| - 1], b[|b| - 1];
      Concat(a, init, t);
      assert (a + b)[..|a + b| - 1] == a + init && (a + b)[|a + b| - 1] == last;
    }
  }

  lemma One<T>(x: Entry<T>, t: nat)
    ensures Items([x]) == [x.item] && By([x], t) == if x.t == t then [x.item] else []
  {
    assert [x][..0] == [];
  }

  /** What thread `t` took is what it gave back and what it has in hand, one step further. */
  lemma Extends<T>(
      taken: seq<Entry<T>>, given: seq<Entry<T>>, more: seq<Entry<T>>, back: seq<Entry<T>>, t: nat,
      hand: seq<T>, hand': seq<T>)
    requires By(taken, t) == By(given, t) + hand && hand + By(more, t) == By(back, t) + hand'
    ensures Items(taken + more) == Items(taken) + Items(more)
    ensures By(taken + more, t) == By(given + back, t) + hand'
  {
    Concat(taken, more, t);
    Concat(given, back, t);
    Regroup(By(given, t), hand, By(more, t), By(back, t), hand');
  }

  lemma Regroup<T>(r: seq<T>, hand: seq<T>, m: seq<T>, o: seq<T>, hand': seq<T>)
    requires hand + m == o + hand'
    ensures r + hand + m == r + o + hand'
  {
    assert r + hand + m == r + (hand + m);
    assert r + o + hand' == r + (o + hand');
  }
}
