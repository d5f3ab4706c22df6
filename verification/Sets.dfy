/** Cardinality facts about finite sets and injective maps. */
module Sets {

  ghost predicate InjectiveOn<A, B>(f: map<A, B>) {
    forall x, y :: x in f && y in f && f[x] == f[y] ==> x == y
  }

  function Image<A, B>(f: map<A, B>): set<B> {
    set x | x in f :: f[x]
  }

  lemma {:induction false} SubsetSize<A>(xs: set<A>, ys: set<A>)
    requires xs <= ys
    ensures |xs| <= |ys|
    decreases xs
  {
    if xs != {} {
      var x :| x in xs;
      SubsetSize(xs - {x}, ys - {x});
    }
  }

  lemma {:induction false} ImageSize<A, B>(f: map<A, B>)
    requires InjectiveOn(f)
    ensures |Image(f)| == |f.Keys|
    decreases |f.Keys|
  {
    if f.Keys != {} {
      var x :| x in f.Keys;
      var g := map y | y in f && y != x :: f[y];
      assert g.Keys == f.Keys - {x};
      ImageSize(g);
      assert Image(f) == Image(g) + {f[x]} by {
        forall b | b in Image(f) ensures b in Image(g) + {f[x]} {
          var y :| y in f && f[y] == b;
          assert y != x ==> y in g;
        }
      }
      assert f[x] !in Image(g);
    } else {
      assert Image(f) == {};
    }
  }
}
