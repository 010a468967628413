/**
  Frontier primitives over the totally ordered `Timestamp`.

  An `Antichain` is a set of mutually incomparable times. Because `Timestamp` is
  totally ordered, such a set is either empty or a single time, which is exactly
  what the datatype below records; `Elements()` gives the set view. The empty
  antichain is the top of the order: an upper of `Empty` means "complete for all
  time", a since of `Empty` means "nothing can be read any more".

  `MutableAntichain` is the reference-counted multiset of times whose frontier
  is the set of minimal times with a positive count.
*/
module Frontiers {
  import opened Wrappers
  import opened Repr

  datatype Antichain = Empty | Singleton(elem: Timestamp)
  {
    function Elements(): (s: set<Timestamp>)
      ensures |s| <= 1
      ensures Singleton? ==> s == {elem}
      ensures Empty? ==> s == {}
    {
      if Empty? then {} else {elem}
    }

    /** `Antichain::less_equal(&t)`: some element of the antichain is at most `t`. */
    predicate LessEqual(t: Timestamp)
    {
      Singleton? && elem <= t
    }

    /** `Antichain::as_option`. */
    function AsOption(): (r: Option<Timestamp>)
      ensures r.None? <==> Elements() == {}
      ensures r.Some? ==> Elements() == {r.value}
    {
      if Empty? then None else Some(elem)
    }
  }

  /**
    The partial order on antichains (`PartialOrder::less_equal`): every element of
    `b` is dominated by some element of `a`.
  */
  predicate Le(a: Antichain, b: Antichain)
  {
    b.Empty? || (a.Singleton? && a.elem <= b.elem)
  }

  /** `LessEqual` is the set-based definition of timely's `Antichain::less_equal`. */
  lemma LessEqualElements(a: Antichain, t: Timestamp)
    ensures a.LessEqual(t) <==> exists e :: e in a.Elements() && e <= t
  {
    if a.Singleton? {
      assert a.elem in a.Elements();
    }
  }

  /** `Le` is the set-based definition of timely's `PartialOrder` on antichains. */
  lemma LeElements(a: Antichain, b: Antichain)
    ensures Le(a, b) <==> forall t2 :: t2 in b.Elements() ==> exists t1 :: t1 in a.Elements() && t1 <= t2
  {
    if b.Singleton? {
      assert b.elem in b.Elements();
      if a.Singleton? {
        assert a.elem in a.Elements();
      }
    }
  }

  /** `PartialOrder::less_than`: less-equal and different. */
  predicate Lt(a: Antichain, b: Antichain)
  {
    Le(a, b) && a != b
  }

  lemma LeReflexive(a: Antichain)
    ensures Le(a, a)
  {
  }

  lemma LeAntisymmetric(a: Antichain, b: Antichain)
    requires Le(a, b) && Le(b, a)
    ensures a == b
  {
  }

  lemma LeTransitive(a: Antichain, b: Antichain, c: Antichain)
    requires Le(a, b) && Le(b, c)
    ensures Le(a, c)
  {
  }

  /** Lattice join of two antichains (`Lattice::join`): the least upper bound. */
  function Join(a: Antichain, b: Antichain): (r: Antichain)
    ensures Le(a, r) && Le(b, r)
    ensures forall c :: Le(a, c) && Le(b, c) ==> Le(r, c)
  {
    match (a, b)
    case (Singleton(x), Singleton(y)) => Singleton(Repr.Join(x, y))
    case _ => Empty
  }

  /**
    `Antichain::extend`: insert the elements of `b` into `a`, keeping only the
    minimal ones. The result is the greatest lower bound of the two.
  */
  function Meet(a: Antichain, b: Antichain): (r: Antichain)
    ensures Le(r, a) && Le(r, b)
    ensures forall c :: Le(c, a) && Le(c, b) ==> Le(c, r)
    ensures r.Elements() <= a.Elements() + b.Elements()
  {
    match (a, b)
    case (Empty, _) => b
    case (_, Empty) => a
    case (Singleton(x), Singleton(y)) => Singleton(Repr.Meet(x, y))
  }

  /** A least element of a non-empty finite set, found by removing one element at a time. */
  ghost function SomeLeast(s: set<Timestamp>): (m: Timestamp)
    requires s != {}
    ensures m in s && forall x :: x in s ==> m <= x
    decreases s
  {
    var y :| y in s;
    var rest := s - {y};
    if rest == {} then
      assert forall x :: x in s ==> x == y || x in rest;
      y
    else
      var m := SomeLeast(rest);
      assert forall x :: x in s ==> x == y || x in rest;
      if y <= m then y else m
  }

  /** A greatest element of a non-empty finite set, found by removing one element at a time. */
  ghost function SomeGreatest(s: set<Timestamp>): (m: Timestamp)
    requires s != {}
    ensures m in s && forall x :: x in s ==> x <= m
    decreases s
  {
    var y :| y in s;
    var rest := s - {y};
    if rest == {} then
      assert forall x :: x in s ==> x == y || x in rest;
      y
    else
      var m := SomeGreatest(rest);
      assert forall x :: x in s ==> x == y || x in rest;
      if m <= y then y else m
  }

  /** The least element of a non-empty finite set of times. */
  function MinOf(s: set<Timestamp>): (m: Timestamp)
    requires s != {}
    ensures m in s && forall x :: x in s ==> m <= x
  {
    ghost var w := SomeLeast(s);
    var m :| m in s && forall x :: x in s ==> m <= x;
    m
  }

  /** The greatest element of a non-empty finite set of times. */
  function MaxOf(s: set<Timestamp>): (m: Timestamp)
    requires s != {}
    ensures m in s && forall x :: x in s ==> x <= m
  {
    ghost var w := SomeGreatest(s);
    var m :| m in s && forall x :: x in s ==> x <= m;
    m
  }

  /** `Lattice::advance_by` of a time by a frontier: join with its element, if any. */
  function AdvanceBy(t: Timestamp, f: Antichain): (r: Timestamp)
    ensures t <= r
    ensures f.Singleton? ==> f.elem <= r
    ensures r == t || r in f.Elements()
  {
    match f
    case Empty => t
    case Singleton(e) => Repr.Join(t, e)
  }

  /** The times of the non-empty antichains in `fs`. */
  function TimesOf(fs: set<Antichain>): (ts: set<Timestamp>)
    ensures forall t :: t in ts <==> Singleton(t) in fs
  {
    set f | f in fs && f.Singleton? :: f.elem
  }

  /**
    The join of every antichain in `fs`, starting from `{minimum}`: empty as soon
    as one of them is empty, otherwise the latest of their times.
  */
  function JoinAll(fs: set<Antichain>): (r: Antichain)
    ensures r.Empty? <==> Empty in fs
    ensures forall f :: f in fs ==> Le(f, r)
    ensures forall c :: (forall f :: f in fs ==> Le(f, c)) ==> Le(r, c)
  {
    if Empty in fs then Empty
    else
      var m := MaxOf({MINIMUM} + TimesOf(fs));
      assert forall f :: f in fs ==> Le(f, Singleton(m)) by {
        forall f | f in fs ensures Le(f, Singleton(m)) {
          assert f.elem in TimesOf(fs);
        }
      }
      assert forall c :: (forall f :: f in fs ==> Le(f, c)) ==> Le(Singleton(m), c) by {
        forall c | forall f :: f in fs ==> Le(f, c)
          ensures Le(Singleton(m), c)
        {
          if c.Singleton? && m != MINIMUM {
            assert Le(Singleton(m), c);
          }
        }
      }
      Singleton(m)
  }

  /**
    The union (`extend`) of every antichain in `fs`, starting from the empty
    antichain: empty exactly when all of them are, otherwise the earliest time.
  */
  function MeetAll(fs: set<Antichain>): (r: Antichain)
    ensures r.Empty? <==> forall f :: f in fs ==> f.Empty?
    ensures r.Singleton? ==> r in fs
    ensures forall f :: f in fs ==> Le(r, f)
    ensures forall c :: (forall f :: f in fs ==> Le(c, f)) ==> Le(c, r)
  {
    var ts := TimesOf(fs);
    if ts == {} then Empty
    else
      var m := MinOf(ts);
      assert Singleton(m) in fs;
      Singleton(m)
  }

  lemma JoinAllInsert(fs: set<Antichain>, f: Antichain)
    ensures JoinAll(fs + {f}) == Join(JoinAll(fs), f)
  {
    var a, j, b := JoinAll(fs + {f}), JoinAll(fs), Join(JoinAll(fs), f);
    forall g | g in fs ensures Le(g, a) {
      assert g in fs + {f};
    }
    assert Le(j, a);
    assert Le(f, a);
    assert Le(b, a);
    forall g | g in fs + {f} ensures Le(g, b) {
      if g in fs {
        LeTransitive(g, j, b);
      }
    }
    assert Le(a, b);
    LeAntisymmetric(a, b);
  }

  lemma MeetAllInsert(fs: set<Antichain>, f: Antichain)
    ensures MeetAll(fs + {f}) == Meet(MeetAll(fs), f)
  {
    var a, m, b := MeetAll(fs + {f}), MeetAll(fs), Meet(MeetAll(fs), f);
    forall g | g in fs ensures Le(a, g) {
      assert g in fs + {f};
    }
    assert Le(a, m);
    assert Le(a, f);
    assert Le(a, b);
    forall g | g in fs + {f} ensures Le(b, g) {
      if g in fs {
        LeTransitive(b, m, g);
      }
    }
    assert Le(b, a);
    LeAntisymmetric(a, b);
  }

  /**
    `MutableAntichain`: a count per time. `Valid()` says that times whose count
    has dropped to zero are not stored, as the underlying change batch compacts
    them away.
  */
  datatype MutableAntichain = MutableAntichain(counts: map<Timestamp, int>)
  {
    ghost predicate Valid()
    {
      forall t :: t in counts ==> counts[t] != 0
    }

    function Count(t: Timestamp): int
    {
      if t in counts then counts[t] else 0
    }

    /** Add `diff` to the count of `t`. */
    function Update(t: Timestamp, diff: int): (r: MutableAntichain)
      requires Valid()
      ensures r.Valid()
      ensures r.Count(t) == Count(t) + diff
      ensures forall s :: s != t ==> r.Count(s) == Count(s)
    {
      var c := Count(t) + diff;
      if c == 0 then MutableAntichain(counts - {t}) else MutableAntichain(counts[t := c])
    }

    /** `update_iter(frontier.iter().map(|t| (t, diff)))`. */
    function UpdateIter(f: Antichain, diff: int): (r: MutableAntichain)
      requires Valid()
      ensures r.Valid()
      ensures forall s :: r.Count(s) == Count(s) + (if s in f.Elements() then diff else 0)
    {
      match f
      case Empty => this
      case Singleton(t) => Update(t, diff)
    }

    /** The times with a positive count. */
    function PositiveTimes(): (ts: set<Timestamp>)
      ensures forall t :: t in ts <==> Count(t) > 0
    {
      set t | t in counts && counts[t] > 0
    }

    /** `MutableAntichain::frontier`: the minimal times with a positive count. */
    function Frontier(): (r: Antichain)
      ensures r.Empty? <==> forall t :: Count(t) <= 0
      ensures r.Singleton? ==> Count(r.elem) > 0 && forall t :: Count(t) > 0 ==> r.elem <= t
    {
      var ts := PositiveTimes();
      if ts == {} then Empty else Singleton(MinOf(ts))
    }
  }

  /** Compacted count maps are equal exactly when they count every time alike. */
  lemma CountExtensional(a: MutableAntichain, b: MutableAntichain)
    requires a.Valid() && b.Valid()
    requires forall t :: a.Count(t) == b.Count(t)
    ensures a == b
  {
    assert a.counts.Keys == b.counts.Keys by {
      forall t | t in a.counts ensures t in b.counts {
        assert a.Count(t) == b.Count(t);
      }
      forall t | t in b.counts ensures t in a.counts {
        assert a.Count(t) == b.Count(t);
      }
    }
    forall t | t in a.counts ensures a.counts[t] == b.counts[t] {
      assert a.Count(t) == b.Count(t);
    }
  }

  /** The frontier is `{m}` when `m` is the earliest time with a positive count. */
  lemma SingletonFrontier(a: MutableAntichain, m: Timestamp)
    requires a.Count(m) > 0 && forall t :: a.Count(t) > 0 ==> m <= t
    ensures a.Frontier() == Singleton(m)
  {
  }

  /** `MutableAntichain::new` followed by `update_iter([(t, n)])`. */
  function MutableFrom(t: Timestamp, n: nat): (r: MutableAntichain)
    ensures r.Valid()
    ensures r.Count(t) == n && forall s :: s != t ==> r.Count(s) == 0
  {
    MutableAntichain(map[]).Update(t, n)
  }
}
