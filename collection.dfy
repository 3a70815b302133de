/** The Collection: an ordered list of distinct sources that is changed in
    place by `add` and `remove`, indexed and iterated like a list, and that
    passes `move`, `rotate` and `reset_path` on to every member in order. */
module Collections {
  import opened Wrappers
  import opened Geometry
  import opened Objects
  import opened Seqs
  import opened PathAlign

  /** The position of the first occurrence of `x`. */
  function FirstIndex(s: seq<MagObject>, x: MagObject): (i: nat)
    requires x in s
    ensures i < |s| && s[i] == x
    ensures forall j :: 0 <= j < i ==> s[j] != x
  {
    if s[0] == x then 0 else 1 + FirstIndex(s[1..], x)
  }

  /** The first occurrence is the position before which `x` does not occur. */
  lemma FirstIndexIs(s: seq<MagObject>, x: MagObject, i: nat)
    requires i < |s| && s[i] == x
    requires forall j :: 0 <= j < i ==> s[j] != x
    ensures FirstIndex(s, x) == i
  {
  }

  /** The elements of `r` occur in `s`, in the order of their first
      occurrences in `s`. */
  ghost predicate InOrder(r: seq<MagObject>, s: seq<MagObject>) {
    forall a, b :: 0 <= a < b < |r| ==> Precedes(s, r[a], r[b])
  }

  /** `y` occurs in `s` for the first time before `z` does. */
  ghost predicate Precedes(s: seq<MagObject>, y: MagObject, z: MagObject) {
    y in s && z in s && FirstIndex(s, y) < FirstIndex(s, z)
  }

  /** A list without duplicates is left as it is. */
  lemma {:induction false} DedupNoOp(s: seq<MagObject>)
    requires Distinct(s)
    ensures Dedup(s) == s
  {
    if s != [] {
      var p := s[..|s| - 1];
      var x := Last(s);
      assert s == p + [x];
      assert forall j :: 0 <= j < |p| ==> p[j] == s[j] != x;
      DedupNoOp(p);
      DedupSnoc(p, x);
    }
  }

  /** Eliminating duplicates twice is eliminating them once. */
  lemma DedupIdempotent(s: seq<MagObject>)
    ensures Dedup(Dedup(s)) == Dedup(s)
  {
    DedupNoOp(Dedup(s));
  }

  /** One step of the elimination: an object at the end is kept exactly when
      it has not been seen before. */
  lemma DedupSnoc(p: seq<MagObject>, x: MagObject)
    ensures Dedup(p + [x]) == if x in Dedup(p) then Dedup(p) else Dedup(p) + [x]
  {
    assert (p + [x])[..|p|] == p;
  }

  /** Appending objects and then eliminating duplicates keeps the
      deduplicated front part of the list where it was. */
  lemma {:induction false} DedupPrefix(a: seq<MagObject>, b: seq<MagObject>)
    ensures |Dedup(a)| <= |Dedup(a + b)|
    ensures Dedup(a + b)[..|Dedup(a)|] == Dedup(a)
  {
    if b == [] {
      assert a + b == a;
    } else {
      var b0, x := b[..|b| - 1], Last(b);
      assert a + b == (a + b0) + [x] by {
        assert b == b0 + [x];
      }
      DedupPrefix(a, b0);
      DedupSnoc(a + b0, x);
      var r0, d := Dedup(a + b0), |Dedup(a)|;
      assert (r0 + [x])[..d] == r0[..d];
    }
  }

  /** The kept objects are in the order of their first occurrences. */
  lemma {:induction false} DedupOrder(s: seq<MagObject>)
    ensures InOrder(Dedup(s), s)
  {
    if s != [] {
      var p := s[..|s| - 1];
      var x := Last(s);
      DedupOrder(p);
      assert s == p + [x];
      var r := Dedup(p);
      if x in r {
        InOrderWiden(r, p, x);
      } else {
        assert x !in p;
        InOrderExtend(r, p, x);
      }
    }
  }

  lemma InOrderAt(r: seq<MagObject>, s: seq<MagObject>, a: nat, b: nat)
    requires InOrder(r, s) && a < b < |r|
    ensures r[a] in s && r[b] in s && FirstIndex(s, r[a]) < FirstIndex(s, r[b])
  {
  }

  /** First occurrences in `p` stay first occurrences after appending. */
  lemma FirstIndexSnoc(p: seq<MagObject>, x: MagObject, y: MagObject)
    requires y in p
    ensures y in p + [x] && FirstIndex(p + [x], y) == FirstIndex(p, y)
  {
    FirstIndexIs(p + [x], y, FirstIndex(p, y));
  }

  /** An order of first occurrences survives appending to the list. */
  lemma InOrderWiden(r: seq<MagObject>, p: seq<MagObject>, x: MagObject)
    requires InOrder(r, p)
    ensures InOrder(r, p + [x])
  {
    var s := p + [x];
    forall a, b | 0 <= a < b < |r|
      ensures r[a] in s && r[b] in s && FirstIndex(s, r[a]) < FirstIndex(s, r[b])
    {
      InOrderAt(r, p, a, b);
      FirstIndexSnoc(p, x, r[a]);
      FirstIndexSnoc(p, x, r[b]);
    }
  }

  /** A new element appended to both keeps the order of first occurrences. */
  lemma InOrderExtend(r: seq<MagObject>, p: seq<MagObject>, x: MagObject)
    requires InOrder(r, p) && x !in p
    requires forall t :: 0 <= t < |r| ==> r[t] in p
    ensures InOrder(r + [x], p + [x])
  {
    var s := p + [x];
    FirstIndexIs(s, x, |p|);
    forall a, b | 0 <= a < b < |r + [x]|
      ensures (r + [x])[a] in s && (r + [x])[b] in s
      ensures FirstIndex(s, (r + [x])[a]) < FirstIndex(s, (r + [x])[b])
    {
      assert (r + [x])[a] == r[a];
      FirstIndexSnoc(p, x, r[a]);
      if b < |r| {
        assert (r + [x])[b] == r[b];
        FirstIndexSnoc(p, x, r[b]);
      }
    }
  }

  /** The filter that keeps only the seven source kinds, in order. */
  function OnlySources(s: seq<MagObject>): (r: seq<MagObject>)
    ensures |r| <= |s|
    ensures forall t :: 0 <= t < |r| ==> r[t] in s && IsSourceType(r[t].objectType)
    ensures forall t :: 0 <= t < |s| && IsSourceType(s[t].objectType) ==> s[t] in r
  {
    if s == [] then []
    else
      var p := s[..|s| - 1];
      var r := OnlySources(p);
      assert forall t :: 0 <= t < |p| ==> s[t] == p[t];
      if IsSourceType(Last(s).objectType) then r + [Last(s)] else r
  }

  /** Filtering keeps the relative order, so a list in first-occurrence order
      stays so, and a list without duplicates stays without. */
  lemma {:induction false} OnlySourcesOrder(r: seq<MagObject>, s: seq<MagObject>)
    requires InOrder(r, s)
    ensures InOrder(OnlySources(r), s)
  {
    if r != [] {
      var p := r[..|r| - 1];
      var x := Last(r);
      assert forall t :: 0 <= t < |p| ==> r[t] == p[t];
      assert InOrder(p, s);
      OnlySourcesOrder(p, s);
      var f := OnlySources(p);
      if IsSourceType(x.objectType) {
        forall a, b | 0 <= a < b < |f + [x]|
          ensures (f + [x])[a] in s && (f + [x])[b] in s
          ensures FirstIndex(s, (f + [x])[a]) < FirstIndex(s, (f + [x])[b])
        {
          if b == |f| {
            var j :| 0 <= j < |p| && p[j] == f[a];
            assert r[j] == f[a] && r[|r| - 1] == x;
          }
        }
      }
    }
  }

  lemma OnlySourcesDistinct(r: seq<MagObject>)
    requires Distinct(r)
    ensures Distinct(OnlySources(r))
  {
    assert InOrder(r, r) by {
      forall a, b | 0 <= a < b < |r|
        ensures r[a] in r && r[b] in r && FirstIndex(r, r[a]) < FirstIndex(r, r[b])
      {
        FirstIndexIs(r, r[a], a);
        FirstIndexIs(r, r[b], b);
      }
    }
    OnlySourcesOrder(r, r);
  }

  /** What the `sources` setter stores: a reordering-free, duplicate-free
      list of exactly the given objects of a source kind. */
  function Formatted(s: seq<MagObject>): (r: seq<MagObject>)
  {
    OnlySources(Dedup(s))
  }

  lemma FormattedFacts(s: seq<MagObject>)
    ensures Distinct(Formatted(s))
    ensures forall t :: 0 <= t < |Formatted(s)| ==> IsSourceType(Formatted(s)[t].objectType)
    ensures forall t :: 0 <= t < |s| && IsSourceType(s[t].objectType) ==> s[t] in Formatted(s)
    ensures InOrder(Formatted(s), s)
  {
    OnlySourcesDistinct(Dedup(s));
    DedupOrder(s);
    OnlySourcesOrder(Dedup(s), s);
  }

  /** Python's `list.remove`: the list without the first occurrence of `x`. */
  function RemoveFirst(s: seq<MagObject>, x: MagObject): (r: seq<MagObject>)
    requires x in s
    ensures |r| == |s| - 1
  {
    var i := FirstIndex(s, x);
    s[..i] + s[i + 1..]
  }

  /** In a list without duplicates, removing `x` leaves every other member,
      in the same order, and nothing else. */
  lemma RemoveFirstFacts(s: seq<MagObject>, x: MagObject)
    requires x in s && Distinct(s)
    ensures Distinct(RemoveFirst(s, x))
    ensures forall y :: y in RemoveFirst(s, x) <==> y in s && y != x
    ensures InOrder(RemoveFirst(s, x), s)
  {
    var i := FirstIndex(s, x);
    var r := RemoveFirst(s, x);
    assert forall t :: 0 <= t < i ==> r[t] == s[t];
    assert forall t :: i <= t < |r| ==> r[t] == s[t + 1];
    forall y ensures y in r <==> y in s && y != x {
      if y in s && y != x {
        var j :| 0 <= j < |s| && s[j] == y;
        assert j != i;
        if j < i {
          assert r[j] == y;
        } else {
          assert r[j - 1] == y;
        }
      }
    }
    forall a, b | 0 <= a < b < |r|
      ensures r[a] in s && r[b] in s && FirstIndex(s, r[a]) < FirstIndex(s, r[b])
    {
      var a' := if a < i then a else a + 1;
      var b' := if b < i then b else b + 1;
      FirstIndexIs(s, r[a], a');
      FirstIndexIs(s, r[b], b');
    }
  }

  /** What `add` stores, in the terms of its contract. */
  lemma AddFacts(before: seq<MagObject>, srcs: seq<MagObject>)
    ensures forall x :: x in Dedup(before + srcs) <==> x in before || x in srcs
    ensures Distinct(before) ==>
      |before| <= |Dedup(before + srcs)| && Dedup(before + srcs)[..|before|] == before
    ensures InOrder(Dedup(before + srcs), before + srcs)
  {
    var all := before + srcs;
    var r := Dedup(all);
    forall x ensures x in r <==> x in before || x in srcs {
      assert x in all <==> x in before || x in srcs;
      if x in all {
        var j :| 0 <= j < |all| && all[j] == x;
      }
    }
    DedupPrefix(before, srcs);
    DedupOrder(all);
    if Distinct(before) {
      DedupNoOp(before);
    }
  }

  /** The two paths of an object. */
  datatype Pose = Pose(position: seq<Vec3>, orientation: seq<Quat>)

  class Collection {
    var sources: seq<MagObject>

    /** The members are distinct: every setter keeps this. */
    ghost predicate Valid()
      reads this
    {
      Distinct(sources)
    }

    constructor (srcs: seq<MagObject>)
      ensures sources == Formatted(srcs)
      ensures Valid()
    {
      sources := Formatted(srcs);
      FormattedFacts(srcs);
    }

    /** The `sources` setter: duplicates after the first occurrence and
        objects that are not sources are dropped. */
    method SetSources(srcs: seq<MagObject>)
      modifies this
      ensures sources == Formatted(srcs)
      ensures Valid()
    {
      sources := Formatted(srcs);
      FormattedFacts(srcs);
    }

    /** `add`: the new objects go after the existing ones, then duplicates
        are dropped; the existing members keep their places. No filter for
        source kinds is applied here. */
    method Add(srcs: seq<MagObject>) returns (self: Collection)
      modifies this
      ensures self == this
      ensures sources == Dedup(old(sources) + srcs)
      ensures Valid()
      ensures forall x :: x in sources <==> x in old(sources) || x in srcs
      ensures old(Valid()) ==> |old(sources)| <= |sources| && sources[..|old(sources)|] == old(sources)
      ensures InOrder(sources, old(sources) + srcs)
    {
      AddFacts(sources, srcs);
      sources := Dedup(sources + srcs);
      self := this;
    }

    /** `remove`: the first occurrence of `src` is taken out; an object that
        is not a member raises `ValueError` and changes nothing. */
    method Remove(src: MagObject) returns (r: Result<Collection>)
      modifies this
      ensures src in old(sources) ==> r == Ok(this) && sources == RemoveFirst(old(sources), src)
      ensures src !in old(sources) ==> r == Err(ValueError) && sources == old(sources)
      ensures old(Valid()) ==> Valid()
      ensures old(Valid()) ==> forall x :: x in sources <==> x in old(sources) && x != src
      ensures src in old(sources) && old(Valid()) ==> InOrder(sources, old(sources))
    {
      if src !in sources {
        return Err(ValueError);
      }
      if Valid() {
        RemoveFirstFacts(sources, src);
      }
      sources := RemoveFirst(sources, src);
      r := Ok(this);
    }

    /** `col + src`: `add` and the same Collection back. */
    method Plus(srcs: seq<MagObject>) returns (self: Collection)
      modifies this
      ensures self == this
      ensures sources == Dedup(old(sources) + srcs)
    {
      self := Add(srcs);
    }

    /** `col - src`: `remove` and the same Collection back. */
    method Minus(src: MagObject) returns (r: Result<Collection>)
      modifies this
      ensures src in old(sources) ==> r == Ok(this) && sources == RemoveFirst(old(sources), src)
      ensures src !in old(sources) ==> r == Err(ValueError) && sources == old(sources)
    {
      r := Remove(src);
    }

    /** Iteration yields the members in their stored order. */
    function Iter(): (r: seq<MagObject>)
      reads this
      ensures |r| == |sources| && forall t :: 0 <= t < |r| ==> GetItem(t) == Ok(r[t])
    {
      sources
    }

    /** Indexing as for a Python list: a negative index counts from the end,
        and anything outside raises `IndexError`. */
    function GetItem(i: int): (r: Result<MagObject>)
      reads this
      ensures r.Ok? <==> -|sources| <= i < |sources|
      ensures r.Err? ==> r.error == IndexError
      ensures r.Ok? ==> r.value in sources
    {
      if 0 <= i < |sources| then Ok(sources[i])
      else if -|sources| <= i < 0 then Ok(sources[|sources| + i])
      else Err(IndexError)
    }

    /** The `move` and `rotate` loops: each member, in iteration order, is
        given the paths that the member's own operation `op` computes from
        its current paths. The member list itself does not change. */
    method ForEach(op: Pose -> Pose) returns (self: Collection)
      requires Valid()
      modifies sources
      ensures self == this && sources == old(sources)
      ensures forall t :: 0 <= t < |sources| ==>
        Pose(sources[t].position, sources[t].orientation)
        == op(Pose(old(sources[t].position), old(sources[t].orientation)))
    {
      var items := Iter();
      for u := 0 to |items|
        invariant forall w :: u <= w < |items| ==> unchanged(items[w])
        invariant forall w :: 0 <= w < u ==>
          Pose(items[w].position, items[w].orientation)
          == op(Pose(old(items[w].position), old(items[w].orientation)))
      {
        var s := items[u];
        var next := op(Pose(s.position, s.orientation));
        s.position := next.position;
        s.orientation := next.orientation;
      }
      self := this;
    }

    /** `reset_path`: every member is put back to the origin with the unit
        rotation, a path of one step. */
    method ResetPath() returns (self: Collection)
      modifies sources
      ensures self == this && sources == old(sources)
      ensures forall t :: 0 <= t < |sources| ==>
        sources[t].position == [Zero] && sources[t].orientation == [UnitQuat]
      ensures ValidPaths(sources)
      ensures |sources| > 0 ==> MaxPathLength(PathLengths(sources)) == 1
    {
      var items := Iter();
      for u := 0 to |items|
        invariant forall w :: 0 <= w < u ==>
          items[w].position == [Zero] && items[w].orientation == [UnitQuat]
      {
        var s := items[u];
        s.position := [Zero];
        s.orientation := [UnitQuat];
      }
      self := this;
    }
  }

  /** Indexing from the end reaches the same members as indexing from the
      front. */
  lemma GetItemFromEnd(c: Collection, t: int)
    requires 0 <= t < |c.sources|
    ensures c.GetItem(t - |c.sources|) == c.GetItem(t) == Ok(c.Iter()[t])
  {
  }
}
