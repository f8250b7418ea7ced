/** Option, as the source's `None`-or-value lookups need it. */
module Wrappers {
  datatype Option<+T> = None | Some(value: T) {
    function GetOr(default: T): T
    {
      match this
      case Some(v) => v
      case None => default
    }
  }
}

/** A Python dict keyed by user name: a map whose keys also remember the
    order in which they were first inserted (what `list(d.keys())` and
    iteration return). */
module Dicts {
  import opened Wrappers

  /** The elements of s that are not in gone, in order. */
  function Drop(s: seq<string>, gone: set<string>): seq<string>
  {
    if s == [] then []
    else (if s[0] in gone then [] else [s[0]]) + Drop(s[1..], gone)
  }

  /** Dropping keeps exactly the elements that are not in gone. */
  lemma {:induction false} DropMembers(s: seq<string>, gone: set<string>)
    ensures forall x :: x in Drop(s, gone) <==> x in s && x !in gone
    ensures |Drop(s, gone)| <= |s|
  {
    if s != [] {
      DropMembers(s[1..], gone);
      assert s == [s[0]] + s[1..];
    }
  }

  /** No name occurs twice. */
  predicate Distinct(s: seq<string>)
  {
    s == [] || (s[0] !in s[1..] && Distinct(s[1..]))
  }

  /** Appending a name that does not occur keeps the names distinct. */
  lemma {:induction false} DistinctSnoc(s: seq<string>, x: string)
    requires Distinct(s) && x !in s
    ensures Distinct(s + [x])
  {
    if s != [] {
      DistinctSnoc(s[1..], x);
      assert (s + [x])[1..] == s[1..] + [x];
    }
  }

  lemma {:induction false} DropDistinct(s: seq<string>, gone: set<string>)
    requires Distinct(s)
    ensures Distinct(Drop(s, gone))
  {
    if s != [] {
      DropDistinct(s[1..], gone);
      DropMembers(s[1..], gone);
      var r := Drop(s, gone);
      if s[0] !in gone {
        assert r == [s[0]] + Drop(s[1..], gone);
        assert r[0] == s[0] && r[1..] == Drop(s[1..], gone);
        assert s[0] !in r[1..];
      } else {
        assert r == Drop(s[1..], gone);
      }
    }
  }

  /** Dropping in two rounds drops the union. */
  lemma {:induction false} DropDrop(s: seq<string>, a: set<string>, b: set<string>)
    ensures Drop(Drop(s, a), b) == Drop(s, a + b)
  {
    if s != [] {
      DropDrop(s[1..], a, b);
      if s[0] !in a {
        var t := Drop(s, a);
        assert t == [s[0]] + Drop(s[1..], a);
        assert t[0] == s[0] && t[1..] == Drop(s[1..], a);
        assert Drop(t, b) == (if s[0] in b then [] else [s[0]]) + Drop(t[1..], b);
        assert Drop(s, a + b) == (if s[0] in b then [] else [s[0]]) + Drop(s[1..], a + b);
      } else {
        assert Drop(s, a) == Drop(s[1..], a);
        assert Drop(s, a + b) == Drop(s[1..], a + b);
      }
    }
  }

  /** Dropping names that do not occur changes nothing. */
  lemma {:induction false} DropNothing(s: seq<string>, gone: set<string>)
    requires forall x :: x in s ==> x !in gone
    ensures Drop(s, gone) == s
  {
    if s != [] {
      DropNothing(s[1..], gone);
      assert s == [s[0]] + s[1..];
    }
  }

  datatype Dict<V> = Dict(order: seq<string>, entries: map<string, V>) {

    ghost predicate Valid()
    {
      Distinct(order) && (forall k :: k in entries <==> k in order)
    }

    /** d[k] = v: a new key goes to the end, an existing key keeps its place. */
    function Put(k: string, v: V): (r: Dict<V>)
    {
      if k in entries then Dict(order, entries[k := v])
      else Dict(order + [k], entries[k := v])
    }

    /** del d[k] for each k in gone that is present. */
    function RemoveAll(gone: set<string>): (r: Dict<V>)
    {
      Dict(Drop(order, gone), entries - gone)
    }

    function Get(k: string): Option<V>
    {
      if k in entries then Some(entries[k]) else None
    }
  }

  /** Storing keeps the dict well formed, makes k map to v, leaves every other
      key alone, and appends k to the order only when it was new. */
  lemma PutSpec<V>(d: Dict<V>, k: string, v: V)
    requires d.Valid()
    ensures d.Put(k, v).Valid()
    ensures k in d.Put(k, v).entries && d.Put(k, v).entries[k] == v
    ensures forall x :: x != k ==> d.Put(k, v).Get(x) == d.Get(x)
    ensures d.Put(k, v).order == if k in d.entries then d.order else d.order + [k]
  {
    if k !in d.entries {
      DistinctSnoc(d.order, k);
    }
  }

  /** Removal keeps the dict well formed and deletes exactly the keys in gone. */
  lemma RemoveAllSpec<V>(d: Dict<V>, gone: set<string>)
    requires d.Valid()
    ensures d.RemoveAll(gone).Valid()
    ensures forall x :: x in d.RemoveAll(gone).entries <==> x in d.entries && x !in gone
    ensures forall x :: x !in gone ==> d.RemoveAll(gone).Get(x) == d.Get(x)
  {
    DropDistinct(d.order, gone);
    DropMembers(d.order, gone);
  }

  /** Removing in two rounds removes the union; removing absent keys is a no-op. */
  lemma RemoveAllTwice<V>(d: Dict<V>, a: set<string>, b: set<string>)
    ensures d.RemoveAll(a).RemoveAll(b) == d.RemoveAll(a + b)
  {
    DropDrop(d.order, a, b);
    assert d.entries - a - b == d.entries - (a + b);
  }

  lemma RemoveAbsent<V>(d: Dict<V>, gone: set<string>)
    requires d.Valid()
    requires forall x :: x in gone ==> x !in d.entries
    ensures d.RemoveAll(gone) == d
  {
    DropNothing(d.order, gone);
    assert d.entries - gone == d.entries;
  }
}
