/**
 * The three list rebuilds every store uses on its arrays of flat records,
 * generic over the record type and over the field that is compared:
 *  - `Without`: `list.filter(x => key(x) !== id)` (delete, cascade),
 *  - `Patch`:   `list.map(x => key(x) === id ? f(x) : x)` (update),
 *  - `FindFirst`: `list.find(x => key(x) === id)` (parent lookups),
 * and `Only`, the complementary filter `key(x) === id`.
 */
module Keyed {
  import opened Common

  /** The elements whose key is `id`, in their original order. */
  function Only<T>(s: seq<T>, key: T -> string, id: string): (r: seq<T>)
    ensures |r| <= |s|
    ensures forall i :: 0 <= i < |r| ==> key(r[i]) == id
    ensures forall i :: 0 <= i < |r| ==> r[i] in s
    ensures forall i :: 0 <= i < |s| && key(s[i]) == id ==> s[i] in r
  {
    if s == [] then []
    else (if key(s[0]) == id then [s[0]] else []) + Only(s[1..], key, id)
  }

  /** The elements whose key is not `id`, in their original order. */
  function Without<T>(s: seq<T>, key: T -> string, id: string): (r: seq<T>)
    ensures |r| <= |s|
    ensures forall i :: 0 <= i < |r| ==> key(r[i]) != id
    ensures forall i :: 0 <= i < |r| ==> r[i] in s
    ensures forall i :: 0 <= i < |s| && key(s[i]) != id ==> s[i] in r
  {
    if s == [] then []
    else (if key(s[0]) == id then [] else [s[0]]) + Without(s[1..], key, id)
  }

  /** Filtering distributes over concatenation: whatever precedes an
      element before the filter still precedes it afterwards. */
  lemma {:induction false} WithoutAppend<T>(a: seq<T>, b: seq<T>, key: T -> string, id: string)
    ensures Without(a + b, key, id) == Without(a, key, id) + Without(b, key, id)
  {
    if a == [] {
      assert a + b == b;
    } else {
      assert (a + b)[1..] == a[1..] + b;
      WithoutAppend(a[1..], b, key, id);
      var head := if key(a[0]) == id then [] else [a[0]];
      calc {
        Without(a + b, key, id);
        head + Without(a[1..] + b, key, id);
        head + (Without(a[1..], key, id) + Without(b, key, id));
        (head + Without(a[1..], key, id)) + Without(b, key, id);
      }
    }
  }

  /** Removing an id that no element carries leaves the list as it was. */
  lemma {:induction false} WithoutAbsent<T>(s: seq<T>, key: T -> string, id: string)
    requires forall i :: 0 <= i < |s| ==> key(s[i]) != id
    ensures Without(s, key, id) == s
  {
    if s != [] {
      WithoutAbsent(s[1..], key, id);
    }
  }

  /** Removing the same id twice is the same as removing it once. */
  lemma WithoutIdempotent<T>(s: seq<T>, key: T -> string, id: string)
    ensures Without(Without(s, key, id), key, id) == Without(s, key, id)
  {
    WithoutAbsent(Without(s, key, id), key, id);
  }

  /** Removing `id` keeps every other key's elements, in their order:
      the sub-list of elements with any other key `k` is untouched. */
  lemma {:induction false} WithoutKeepsOthers<T>(s: seq<T>, key: T -> string, id: string, k: string)
    requires k != id
    ensures Only(Without(s, key, id), key, k) == Only(s, key, k)
  {
    if s != [] {
      WithoutKeepsOthers(s[1..], key, id, k);
      var head := if key(s[0]) == id then [] else [s[0]];
      assert Without(s, key, id) == head + Without(s[1..], key, id);
      OnlyAppend(head, Without(s[1..], key, id), key, k);
    }
  }

  lemma {:induction false} OnlyAppend<T>(a: seq<T>, b: seq<T>, key: T -> string, id: string)
    ensures Only(a + b, key, id) == Only(a, key, id) + Only(b, key, id)
  {
    if a == [] {
      assert a + b == b;
    } else {
      assert (a + b)[1..] == a[1..] + b;
      OnlyAppend(a[1..], b, key, id);
      var head := if key(a[0]) == id then [a[0]] else [];
      calc {
        Only(a + b, key, id);
        head + Only(a[1..] + b, key, id);
        head + (Only(a[1..], key, id) + Only(b, key, id));
        (head + Only(a[1..], key, id)) + Only(b, key, id);
      }
    }
  }

  /** `Only` and `Without` split a list: together they hold every element
      exactly as often as the list does, so a delete removes exactly the
      elements that carry the id and nothing else. */
  lemma {:induction false} Partition<T>(s: seq<T>, key: T -> string, id: string)
    ensures multiset(Only(s, key, id)) + multiset(Without(s, key, id)) == multiset(s)
    ensures |Only(s, key, id)| + |Without(s, key, id)| == |s|
  {
    if s != [] {
      Partition(s[1..], key, id);
      assert s == [s[0]] + s[1..];
    }
  }

  /** The list with `f` applied to each element whose key is `id`: the same
      length, the matching positions rewritten, all others unchanged. */
  function Patch<T>(s: seq<T>, key: T -> string, id: string, f: T -> T): (r: seq<T>)
    ensures |r| == |s|
    ensures forall i :: 0 <= i < |s| ==> r[i] == if key(s[i]) == id then f(s[i]) else s[i]
  {
    if s == [] then []
    else [if key(s[0]) == id then f(s[0]) else s[0]] + Patch(s[1..], key, id, f)
  }

  /** Updating an id that no element carries leaves the list as it was. */
  lemma PatchAbsent<T>(s: seq<T>, key: T -> string, id: string, f: T -> T)
    requires forall i :: 0 <= i < |s| ==> key(s[i]) != id
    ensures Patch(s, key, id, f) == s
  {
  }

  /** The first element whose key is `id`, or `None` when there is none. */
  function FindFirst<T>(s: seq<T>, key: T -> string, id: string): (r: Option<T>)
    ensures r.None? <==> forall i :: 0 <= i < |s| ==> key(s[i]) != id
    ensures r.Some? ==> exists i :: 0 <= i < |s| && s[i] == r.value && IsFirst(s, key, id, i)
  {
    if s == [] then None
    else if key(s[0]) == id then Some(s[0])
    else
      var rest := FindFirst(s[1..], key, id);
      assert rest.Some? ==> exists i :: 0 <= i < |s| && s[i] == rest.value && IsFirst(s, key, id, i) by {
        if rest.Some? {
          var j :| 0 <= j < |s| - 1 && s[1..][j] == rest.value && IsFirst(s[1..], key, id, j);
          assert IsFirst(s, key, id, j + 1);
        }
      }
      rest
  }

  /** Position `i` holds the first element whose key is `id`. */
  predicate IsFirst<T>(s: seq<T>, key: T -> string, id: string, i: int)
  {
    0 <= i < |s| && key(s[i]) == id && forall j :: 0 <= j < i ==> key(s[j]) != id
  }

  /** Only one position can be the first match. */
  lemma FirstIsUnique<T>(s: seq<T>, key: T -> string, id: string, i: int, j: int)
    requires IsFirst(s, key, id, i) && IsFirst(s, key, id, j)
    ensures i == j
  {
  }

  /** `find` returns the head of the filtered list: the two views of
      "the first record with this id" agree. */
  lemma {:induction false} FindFirstIsHeadOfOnly<T>(s: seq<T>, key: T -> string, id: string)
    ensures FindFirst(s, key, id) == if Only(s, key, id) == [] then None else Some(Only(s, key, id)[0])
  {
    if s != [] && key(s[0]) != id {
      FindFirstIsHeadOfOnly(s[1..], key, id);
    }
  }

  /** `list.find(x => key(x) === id)?.name || ''`: the name of the first
      element with that key, or the empty string when there is none. */
  function NameOf<T>(s: seq<T>, key: T -> string, name: T -> string, id: string): (r: string)
    ensures (forall i :: 0 <= i < |s| ==> key(s[i]) != id) ==> r == ""
    ensures forall i :: IsFirst(s, key, id, i) ==> r == name(s[i])
  {
    match FindFirst(s, key, id)
    case Some(x) =>
      assert forall i :: IsFirst(s, key, id, i) ==> x == s[i] by {
        var k :| 0 <= k < |s| && s[k] == x && IsFirst(s, key, id, k);
        forall i | IsFirst(s, key, id, i) ensures x == s[i] {
          FirstIsUnique(s, key, id, i, k);
        }
      }
      name(x)
    case None => ""
  }

  /** Every child's reference `cref` names some parent's key: the
      parent-child links of a denormalised hierarchy all resolve. */
  ghost predicate Resolves<P, C>(parents: seq<P>, pkey: P -> string, children: seq<C>, cref: C -> string)
  {
    forall j :: 0 <= j < |children| ==> FindFirst(parents, pkey, cref(children[j])).Some?
  }

  /** Every child's cached parent name is the name of the first parent its
      reference finds, as the pages' lookup computed it when it was saved. */
  ghost predicate CachedNamesAgree<P, C>(
    parents: seq<P>, pkey: P -> string, pname: P -> string,
    children: seq<C>, cref: C -> string, cname: C -> string)
  {
    forall j :: 0 <= j < |children| ==> cname(children[j]) == NameOf(parents, pkey, pname, cref(children[j]))
  }

  /** Deleting a parent without a cascade orphans its children: once the
      parent's key is gone, a child that referenced it resolves to nothing. */
  lemma DeleteWithoutCascadeOrphans<P, C>(
    parents: seq<P>, pkey: P -> string, children: seq<C>, cref: C -> string, id: string, j: int)
    requires 0 <= j < |children| && cref(children[j]) == id
    ensures !Resolves(Without(parents, pkey, id), pkey, children, cref)
  {
  }

  /** Deleting a parent together with every child that references it (a
      cascade) keeps the remaining links resolving. */
  lemma CascadeKeepsLinks<P, C>(
    parents: seq<P>, pkey: P -> string, children: seq<C>, cref: C -> string, id: string)
    requires Resolves(parents, pkey, children, cref)
    ensures Resolves(Without(parents, pkey, id), pkey, Without(children, cref, id), cref)
  {
    var ps, cs := Without(parents, pkey, id), Without(children, cref, id);
    forall j | 0 <= j < |cs|
      ensures FindFirst(ps, pkey, cref(cs[j])).Some?
    {
      var c := cs[j];
      var j0 :| 0 <= j0 < |children| && children[j0] == c;
      assert FindFirst(parents, pkey, cref(children[j0])).Some?;
      var i0 :| 0 <= i0 < |parents| && pkey(parents[i0]) == cref(c);
      assert parents[i0] in ps;
      var i :| 0 <= i < |ps| && ps[i] == parents[i0];
      assert pkey(ps[i]) == cref(c);
    }
  }

  /** Appending a child whose reference finds a parent, and which carries
      that parent's name, keeps every link resolving and every cached name
      in agreement. */
  lemma AppendKeepsLinks<P, C>(
    parents: seq<P>, pkey: P -> string, pname: P -> string,
    children: seq<C>, cref: C -> string, cname: C -> string, c: C)
    requires Resolves(parents, pkey, children, cref)
    requires CachedNamesAgree(parents, pkey, pname, children, cref, cname)
    requires FindFirst(parents, pkey, cref(c)).Some?
    requires cname(c) == NameOf(parents, pkey, pname, cref(c))
    ensures Resolves(parents, pkey, children + [c], cref)
    ensures CachedNamesAgree(parents, pkey, pname, children + [c], cref, cname)
  {
    var all := children + [c];
    forall j | 0 <= j < |all|
      ensures FindFirst(parents, pkey, cref(all[j])).Some?
      ensures cname(all[j]) == NameOf(parents, pkey, pname, cref(all[j]))
    {
      if j < |children| {
        assert all[j] == children[j];
      }
    }
  }

  /** Appending a child whose reference finds no parent breaks resolution. */
  lemma AppendUnresolvedOrphans<P, C>(parents: seq<P>, pkey: P -> string, children: seq<C>, cref: C -> string, c: C)
    requires FindFirst(parents, pkey, cref(c)).None?
    ensures !Resolves(parents, pkey, children + [c], cref)
  {
    assert (children + [c])[|children|] == c;
  }
}
