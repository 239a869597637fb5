/** The list updates the pages repeat: `list.filter((item) => item !== v)`,
    the toggle `list.includes(v) ? filter : [...list, v]`, the append that keeps
    a list free of duplicates, and the searches `list.find(p)` and `list.filter(p)`. */
module Lists {
  import opened Common

  /** `list.filter((item) => item !== v)`. */
  function RemoveAll<T(==)>(list: seq<T>, v: T): (r: seq<T>)
    ensures v !in r
    ensures |r| <= |list|
    ensures multiset(r) == multiset(list)[v := 0]
    ensures v !in list ==> r == list
  {
    if list == [] then []
    else
      assert list == [list[0]] + list[1..];
      assert multiset(list) == multiset{list[0]} + multiset(list[1..]);
      if list[0] == v then RemoveAll(list[1..], v)
      else [list[0]] + RemoveAll(list[1..], v)
  }

  /** The filter keeps the order of what it keeps: it distributes over concatenation. */
  lemma {:induction false} RemoveAllAppend<T>(a: seq<T>, b: seq<T>, v: T)
    ensures RemoveAll(a + b, v) == RemoveAll(a, v) + RemoveAll(b, v)
  {
    if a != [] {
      assert (a + b)[0] == a[0] && (a + b)[1..] == a[1..] + b;
      RemoveAllAppend(a[1..], b, v);
    } else {
      assert a + b == b;
    }
  }

  /** The toggle of a checkbox list: a present value leaves with all its occurrences,
      an absent one is appended at the end. */
  function Toggle<T(==)>(list: seq<T>, v: T): (r: seq<T>)
    ensures v in r <==> v !in list
    ensures v in list ==> multiset(r) == multiset(list)[v := 0]
    ensures v !in list ==> r == list + [v]
    ensures multiset(r)[v := 0] == multiset(list)[v := 0]
  {
    if v in list then RemoveAll(list, v) else list + [v]
  }

  /** Toggling an absent value twice gives the list back. */
  lemma {:induction false} ToggleTwiceAbsent<T>(list: seq<T>, v: T)
    requires v !in list
    ensures Toggle(Toggle(list, v), v) == list
  {
    RemoveAllAppend(list, [v], v);
  }

  /** Toggling a value present once, twice, moves it to the end. */
  lemma {:induction false} ToggleTwicePresent<T>(list: seq<T>, v: T)
    requires v in list
    ensures Toggle(Toggle(list, v), v) == RemoveAll(list, v) + [v]
  {
  }

  /** `prev.includes(v) ? prev : [...prev, v]`. */
  function AppendIfAbsent<T(==)>(list: seq<T>, v: T): (r: seq<T>)
    ensures v in r
    ensures v in list ==> r == list
    ensures v !in list ==> r == list + [v]
    ensures NoDuplicates(list) ==> NoDuplicates(r)
  {
    if v in list then list else list + [v]
  }

  predicate NoDuplicates<T(==)>(list: seq<T>) {
    forall i, j :: 0 <= i < j < |list| ==> list[i] != list[j]
  }

  /** Removing keeps a list free of duplicates. */
  lemma {:induction false} RemoveAllNoDuplicates<T>(list: seq<T>, v: T)
    requires NoDuplicates(list)
    ensures NoDuplicates(RemoveAll(list, v))
  {
    if list != [] {
      RemoveAllNoDuplicates(list[1..], v);
      var rest := RemoveAll(list[1..], v);
      assert list[0] !in list[1..];
      assert multiset(rest)[list[0]] == 0;
      assert list[0] !in rest;
    }
  }

  /** The position of the element `list.find(p)` returns: the first one satisfying `p`. */
  function FindFirst<T>(list: seq<T>, p: T -> bool): (r: Option<nat>)
    ensures r.Some? ==> r.value < |list| && p(list[r.value])
                        && forall j :: 0 <= j < r.value ==> !p(list[j])
    ensures r.None? <==> forall j :: 0 <= j < |list| ==> !p(list[j])
  {
    if list == [] then None
    else if p(list[0]) then Some(0)
    else
      var rest := FindFirst(list[1..], p);
      assert forall j :: 1 <= j < |list| ==> list[j] == list[1..][j - 1];
      if rest.Some? then Some(rest.value + 1) else None
  }

  /** `list.filter(p)`: the elements satisfying `p`, in order. */
  function Filter<T(!new)>(list: seq<T>, p: T -> bool): (r: seq<T>)
    ensures |r| <= |list|
    ensures forall x :: x in r <==> x in list && p(x)
  {
    if list == [] then []
    else if p(list[0]) then [list[0]] + Filter(list[1..], p)
    else Filter(list[1..], p)
  }

  /** `filter` keeps the order of what it keeps: it distributes over concatenation, and a
      single element is kept exactly when it satisfies `p`. */
  lemma {:induction false} FilterAppend<T(!new)>(a: seq<T>, b: seq<T>, p: T -> bool)
    ensures Filter(a + b, p) == Filter(a, p) + Filter(b, p)
  {
    if a != [] {
      assert (a + b)[0] == a[0] && (a + b)[1..] == a[1..] + b;
      FilterAppend(a[1..], b, p);
    } else {
      assert a + b == b;
    }
  }

  lemma FilterSingle<T(!new)>(x: T, p: T -> bool)
    ensures Filter([x], p) == if p(x) then [x] else []
  {
  }

  /** Deleting the one element that satisfies `p` leaves none that does. */
  lemma RemoveOnlyMatch<T>(list: seq<T>, j: nat, rest: seq<T>, p: T -> bool)
    requires j < |list| && rest == list[..j] + list[j + 1..]
    requires forall k :: 0 <= k < |list| && k != j ==> !p(list[k])
    ensures forall k :: 0 <= k < |rest| ==> !p(rest[k])
  {
    forall k | 0 <= k < |rest| ensures !p(rest[k]) {
      var i := if k < j then k else k + 1;
      assert rest[k] == list[i];
    }
  }
}
