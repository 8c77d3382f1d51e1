/** `array.reduce((acc, x) => { if (!acc[k]) acc[k] = []; acc[k].push(x); return acc; }, {})`
    followed by `Object.entries`: the grouping both course screens use. The
    keys come out in the order they were first inserted, which is the order
    `Object.entries` reports for ordinary (non integer-like) string keys. */
module Grouping {
  import opened Common

  /** The distinct keys of s, in order of first occurrence. */
  function Keys<T>(s: seq<T>, key: T -> string): seq<string>
    decreases |s|
  {
    if s == [] then []
    else
      var ks := Keys(s[..|s| - 1], key);
      if key(s[|s| - 1]) in ks then ks else ks + [key(s[|s| - 1])]
  }

  /** The elements of s under key k, in input order. */
  function Group<T>(s: seq<T>, key: T -> string, k: string): seq<T> {
    Filter(s, x => key(x) == k)
  }

  /** The `Object.entries` pairs of the grouped object. */
  function Entries<T>(s: seq<T>, key: T -> string): seq<(string, seq<T>)> {
    var ks := Keys(s, key);
    seq(|ks|, j requires 0 <= j < |ks| => (ks[j], Group(s, key, ks[j])))
  }

  /** The property names a plain object `{}` inherits from
      `Object.prototype`. Reading any of them off the accumulator gives a
      truthy value (a function, or the prototype itself for `__proto__`)
      that has no `push` method. */
  const InheritedKeys: set<string> := {
    "constructor", "hasOwnProperty", "isPrototypeOf", "propertyIsEnumerable",
    "toString", "toLocaleString", "valueOf", "__proto__",
    "__defineGetter__", "__defineSetter__", "__lookupGetter__", "__lookupSetter__"
  }

  /** Reading key k off `{}` finds an inherited property. */
  predicate Inherited(k: string) {
    k in InheritedKeys
  }

  /** The reduce throws a TypeError: for an inherited key `!acc[k]` is false,
      so no array is created, and `acc[k].push` is not a function. */
  predicate ReduceThrows<T>(s: seq<T>, key: T -> string) {
    exists i :: 0 <= i < |s| && Inherited(key(s[i]))
  }

  predicate Distinct(ks: seq<string>) {
    forall a, b :: 0 <= a < b < |ks| ==> ks[a] != ks[b]
  }

  /** The keys are distinct and are exactly the keys of the elements. */
  lemma KeysSpec<T>(s: seq<T>, key: T -> string)
    ensures Distinct(Keys(s, key))
    ensures forall k :: k in Keys(s, key) <==> exists i :: 0 <= i < |s| && key(s[i]) == k
  {
    KeysDistinct(s, key);
    forall k ensures k in Keys(s, key) <==> exists i :: 0 <= i < |s| && key(s[i]) == k {
      KeysMembership(s, key, k);
    }
  }

  lemma {:induction false} KeysDistinct<T>(s: seq<T>, key: T -> string)
    ensures Distinct(Keys(s, key))
    decreases |s|
  {
    if s != [] {
      KeysDistinct(s[..|s| - 1], key);
    }
  }

  lemma {:induction false} KeysMembership<T>(s: seq<T>, key: T -> string, k: string)
    ensures k in Keys(s, key) <==> exists i :: 0 <= i < |s| && key(s[i]) == k
    decreases |s|
  {
    if s != [] {
      var init := s[..|s| - 1];
      var last := s[|s| - 1];
      KeysMembership(init, key, k);
      assert Keys(s, key) == if key(last) in Keys(init, key) then Keys(init, key) else Keys(init, key) + [key(last)];
      if k in Keys(init, key) {
        var i :| 0 <= i < |init| && key(init[i]) == k;
        assert key(s[i]) == k;
      } else if exists i :: 0 <= i < |s| && key(s[i]) == k {
        var i :| 0 <= i < |s| && key(s[i]) == k;
      }
    }
  }

  /** Extending the input by one element. */
  lemma KeysSnoc<T>(s: seq<T>, x: T, key: T -> string)
    ensures Keys(s + [x], key) == if key(x) in Keys(s, key) then Keys(s, key) else Keys(s, key) + [key(x)]
  {
    assert (s + [x])[..|s + [x]| - 1] == s;
  }

  lemma GroupSnoc<T>(s: seq<T>, x: T, key: T -> string, k: string)
    ensures Group(s + [x], key, k) == Group(s, key, k) + (if key(x) == k then [x] else [])
  {
    FilterAppend(s, [x], y => key(y) == k);
    assert Filter([x], y => key(y) == k) == if key(x) == k then [x] else [];
  }

  /** The accumulator after reducing s: each key of s mapped to its group. */
  function GroupMap<T>(s: seq<T>, key: T -> string): map<string, seq<T>> {
    map k | k in Keys(s, key) :: Group(s, key, k)
  }

  /** `if (!acc[k]) acc[k] = []; acc[k].push(x);` on an own key k. */
  function Push<T>(acc: map<string, seq<T>>, k: string, x: T): map<string, seq<T>> {
    var created := if k in acc then acc else acc[k := []];
    created[k := created[k] + [x]]
  }

  /** One step of the reduce: pushing the next element onto the
      accumulator of a prefix gives the accumulator of the longer prefix. */
  lemma GroupMapSnoc<T>(s: seq<T>, x: T, key: T -> string)
    ensures GroupMap(s + [x], key) == Push(GroupMap(s, key), key(x), x)
  {
    var k := key(x);
    var longer := GroupMap(s + [x], key);
    var pushed := Push(GroupMap(s, key), k, x);
    KeysSnoc(s, x, key);
    if k !in Keys(s, key) {
      KeysMembership(s, key, k);
      FilterNone(s, y => key(y) == k);
    }
    assert longer.Keys == pushed.Keys;
    forall j | j in longer ensures longer[j] == pushed[j] {
      GroupSnoc(s, x, key, j);
    }
  }

  /** The accumulator's own keys are the keys read so far. */
  lemma GroupMapHas<T>(s: seq<T>, key: T -> string, k: string)
    ensures k in GroupMap(s, key) <==> k in Keys(s, key)
  {
  }

  /** The accumulator holds exactly the keys, each with its group. */
  lemma GroupMapSpec<T>(s: seq<T>, key: T -> string)
    ensures forall k :: k in GroupMap(s, key) <==> k in Keys(s, key)
    ensures forall k :: k in GroupMap(s, key) ==> GroupMap(s, key)[k] == Group(s, key, k)
  {
  }

  /** The step of the loop below, stated on the prefix read so far. */
  lemma ReduceStep<T>(s: seq<T>, key: T -> string, i: int)
    requires 0 <= i < |s|
    ensures GroupMap(s[..i + 1], key) == Push(GroupMap(s[..i], key), key(s[i]), s[i])
    ensures Keys(s[..i + 1], key) ==
      if key(s[i]) in GroupMap(s[..i], key) then Keys(s[..i], key) else Keys(s[..i], key) + [key(s[i])]
  {
    assert s[..i + 1] == s[..i] + [s[i]];
    GroupMapSnoc(s[..i], s[i], key);
    KeysSnoc(s[..i], s[i], key);
    GroupMapHas(s[..i], key, key(s[i]));
  }

  /** The reduce over the whole input, with the dictionary as a map and the
      insertion order of its keys alongside it. It stops with `thrown` at
      the first element whose key is an inherited property name. */
  method GroupBy<T>(s: seq<T>, key: T -> string) returns (thrown: bool, order: seq<string>, acc: map<string, seq<T>>)
    ensures thrown <==> ReduceThrows(s, key)
    ensures !thrown ==> order == Keys(s, key) && acc == GroupMap(s, key)
  {
    thrown := false;
    order := [];
    acc := map[];
    var i := 0;
    while i < |s|
      invariant 0 <= i <= |s|
      invariant forall j :: 0 <= j < i ==> !Inherited(key(s[j]))
      invariant order == Keys(s[..i], key)
      invariant acc == GroupMap(s[..i], key)
    {
      var k := key(s[i]);
      if Inherited(k) {
        thrown := true;
        return;
      }
      ReduceStep(s, key, i);
      if k !in acc {
        order := order + [k];
      }
      acc := Push(acc, k, s[i]);
      i := i + 1;
    }
    assert s[..|s|] == s;
  }

  /** `Object.entries(acc)` read off the map in key-insertion order, or None
      when the reduce before it threw. */
  method GroupEntries<T>(s: seq<T>, key: T -> string) returns (entries: Option<seq<(string, seq<T>)>>)
    ensures entries.None? <==> ReduceThrows(s, key)
    ensures entries.Some? ==> entries.value == Entries(s, key)
  {
    var thrown, order, acc := GroupBy(s, key);
    if thrown {
      return None;
    }
    GroupMapSpec(s, key);
    var pairs: seq<(string, seq<T>)> := [];
    var j := 0;
    while j < |order|
      invariant 0 <= j <= |order|
      invariant pairs == Entries(s, key)[..j]
    {
      pairs := pairs + [(order[j], acc[order[j]])];
      j := j + 1;
    }
    entries := Some(pairs);
  }

  /** Each element lies in the group of its own key and in no other one, and
      each group keeps the input order. */
  lemma GroupMembership<T>(s: seq<T>, key: T -> string, k: string)
    ensures forall x :: x in Group(s, key, k) <==> x in s && key(x) == k
    ensures IsSubsequence(Group(s, key, k), s)
  {
    var g := Group(s, key, k);
    FilterSpec(s, x => key(x) == k);
    forall x | x in g ensures x in s && key(x) == k {
      var i :| 0 <= i < |g| && g[i] == x;
    }
    forall x | x in s && key(x) == k ensures x in g {
      var i :| 0 <= i < |s| && s[i] == x;
    }
  }

  /** Sum of the group sizes over a list of keys. */
  function TotalSize<T>(s: seq<T>, key: T -> string, ks: seq<string>): nat
    decreases |ks|
  {
    if ks == [] then 0 else |Group(s, key, ks[0])| + TotalSize(s, key, ks[1..])
  }

  lemma {:induction false} TotalSizeSnoc<T>(s: seq<T>, x: T, key: T -> string, ks: seq<string>)
    requires Distinct(ks)
    ensures TotalSize(s + [x], key, ks) == TotalSize(s, key, ks) + (if key(x) in ks then 1 else 0)
    decreases |ks|
  {
    if ks != [] {
      GroupSnoc(s, x, key, ks[0]);
      TotalSizeSnoc(s, x, key, ks[1..]);
      assert key(x) in ks <==> key(x) == ks[0] || key(x) in ks[1..];
      if key(x) == ks[0] {
        assert key(x) !in ks[1..];
      }
    }
  }

  lemma {:induction false} TotalSizeAppendKey<T>(s: seq<T>, key: T -> string, ks: seq<string>, k: string)
    ensures TotalSize(s, key, ks + [k]) == TotalSize(s, key, ks) + |Group(s, key, k)|
    decreases |ks|
  {
    if ks == [] {
      assert [k][1..] == [];
    } else {
      assert (ks + [k])[1..] == ks[1..] + [k];
      TotalSizeAppendKey(s, key, ks[1..], k);
    }
  }

  /** The groups partition the input: their sizes add up to its length, and
      with membership (GroupMembership) and distinct keys (KeysSpec) every
      element lies in exactly one group. */
  lemma {:induction false} GroupsPartition<T>(s: seq<T>, key: T -> string)
    ensures TotalSize(s, key, Keys(s, key)) == |s|
    decreases |s|
  {
    if s != [] {
      var init := s[..|s| - 1];
      var x := s[|s| - 1];
      assert s == init + [x];
      GroupsPartition(init, key);
      KeysSnoc(init, x, key);
      KeysSpec(init, key);
      TotalSizeSnoc(init, x, key, Keys(init, key));
      if key(x) !in Keys(init, key) {
        TotalSizeAppendKey(s, key, Keys(init, key), key(x));
        GroupSnoc(init, x, key, key(x));
        FilterNone(init, y => key(y) == key(x));
      }
    }
  }
}
