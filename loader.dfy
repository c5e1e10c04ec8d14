/** Callback discovery: every sub-directory of the callback package becomes a
    topic, every `.py` module in it other than `__init__.py` is imported, the
    enabled ones contribute a `Callback`, and each topic's list is sorted by
    z-index with a stable sort. The directory listing and the imports are
    given as arguments. */
module Loader {
  import opened Values

  /** The `Callback` named tuple. */
  datatype Callback = Callback(name: string, func: Handler, zIndex: int)

  /** What importing a callback module yields: its `ALERT_DISABLE` and
      `Z_INDEX` attributes (None when the module does not define them) and
      its `callback` function. */
  datatype Module = Module(disable: Option<Value>, zIndex: Option<int>, func: Handler)

  /** An entry of the package directory, with the file names inside it. */
  datatype Entry = Entry(name: string, isDir: bool, files: seq<string>)

  /** `f.suffix == ".py" and f.name != "__init__.py"`. A file named just
      ".py" is a dot-file without a suffix. */
  predicate IsSource(file: string)
  {
    EndsWith(file, ".py") && |file| > 3 && file != "__init__.py"
  }

  function Stem(file: string): string
    requires IsSource(file)
  {
    file[..|file| - 3]
  }

  function ModuleName(dir: string, file: string): string
    requires IsSource(file)
  {
    "callback." + dir + "." + Stem(file)
  }

  /** `getattr(module, "ALERT_DISABLE", False)` is falsy. */
  predicate Enabled(m: Module)
  {
    m.disable.None? || !Truthy(m.disable.value)
  }

  /** `getattr(module, "Z_INDEX", 0)` */
  function ZIndex(m: Module): int
  {
    if m.zIndex.Some? then m.zIndex.value else 0
  }

  /** The entries the outer loop visits. */
  predicate IsTopicDir(e: Entry)
  {
    e.isDir && e.name != "__pycache__"
  }

  /** The callbacks of one directory, in file order, before sorting; an
      import that raises ends discovery. */
  function DirCallbacks(dir: string, files: seq<string>, load: string -> Outcome<Module>): (r: Outcome<seq<Callback>>)
    ensures r.Done? ==> |r.value| <= |files|
  {
    if files == [] then Done([])
    else
      var file := files[|files| - 1];
      match DirCallbacks(dir, files[..|files| - 1], load)
      case Raised(e) => Raised(e)
      case Done(found) =>
        if !IsSource(file) then Done(found)
        else
          match load(ModuleName(dir, file))
          case Raised(e) => Raised(e)
          case Done(m) =>
            if Enabled(m) then Done(found + [Callback(Stem(file), m.func, ZIndex(m))]) else Done(found)
  }

  /** `c` is the entry built for `file`: a `.py` module that imports, is
      enabled, and is named by the file's stem. */
  predicate Contributes(dir: string, file: string, load: string -> Outcome<Module>, c: Callback)
  {
    && IsSource(file)
    && load(ModuleName(dir, file)).Done?
    && Enabled(load(ModuleName(dir, file)).value)
    && var m := load(ModuleName(dir, file)).value;
       c == Callback(Stem(file), m.func, ZIndex(m))
  }

  /** The directory's callbacks are exactly those its enabled modules build. */
  lemma {:induction false} DirCallbacksFromEnabledModules(dir: string, files: seq<string>, load: string -> Outcome<Module>)
    ensures DirCallbacks(dir, files, load).Done? ==>
      forall c :: c in DirCallbacks(dir, files, load).value <==> exists f :: f in files && Contributes(dir, f, load, c)
  {
    if files != [] {
      var init := files[..|files| - 1];
      var file := files[|files| - 1];
      DirCallbacksFromEnabledModules(dir, init, load);
      assert files == init + [file];
      if DirCallbacks(dir, files, load).Done? {
        var found := DirCallbacks(dir, init, load).value;
        forall c
          ensures c in DirCallbacks(dir, files, load).value <==> exists f :: f in files && Contributes(dir, f, load, c)
        {
          if c in DirCallbacks(dir, files, load).value && c !in found {
            assert Contributes(dir, file, load, c);
          }
          if exists f :: f in files && Contributes(dir, f, load, c) {
            var f :| f in files && Contributes(dir, f, load, c);
            if f != file {
              assert f in init;
            }
          }
        }
      }
    }
  }

  /** A directory whose every module sets `ALERT_DISABLE` contributes no
      callback, though it still becomes a topic. */
  lemma {:induction false} DisabledModulesContributeNothing(dir: string, files: seq<string>, load: string -> Outcome<Module>)
    requires forall f :: f in files && IsSource(f) && load(ModuleName(dir, f)).Done? ==> !Enabled(load(ModuleName(dir, f)).value)
    ensures DirCallbacks(dir, files, load).Done? ==> DirCallbacks(dir, files, load).value == []
  {
    if files != [] {
      DisabledModulesContributeNothing(dir, files[..|files| - 1], load);
    }
  }

  // ---- the stable sort by z-index ----

  predicate SortedByZ(s: seq<Callback>)
  {
    forall i, j :: 0 <= i < j < |s| ==> s[i].zIndex <= s[j].zIndex
  }

  /** The callbacks of `s` with z-index `z`, in order. */
  function WithZ(s: seq<Callback>, z: int): seq<Callback>
  {
    if s == [] then [] else (if s[0].zIndex == z then [s[0]] else []) + WithZ(s[1..], z)
  }

  /** Inserts `c` after every element whose z-index is not greater. */
  function Insert(c: Callback, s: seq<Callback>): (r: seq<Callback>)
    ensures |r| == |s| + 1
    ensures multiset(r) == multiset(s) + multiset{c}
  {
    if s == [] then [c]
    else if s[0].zIndex > c.zIndex then [c] + s
    else
      assert s == [s[0]] + s[1..];
      [s[0]] + Insert(c, s[1..])
  }

  /** `list.sort(key=lambda x: x.z_index)` */
  function SortByZ(s: seq<Callback>): (r: seq<Callback>)
    ensures |r| == |s|
  {
    if s == [] then [] else Insert(s[|s| - 1], SortByZ(s[..|s| - 1]))
  }

  lemma {:induction false} InsertSorted(c: Callback, s: seq<Callback>)
    requires SortedByZ(s)
    ensures SortedByZ(Insert(c, s))
    ensures Insert(c, s) != [] && (Insert(c, s)[0] == c || Insert(c, s)[0] == s[0])
  {
    if s == [] {
      assert Insert(c, s) == [c];
    } else if s[0].zIndex > c.zIndex {
      assert Insert(c, s) == [c] + s;
      assert forall i :: 0 <= i < |s| ==> c.zIndex <= s[i].zIndex by {
        forall i | 0 <= i < |s| ensures c.zIndex <= s[i].zIndex {
          assert i == 0 || s[0].zIndex <= s[i].zIndex;
        }
      }
      ConsSorted(c, s);
    } else {
      var rest := s[1..];
      assert SortedByZ(rest) by {
        forall i, j | 0 <= i < j < |rest| ensures rest[i].zIndex <= rest[j].zIndex {
          assert rest[i] == s[i + 1] && rest[j] == s[j + 1];
        }
      }
      assert forall i :: 0 <= i < |rest| ==> s[0].zIndex <= rest[i].zIndex by {
        forall i | 0 <= i < |rest| ensures s[0].zIndex <= rest[i].zIndex {
          assert rest[i] == s[i + 1];
        }
      }
      InsertSorted(c, rest);
      InsertLowerBound(c, rest, s[0].zIndex);
      assert Insert(c, s) == [s[0]] + Insert(c, rest);
      ConsSorted(s[0], Insert(c, rest));
    }
  }

  /** A head no greater than any element of a sorted list keeps it sorted. */
  lemma ConsSorted(x: Callback, t: seq<Callback>)
    requires SortedByZ(t) && forall i :: 0 <= i < |t| ==> x.zIndex <= t[i].zIndex
    ensures SortedByZ([x] + t)
  {
    var r := [x] + t;
    forall i, j | 0 <= i < j < |r| ensures r[i].zIndex <= r[j].zIndex {
      assert r[j] == t[j - 1];
      if i > 0 {
        assert r[i] == t[i - 1];
      }
    }
  }

  /** A bound below `c` and every element of `s` bounds the insertion too. */
  lemma {:induction false} InsertLowerBound(c: Callback, s: seq<Callback>, z: int)
    requires z <= c.zIndex && forall i :: 0 <= i < |s| ==> z <= s[i].zIndex
    ensures forall i :: 0 <= i < |Insert(c, s)| ==> z <= Insert(c, s)[i].zIndex
  {
    if s != [] && s[0].zIndex <= c.zIndex {
      InsertLowerBound(c, s[1..], z);
      assert Insert(c, s) == [s[0]] + Insert(c, s[1..]);
    }
  }

  /** Inserting `c` adds it after the elements of equal z-index. */
  lemma {:induction false} InsertKeepsTies(c: Callback, s: seq<Callback>, z: int)
    requires SortedByZ(s)
    ensures WithZ(Insert(c, s), z) == WithZ(s, z) + (if c.zIndex == z then [c] else [])
  {
    if s == [] {
      assert WithZ([c], z) == (if c.zIndex == z then [c] else []) + WithZ([], z);
    } else if s[0].zIndex > c.zIndex {
      var r := [c] + s;
      assert r[1..] == s;
      if c.zIndex == z {
        NoneBelow(s, z);
      }
    } else {
      var r := [s[0]] + Insert(c, s[1..]);
      assert r[1..] == Insert(c, s[1..]);
      InsertKeepsTies(c, s[1..], z);
    }
  }

  /** In a sorted sequence whose first element is above `z`, nothing has
      z-index `z`. */
  lemma {:induction false} NoneBelow(s: seq<Callback>, z: int)
    requires SortedByZ(s) && s != [] && s[0].zIndex > z
    ensures WithZ(s, z) == []
  {
    if |s| > 1 {
      assert s[1].zIndex >= s[0].zIndex;
      NoneBelow(s[1..], z);
    }
  }

  lemma {:induction false} WithZAppend(a: seq<Callback>, b: seq<Callback>, z: int)
    ensures WithZ(a + b, z) == WithZ(a, z) + WithZ(b, z)
  {
    if a == [] {
      assert a + b == b;
    } else {
      assert (a + b)[0] == a[0];
      assert (a + b)[1..] == a[1..] + b;
      WithZAppend(a[1..], b, z);
      assert WithZ(a + b, z) == (if a[0].zIndex == z then [a[0]] else []) + WithZ(a[1..] + b, z);
    }
  }

  /** The sort's result is ordered by z-index. */
  lemma {:induction false} SortByZSorted(s: seq<Callback>)
    ensures SortedByZ(SortByZ(s))
  {
    if s != [] {
      SortByZSorted(s[..|s| - 1]);
      InsertSorted(s[|s| - 1], SortByZ(s[..|s| - 1]));
    }
  }

  /** The sort's result is a permutation of its input. */
  lemma {:induction false} SortByZPermutes(s: seq<Callback>)
    ensures multiset(SortByZ(s)) == multiset(s)
  {
    if s != [] {
      SortByZPermutes(s[..|s| - 1]);
      assert s == s[..|s| - 1] + [s[|s| - 1]];
    }
  }

  /** The sort is stable: among callbacks of equal z-index, discovery order
      is kept. */
  lemma {:induction false} SortByZStable(s: seq<Callback>, z: int)
    ensures WithZ(SortByZ(s), z) == WithZ(s, z)
  {
    if s != [] {
      var init := s[..|s| - 1];
      var last := s[|s| - 1];
      var own := if last.zIndex == z then [last] else [];
      SortByZSorted(init);
      calc {
        WithZ(SortByZ(s), z);
        WithZ(Insert(last, SortByZ(init)), z);
        { InsertKeepsTies(last, SortByZ(init), z); }
        WithZ(SortByZ(init), z) + own;
        { SortByZStable(init, z); }
        WithZ(init, z) + own;
        { assert WithZ([last], z) == own + WithZ([], z); }
        WithZ(init, z) + WithZ([last], z);
        { WithZAppend(init, [last], z); }
        WithZ(init + [last], z);
        { assert s == init + [last]; }
        WithZ(s, z);
      }
    }
  }

  /** What discovery builds: the topic keys in listing order and each
      topic's sorted callbacks. */
  datatype Table = Table(order: seq<string>, lists: map<string, seq<Callback>>)

  /** The module-level discovery loop over the package directory. */
  function Discover(entries: seq<Entry>, load: string -> Outcome<Module>): (r: Outcome<Table>)
    ensures r.Done? ==> IsEnumeration(r.value.order, r.value.lists)
    ensures r.Done? ==> forall d :: d in r.value.lists ==> SortedByZ(r.value.lists[d])
    ensures r.Done? ==> forall e :: e in entries && IsTopicDir(e) ==> e.name in r.value.lists
    ensures r.Done? ==> forall d :: d in r.value.lists ==> d != "__pycache__"
  {
    if entries == [] then Done(Table([], map[]))
    else
      var entry := entries[|entries| - 1];
      var init := entries[..|entries| - 1];
      match Discover(init, load)
      case Raised(e) => Raised(e)
      case Done(table) =>
        if !IsTopicDir(entry) then
          assert forall e :: e in entries && IsTopicDir(e) ==> e in init;
          Done(table)
        else
          match DirCallbacks(entry.name, entry.files, load)
          case Raised(e) => Raised(e)
          case Done(found) =>
            SortByZSorted(found);
            var order := if entry.name in table.lists then table.order else table.order + [entry.name];
            assert Distinct(order);
            Done(Table(order, table.lists[entry.name := SortByZ(found)]))
  }

  /** The names of the topic directories of a listing, in listing order. */
  function TopicNames(entries: seq<Entry>): (r: seq<string>)
    ensures forall d :: d in r <==> exists e :: e in entries && IsTopicDir(e) && e.name == d
  {
    if entries == [] then []
    else
      var init := entries[..|entries| - 1];
      var last := entries[|entries| - 1];
      assert entries == init + [last];
      TopicNames(init) + (if IsTopicDir(last) then [last.name] else [])
  }

  /** Each element at its first occurrence, in order. */
  function Firsts(s: seq<string>): (r: seq<string>)
    ensures forall x :: x in r <==> x in s
  {
    if s == [] then []
    else
      assert s == s[..|s| - 1] + [s[|s| - 1]];
      var init := Firsts(s[..|s| - 1]);
      if s[|s| - 1] in init then init else init + [s[|s| - 1]]
  }

  /** Without repeated names, each name is its own first occurrence. */
  lemma {:induction false} FirstsOfDistinct(s: seq<string>)
    requires Distinct(s)
    ensures Firsts(s) == s
  {
    if s != [] {
      var init := s[..|s| - 1];
      assert Distinct(init);
      FirstsOfDistinct(init);
      assert s[|s| - 1] !in init by {
        forall j | 0 <= j < |init| ensures init[j] != s[|s| - 1] {
          assert init[j] == s[j];
        }
      }
      assert s == init + [s[|s| - 1]];
    }
  }

  /** The keys of the discovered table come in the order in which their
      directories are first listed; with a listing's distinct names, that is
      the listing order of the topic directories. */
  lemma {:induction false} DiscoverKeyOrder(entries: seq<Entry>, load: string -> Outcome<Module>)
    ensures Discover(entries, load).Done? ==> Discover(entries, load).value.order == Firsts(TopicNames(entries))
  {
    if entries != [] {
      var init := entries[..|entries| - 1];
      DiscoverKeyOrder(init, load);
      var r := Discover(entries, load);
      if r.Done? {
        var table := Discover(init, load).value;
        var last := entries[|entries| - 1];
        if IsTopicDir(last) {
          assert TopicNames(entries) == TopicNames(init) + [last.name];
          assert TopicNames(entries)[..|TopicNames(entries)| - 1] == TopicNames(init);
          assert last.name in table.lists <==> last.name in table.order;
        } else {
          assert TopicNames(entries) == TopicNames(init);
        }
      }
    }
  }

  /** The list stored for a topic is the sorted callbacks of the last
      directory listed under that name: each directory's list replaces any
      earlier one. */
  lemma {:induction false} DiscoverLists(entries: seq<Entry>, load: string -> Outcome<Module>, i: nat)
    requires i < |entries| && IsTopicDir(entries[i])
    requires forall j :: i < j < |entries| && IsTopicDir(entries[j]) ==> entries[j].name != entries[i].name
    ensures Discover(entries, load).Done? ==>
      && DirCallbacks(entries[i].name, entries[i].files, load).Done?
      && entries[i].name in Discover(entries, load).value.lists
      && Discover(entries, load).value.lists[entries[i].name] == SortByZ(DirCallbacks(entries[i].name, entries[i].files, load).value)
  {
    var init := entries[..|entries| - 1];
    if i < |init| {
      DiscoverLists(init, load, i);
    }
  }

  /** `order` with `key` taken out, the rest in order. */
  function Without(order: seq<string>, key: string): (r: seq<string>)
    ensures forall k :: k in r <==> k in order && k != key
  {
    if order == [] then []
    else
      assert order == order[..|order| - 1] + [order[|order| - 1]];
      Without(order[..|order| - 1], key) + (if order[|order| - 1] == key then [] else [order[|order| - 1]])
  }

  /** Taking a key out of a dict keeps its key order an enumeration. */
  lemma {:induction false} WithoutKeepsEnumeration<V>(order: seq<string>, m: map<string, V>, key: string)
    requires IsEnumeration(order, m)
    ensures IsEnumeration(Without(order, key), m - {key})
  {
    WithoutDistinct(order, key);
    var r := Without(order, key);
    forall i | 0 <= i < |r| ensures r[i] in m - {key} {
      assert r[i] in r;
    }
  }

  lemma {:induction false} WithoutDistinct(order: seq<string>, key: string)
    requires Distinct(order)
    ensures Distinct(Without(order, key))
  {
    if order != [] {
      var init := order[..|order| - 1];
      var last := order[|order| - 1];
      assert Distinct(init) by {
        forall i, j | 0 <= i < j < |init| ensures init[i] != init[j] {
          assert init[i] == order[i] && init[j] == order[j];
        }
      }
      WithoutDistinct(init, key);
      assert last !in init by {
        forall i | 0 <= i < |init| ensures init[i] != last {
          assert init[i] == order[i];
        }
      }
      var rest := Without(init, key);
      assert last !in rest;
      if last != key {
        forall i, j | 0 <= i < j < |rest + [last]| ensures (rest + [last])[i] != (rest + [last])[j] {
          if j == |rest| {
            assert (rest + [last])[i] == rest[i];
          } else {
            assert (rest + [last])[i] == rest[i] && (rest + [last])[j] == rest[j];
          }
        }
      }
    }
  }

  /** The module-level `callbacks` dict. */
  class CallbackTable {
    var order: seq<string>
    var lists: map<string, seq<Callback>>

    ghost predicate Valid()
      reads this
    {
      IsEnumeration(order, lists)
    }

    constructor ()
      ensures Valid() && order == [] && lists == map[]
    {
      order := [];
      lists := map[];
    }

    /** Imports the package: the nested discovery loops, then the in-place
        sort of each topic's list. */
    method Load(entries: seq<Entry>, load: string -> Outcome<Module>) returns (r: Outcome<()>)
      requires order == [] && lists == map[]
      modifies this
      ensures r.Done? <==> Discover(entries, load).Done?
      ensures r.Raised? ==> r.exc == Discover(entries, load).exc
      ensures r.Done? ==> Valid() && Table(order, lists) == Discover(entries, load).value
    {
      var n := 0;
      while n < |entries|
        invariant 0 <= n <= |entries|
        invariant Discover(entries[..n], load).Done?
        invariant Table(order, lists) == Discover(entries[..n], load).value
      {
        var entry := entries[n];
        assert entries[..n + 1][..n] == entries[..n];
        if IsTopicDir(entry) {
          if entry.name !in lists {
            order := order + [entry.name];
          }
          var found := LoadDir(entry.name, entry.files, load);
          if found.Raised? {
            DiscoverRaisesFrom(entries, load, n);
            return Raised(found.exc);
          }
          lists := lists[entry.name := SortByZ(found.value)];
        }
        n := n + 1;
      }
      assert entries[..n] == entries;
      r := Done(());
    }

    /** `callbacks.pop(key, [])`: the key's list, or an empty one, and the
        key is gone from the dict. */
    method Pop(key: string) returns (popped: seq<Callback>)
      requires Valid()
      modifies this
      ensures Valid()
      ensures popped == if key in old(lists) then old(lists)[key] else []
      ensures lists == old(lists) - {key} && order == Without(old(order), key)
    {
      popped := if key in lists then lists[key] else [];
      WithoutKeepsEnumeration(order, lists, key);
      order := Without(order, key);
      lists := lists - {key};
    }

    /** `callbacks[topic].extend(extra)`, in place. */
    method Extend(topic: string, extra: seq<Callback>)
      requires Valid() && topic in lists
      modifies this
      ensures Valid()
      ensures lists == old(lists)[topic := old(lists)[topic] + extra] && order == old(order)
    {
      lists := lists[topic := lists[topic] + extra];
    }
  }

  /** The inner loop over one directory's files: imports each source
      module in listing order and keeps the enabled ones. */
  method LoadDir(dir: string, files: seq<string>, load: string -> Outcome<Module>) returns (r: Outcome<seq<Callback>>)
    ensures r == DirCallbacks(dir, files, load)
  {
    var found: seq<Callback> := [];
    var i := 0;
    while i < |files|
      invariant 0 <= i <= |files|
      invariant DirCallbacks(dir, files[..i], load) == Done(found)
    {
      var file := files[i];
      assert files[..i + 1][..i] == files[..i];
      if IsSource(file) {
        var imported := load(ModuleName(dir, file));
        if imported.Raised? {
          DirPrefixRaises(dir, files, load, i + 1);
          return Raised(imported.exc);
        }
        var m := imported.value;
        if Enabled(m) {
          found := found + [Callback(Stem(file), m.func, ZIndex(m))];
        }
      }
      i := i + 1;
    }
    assert files[..i] == files;
    r := Done(found);
  }

  /** An import failure inside a directory's file list fails the whole list. */
  lemma {:induction false} DirPrefixRaises(dir: string, files: seq<string>, load: string -> Outcome<Module>, k: nat)
    requires 0 < k <= |files| && DirCallbacks(dir, files[..k], load).Raised?
    ensures DirCallbacks(dir, files, load) == DirCallbacks(dir, files[..k], load)
    decreases |files| - k
  {
    if k < |files| {
      assert files[..k + 1][..k] == files[..k];
      DirPrefixRaises(dir, files, load, k + 1);
    } else {
      assert files[..k] == files;
    }
  }

  /** A failure while discovering entry `n` fails discovery as a whole. */
  lemma {:induction false} DiscoverRaisesFrom(entries: seq<Entry>, load: string -> Outcome<Module>, n: nat)
    requires n < |entries| && Discover(entries[..n + 1], load).Raised?
    ensures Discover(entries, load) == Discover(entries[..n + 1], load)
    decreases |entries| - n
  {
    if n + 1 < |entries| {
      assert entries[..n + 2][..n + 1] == entries[..n + 1];
      DiscoverRaisesFrom(entries, load, n + 1);
    } else {
      assert entries[..n + 1] == entries;
    }
  }
}
