/** HandlerList as the source has it: a Go slice, whose elements live in a backing array
    that other slices may share. Growth allocates a new array of any sufficient size. */
module HandlerSlices {
  import opened HandlerLists

  /** A slice starting at the front of its backing array; its capacity is the array's length. */
  datatype Slice = Slice(arr: array?<Handler>, len: nat)

  const NIL: Slice := Slice(null, 0)

  ghost predicate Valid(s: Slice) {
    if s.arr == null then s.len == 0 else s.len <= s.arr.Length
  }

  function Cap(s: Slice): nat { if s.arr == null then 0 else s.arr.Length }

  function Backing(s: Slice): set<object> { if s.arr == null then {} else {s.arr} }

  function View(s: Slice): seq<Handler>
    requires Valid(s)
    reads Backing(s)
  {
    if s.arr == null then [] else s.arr[..s.len]
  }

  /** The whole backing array, past the slice's own length. */
  function Store(s: Slice): seq<Handler>
    reads Backing(s)
  {
    if s.arr == null then [] else s.arr[..]
  }

  /** Element-wise copy into an array, from position `at`. */
  method CopyInto(a: array<Handler>, at: nat, xs: seq<Handler>)
    requires at + |xs| <= a.Length
    modifies a
    ensures a[..] == old(a[..at]) + xs + old(a[at + |xs|..])
  {
    for i := 0 to |xs|
      invariant a[..] == old(a[..at]) + xs[..i] + old(a[at + i..])
    {
      a[at + i] := xs[i];
    }
  }

  /** Go's append: in place while the capacity lasts, into a new array otherwise. */
  method GoAppend(s: Slice, xs: seq<Handler>) returns (r: Slice)
    requires Valid(s)
    modifies Backing(s)
    ensures Valid(r) && View(r) == old(View(s)) + xs
    ensures s.len + |xs| <= Cap(s) ==>
              r.arr == s.arr && Store(s) == old(View(s)) + xs + old(Store(s))[s.len + |xs|..]
    ensures s.len + |xs| > Cap(s) ==> r.arr != null && fresh(r.arr) && Store(s) == old(Store(s))
  {
    if s.arr == null && |xs| == 0 {
      return s;
    }
    if s.len + |xs| <= Cap(s) {
      CopyInto(s.arr, s.len, xs);
      return Slice(s.arr, s.len + |xs|);
    }
    var capacity: nat :| capacity >= s.len + |xs|;
    var a := new Handler[capacity];
    var whole := View(s) + xs;
    CopyInto(a, 0, whole);
    return Slice(a, s.len + |xs|);
  }

  // ---------- HandlerList ----------

  method Append(l: Slice, handlers: seq<Handler>) returns (r: Slice)
    requires Valid(l)
    modifies Backing(l)
    ensures Valid(r) && View(r) == old(View(l)) + handlers
    // nothing below the receiver's own length is written
    ensures View(l) == old(View(l))
    ensures l.len + |handlers| > Cap(l) ==> r.arr != null && fresh(r.arr) && Store(l) == old(Store(l))
    ensures l.len + |handlers| <= Cap(l) ==> r.arr == l.arr
  {
    r := GoAppend(l, handlers);
  }

  /** The argument slice comes first, so it is the argument's array that may be written. */
  method Prepend(l: Slice, handlers: Slice) returns (r: Slice)
    requires Valid(l) && Valid(handlers)
    modifies Backing(handlers)
    ensures Valid(r) && View(r) == old(View(handlers)) + old(View(l))
    ensures handlers.len + l.len > Cap(handlers) ==> r.arr != null && fresh(r.arr)
  {
    var xs := View(l);
    r := GoAppend(handlers, xs);
  }

  // With no modifies clause these write only arrays they allocate themselves.

  method AppendAfter(l: Slice, name: Name, handler: Handler) returns (r: Slice)
    requires Valid(l)
    ensures Valid(r) && View(r) == After(View(l), name, handler)
    ensures r.arr == null || fresh(r.arr)
    ensures View(r) != [] ==> r.arr != null
  {
    r := NIL;
    ghost var view := View(l);
    for i := 0 to l.len
      invariant Valid(r) && (r.arr == null || fresh(r.arr))
      invariant View(l) == view && View(r) == After(view[..i], name, handler)
    {
      var h := l.arr[i];
      assert view[..i + 1] == view[..i] + [h];
      AfterConcat(view[..i], [h], name, handler);
      assert After([h], name, handler) == if h.name == name then [h, handler] else [h];
      if h.name == name {
        r := GoAppend(r, [h, handler]);
        continue;
      }
      r := GoAppend(r, [h]);
    }
    assert view[..l.len] == view;
  }

  method Swap(l: Slice, handler: Handler) returns (r: Slice)
    requires Valid(l)
    ensures Valid(r) && View(r) == Swapped(View(l), handler)
    ensures r.arr == null || fresh(r.arr)
  {
    r := NIL;
    ghost var view := View(l);
    for i := 0 to l.len
      invariant Valid(r) && (r.arr == null || fresh(r.arr))
      invariant View(l) == view && View(r) == Swapped(view, handler)[..i]
    {
      var h := l.arr[i];
      if h.name == handler.name {
        r := GoAppend(r, [handler]);
        continue;
      }
      r := GoAppend(r, [h]);
    }
  }

  method Remove(l: Slice, name: Name) returns (r: Slice)
    requires Valid(l)
    ensures Valid(r) && View(r) == Without(View(l), {name})
    ensures r.arr == null || fresh(r.arr)
  {
    r := NIL;
    ghost var view := View(l);
    for i := 0 to l.len
      invariant Valid(r) && (r.arr == null || fresh(r.arr))
      invariant View(l) == view && View(r) == Without(view[..i], {name})
    {
      var h := l.arr[i];
      assert view[..i + 1] == view[..i] + [h];
      WithoutConcat(view[..i], [h], {name});
      if h.name != name {
        r := GoAppend(r, [h]);
      }
    }
    assert view[..l.len] == view;
  }

  method HasHandler(l: Slice, name: Name) returns (r: bool)
    requires Valid(l)
    ensures r <==> Has(View(l), name)
  {
    for i := 0 to l.len
      invariant forall j :: 0 <= j < i ==> View(l)[j].name != name
    {
      if l.arr[i].name == name {
        assert View(l)[i].name == name;
        return true;
      }
    }
    r := false;
  }

  method Swappend(l: Slice, handler: Handler) returns (r: Slice)
    requires Valid(l)
    modifies Backing(l)
    ensures Valid(r) && View(l) == old(View(l))
    ensures View(r) == if Has(old(View(l)), handler.name) then Swapped(old(View(l)), handler) else old(View(l)) + [handler]
  {
    var has := HasHandler(l, handler.name);
    if has {
      r := Swap(l, handler);
    } else {
      r := Append(l, [handler]);
    }
  }

  /** Clear empties the list but keeps the array. */
  method Clear(l: Slice) returns (r: Slice)
    requires Valid(l)
    ensures Valid(r) && View(r) == [] && r.arr == l.arr && Cap(r) == Cap(l)
  {
    r := Slice(l.arr, 0);
  }

  /** So appending to a cleared list writes into the original one, exactly when the new
      handlers fit its capacity. */
  method ClearThenAppend(l: Slice, handlers: seq<Handler>) returns (r: Slice)
    requires Valid(l)
    modifies Backing(l)
    ensures Valid(r) && View(r) == handlers
    ensures |handlers| > Cap(l) ==> View(l) == old(View(l))
    ensures |handlers| <= Cap(l) ==>
              View(l) == if |handlers| <= l.len then handlers + old(View(l))[|handlers|..] else handlers[..l.len]
  {
    var cleared := Clear(l);
    r := GoAppend(cleared, handlers);
  }

  /** Two machines appending to one shared list: the first one's handler survives exactly
      when the list had no room to spare, or both append the same handler. */
  method AppendTwice(l: Slice, first: Handler, second: Handler) returns (a: Slice, b: Slice)
    requires Valid(l)
    modifies Backing(l)
    ensures Valid(a) && Valid(b)
    ensures View(l) == old(View(l)) && View(b) == old(View(l)) + [second]
    ensures View(a) == old(View(l)) + [if l.len < Cap(l) then second else first]
  {
    a := Append(l, [first]);
    b := Append(l, [second]);
  }

  // ---------- the two rewritings ----------

  /** Remove called for each name in turn; nothing is left of the original array after the first. */
  method RemoveAll(l: Slice, names: seq<Name>) returns (r: Slice)
    requires Valid(l) && |names| > 0
    ensures Valid(r) && View(r) == RemoveEach(View(l), names)
    ensures r.arr == null || fresh(r.arr)
  {
    r := l;
    ghost var view := View(l);
    assert names[0..] == names;
    for i := 0 to |names|
      invariant Valid(r) && (i > 0 ==> r.arr == null || fresh(r.arr))
      invariant RemoveEach(View(r), names[i..]) == RemoveEach(view, names)
    {
      assert names[i..][1..] == names[i + 1..];
      r := Remove(r, names[i]);
    }
  }

  /** The rewriting with the names removed in any order. */
  method RewriteForSnapshot(l: Slice, removes: seq<Name>) returns (r: Slice)
    requires Valid(l) && multiset(removes) == multiset(SNAPSHOT_REMOVES) && |removes| > 0
    ensures Valid(r) && View(r) == Snapshotted(View(l))
    ensures r.arr != null && fresh(r.arr)
  {
    SnapshotNormalForm(View(l), removes);
    r := RemoveAll(l, removes);
    r := GoAppend(r, [Std(LoadSnapshot)]);
  }

  /** modifyHandlersForLoadSnapshot: the result shares no storage with the list it was given. */
  method ModifyHandlersForLoadSnapshot(l: Slice) returns (r: Slice)
    requires Valid(l)
    ensures Valid(r) && View(r) == Snapshotted(View(l))
    ensures r.arr != null && fresh(r.arr)
  {
    r := RewriteForSnapshot(l, SNAPSHOT_REMOVES);
  }

  class Handlers {
    var validation: Slice
    var fcInit: Slice

    constructor (validation: Slice, fcInit: Slice)
      ensures this.validation == validation && this.fcInit == fcInit
    {
      this.validation, this.fcInit := validation, fcInit;
    }
  }

  /** NaiveChrootStrategy.AdaptHandlers: the new FcInit list shares no storage with the old. */
  method AdaptHandlers(h: Handlers, link: nat) returns (ok: bool)
    requires Valid(h.fcInit)
    modifies h`fcInit
    ensures Valid(h.fcInit)
    ensures ok <==> Adapted(old(View(h.fcInit)), link).Some?
    ensures ok ==> View(h.fcInit) == Adapted(old(View(h.fcInit)), link).value && h.fcInit.arr != null && fresh(h.fcInit.arr)
    ensures !ok ==> h.fcInit == old(h.fcInit)
  {
    ok := HasHandler(h.fcInit, CreateLogFiles);
    if ok {
      ghost var view := View(h.fcInit);
      HasAfter(view, CreateLogFiles, Link(link));
      h.fcInit := AppendAfter(h.fcInit, CreateLogFiles, Link(link));
    }
  }

  lemma {:induction false} HasAfter(l: seq<Handler>, name: Name, h: Handler)
    requires l != []
    ensures After(l, name, h) != []
  {
  }

  /** WithSnapshot's effect on both lists; `loadSnapshotCfg` runs last among the validations. */
  method WithSnapshot(h: Handlers)
    requires Valid(h.validation) && Valid(h.fcInit)
    modifies h
    ensures Valid(h.validation) && Valid(h.fcInit)
    ensures View(h.validation) == Without(old(View(h.validation)), {ValidateCfg}) + [Std(ValidateLoadSnapshotCfg)]
    ensures View(h.fcInit) == Snapshotted(old(View(h.fcInit)))
    ensures fresh(Backing(h.validation)) && fresh(Backing(h.fcInit))
  {
    var kept := Remove(h.validation, ValidateCfg);
    h.validation := GoAppend(kept, [Std(ValidateLoadSnapshotCfg)]);
    h.fcInit := ModifyHandlersForLoadSnapshot(h.fcInit);
  }
}
