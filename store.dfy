/**
 * The record store of `app.py`: `ModelViewController` keeps one view per
 * `_api` name (a dict, so its keys keep insertion order) and a set of
 * protected names that a non-forced clear spares; `PluginInterface` reads and
 * writes records through it.  A view is modelled as the sequence of records it
 * shows.  Each operation is a function on `State`; the class holds the fields
 * the source updates in place and its methods are proved against those
 * functions.
 */
module Store {
  import opened Py
  import opened Externals

  /**
   * The controller's fields: the view names in insertion order, the records
   * of each view, and the protected names, None while `self.protected` has
   * never been assigned (the class only annotates it).
   */
  datatype StoreState = StoreState(keys: seq<string>, views: map<string, seq<Record>>, protected: Option<set<string>>)

  predicate Distinct(xs: seq<string>)
  {
    forall i, j :: 0 <= i < j < |xs| ==> xs[i] != xs[j]
  }

  /**
   * What every operation keeps: the key list is the dict's key order, no view
   * is empty (a view is created with its first record), and every record sits
   * in the view named by its own `_api`.
   */
  ghost predicate Wellformed(s: StoreState)
  {
    && Distinct(s.keys)
    && (forall k :: k in s.views <==> k in s.keys)
    && (forall k :: k in s.views ==> |s.views[k]| > 0)
    && (forall k, r :: k in s.views && r in s.views[k] ==> r.api == k)
  }

  /** A new controller: the class-level empty dict, and no protected set yet. */
  const Initial: StoreState := StoreState([], map[], None)

  /** The records of view `name`, empty when there is none. */
  function ViewOf(s: StoreState, name: string): seq<Record>
  {
    if name in s.views then s.views[name] else []
  }

  /** The protected names, reading an unassigned set as empty. */
  function ProtectedNames(s: StoreState): set<string>
  {
    if s.protected.Some? then s.protected.value else {}
  }

  // ---------------------------------------------------------------------------
  // append_record

  /**
   * `append_record(r)`: `r` goes to the end of the view named `r._api`, which
   * is created (last in key order) when absent; nothing else changes.
   */
  function Appended(s: StoreState, r: Record): (t: StoreState)
    ensures forall k :: ViewOf(t, k) == ViewOf(s, k) + (if k == r.api then [r] else [])
    ensures t.views.Keys == s.views.Keys + {r.api}
    ensures r.api in s.views ==> t.keys == s.keys
    ensures r.api !in s.views ==> t.keys == s.keys + [r.api]
    ensures t.protected == s.protected
  {
    if r.api in s.views then
      s.(views := s.views[r.api := s.views[r.api] + [r]])
    else
      s.(keys := s.keys + [r.api], views := s.views[r.api := [r]])
  }

  /** The records of `rs` whose `_api` is `name`, in order. */
  function OfApi(rs: seq<Record>, name: string): seq<Record>
  {
    if rs == [] then []
    else OfApi(rs[..|rs| - 1], name) + (if rs[|rs| - 1].api == name then [rs[|rs| - 1]] else [])
  }

  /** Appending the records of `rs` one after another. */
  function AppendAll(s: StoreState, rs: seq<Record>): StoreState
  {
    if rs == [] then s else Appended(AppendAll(s, rs[..|rs| - 1]), rs[|rs| - 1])
  }

  /** An append keeps the store well formed. */
  lemma AppendedWellformed(s: StoreState, r: Record)
    requires Wellformed(s)
    ensures Wellformed(Appended(s, r))
  {
    var t := Appended(s, r);
    forall k, x | k in t.views && x in t.views[k] ensures x.api == k {
      assert ViewOf(t, k) == ViewOf(s, k) + (if k == r.api then [r] else []);
    }
  }

  lemma {:induction false} AppendAllWellformed(s: StoreState, rs: seq<Record>)
    requires Wellformed(s)
    ensures Wellformed(AppendAll(s, rs))
  {
    if rs != [] {
      AppendAllWellformed(s, rs[..|rs| - 1]);
      AppendedWellformed(AppendAll(s, rs[..|rs| - 1]), rs[|rs| - 1]);
    }
  }

  lemma {:induction false} AppendAllView(s: StoreState, rs: seq<Record>, k: string)
    ensures ViewOf(AppendAll(s, rs), k) == ViewOf(s, k) + OfApi(rs, k)
  {
    if rs != [] {
      var front, last := rs[..|rs| - 1], rs[|rs| - 1];
      var t0 := AppendAll(s, front);
      assert AppendAll(s, rs) == Appended(t0, last);
      assert OfApi(rs, k) == OfApi(front, k) + (if last.api == k then [last] else []);
      AppendAllView(s, front, k);
    }
  }

  lemma {:induction false} AppendAllShape(s: StoreState, rs: seq<Record>)
    ensures s.keys <= AppendAll(s, rs).keys
    ensures AppendAll(s, rs).protected == s.protected
  {
    if rs != [] {
      AppendAllShape(s, rs[..|rs| - 1]);
    }
  }

  /**
   * After appending `rs`, each view is its old records followed by the
   * records of `rs` that carry its name; the views are the old ones plus one
   * per new name, the old key order is kept as a prefix, and the protected
   * set is untouched.
   */
  lemma AppendAllViews(s: StoreState, rs: seq<Record>)
    requires Wellformed(s)
    ensures Wellformed(AppendAll(s, rs))
    ensures forall k :: ViewOf(AppendAll(s, rs), k) == ViewOf(s, k) + OfApi(rs, k)
    ensures forall k :: k in AppendAll(s, rs).views <==> k in s.views || OfApi(rs, k) != []
    ensures s.keys <= AppendAll(s, rs).keys
    ensures AppendAll(s, rs).protected == s.protected
  {
    var t := AppendAll(s, rs);
    forall k ensures ViewOf(t, k) == ViewOf(s, k) + OfApi(rs, k)
      ensures k in t.views <==> k in s.views || OfApi(rs, k) != []
    {
      AppendAllView(s, rs, k);
    }
    AppendAllShape(s, rs);
    AppendAllWellformed(s, rs);
  }

  /** Appending one more record is one more `append_record`. */
  lemma AppendAllSnoc(s: StoreState, rs: seq<Record>, r: Record)
    ensures AppendAll(s, rs + [r]) == Appended(AppendAll(s, rs), r)
  {
    assert (rs + [r])[..|rs|] == rs;
  }

  /** Appending `a` and then `b` is appending `a + b`. */
  lemma {:induction false} AppendAllConcat(s: StoreState, a: seq<Record>, b: seq<Record>)
    ensures AppendAll(s, a + b) == AppendAll(AppendAll(s, a), b)
  {
    if b == [] {
      assert a + b == a;
    } else {
      var front := b[..|b| - 1];
      assert (a + b)[..|a + b| - 1] == a + front;
      AppendAllConcat(s, a, front);
    }
  }

  // ---------------------------------------------------------------------------
  // protect, get_view

  /**
   * `protect(name)`: LookupError when there is no such view; AttributeError
   * while the protected set has never been assigned; otherwise `name` joins
   * the protected set and the views are untouched.
   */
  function Protected(s: StoreState, name: string): (r: Answer<StoreState>)
    ensures name !in s.views ==> r == Raises(LookupError)
    ensures name in s.views ==> (r.Raises? <==> s.protected.None?)
    ensures r.Raises? ==> r.error == LookupError || r.error == AttributeError
    ensures r.Returns? ==> r.value.keys == s.keys && r.value.views == s.views
    ensures r.Returns? ==> r.value.protected == Some(ProtectedNames(s) + {name})
  {
    if name !in s.views then Raises(LookupError)
    else match s.protected
      case None => Raises(AttributeError)
      case Some(p) => Returns(s.(protected := Some(p + {name})))
  }

  /** `get_view(name)`: the view, or KeyError. */
  function GetView(s: StoreState, name: string): (r: Answer<seq<Record>>)
    ensures r.Raises? <==> name !in s.views
    ensures r.Returns? ==> r.value == s.views[name]
  {
    if name in s.views then Returns(s.views[name]) else Raises(KeyError)
  }

  // ---------------------------------------------------------------------------
  // clear

  /** The names of `xs` that are in `p`, in order. */
  function KeepOnly(xs: seq<string>, p: set<string>): seq<string>
  {
    if xs == [] then []
    else KeepOnly(xs[..|xs| - 1], p) + (if xs[|xs| - 1] in p then [xs[|xs| - 1]] else [])
  }

  /** `KeepOnly` keeps exactly the names of `xs` in `p`, and no name twice. */
  lemma {:induction false} KeepOnlyMembers(xs: seq<string>, p: set<string>)
    ensures forall k :: k in KeepOnly(xs, p) <==> k in xs && k in p
    ensures Distinct(xs) ==> Distinct(KeepOnly(xs, p))
  {
    if xs != [] {
      var front := xs[..|xs| - 1];
      KeepOnlyMembers(front, p);
      assert forall k :: k in xs <==> k in front || k == xs[|xs| - 1];
    }
  }

  /** The positions in `xs` of the names `KeepOnly` keeps, in order. */
  function KeptPositions(xs: seq<string>, p: set<string>): seq<nat>
  {
    if xs == [] then []
    else KeptPositions(xs[..|xs| - 1], p) + (if xs[|xs| - 1] in p then [|xs| - 1] else [])
  }

  /**
   * `KeepOnly` is the subsequence of `xs` made of its names in `p`: its
   * i-th name sits at the i-th kept position, the positions increase (so
   * the old order is kept), and every position of a name in `p` is kept.
   */
  lemma {:induction false} KeepOnlyInOrder(xs: seq<string>, p: set<string>)
    ensures |KeptPositions(xs, p)| == |KeepOnly(xs, p)|
    ensures forall i :: 0 <= i < |KeepOnly(xs, p)| ==>
      KeptPositions(xs, p)[i] < |xs| && KeepOnly(xs, p)[i] == xs[KeptPositions(xs, p)[i]]
    ensures forall i, j :: 0 <= i < j < |KeptPositions(xs, p)| ==> KeptPositions(xs, p)[i] < KeptPositions(xs, p)[j]
    ensures forall n :: 0 <= n < |xs| && xs[n] in p ==> n in KeptPositions(xs, p)
  {
    if xs != [] {
      var front := xs[..|xs| - 1];
      KeepOnlyInOrder(front, p);
      assert forall n :: 0 <= n < |front| ==> front[n] == xs[n];
    }
  }

  /** The state with only the views whose names are in `p`. */
  function Restricted(s: StoreState, p: set<string>): StoreState
  {
    StoreState(KeepOnly(s.keys, p), map k | k in s.views && k in p :: s.views[k], s.protected)
  }

  lemma RestrictedWellformed(s: StoreState, p: set<string>)
    requires Wellformed(s)
    ensures Wellformed(Restricted(s, p))
  {
    KeepOnlyMembers(s.keys, p);
  }

  /**
   * `clear(force)`.  Forced: no views and an empty protected set.  Not
   * forced: every unprotected view is dropped, so the names left are the old
   * names that are protected, and the views left are unchanged; while the
   * protected set has never been assigned, the first name looked up raises
   * AttributeError before anything is dropped.
   */
  function Cleared(s: StoreState, force: bool): (r: Answer<StoreState>)
    requires Wellformed(s)
    ensures force ==> r == Returns(StoreState([], map[], Some({})))
    ensures !force ==> (r.Raises? <==> s.protected.None? && s.keys != [])
    ensures !force && r.Returns? ==>
      && r.value.keys == KeepOnly(s.keys, ProtectedNames(s))
      && r.value.views.Keys == s.views.Keys * ProtectedNames(s)
      && (forall k :: k in r.value.views ==> r.value.views[k] == s.views[k])
      && r.value.protected == s.protected
  {
    if force then Returns(StoreState([], map[], Some({})))
    else if s.keys == [] then Returns(s)
    else match s.protected
      case None => Raises(AttributeError)
      case Some(p) => Returns(Restricted(s, p))
  }

  /** A clear keeps the store well formed. */
  lemma ClearedWellformed(s: StoreState, force: bool)
    requires Wellformed(s)
    ensures Cleared(s, force).Returns? ==> Wellformed(Cleared(s, force).value)
  {
    if !force && s.keys != [] && s.protected.Some? {
      RestrictedWellformed(s, s.protected.value);
    }
  }

  // ---------------------------------------------------------------------------
  // PluginInterface.list_records, list_all_records, update_record

  /** The argument of `list_records`: a position in key order, or a view name. */
  datatype Selector = At(position: int) | Named(name: string)

  /**
   * `list_records(model)` with `.list()` read as the view's records: a
   * position picks the view at that place in key order (IndexError out of
   * range), a name that has no view raises ValueError.
   */
  function ListRecords(s: StoreState, sel: Selector): (r: Answer<seq<Record>>)
    requires Wellformed(s)
    ensures sel.Named? ==> (r.Raises? <==> sel.name !in s.views)
    ensures sel.Named? && r.Raises? ==> r.error == ValueError
    ensures sel.Named? && r.Returns? ==> r.value == s.views[sel.name]
    ensures sel.At? ==> (r.Raises? <==> !(-|s.keys| <= sel.position < |s.keys|))
    ensures sel.At? && r.Raises? ==> r.error == IndexError
    ensures sel.At? && 0 <= sel.position < |s.keys| ==> r == Returns(s.views[s.keys[sel.position]])
    ensures sel.At? && -|s.keys| <= sel.position < 0 ==> r == Returns(s.views[s.keys[|s.keys| + sel.position]])
  {
    match sel
    case At(i) =>
      (match Position(|s.keys|, i)
       case None => Raises(IndexError)
       case Some(j) => Returns(s.views[s.keys[j]]))
    case Named(name) =>
      if name !in s.views then Raises(ValueError) else Returns(s.views[name])
  }

  /** `enumerate(rs)`. */
  function Enumerate(rs: seq<Record>): (e: seq<(nat, Record)>)
    ensures |e| == |rs| && forall i :: 0 <= i < |rs| ==> e[i] == (i, rs[i])
  {
    seq(|rs|, i requires 0 <= i < |rs| => (i, rs[i]))
  }

  /** The enumerated records of the views named in `ks`, view after view. */
  function PairsOf(s: StoreState, ks: seq<string>): seq<(nat, Record)>
    requires forall k :: k in ks ==> k in s.views
  {
    if ks == [] then [] else PairsOf(s, ks[..|ks| - 1]) + Enumerate(s.views[ks[|ks| - 1]])
  }

  /** `list_all_records()`: for each view in key order, its records with their index in that view. */
  function ListAllRecords(s: StoreState): seq<(nat, Record)>
    requires Wellformed(s)
  {
    PairsOf(s, s.keys)
  }

  lemma {:induction false} PairsOfExact(s: StoreState, ks: seq<string>)
    requires Wellformed(s)
    requires forall k :: k in ks ==> k in s.views
    ensures forall p :: p in PairsOf(s, ks) ==>
      p.1.api in ks && p.0 < |s.views[p.1.api]| && s.views[p.1.api][p.0] == p.1
    ensures forall k, n :: k in ks && 0 <= n < |ViewOf(s, k)| ==> (n, s.views[k][n]) in PairsOf(s, ks)
  {
    if ks != [] {
      var front, last := ks[..|ks| - 1], ks[|ks| - 1];
      PairsOfExact(s, front);
      var e := Enumerate(s.views[last]);
      assert PairsOf(s, ks) == PairsOf(s, front) + e;
      forall k, n | k in ks && 0 <= n < |ViewOf(s, k)|
        ensures (n, s.views[k][n]) in PairsOf(s, ks)
      {
        if k != last {
          assert k in front;
        } else {
          assert e[n] == (n, s.views[k][n]);
        }
      }
      forall p | p in e
        ensures p.1.api in ks && p.0 < |s.views[p.1.api]| && s.views[p.1.api][p.0] == p.1
      {
        var i :| 0 <= i < |e| && e[i] == p;
        assert s.views[last][i] in s.views[last];
      }
    }
  }

  /**
   * `list_all_records()` lists exactly the records of the store, each with
   * its index in its own view: every pair it lists is (n, r) with r the n-th
   * record of the view named by r's `_api`, and every record of every view
   * appears with its index.
   */
  lemma ListAllRecordsExact(s: StoreState)
    requires Wellformed(s)
    ensures forall p :: p in ListAllRecords(s) ==>
      p.1.api in s.views && p.0 < |s.views[p.1.api]| && s.views[p.1.api][p.0] == p.1
    ensures forall k, n :: k in s.views && 0 <= n < |s.views[k]| ==> (n, s.views[k][n]) in ListAllRecords(s)
  {
    PairsOfExact(s, s.keys);
    forall k, n | k in s.views && 0 <= n < |s.views[k]|
      ensures (n, s.views[k][n]) in ListAllRecords(s)
    {
      assert n < |ViewOf(s, k)|;
    }
  }

  /**
   * `update_record(index, r)` with the view's `update(index, record)` read as
   * `view[index] = record`: KeyError when `r._api` has no view, IndexError out
   * of range; otherwise that one record of that one view is replaced.
   */
  function Updated(s: StoreState, index: int, r: Record): (t: Answer<StoreState>)
    ensures t.Raises? <==> r.api !in s.views || !(-|s.views[r.api]| <= index < |s.views[r.api]|)
    ensures r.api !in s.views ==> t == Raises(KeyError)
    ensures r.api in s.views && !(-|s.views[r.api]| <= index < |s.views[r.api]|) ==> t == Raises(IndexError)
    ensures t.Returns? ==> t.value.keys == s.keys && t.value.protected == s.protected
    ensures t.Returns? ==> t.value.views.Keys == s.views.Keys
    ensures t.Returns? ==> forall k :: k in s.views && k != r.api ==> t.value.views[k] == s.views[k]
    ensures t.Returns? && 0 <= index ==> t.value.views[r.api] == s.views[r.api][index := r]
    ensures t.Returns? && 0 <= index ==> t.value == s.(views := s.views[r.api := s.views[r.api][index := r]])
    ensures t.Returns? && index < 0 ==>
      t.value == s.(views := s.views[r.api := s.views[r.api][|s.views[r.api]| + index := r]])
  {
    if r.api !in s.views then Raises(KeyError)
    else
      var view := s.views[r.api];
      match Position(|view|, index)
      case None => Raises(IndexError)
      case Some(j) =>
        Returns(s.(views := s.views[r.api := view[j := r]]))
  }

  /** Replacing a record by one with the same `_api` keeps the store well formed. */
  lemma UpdatedWellformed(s: StoreState, index: int, r: Record)
    requires Wellformed(s)
    ensures Updated(s, index, r).Returns? ==> Wellformed(Updated(s, index, r).value)
  {
    if Updated(s, index, r).Returns? {
      var view := s.views[r.api];
      var j := Position(|view|, index).value;
      assert forall x :: x in view[j := r] ==> x in view || x == r;
    }
  }

  // ---------------------------------------------------------------------------
  // Saving: every record of every view

  /** `[record for table in views.values() for record in table.get()]` over the views named in `ks`. */
  function RecordsOf(s: StoreState, ks: seq<string>): seq<Record>
    requires forall k :: k in ks ==> k in s.views
  {
    if ks == [] then [] else RecordsOf(s, ks[..|ks| - 1]) + s.views[ks[|ks| - 1]]
  }

  function AllRecords(s: StoreState): seq<Record>
    requires Wellformed(s)
  {
    RecordsOf(s, s.keys)
  }

  /** There is no record to save exactly when there is no view. */
  lemma {:induction false} AllRecordsEmpty(s: StoreState)
    requires Wellformed(s)
    ensures AllRecords(s) == [] <==> s.keys == []
  {
    if s.keys != [] {
      var last := s.keys[|s.keys| - 1];
      assert |RecordsOf(s, s.keys)| >= |s.views[last]| > 0;
    }
  }

  // ---------------------------------------------------------------------------
  // The calls as the source writes them

  /**
   * `append_record` as written: `OutputRecordView` has no `append`, so a
   * record whose view already exists raises AttributeError (which the
   * `except KeyError` does not catch); only the first record of a name lands.
   */
  function AppendAsWritten(s: StoreState, r: Record): (t: Answer<StoreState>)
    ensures t.Raises? <==> r.api in s.views
  {
    if r.api in s.views then Raises(AttributeError) else Returns(Appended(s, r))
  }

  /** As written, no view can ever receive a second record. */
  lemma AppendAsWrittenRejectsSecond(s: StoreState, r1: Record, r2: Record)
    requires r1.api == r2.api
    requires AppendAsWritten(s, r1).Returns?
    ensures AppendAsWritten(AppendAsWritten(s, r1).value, r2) == Raises(AttributeError)
  {
  }

  /**
   * `list_records` as written: once the view is found, `.list()` does not
   * exist on `OutputRecordView`, so the call never returns records.
   */
  function ListAsWritten(s: StoreState, sel: Selector): (r: Answer<seq<Record>>)
    requires Wellformed(s)
    ensures r.Raises?
    ensures ListRecords(s, sel).Returns? ==> r == Raises(AttributeError)
  {
    match ListRecords(s, sel)
    case Returns(_) => Raises(AttributeError)
    case Raises(e) => Raises(e)
  }

  /**
   * `update_record` as written: the view's `update` takes one argument, so
   * passing two raises TypeError whenever the view exists.
   */
  function UpdateAsWritten(s: StoreState, index: int, r: Record): (t: Answer<StoreState>)
    ensures t.Raises?
    ensures r.api in s.views ==> t == Raises(TypeError)
  {
    if r.api in s.views then Raises(TypeError) else Raises(KeyError)
  }

  // ---------------------------------------------------------------------------
  // The class

  /** Python's `xs` without `x`, as `dict.pop` leaves the key order. */
  function Remove(xs: seq<string>, x: string): seq<string>
  {
    if xs == [] then [] else (if xs[0] == x then [] else [xs[0]]) + Remove(xs[1..], x)
  }

  lemma {:induction false} RemoveMembers(xs: seq<string>, x: string)
    ensures forall k :: k in Remove(xs, x) <==> k in xs && k != x
  {
    if xs != [] {
      RemoveMembers(xs[1..], x);
      assert forall k :: k in xs <==> k == xs[0] || k in xs[1..];
    }
  }

  lemma {:induction false} RemoveConcat(a: seq<string>, b: seq<string>, x: string)
    ensures Remove(a + b, x) == Remove(a, x) + Remove(b, x)
  {
    if a != [] {
      var ab := a + b;
      assert ab[0] == a[0] && ab[1..] == a[1..] + b;
      RemoveConcat(a[1..], b, x);
      assert Remove(ab, x) == (if a[0] == x then [] else [a[0]]) + Remove(a[1..] + b, x);
    } else {
      assert a + b == b;
    }
  }

  lemma {:induction false} RemoveAbsent(a: seq<string>, x: string)
    requires x !in a
    ensures Remove(a, x) == a
  {
    if a != [] {
      RemoveAbsent(a[1..], x);
    }
  }

  lemma KeepOnlyTake(ks: seq<string>, i: nat, p: set<string>)
    requires i < |ks|
    ensures KeepOnly(ks[..i + 1], p) == KeepOnly(ks[..i], p) + (if ks[i] in p then [ks[i]] else [])
  {
    assert ks[..i + 1][..i] == ks[..i];
  }

  /** The key list after the unforced clear has visited the first `i` keys. */
  lemma ClearKeysStep(ks: seq<string>, i: nat, p: set<string>)
    requires Distinct(ks) && i < |ks|
    ensures ks[i] !in p ==> Remove(KeepOnly(ks[..i], p) + ks[i..], ks[i]) == KeepOnly(ks[..i + 1], p) + ks[i + 1..]
    ensures ks[i] in p ==> KeepOnly(ks[..i], p) + ks[i..] == KeepOnly(ks[..i + 1], p) + ks[i + 1..]
  {
    var key, kept, rest := ks[i], KeepOnly(ks[..i], p), ks[i + 1..];
    KeepOnlyTake(ks, i, p);
    assert ks[i..] == [key] + rest;
    if key in p {
      assert kept + ([key] + rest) == (kept + [key]) + rest;
    } else {
      assert kept + [] == kept;
      ClearKeysDrop(ks, i, p);
    }
  }

  /** Removing an unprotected name from the list leaves the names before and after it. */
  lemma ClearKeysDrop(ks: seq<string>, i: nat, p: set<string>)
    requires Distinct(ks) && i < |ks| && ks[i] !in p
    ensures Remove(KeepOnly(ks[..i], p) + ([ks[i]] + ks[i + 1..]), ks[i]) == KeepOnly(ks[..i], p) + ks[i + 1..]
  {
    var key, kept, rest := ks[i], KeepOnly(ks[..i], p), ks[i + 1..];
    RemoveConcat(kept, [key] + rest, key);
    RemoveConcat([key], rest, key);
    assert key !in rest by {
      forall j | i + 1 <= j < |ks| ensures ks[j] != key { }
    }
    assert key !in kept by {
      KeepOnlyMembers(ks[..i], p);
      assert key !in ks[..i] by {
        forall j | 0 <= j < i ensures ks[j] != key { }
      }
    }
    RemoveAbsent(kept, key);
    RemoveAbsent(rest, key);
    assert Remove([key], key) == [] by {
      assert [key][1..] == [];
    }
    assert [] + rest == rest;
  }

  /** The views without `key`, as `dict.pop(key)` leaves them. */
  function Pop(views: map<string, seq<Record>>, key: string): (m: map<string, seq<Record>>)
    ensures m.Keys == views.Keys - {key}
    ensures forall k :: k in m ==> m[k] == views[k]
  {
    map k | k in views && k != key :: views[k]
  }

  /** `self.views.pop(key)`: the view `key` and its name go. */
  function Popped(s: StoreState, key: string): StoreState
  {
    s.(keys := Remove(s.keys, key), views := Pop(s.views, key))
  }

  /**
   * The store once the unforced clear has visited the first `i` names of the
   * copied key list, popping each unprotected one.
   */
  ghost function ClearWalk(s: StoreState, p: set<string>, i: nat): StoreState
    requires i <= |s.keys|
  {
    if i == 0 then s
    else
      var t := ClearWalk(s, p, i - 1);
      if s.keys[i - 1] in p then t else Popped(t, s.keys[i - 1])
  }

  /** What the walk has left after `i` names: of those, only the protected ones. */
  ghost function ClearProgress(s: StoreState, p: set<string>, i: nat): StoreState
    requires i <= |s.keys|
  {
    StoreState(KeepOnly(s.keys[..i], p) + s.keys[i..],
      map k | k in s.views && (k in p || k in s.keys[i..]) :: s.views[k], s.protected)
  }

  /** Visiting one more name pops it unless it is protected. */
  lemma ClearStep(s: StoreState, p: set<string>, i: nat)
    requires Wellformed(s) && i < |s.keys|
    ensures s.keys[i] !in p ==> Popped(ClearProgress(s, p, i), s.keys[i]) == ClearProgress(s, p, i + 1)
    ensures s.keys[i] in p ==> ClearProgress(s, p, i) == ClearProgress(s, p, i + 1)
  {
    ClearKeysStep(s.keys, i, p);
    var key := s.keys[i];
    assert s.keys[i..] == [key] + s.keys[i + 1..];
    assert forall k :: k in s.keys[i..] <==> k == key || k in s.keys[i + 1..];
    if key !in p {
      assert key !in s.keys[i + 1..] by {
        forall j | i + 1 <= j < |s.keys| ensures s.keys[j] != key { }
      }
    }
  }

  /** The walk starts at the whole store and ends at the protected views. */
  lemma ClearStarts(s: StoreState, p: set<string>)
    requires Wellformed(s)
    ensures ClearProgress(s, p, 0) == s
  {
    var t := ClearProgress(s, p, 0);
    assert t.keys == s.keys by {
      assert s.keys[..0] == [] && s.keys[0..] == s.keys;
    }
    assert t.views == s.views by {
      assert s.keys[0..] == s.keys;
    }
  }

  lemma ClearEnds(s: StoreState, p: set<string>)
    ensures ClearProgress(s, p, |s.keys|) == Restricted(s, p)
  {
    var t := ClearProgress(s, p, |s.keys|);
    assert t.keys == KeepOnly(s.keys, p) by {
      assert s.keys[..|s.keys|] == s.keys && s.keys[|s.keys|..] == [];
    }
    assert t.views == Restricted(s, p).views by {
      assert s.keys[|s.keys|..] == [];
    }
  }

  lemma {:induction false} ClearWalkProgress(s: StoreState, p: set<string>, i: nat)
    requires Wellformed(s) && i <= |s.keys|
    ensures ClearWalk(s, p, i) == ClearProgress(s, p, i)
  {
    if i == 0 {
      ClearStarts(s, p);
    } else {
      ClearWalkProgress(s, p, i - 1);
      ClearStep(s, p, i - 1);
    }
  }

  /** The unforced clear of a store with protected set `p` leaves the protected views. */
  lemma ClearWalkEnds(s: StoreState, p: set<string>)
    requires Wellformed(s)
    ensures ClearWalk(s, p, |s.keys|) == Restricted(s, p)
  {
    ClearWalkProgress(s, p, |s.keys|);
    ClearEnds(s, p);
  }

  class ModelViewController {
    var keys: seq<string>
    var views: map<string, seq<Record>>
    var protected: Option<set<string>>

    function State(): StoreState
      reads this
    {
      StoreState(keys, views, protected)
    }

    ghost predicate Valid()
      reads this
    {
      Wellformed(State())
    }

    constructor ()
      ensures Valid() && State() == Initial
    {
      keys, views, protected := [], map[], None;
    }

    method AppendRecord(r: Record)
      requires Valid()
      modifies this
      ensures Valid() && State() == Appended(old(State()), r)
    {
      AppendedWellformed(State(), r);
      if r.api in views {
        views := views[r.api := views[r.api] + [r]];
      } else {
        keys := keys + [r.api];
        views := views[r.api := [r]];
      }
    }

    method Protect(name: string) returns (outcome: Answer<()>)
      requires Valid()
      modifies this
      ensures Valid()
      ensures Protected(old(State()), name).Returns? ==> outcome == Returns(()) && State() == Protected(old(State()), name).value
      ensures Protected(old(State()), name).Raises? ==> outcome == Raises(Protected(old(State()), name).error) && State() == old(State())
    {
      if name !in views {
        outcome := Raises(LookupError);
      } else if protected.None? {
        outcome := Raises(AttributeError);
      } else {
        protected := Some(protected.value + {name});
        outcome := Returns(());
      }
    }

    /**
     * `clear(force)`; the unforced case walks a copy of the key list and pops
     * each name that is not protected.
     */
    method Clear(force: bool) returns (outcome: Answer<()>)
      requires Valid()
      modifies this
      ensures Valid()
      ensures Cleared(old(State()), force).Returns? ==> outcome == Returns(()) && State() == Cleared(old(State()), force).value
      ensures Cleared(old(State()), force).Raises? ==> outcome == Raises(Cleared(old(State()), force).error) && State() == old(State())
    {
      if force {
        keys, views, protected := [], map[], Some({});
        return Returns(());
      }
      var ks := keys;
      ghost var s0 := State();
      if ks != [] && protected.None? {
        return Raises(AttributeError);
      }
      if ks == [] {
        return Returns(());
      }
      var p := protected.value;
      var i := 0;
      while i < |ks|
        invariant 0 <= i <= |ks|
        invariant State() == ClearWalk(s0, p, i)
      {
        var key := ks[i];
        if key !in p {
          views := Pop(views, key);
          keys := Remove(keys, key);
        }
        i := i + 1;
      }
      ClearWalkEnds(s0, p);
      RestrictedWellformed(s0, p);
      outcome := Returns(());
    }

    method UpdateRecord(index: int, r: Record) returns (outcome: Answer<()>)
      requires Valid()
      modifies this
      ensures Valid()
      ensures Updated(old(State()), index, r).Returns? ==> outcome == Returns(()) && State() == Updated(old(State()), index, r).value
      ensures Updated(old(State()), index, r).Raises? ==> outcome == Raises(Updated(old(State()), index, r).error) && State() == old(State())
    {
      UpdatedWellformed(State(), index, r);
      var u := Updated(State(), index, r);
      match u
      case Returns(t) =>
        views := t.views;
        outcome := Returns(());
      case Raises(e) =>
        outcome := Raises(e);
    }
  }
}
