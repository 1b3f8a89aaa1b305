/** Snapshots own their data: the recursive copy on the heap (internal/window/snapshot.go).

    Here maps and lists are objects that can be shared and written, as in Go. */
module DeepCopy {
  import opened Json

  /** A dynamic value: a primitive, a reference to a map or a list, or a reference of some other kind. */
  datatype Val = Prim(v: Value) | MapRef(m: MapObj) | ListRef(l: ListObj) | Other(o: object)

  class MapObj {
    var entries: map<string, Val>

    constructor (entries: map<string, Val>)
      ensures this.entries == entries
    {
      this.entries := entries;
    }
  }

  class ListObj {
    var items: seq<Val>

    constructor (items: seq<Val>)
      ensures this.items == items
    {
      this.items := items;
    }
  }

  /** What a value says, with references followed; references of other kinds are taken as they are. */
  datatype Tree = Leaf(v: Value) | Node(children: map<string, Tree>) | Row(items: seq<Tree>) | Shared(o: object)

  /** Every map and list reachable from `v` is in `r`, and no path is longer than `depth`: there are no cycles. */
  ghost predicate Within(v: Val, r: set<object>, depth: nat)
    reads r
    decreases depth
  {
    match v
    case MapRef(m) => depth > 0 && m in r && forall k :: k in m.entries ==> Within(m.entries[k], r, depth - 1)
    case ListRef(l) => depth > 0 && l in r && forall i :: 0 <= i < |l.items| ==> Within(l.items[i], r, depth - 1)
    case _ => true
  }

  ghost function Read(v: Val, r: set<object>, depth: nat): Tree
    requires Within(v, r, depth)
    reads r
    decreases depth
  {
    match v
    case Prim(x) => Leaf(x)
    case MapRef(m) => Node(map k | k in m.entries :: Read(m.entries[k], r, depth - 1))
    case ListRef(l) => Row(seq(|l.items|, i requires 0 <= i < |l.items|
      && Within(l.items[i], r, depth - 1) reads r, l =>
                             Read(l.items[i], r, depth - 1)))
    case Other(o) => Shared(o)
  }

  lemma {:induction false} Grow(v: Val, r: set<object>, r': set<object>, depth: nat)
    requires Within(v, r, depth) && r <= r'
    ensures Within(v, r', depth) && Read(v, r', depth) == Read(v, r, depth)
    decreases depth
  {
    match v
    case MapRef(m) =>
      forall k | k in m.entries
        ensures Within(m.entries[k], r', depth - 1)
                && Read(m.entries[k], r', depth - 1) == Read(m.entries[k], r, depth - 1)
      {
        Grow(m.entries[k], r, r', depth - 1);
      }
    case ListRef(l) =>
      forall i | 0 <= i < |l.items|
        ensures Within(l.items[i], r', depth - 1) && Read(l.items[i], r', depth - 1) == Read(l.items[i], r, depth - 1)
      {
        Grow(l.items[i], r, r', depth - 1);
      }
      assert Read(v, r', depth).items == Read(v, r, depth).items;
    case _ =>
  }

  /** `out` reads the same as `v` and reaches only objects of `r'`. */
  ghost predicate Copies(v: Val, r: set<object>, out: Val, r': set<object>, depth: nat)
    reads r, r'
  {
    Within(v, r, depth) && Within(out, r', depth) && Read(out, r', depth) == Read(v, r, depth)
  }

  lemma CopiesGrow(v: Val, r: set<object>, out: Val, r': set<object>, r'': set<object>, depth: nat)
    requires Copies(v, r, out, r', depth) && r' <= r''
    ensures Copies(v, r, out, r'', depth)
  {
    Grow(out, r', r'', depth);
  }

  method DeepCopyValue(v: Val, ghost r: set<object>, ghost depth: nat) returns (out: Val, ghost r': set<object>)
    requires Within(v, r, depth)
    ensures fresh(r') && Copies(v, r, out, r', depth)
    ensures (v.Prim? || v.Other?) ==> out == v
    decreases depth
  {
    match v {
      case MapRef(m) =>
        var copy;
        copy, r' := CopyMap(m, r, depth);
        out := MapRef(copy);
      case ListRef(l) =>
        var copy;
        copy, r' := CopyList(l, r, depth);
        out := ListRef(copy);
      case _ => out, r' := v, {};
    }
  }

  method CopyMap(m: MapObj, ghost r: set<object>, ghost depth: nat) returns (copy: MapObj, ghost r': set<object>)
    requires Within(MapRef(m), r, depth)
    ensures fresh(r') && copy in r' && Copies(MapRef(m), r, MapRef(copy), r', depth)
    decreases depth, 0
  {
    hide Copies;
    var entries: map<string, Val> := map[];
    r' := {};
    var todo := m.entries.Keys;
    while todo != {}
      invariant todo <= m.entries.Keys && entries.Keys == m.entries.Keys - todo && fresh(r')
      invariant forall k :: k in entries ==> Copies(m.entries[k], r, entries[k], r', depth - 1)
    {
      var k :| k in todo;
      var v; ghost var rk;
      v, rk := DeepCopyValue(m.entries[k], r, depth - 1);
      forall x | x in entries ensures Copies(m.entries[x], r, entries[x], r' + rk, depth - 1) {
        CopiesGrow(m.entries[x], r, entries[x], r', r' + rk, depth - 1);
      }
      CopiesGrow(m.entries[k], r, v, rk, r' + rk, depth - 1);
      entries, todo, r' := entries[k := v], todo - {k}, r' + rk;
    }
    copy := new MapObj(entries);
    forall x | x in entries ensures Copies(m.entries[x], r, entries[x], r' + {copy}, depth - 1) {
      CopiesGrow(m.entries[x], r, entries[x], r', r' + {copy}, depth - 1);
    }
    r' := r' + {copy};
    MapCopied(m, r, copy, r', depth);
  }

  lemma MapCopied(m: MapObj, r: set<object>, copy: MapObj, r': set<object>, depth: nat)
    requires Within(MapRef(m), r, depth) && copy in r' && copy.entries.Keys == m.entries.Keys
    requires forall k :: k in m.entries ==> Copies(m.entries[k], r, copy.entries[k], r', depth - 1)
    ensures Copies(MapRef(m), r, MapRef(copy), r', depth)
  {
  }

  method CopyList(l: ListObj, ghost r: set<object>, ghost depth: nat) returns (copy: ListObj, ghost r': set<object>)
    requires Within(ListRef(l), r, depth)
    ensures fresh(r') && copy in r' && Copies(ListRef(l), r, ListRef(copy), r', depth)
    decreases depth, 0
  {
    hide Copies;
    var items: seq<Val> := [];
    r' := {};
    for i := 0 to |l.items|
      invariant |items| == i && fresh(r')
      invariant forall j :: 0 <= j < i ==> Copies(l.items[j], r, items[j], r', depth - 1)
    {
      var v; ghost var ri;
      v, ri := DeepCopyValue(l.items[i], r, depth - 1);
      forall j | 0 <= j < i ensures Copies(l.items[j], r, items[j], r' + ri, depth - 1) {
        CopiesGrow(l.items[j], r, items[j], r', r' + ri, depth - 1);
      }
      CopiesGrow(l.items[i], r, v, ri, r' + ri, depth - 1);
      items, r' := items + [v], r' + ri;
    }
    copy := new ListObj(items);
    forall j | 0 <= j < |items| ensures Copies(l.items[j], r, items[j], r' + {copy}, depth - 1) {
      CopiesGrow(l.items[j], r, items[j], r', r' + {copy}, depth - 1);
    }
    r' := r' + {copy};
    ListCopied(l, r, copy, r', depth);
  }

  lemma ListCopied(l: ListObj, r: set<object>, copy: ListObj, r': set<object>, depth: nat)
    requires Within(ListRef(l), r, depth) && copy in r' && |copy.items| == |l.items|
    requires forall i :: 0 <= i < |l.items| ==> Copies(l.items[i], r, copy.items[i], r', depth - 1)
    ensures Copies(ListRef(l), r, ListRef(copy), r', depth)
  {
  }

  // ----- Windows and their snapshots -----

  /** The dynamic maps of a live window, or of a snapshot of one: last tracked properties, error properties, traits,
      listing and filter properties. `owned` holds every map and list they reach. */
  class Holder {
    var maps: seq<MapObj>
    ghost var owned: set<object>
    ghost var depth: nat

    constructor (maps: seq<MapObj>, ghost owned: set<object>, ghost depth: nat)
      ensures this.maps == maps && this.owned == owned && this.depth == depth
    {
      this.maps, this.owned, this.depth := maps, owned, depth;
    }

    ghost predicate Valid()
      reads this, owned
    {
      this !in owned && forall i :: 0 <= i < |maps| ==> Within(MapRef(maps[i]), owned, depth)
    }

    ghost function View(): seq<Tree>
      requires Valid()
      reads this, owned
    {
      seq(|maps|, i requires 0 <= i < |maps|
        && Within(MapRef(maps[i]), owned, depth) reads this, owned => Read(MapRef(maps[i]), owned, depth))
    }

    /** A copy that reads the same and reaches only fresh maps and lists. */
    method Snapshot() returns (s: Holder)
      requires Valid()
      ensures fresh(s) && fresh(s.owned) && s.Valid() && s.View() == View()
    {
      hide Copies, View;
      var copies: seq<MapObj> := [];
      ghost var all: set<object> := {};
      for i := 0 to |maps|
        invariant |copies| == i && fresh(all)
        invariant forall j :: 0 <= j < i ==> Copies(MapRef(maps[j]), owned, MapRef(copies[j]), all, depth)
      {
        var c; ghost var r; c, r := CopyMap(maps[i], owned, depth);
        forall j | 0 <= j < i ensures Copies(MapRef(maps[j]), owned, MapRef(copies[j]), all + r, depth) {
          CopiesGrow(MapRef(maps[j]), owned, MapRef(copies[j]), all, all + r, depth);
        }
        CopiesGrow(MapRef(maps[i]), owned, MapRef(c), r, all + r, depth);
        copies, all := copies + [c], all + r;
      }
      s := new Holder(copies, all, depth);
      ReadsTheSame(s);
    }

    lemma ReadsTheSame(s: Holder)
      requires Valid() && s !in s.owned && s.depth == depth && |s.maps| == |maps|
      requires forall i :: 0 <= i < |maps| ==> Copies(MapRef(maps[i]), owned, MapRef(s.maps[i]), s.owned, depth)
      ensures s.Valid() && s.View() == View()
    {
    }
  }

  /** Stands for any code that writes nothing outside `frame`; its contract promises nothing more. */
  method AnyWrites(ghost frame: set<object>)
    modifies frame
  {
  }

  /** Whatever is later written to the window and its maps and lists, an earlier snapshot reads as it did. */
  method LaterWritesSpareSnapshot(w: Holder) returns (s: Holder)
    requires w.Valid()
    modifies w, w.owned
    ensures s.Valid() && s.View() == old(w.View())
  {
    s := w.Snapshot();
    AnyWrites({w} + w.owned);
  }

  /** Whatever is written to a snapshot, the window reads as it did. */
  method SnapshotWritesSpareWindow(w: Holder) returns (s: Holder)
    requires w.Valid()
    ensures w.Valid() && w.View() == old(w.View())
  {
    s := w.Snapshot();
    AnyWrites({s} + s.owned);
  }
}
