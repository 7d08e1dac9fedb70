/**
 * The window entity store: the list of open windows and the id counter,
 * and the list transforms that open, close, raise and move windows.
 *
 * Every transform is total: an id that names no open window leaves the list
 * unchanged, because stale ids can arrive from handlers of windows that have
 * already been closed.
 */
module WindowStore {

  import opened Wrappers
  import opened Registry

  datatype Point = Point(x: int, y: int) {
    function Plus(o: Point): Point { Point(x + o.x, y + o.y) }
    function Minus(o: Point): Point { Point(x - o.x, y - o.y) }
  }

  /**
   * A window's size: a fixed number of pixels, or the viewport less a fixed
   * inset (the CSS `calc(100vw - dw px)` / `calc(100vh - dh px)` sizes).
   */
  datatype Size = Pixels(width: nat, height: nat) | ViewportInset(dw: nat, dh: nat)

  datatype Window = Window(
    id: nat,
    title: string,
    panel: Panel,
    position: Point,
    size: Size,
    zIndex: int)

  /** The list of open windows together with the next id to hand out. */
  datatype Store = Store(windows: seq<Window>, nextId: nat)

  const DefaultSize: Size := Pixels(640, 480)
  const ServerManagerSize: Size := ViewportInset(100, 150)

  /** Where a new window lands: staggered by id, except the Server Manager. */
  function Placement(id: nat, toolName: string): Point
  {
    if toolName == ServerManager then Point(50, 40)
    else Point(50 + (id % 10) * 20, 50 + (id % 10) * 20)
  }

  function SizeFor(toolName: string): Size
  {
    if toolName == ServerManager then ServerManagerSize else DefaultSize
  }

  /** The stagger repeats every ten ids and never repeats within ten. */
  lemma PlacementStaggers(id: nat, d: nat, toolName: string)
    requires toolName != ServerManager
    ensures Placement(id + 10 * d, toolName) == Placement(id, toolName)
    ensures 0 < d < 10 ==> Placement(id + d, toolName) != Placement(id, toolName)
    ensures 50 <= Placement(id, toolName).x == Placement(id, toolName).y <= 230
  {
    assert (id + 10 * d) % 10 == id % 10;
  }

  // ---------------------------------------------------------------------
  // Ids and ranks

  /** The position of the first window carrying `id`, as `Array.find` sees it. */
  function IndexOf(ws: seq<Window>, id: int): (r: Option<nat>)
    ensures r.Some? ==> r.value < |ws| && ws[r.value].id == id
    ensures r.Some? ==> forall j :: 0 <= j < r.value ==> ws[j].id != id
    ensures r.None? <==> forall j :: 0 <= j < |ws| ==> ws[j].id != id
  {
    if ws == [] then None
    else if ws[0].id == id then Some(0)
    else match IndexOf(ws[1..], id)
      case None => None
      case Some(k) => Some(k + 1)
  }

  predicate Present(ws: seq<Window>, id: int)
  {
    exists j :: 0 <= j < |ws| && ws[j].id == id
  }

  predicate DistinctIds(ws: seq<Window>)
  {
    forall i, j :: 0 <= i < j < |ws| ==> ws[i].id != ws[j].id
  }

  predicate DistinctRanks(ws: seq<Window>)
  {
    forall i, j :: 0 <= i < j < |ws| ==> ws[i].zIndex != ws[j].zIndex
  }

  /** The ranks are exactly 1..N for N open windows. */
  predicate Dense(ws: seq<Window>)
  {
    && (forall i :: 0 <= i < |ws| ==> 1 <= ws[i].zIndex <= |ws|)
    && DistinctRanks(ws)
  }

  /** Every id is distinct and below the counter, so the counter is unused. */
  predicate WellFormed(s: Store)
  {
    && DistinctIds(s.windows)
    && forall i :: 0 <= i < |s.windows| ==> s.windows[i].id < s.nextId
  }

  // ---------------------------------------------------------------------
  // Open

  /** The window that open appends for a resolved tool. */
  function NewWindow(id: nat, toolName: string, panel: Panel, count: nat): Window
  {
    Window(id, toolName, panel, Placement(id, toolName), SizeFor(toolName), count + 1)
  }

  /**
   * Opens a tool: an unknown name changes nothing (the counter is bumped only
   * after the lookup succeeds); a known one appends one window on top.
   */
  function Open(s: Store, toolName: string): (r: Store)
    ensures Resolve(toolName).None? <==> r == s
    ensures Resolve(toolName).Some? ==>
      && r.nextId == s.nextId + 1
      && |r.windows| == |s.windows| + 1
      && r.windows[..|s.windows|] == s.windows
      && var w := r.windows[|s.windows|];
         && w.id == s.nextId && w.title == toolName && Some(w.panel) == Resolve(toolName)
         && w.zIndex == |s.windows| + 1
         && w.position == (if toolName == ServerManager then Point(50, 40)
                           else Point(50 + (s.nextId % 10) * 20, 50 + (s.nextId % 10) * 20))
         && w.size == (if toolName == ServerManager then ViewportInset(100, 150) else Pixels(640, 480))
  {
    match Resolve(toolName)
    case None => s
    case Some(panel) =>
      Store(s.windows + [NewWindow(s.nextId, toolName, panel, |s.windows|)], s.nextId + 1)
  }

  /** Opening keeps ids unique and below the counter, and keeps ranks dense. */
  lemma OpenPreserves(s: Store, toolName: string)
    requires WellFormed(s)
    ensures WellFormed(Open(s, toolName))
    ensures Dense(s.windows) ==> Dense(Open(s, toolName).windows)
    ensures Open(s, toolName).nextId >= s.nextId
  {
  }

  // ---------------------------------------------------------------------
  // Focus

  /** One window's new rank when `id` moves from rank oldZ to the top rank maxZ. */
  function Restack(w: Window, id: int, oldZ: int, maxZ: int): Window
  {
    if w.id == id then w.(zIndex := maxZ)
    else if w.zIndex > oldZ then w.(zIndex := w.zIndex - 1)
    else w
  }

  /**
   * Raises window `id`: it takes rank |ws| and every window ranked above its
   * old rank moves down one. An absent id, or a window already at rank |ws|,
   * leaves the list as it is. Nothing but ranks ever changes.
   */
  function Focus(ws: seq<Window>, id: int): (r: seq<Window>)
    ensures |r| == |ws|
    ensures forall i :: 0 <= i < |ws| ==> r[i] == ws[i].(zIndex := r[i].zIndex)
    ensures !Present(ws, id) ==> r == ws
  {
    var maxZ := |ws|;
    match IndexOf(ws, id)
    case None => ws
    case Some(k) =>
      if ws[k].zIndex == maxZ then ws
      else seq(|ws|, i requires 0 <= i < |ws| => Restack(ws[i], id, ws[k].zIndex, maxZ))
  }

  /** Two lists with the same ids at the same positions find the same index. */
  lemma {:induction false} IndexOfSameIds(a: seq<Window>, b: seq<Window>, id: int)
    requires |a| == |b|
    requires forall i :: 0 <= i < |a| ==> a[i].id == b[i].id
    ensures IndexOf(a, id) == IndexOf(b, id)
  {
    if a != [] && a[0].id != id {
      IndexOfSameIds(a[1..], b[1..], id);
    }
  }

  /** With unique ids the first window carrying an id is the only one. */
  lemma IndexOfUnique(ws: seq<Window>, id: int, k: nat)
    requires DistinctIds(ws)
    requires k < |ws| && ws[k].id == id
    ensures IndexOf(ws, id) == Some(k)
  {
  }

  /** With unique ids, focusing an open window restacks every window around it. */
  lemma FocusShape(ws: seq<Window>, k: nat)
    requires DistinctIds(ws) && k < |ws|
    requires ws[k].zIndex != |ws|
    ensures forall i :: 0 <= i < |ws| ==>
      Focus(ws, ws[k].id)[i] == Restack(ws[i], ws[k].id, ws[k].zIndex, |ws|)
  {
    IndexOfUnique(ws, ws[k].id, k);
  }

  /**
   * When the ranks are 1..N and ids are unique, focus keeps the ranks 1..N,
   * puts the target on rank N, moves everything above its old rank down one
   * and leaves everything below its old rank untouched.
   */
  lemma FocusKeepsDense(ws: seq<Window>, k: nat)
    requires Dense(ws) && DistinctIds(ws)
    requires k < |ws|
    ensures var r := Focus(ws, ws[k].id);
      && Dense(r) && DistinctIds(r)
      && r[k].zIndex == |ws|
      && (forall i :: 0 <= i < |ws| && ws[i].zIndex < ws[k].zIndex ==> r[i] == ws[i])
      && (forall i :: 0 <= i < |ws| && ws[i].zIndex > ws[k].zIndex ==> r[i].zIndex == ws[i].zIndex - 1)
  {
    var id, oldZ, n := ws[k].id, ws[k].zIndex, |ws|;
    var r := Focus(ws, id);
    if oldZ == n {
      IndexOfUnique(ws, id, k);
      FocusTopNoOp(ws, id, k);
    } else {
      FocusRanks(ws, k);
      assert DistinctRanks(r) by {
        FocusRanksDistinct(ws, k);
      }
      assert DistinctIds(r) by {
        forall i, j | 0 <= i < j < |ws|
          ensures r[i].id != r[j].id
        {
          assert r[i].id == ws[i].id && r[j].id == ws[j].id;
        }
      }
      forall i | 0 <= i < |ws|
        ensures 1 <= r[i].zIndex <= n
      {
        assert 1 <= ws[i].zIndex <= n;
      }
    }
  }

  /** Raising a window below the top keeps ranks distinct. */
  lemma FocusRanksDistinct(ws: seq<Window>, k: nat)
    requires Dense(ws) && DistinctIds(ws)
    requires k < |ws| && ws[k].zIndex != |ws|
    ensures DistinctRanks(Focus(ws, ws[k].id))
  {
    var r := Focus(ws, ws[k].id);
    FocusRanks(ws, k);
    forall i, j | 0 <= i < j < |ws|
      ensures r[i].zIndex != r[j].zIndex
    {
      assert ws[i].zIndex != ws[j].zIndex;
    }
  }

  /** The ranks after raising window `k`: it gets the top rank, those above it move down one. */
  lemma FocusRanks(ws: seq<Window>, k: nat)
    requires DistinctIds(ws) && k < |ws|
    requires ws[k].zIndex != |ws|
    ensures var r := Focus(ws, ws[k].id);
      forall i :: 0 <= i < |ws| ==>
        r[i].zIndex == if i == k then |ws| else if ws[i].zIndex > ws[k].zIndex then ws[i].zIndex - 1 else ws[i].zIndex
  {
    FocusShape(ws, k);
    forall i | 0 <= i < |ws| && i != k
      ensures ws[i].id != ws[k].id
    {
    }
  }

  /** Focusing twice is focusing once, for any list. */
  lemma FocusIdempotent(ws: seq<Window>, id: int)
    ensures Focus(Focus(ws, id), id) == Focus(ws, id)
  {
    var r := Focus(ws, id);
    IndexOfSameIds(ws, r, id);
  }

  /**
   * A window that already holds rank |ws| is left where it is, and so is every
   * other window, whatever the ranks of the list.
   */
  lemma FocusTopNoOp(ws: seq<Window>, id: int, k: nat)
    requires IndexOf(ws, id) == Some(k) && ws[k].zIndex == |ws|
    ensures Focus(ws, id) == ws
  {
  }

  /** After focus(a) then focus(b), b is on top and a directly below it. */
  lemma FocusOrder(ws: seq<Window>, ka: nat, kb: nat)
    requires Dense(ws) && DistinctIds(ws)
    requires ka < |ws| && kb < |ws| && ka != kb
    ensures var r := Focus(Focus(ws, ws[ka].id), ws[kb].id);
      r[kb].zIndex == |ws| && r[ka].zIndex == |ws| - 1
  {
    var r1 := Focus(ws, ws[ka].id);
    FocusKeepsDense(ws, ka);
    assert r1[kb].id == ws[kb].id;
    FocusKeepsDense(r1, kb);
  }

  // ---------------------------------------------------------------------
  // Close

  /** Drops every window carrying `id`, keeping the rest in order. */
  function Close(ws: seq<Window>, id: int): (r: seq<Window>)
    ensures |r| <= |ws|
  {
    if ws == [] then []
    else (if ws[0].id == id then [] else [ws[0]]) + Close(ws[1..], id)
  }

  /** Closing keeps exactly the windows that do not carry `id`. */
  lemma {:induction false} CloseMembers(ws: seq<Window>, id: int)
    ensures forall w :: w in Close(ws, id) <==> w in ws && w.id != id
  {
    if ws != [] {
      CloseMembers(ws[1..], id);
      assert ws == [ws[0]] + ws[1..];
    }
  }

  /** Closing an id nobody carries changes nothing. */
  lemma {:induction false} CloseAbsent(ws: seq<Window>, id: int)
    requires !Present(ws, id)
    ensures Close(ws, id) == ws
  {
    if ws != [] {
      CloseAbsent(ws[1..], id);
      assert [ws[0]] + ws[1..] == ws;
    }
  }

  /** Closing twice is closing once. */
  lemma CloseIdempotent(ws: seq<Window>, id: int)
    ensures Close(Close(ws, id), id) == Close(ws, id)
  {
    var r := Close(ws, id);
    CloseMembers(ws, id);
    forall j | 0 <= j < |r|
      ensures r[j].id != id
    {
      assert r[j] in r;
    }
    CloseAbsent(r, id);
  }

  /** Closing works window by window, so the survivors keep their order. */
  lemma {:induction false} CloseAppend(a: seq<Window>, b: seq<Window>, id: int)
    ensures Close(a + b, id) == Close(a, id) + Close(b, id)
  {
    if a == [] {
      assert a + b == b;
    } else {
      var head := if a[0].id == id then [] else [a[0]];
      assert (a + b)[0] == a[0];
      assert (a + b)[1..] == a[1..] + b;
      assert Close(a + b, id) == head + Close(a[1..] + b, id);
      assert Close(a, id) == head + Close(a[1..], id);
      CloseAppend(a[1..], b, id);
    }
  }

  /** With distinct ids, window `k`'s id occurs neither before nor after it. */
  lemma OnlyAt(ws: seq<Window>, k: nat)
    requires DistinctIds(ws) && k < |ws|
    ensures !Present(ws[..k], ws[k].id) && !Present(ws[k + 1..], ws[k].id)
  {
    var id, a, b := ws[k].id, ws[..k], ws[k + 1..];
    forall j | 0 <= j < |a| ensures a[j].id != id { assert a[j] == ws[j]; }
    forall j | 0 <= j < |b| ensures b[j].id != id { assert b[j] == ws[k + 1 + j]; }
  }

  /** Closing the id of a window that occurs nowhere else cuts out just that window. */
  lemma CloseCutsOut(a: seq<Window>, w: Window, b: seq<Window>)
    requires !Present(a, w.id) && !Present(b, w.id)
    ensures Close(a + ([w] + b), w.id) == a + b
  {
    var id := w.id;
    CloseAppend(a, [w] + b, id);
    CloseAppend([w], b, id);
    CloseAbsent(a, id);
    CloseAbsent(b, id);
    assert Close([w], id) == [] by {
      assert [w][1..] == [];
    }
  }

  /** With unique ids, closing one open window removes exactly that window. */
  lemma CloseOne(ws: seq<Window>, k: nat)
    requires DistinctIds(ws) && k < |ws|
    ensures Close(ws, ws[k].id) == ws[..k] + ws[k + 1..]
    ensures |Close(ws, ws[k].id)| == |ws| - 1
  {
    assert ws == ws[..k] + ([ws[k]] + ws[k + 1..]);
    OnlyAt(ws, k);
    CloseCutsOut(ws[..k], ws[k], ws[k + 1..]);
  }


  /** A subsequence-by-filter keeps ids unique. */
  lemma {:induction false} CloseKeepsDistinctIds(ws: seq<Window>, id: int)
    requires DistinctIds(ws)
    ensures DistinctIds(Close(ws, id))
  {
    if ws != [] {
      CloseKeepsDistinctIds(ws[1..], id);
      var rest := Close(ws[1..], id);
      CloseMembers(ws[1..], id);
      forall j | 0 <= j < |rest|
        ensures rest[j].id != ws[0].id
      {
        assert rest[j] in rest;
      }
    }
  }

  /**
   * Focus compares against the window count, not the highest live rank, so
   * after a close it can misbehave: with ranks {2, 3} left, raising the
   * rank-2 window does nothing although it is below, and raising the rank-3
   * window leaves two windows on rank 2.
   */
  lemma FocusAfterClose()
    ensures var ws := [Window(0, "Services", Services, Point(50, 50), DefaultSize, 1),
                       Window(1, "Services", Services, Point(70, 70), DefaultSize, 2),
                       Window(2, "Services", Services, Point(90, 90), DefaultSize, 3)];
      var left := Close(ws, 0);
      && left == ws[1..]
      && Focus(left, 1) == left
      && Focus(left, 2)[0].zIndex == Focus(left, 2)[1].zIndex == 2
  {
    var ws := [Window(0, "Services", Services, Point(50, 50), DefaultSize, 1),
               Window(1, "Services", Services, Point(70, 70), DefaultSize, 2),
               Window(2, "Services", Services, Point(90, 90), DefaultSize, 3)];
    assert DistinctIds(ws);
    CloseOne(ws, 0);
    var left := ws[1..];
    assert DistinctIds(left);
    IndexOfUnique(left, 1, 0);
    IndexOfUnique(left, 2, 1);
  }

  // ---------------------------------------------------------------------
  // Move (the drag controller's only write)

  /** One window after a drag of window `id` to `p`. */
  function Moved(w: Window, id: int, p: Point): Window
  {
    if w.id == id then w.(position := p) else w
  }

  /** Sets the position of every window carrying `id`; nothing else changes. */
  function MoveTo(ws: seq<Window>, id: int, p: Point): (r: seq<Window>)
    ensures |r| == |ws|
  {
    seq(|ws|, i requires 0 <= i < |ws| => Moved(ws[i], id, p))
  }

  /** A move touches only the position of the windows carrying the id. */
  lemma MoveTouchesOnlyTarget(ws: seq<Window>, id: int, p: Point)
    ensures forall i :: 0 <= i < |ws| && ws[i].id == id ==>
      MoveTo(ws, id, p)[i] == ws[i].(position := p)
    ensures forall i :: 0 <= i < |ws| && ws[i].id != id ==> MoveTo(ws, id, p)[i] == ws[i]
    ensures !Present(ws, id) ==> MoveTo(ws, id, p) == ws
  {
  }

  /** The last move wins. */
  lemma MoveTwice(ws: seq<Window>, id: int, p: Point, q: Point)
    ensures MoveTo(MoveTo(ws, id, p), id, q) == MoveTo(ws, id, q)
  {
    var a, b := MoveTo(MoveTo(ws, id, p), id, q), MoveTo(ws, id, q);
    assert forall i :: 0 <= i < |ws| ==> a[i] == b[i];
  }

  /** Dragging and re-ranking touch different fields of a window. */
  lemma RestackMoved(w: Window, id: int, p: Point, other: int, oldZ: int, maxZ: int)
    ensures Restack(Moved(w, id, p), other, oldZ, maxZ) == Moved(Restack(w, other, oldZ, maxZ), id, p)
  {
  }

  /** Moving and raising are independent: position and rank are separate fields. */
  lemma MoveCommutesWithFocus(ws: seq<Window>, id: int, p: Point, other: int)
    ensures Focus(MoveTo(ws, id, p), other) == MoveTo(Focus(ws, other), id, p)
  {
    var m := MoveTo(ws, id, p);
    var f := Focus(ws, other);
    IndexOfSameIds(ws, m, other);
    var a, b := Focus(m, other), MoveTo(f, id, p);
    match IndexOf(ws, other) {
      case None =>
      case Some(k) =>
        assert m[k].zIndex == ws[k].zIndex;
        if ws[k].zIndex != |ws| {
          forall i | 0 <= i < |ws|
            ensures a[i] == b[i]
          {
            assert a[i] == Restack(Moved(ws[i], id, p), other, ws[k].zIndex, |ws|);
            assert b[i] == Moved(Restack(ws[i], other, ws[k].zIndex, |ws|), id, p);
            RestackMoved(ws[i], id, p, other, ws[k].zIndex, |ws|);
          }
        }
    }
  }

  // ---------------------------------------------------------------------
  // Render order

  predicate SortedByRank(ws: seq<Window>)
  {
    forall i, j :: 0 <= i < j < |ws| ==> ws[i].zIndex <= ws[j].zIndex
  }

  /** Where `w` goes in a sorted list: before the first window ranked at least as high. */
  function InsertionPoint(w: Window, s: seq<Window>): (k: nat)
    ensures k <= |s|
    ensures forall i :: 0 <= i < k ==> s[i].zIndex < w.zIndex
    ensures k < |s| ==> s[k].zIndex >= w.zIndex
  {
    if s == [] || s[0].zIndex >= w.zIndex then 0 else 1 + InsertionPoint(w, s[1..])
  }

  function Insert(w: Window, s: seq<Window>): seq<Window>
  {
    var k := InsertionPoint(w, s);
    s[..k] + [w] + s[k..]
  }

  /**
   * The paint order: windows by ascending rank, equal ranks in list order
   * (the stable `Array.prototype.sort`).
   */
  function RenderOrder(ws: seq<Window>): seq<Window>
  {
    if ws == [] then [] else Insert(ws[0], RenderOrder(ws[1..]))
  }

  /** The windows of rank `z`, in list order. */
  function OfRank(ws: seq<Window>, z: int): seq<Window>
    decreases |ws|
  {
    if ws == [] then [] else (if ws[0].zIndex == z then [ws[0]] else []) + OfRank(ws[1..], z)
  }

  lemma {:induction false} OfRankAppend(a: seq<Window>, b: seq<Window>, z: int)
    ensures OfRank(a + b, z) == OfRank(a, z) + OfRank(b, z)
    decreases |a|
  {
    if a == [] {
      assert a + b == b;
    } else {
      var head := if a[0].zIndex == z then [a[0]] else [];
      assert (a + b)[0] == a[0];
      assert (a + b)[1..] == a[1..] + b;
      assert OfRank(a + b, z) == head + OfRank(a[1..] + b, z);
      assert OfRank(a, z) == head + OfRank(a[1..], z);
      OfRankAppend(a[1..], b, z);
    }
  }

  lemma {:induction false} OfRankNone(a: seq<Window>, z: int)
    requires forall i :: 0 <= i < |a| ==> a[i].zIndex < z
    ensures OfRank(a, z) == []
    decreases |a|
  {
    if a != [] {
      OfRankNone(a[1..], z);
    }
  }

  /** Inserting a window puts it ahead of the windows already there with its rank. */
  lemma InsertKeepsRankOrder(w: Window, s: seq<Window>, z: int)
    ensures OfRank(Insert(w, s), z) == (if w.zIndex == z then [w] else []) + OfRank(s, z)
  {
    var k := InsertionPoint(w, s);
    assert s == s[..k] + s[k..];
    OfRankAppend(s[..k], s[k..], z);
    OfRankAppend(s[..k] + [w], s[k..], z);
    OfRankAppend(s[..k], [w], z);
    assert OfRank([w], z) == (if w.zIndex == z then [w] else []) by {
      assert [w][1..] == [];
    }
    if w.zIndex == z {
      OfRankNone(s[..k], z);
    }
  }

  /**
   * The sort is stable: the windows of any one rank are painted in the order
   * they have in the list. Ties occur once a close has broken the ranks.
   */
  lemma {:induction false} RenderOrderStable(ws: seq<Window>, z: int)
    ensures OfRank(RenderOrder(ws), z) == OfRank(ws, z)
    decreases |ws|
  {
    if ws != [] {
      RenderOrderStable(ws[1..], z);
      InsertKeepsRankOrder(ws[0], RenderOrder(ws[1..]), z);
    }
  }

  lemma InsertSorted(w: Window, s: seq<Window>)
    requires SortedByRank(s)
    ensures SortedByRank(Insert(w, s))
  {
  }

  lemma InsertPermutes(w: Window, s: seq<Window>)
    ensures multiset(Insert(w, s)) == multiset(s) + multiset{w}
  {
    var k := InsertionPoint(w, s);
    assert s == s[..k] + s[k..];
  }

  /** Rendering paints a permutation of the open windows, lowest rank first. */
  lemma {:induction false} RenderOrderSortsAndPermutes(ws: seq<Window>)
    ensures SortedByRank(RenderOrder(ws))
    ensures multiset(RenderOrder(ws)) == multiset(ws)
  {
    if ws != [] {
      RenderOrderSortsAndPermutes(ws[1..]);
      var s := RenderOrder(ws[1..]);
      InsertSorted(ws[0], s);
      InsertPermutes(ws[0], s);
      assert ws == [ws[0]] + ws[1..];
    }
  }

  function IdOf(w: Window): int { w.id }
  function RankOf(w: Window): int { w.zIndex }

  predicate DistinctBy(ws: seq<Window>, key: Window -> int)
  {
    forall i, j :: 0 <= i < j < |ws| ==> key(ws[i]) != key(ws[j])
  }

  lemma InsertKeepsDistinct(w: Window, s: seq<Window>, key: Window -> int)
    requires DistinctBy(s, key)
    requires forall j :: 0 <= j < |s| ==> key(s[j]) != key(w)
    ensures DistinctBy(Insert(w, s), key)
  {
    var k := InsertionPoint(w, s);
    var r := Insert(w, s);
    forall i, j | 0 <= i < j < |r|
      ensures key(r[i]) != key(r[j])
    {
      if i < k && j > k {
        assert r[j] == s[j - 1];
      } else if i > k {
        assert r[i] == s[i - 1] && r[j] == s[j - 1];
      }
    }
  }

  /** Sorting keeps any key that was unique unique. */
  lemma {:induction false} RenderOrderKeepsDistinct(ws: seq<Window>, key: Window -> int)
    requires DistinctBy(ws, key)
    ensures DistinctBy(RenderOrder(ws), key)
  {
    if ws != [] {
      RenderOrderKeepsDistinct(ws[1..], key);
      RenderOrderSortsAndPermutes(ws[1..]);
      var s := RenderOrder(ws[1..]);
      forall j | 0 <= j < |s|
        ensures key(s[j]) != key(ws[0])
      {
        assert s[j] in multiset(ws[1..]);
      }
      InsertKeepsDistinct(ws[0], s, key);
    }
  }

  lemma {:induction false} StrictRanksFrom(s: seq<Window>, i: nat)
    requires forall a, b :: 0 <= a < b < |s| ==> s[a].zIndex < s[b].zIndex
    requires forall a :: 0 <= a < |s| ==> 1 <= s[a].zIndex <= |s|
    requires i < |s|
    ensures i + 1 <= s[i].zIndex
  {
    if i > 0 {
      StrictRanksFrom(s, i - 1);
    }
  }

  lemma {:induction false} StrictRanksTo(s: seq<Window>, i: nat)
    requires forall a, b :: 0 <= a < b < |s| ==> s[a].zIndex < s[b].zIndex
    requires forall a :: 0 <= a < |s| ==> 1 <= s[a].zIndex <= |s|
    requires i < |s|
    ensures s[i].zIndex <= i + 1
    decreases |s| - i
  {
    if i + 1 < |s| {
      StrictRanksTo(s, i + 1);
    }
  }

  /** With dense ranks the k-th window painted holds rank k + 1. */
  lemma RenderOrderOfDense(ws: seq<Window>)
    requires Dense(ws)
    ensures |RenderOrder(ws)| == |ws|
    ensures forall k :: 0 <= k < |ws| ==> RenderOrder(ws)[k].zIndex == k + 1
  {
    RenderOrderSortsAndPermutes(ws);
    var r := RenderOrder(ws);
    assert |r| == |multiset(r)| == |multiset(ws)| == |ws|;
    assert DistinctBy(ws, RankOf);
    RenderOrderKeepsDistinct(ws, RankOf);
    forall a | 0 <= a < |r|
      ensures 1 <= r[a].zIndex <= |r|
    {
      assert r[a] in multiset(ws);
    }
    forall k | 0 <= k < |r|
      ensures r[k].zIndex == k + 1
    {
      StrictRanksFrom(r, k);
      StrictRanksTo(r, k);
    }
  }

  // ---------------------------------------------------------------------
  // Runs of open and focus

  datatype Op = OpenOp(toolName: string) | FocusOp(id: int)

  /** One open or focus; neither lowers the counter nor drops a window. */
  function Step(s: Store, op: Op): (r: Store)
    ensures r.nextId >= s.nextId && |r.windows| >= |s.windows|
  {
    match op
    case OpenOp(name) => Open(s, name)
    case FocusOp(id) => s.(windows := Focus(s.windows, id))
  }

  /** A run of opens and focuses, in order. */
  function Run(s: Store, ops: seq<Op>): (r: Store)
    ensures r.nextId >= s.nextId && |r.windows| >= |s.windows|
    decreases |ops|
  {
    if ops == [] then s else Run(Step(s, ops[0]), ops[1..])
  }

  /**
   * Any run of opens and focuses with no close in between keeps ids unique
   * and ranks a permutation of 1..N, and never lowers the id counter.
   */
  lemma {:induction false} OpenFocusKeepsDense(s: Store, ops: seq<Op>)
    requires WellFormed(s) && Dense(s.windows)
    ensures WellFormed(Run(s, ops)) && Dense(Run(s, ops).windows)
    ensures Run(s, ops).nextId >= s.nextId
    decreases |ops|
  {
    if ops != [] {
      var t := Step(s, ops[0]);
      match ops[0] {
        case OpenOp(name) =>
          OpenPreserves(s, name);
        case FocusOp(id) =>
          match IndexOf(s.windows, id) {
            case None =>
            case Some(k) =>
              FocusKeepsDense(s.windows, k);
          }
      }
      OpenFocusKeepsDense(t, ops[1..]);
    }
  }
}
