/**
 * The table-map editor of app/admin/mapa-mesas/page.tsx: a canvas of
 * tables ("mesa") and reference shapes ("referencia") that can be dragged,
 * resized from eight handles, locked, relabelled, zoomed with the wheel and
 * panned with the middle or right button, plus the change tracking that
 * decides which tables get a PATCH on save.
 *
 * Coordinates are `real`: the identities proved here hold exactly over the
 * reals, and floating-point rounding is not modelled.
 */
module MapaMesas {
  import opened Js
  import opened Lists

  const MIN_WIDTH: real := 80.0
  const MIN_HEIGHT: real := 50.0
  /** The size drawn for an element without `width`/`height`. */
  const DEFAULT_WIDTH: real := 170.0
  const DEFAULT_HEIGHT: real := 110.0
  const MIN_SCALE: real := 0.4
  const MAX_SCALE: real := 3.0
  /** The scale change of one wheel notch. */
  const ZOOM_STEP: real := 0.12

  /** The API status of a table. */
  datatype MesaStatus = Available | Busy | Reserved

  datatype TipoElemento = Mesa | Referencia

  /** An element of the map; `rotulo` is its `label` (a reserved word in Dafny), and the optional fields may be absent in the API data. */
  datatype ElementoMapa = ElementoMapa(
    id: string,
    tipo: TipoElemento,
    rotulo: string,
    x: real,
    y: real,
    width: Option<real>,
    height: Option<real>,
    seats: Option<int>,
    status: Option<MesaStatus>,
    lock: Option<bool>)

  datatype Point = Point(x: real, y: real)

  datatype Rect = Rect(x: real, y: real, width: real, height: real)

  /** The state `startResize` keeps while a handle is held. */
  datatype Resizing = Resizing(id: string, dir: string, startMouseWorld: Point, startRect: Rect)

  /** The JSON body of the PATCH `saveChanges` sends for one table. */
  datatype PatchBody = PatchBody(
    rotulo: string, seats: Option<int>, x: real, y: real,
    width: Option<real>, height: Option<real>, lock: Option<bool>)

  /** One PATCH request: `/api/tables/<id>` with its body. */
  datatype PatchRequest = PatchRequest(id: string, body: PatchBody)

  /** The JSON body of the POST `addMesa` sends. */
  datatype NovaMesaBody = NovaMesaBody(
    rotulo: string, seats: int, status: MesaStatus, tipo: TipoElemento,
    x: real, y: real, width: real, height: real, lock: bool)

  function Id(e: ElementoMapa): string { e.id }

  /** `el.lock` read as a condition: an absent lock is falsy. */
  predicate Locked(e: ElementoMapa) {
    e.lock == Some(true)
  }

  function Max(a: real, b: real): real { if a >= b then a else b }

  function Min(a: real, b: real): real { if a <= b then a else b }

  // ---------------------------------------------------------------------
  // Change detection
  // ---------------------------------------------------------------------

  /** The seven-field comparison shared by `checkForChanges` and `saveChanges`; `status` is not compared. */
  predicate Differs(orig: ElementoMapa, el: ElementoMapa) {
    || orig.x != el.x
    || orig.y != el.y
    || orig.width != el.width
    || orig.height != el.height
    || orig.seats != el.seats
    || orig.rotulo != el.rotulo
    || orig.lock != el.lock
  }

  /** The element at `idx` has no original at the same index, or differs from it. */
  predicate ChangedAt(elementos: seq<ElementoMapa>, originalData: seq<ElementoMapa>, idx: int)
    requires 0 <= idx < |elementos|
  {
    idx >= |originalData| || Differs(originalData[idx], elementos[idx])
  }

  /** `checkForChanges`: `newElementos.some((el, idx) => ...)`, scanning from index `from`. */
  function HasChangesFrom(elementos: seq<ElementoMapa>, originalData: seq<ElementoMapa>, from: nat): bool
    decreases |elementos| - from
  {
    if from >= |elementos| then false
    else ChangedAt(elementos, originalData, from) || HasChangesFrom(elementos, originalData, from + 1)
  }

  function HasChanges(elementos: seq<ElementoMapa>, originalData: seq<ElementoMapa>): bool {
    HasChangesFrom(elementos, originalData, 0)
  }

  lemma {:induction false} HasChangesFromIff(elementos: seq<ElementoMapa>, originalData: seq<ElementoMapa>, from: nat)
    ensures HasChangesFrom(elementos, originalData, from) <==>
              exists idx :: from <= idx < |elementos| && ChangedAt(elementos, originalData, idx)
    decreases |elementos| - from
  {
    if from < |elementos| {
      HasChangesFromIff(elementos, originalData, from + 1);
      if ChangedAt(elementos, originalData, from) {
        assert from <= from < |elementos|;
      }
    }
  }

  /**
   * `hasChanges` is positional: it holds exactly when some element has no
   * original at its index or differs from that original in one of the seven
   * compared fields.
   */
  lemma HasChangesIff(elementos: seq<ElementoMapa>, originalData: seq<ElementoMapa>)
    ensures HasChanges(elementos, originalData) <==>
              exists idx :: 0 <= idx < |elementos| && ChangedAt(elementos, originalData, idx)
  {
    HasChangesFromIff(elementos, originalData, 0);
  }

  /** Right after a load or a save the snapshot equals the elements, so nothing is pending. */
  lemma HasChangesSelf(elementos: seq<ElementoMapa>)
    ensures !HasChanges(elementos, elementos)
  {
    HasChangesIff(elementos, elementos);
  }

  /** An element appended beyond the snapshot always counts as a change. */
  lemma HasChangesAppend(elementos: seq<ElementoMapa>, originalData: seq<ElementoMapa>, e: ElementoMapa)
    requires |originalData| <= |elementos|
    ensures HasChanges(elementos + [e], originalData)
  {
    assert ChangedAt(elementos + [e], originalData, |elementos|);
    HasChangesFromIff(elementos + [e], originalData, 0);
  }

  /** `saveChanges`: a table needs a PATCH when no original shares its id or the first one that does differs. */
  predicate NeedsPatch(originalData: seq<ElementoMapa>, mesa: ElementoMapa) {
    var original := Find(originalData, mesa.id, Id);
    original.None? || Differs(original.value, mesa)
  }

  /** The combined filter of `saveChanges`: tables only, and only the changed ones. */
  function Selected(originalData: seq<ElementoMapa>): ElementoMapa -> bool {
    (e: ElementoMapa) => e.tipo == Mesa && NeedsPatch(originalData, e)
  }

  function Body(mesa: ElementoMapa): PatchBody {
    PatchBody(mesa.rotulo, mesa.seats, mesa.x, mesa.y, mesa.width, mesa.height, mesa.lock)
  }

  /** The requests of `saveChanges`, in element order. */
  function PatchRequests(elementos: seq<ElementoMapa>, originalData: seq<ElementoMapa>): (r: seq<PatchRequest>)
    ensures |r| == |Filter(elementos, Selected(originalData))|
  {
    var sel := Filter(elementos, Selected(originalData));
    seq(|sel|, i requires 0 <= i < |sel| => PatchRequest(sel[i].id, Body(sel[i])))
  }

  /**
   * An element gets a PATCH exactly when it is a table and either no
   * original shares its id or one of the seven fields differs; the requests
   * follow the selected tables in element order, each with its table's body.
   */
  lemma PatchSelection(elementos: seq<ElementoMapa>, originalData: seq<ElementoMapa>)
    ensures forall i :: 0 <= i < |elementos| ==>
              (elementos[i] in Filter(elementos, Selected(originalData)) <==>
               elementos[i].tipo == Mesa && NeedsPatch(originalData, elementos[i]))
    ensures var sel := Filter(elementos, Selected(originalData));
            forall j :: 0 <= j < |sel| ==>
              && sel[j] in elementos && sel[j].tipo == Mesa && NeedsPatch(originalData, sel[j])
              && PatchRequests(elementos, originalData)[j] == PatchRequest(sel[j].id, Body(sel[j]))
  {
    var sel := Filter(elementos, Selected(originalData));
    FilterMembers(elementos, Selected(originalData));
    forall i | 0 <= i < |elementos|
      ensures elementos[i] in sel <==> elementos[i].tipo == Mesa && NeedsPatch(originalData, elementos[i])
    {
      if elementos[i] in sel {
        var k :| 0 <= k < |sel| && sel[k] == elementos[i];
        assert Selected(originalData)(sel[k]);
      }
    }
    forall j | 0 <= j < |sel|
      ensures sel[j] in elementos && sel[j].tipo == Mesa && NeedsPatch(originalData, sel[j])
    {
      assert Selected(originalData)(sel[j]);
    }
  }

  /** `status` takes no part in the comparison. */
  lemma DiffersIgnoresStatus(orig: ElementoMapa, el: ElementoMapa, s: Option<MesaStatus>)
    ensures Differs(orig, el.(status := s)) == Differs(orig, el)
    ensures Differs(orig.(status := s), el) == Differs(orig, el)
  {
  }

  /**
   * With ids unique, saving against a snapshot that differs from the
   * elements only in `status` sends nothing: status changes are never
   * written back by this page.
   */
  lemma StatusOnlyChangesNotSent(elementos: seq<ElementoMapa>, originalData: seq<ElementoMapa>)
    requires UniqueKeys(originalData, Id)
    requires |elementos| == |originalData|
    requires forall i :: 0 <= i < |elementos| ==> elementos[i] == originalData[i].(status := elementos[i].status)
    ensures PatchRequests(elementos, originalData) == []
  {
    forall i | 0 <= i < |elementos| ensures !Selected(originalData)(elementos[i]) {
      FindUnique(originalData, i, Id);
      assert Find(originalData, elementos[i].id, Id) == Some(originalData[i]);
      assert !Differs(originalData[i], elementos[i]);
    }
    FilterNone(elementos, Selected(originalData));
  }

  /** Saving right after a save (or a load) sends nothing when ids are unique. */
  lemma NoPatchesAgainstSelf(elementos: seq<ElementoMapa>)
    requires UniqueKeys(elementos, Id)
    ensures PatchRequests(elementos, elementos) == []
  {
    StatusOnlyChangesNotSent(elementos, elementos);
  }

  /** Reference shapes never produce a request. */
  lemma ReferencesNeverSent(elementos: seq<ElementoMapa>, originalData: seq<ElementoMapa>)
    requires forall i :: 0 <= i < |elementos| ==> elementos[i].tipo == Referencia
    ensures PatchRequests(elementos, originalData) == []
  {
    FilterNone(elementos, Selected(originalData));
  }

  // ---------------------------------------------------------------------
  // Screen and world coordinates
  // ---------------------------------------------------------------------

  /** Where a world point is drawn: `x * scale + pan.x + rect.left`. */
  function WorldToClient(w: Point, rectOrigin: Point, pan: Point, scale: real): Point {
    Point(w.x * scale + pan.x + rectOrigin.x, w.y * scale + pan.y + rectOrigin.y)
  }

  /** Undoing the scale and shift of one coordinate. */
  lemma Unscale(c: real, origin: real, pan: real, s: real)
    requires s > 0.0
    ensures ((c - origin - pan) / s) * s + pan + origin == c
  {
    var a := c - origin - pan;
    assert (a / s) * s == a;
  }

  /** `clientToWorld`, given the canvas origin `rect.left`/`rect.top`; it inverts `WorldToClient`. */
  function ClientToWorld(c: Point, rectOrigin: Point, pan: Point, scale: real): (w: Point)
    requires scale > 0.0
    ensures WorldToClient(w, rectOrigin, pan, scale) == c
  {
    var w := Point((c.x - rectOrigin.x - pan.x) / scale, (c.y - rectOrigin.y - pan.y) / scale);
    Unscale(c.x, rectOrigin.x, pan.x, scale);
    Unscale(c.y, rectOrigin.y, pan.y, scale);
    assert WorldToClient(w, rectOrigin, pan, scale) == Point(c.x, c.y);
    w
  }

  lemma WorldClientRoundTrip(w: Point, rectOrigin: Point, pan: Point, scale: real)
    requires scale > 0.0
    ensures ClientToWorld(WorldToClient(w, rectOrigin, pan, scale), rectOrigin, pan, scale) == w
  {
  }

  /** The grab offset `startDrag` records: the mouse minus the element's drawn corner. */
  function DragOffset(e: ElementoMapa, c: Point, rectOrigin: Point, pan: Point, scale: real): Point {
    var screen := WorldToClient(Point(e.x, e.y), rectOrigin, pan, scale);
    Point(c.x - screen.x, c.y - screen.y)
  }

  /** The position `onDrag` gives the dragged element for mouse `c`. */
  function Dragged(m: ElementoMapa, c: Point, rectOrigin: Point, pan: Point, offset: Point, scale: real): ElementoMapa
    requires scale > 0.0
  {
    m.(x := (c.x - rectOrigin.x - pan.x - offset.x) / scale,
       y := (c.y - rectOrigin.y - pan.y - offset.y) / scale)
  }

  /** The drag updater `onDrag` maps over the elements. */
  function DragUpdate(c: Point, rectOrigin: Point, pan: Point, offset: Point, scale: real): ElementoMapa -> ElementoMapa
    requires scale > 0.0
  {
    (m: ElementoMapa) => Dragged(m, c, rectOrigin, pan, offset, scale)
  }

  /** Pressing and moving without moving the mouse leaves the element where it was. */
  lemma DragAtGrabPoint(e: ElementoMapa, c: Point, rectOrigin: Point, pan: Point, scale: real)
    requires scale > 0.0
    ensures Dragged(e, c, rectOrigin, pan, DragOffset(e, c, rectOrigin, pan, scale), scale) == e
  {
    var off := DragOffset(e, c, rectOrigin, pan, scale);
    assert c.x - rectOrigin.x - pan.x - off.x == e.x * scale;
    assert c.y - rectOrigin.y - pan.y - off.y == e.y * scale;
  }

  /** Moving the mouse by (dx, dy) screen pixels moves the element by (dx, dy) / scale in world units. */
  lemma DragFollowsMouse(e: ElementoMapa, c: Point, rectOrigin: Point, pan: Point, scale: real, dx: real, dy: real)
    requires scale > 0.0
    ensures var off := DragOffset(e, c, rectOrigin, pan, scale);
            var d := Dragged(e, Point(c.x + dx, c.y + dy), rectOrigin, pan, off, scale);
            d.x == e.x + dx / scale && d.y == e.y + dy / scale
  {
    var off := DragOffset(e, c, rectOrigin, pan, scale);
    assert c.x + dx - rectOrigin.x - pan.x - off.x == e.x * scale + dx;
    assert c.y + dy - rectOrigin.y - pan.y - off.y == e.y * scale + dy;
    assert (e.x * scale + dx) / scale == e.x + dx / scale;
    assert (e.y * scale + dy) / scale == e.y + dy / scale;
  }

  // ---------------------------------------------------------------------
  // Resizing
  // ---------------------------------------------------------------------

  /** The rectangle `startResize` records, with 170x110 for a missing size. */
  function StartRect(e: ElementoMapa): (r: Rect)
    ensures r.x == e.x && r.y == e.y
    ensures e.width.None? ==> r.width == DEFAULT_WIDTH
    ensures e.height.None? ==> r.height == DEFAULT_HEIGHT
  {
    Rect(e.x, e.y, e.width.GetOr(DEFAULT_WIDTH), e.height.GetOr(DEFAULT_HEIGHT))
  }

  /**
   * The element after one `globalMouseMove` of a resize, the mouse having
   * moved (dx, dy) world units since the handle was pressed. A handle whose
   * name contains "left" keeps the right edge where it started, one with
   * "top" keeps the bottom edge; a touched side never drops below the minimum
   * size; an untouched axis keeps the element's current position and size.
   */
  function ResizeStep(r: Resizing, dx: real, dy: real, m: ElementoMapa): (n: ElementoMapa)
    ensures n == m.(x := n.x, y := n.y, width := n.width, height := n.height)
    ensures n.width.Some? && n.height.Some?
    ensures Includes(r.dir, "left") ==>
              n.width.value >= MIN_WIDTH && n.x + n.width.value == r.startRect.x + r.startRect.width
    ensures !Includes(r.dir, "left") && Includes(r.dir, "right") ==>
              n.width.value == Max(MIN_WIDTH, r.startRect.width + dx) && n.x == m.x
    ensures !Includes(r.dir, "left") && !Includes(r.dir, "right") ==>
              n.width == Some(m.width.GetOr(DEFAULT_WIDTH)) && n.x == m.x
    ensures Includes(r.dir, "top") ==>
              n.height.value >= MIN_HEIGHT && n.y + n.height.value == r.startRect.y + r.startRect.height
    ensures !Includes(r.dir, "top") && Includes(r.dir, "bottom") ==>
              n.height.value == Max(MIN_HEIGHT, r.startRect.height + dy) && n.y == m.y
    ensures !Includes(r.dir, "top") && !Includes(r.dir, "bottom") ==>
              n.height == Some(m.height.GetOr(DEFAULT_HEIGHT)) && n.y == m.y
  {
    var nw0 := m.width.GetOr(DEFAULT_WIDTH);
    var nh0 := m.height.GetOr(DEFAULT_HEIGHT);
    var nw1 := if Includes(r.dir, "right") then Max(MIN_WIDTH, r.startRect.width + dx) else nw0;
    var nw := if Includes(r.dir, "left") then Max(MIN_WIDTH, r.startRect.width - dx) else nw1;
    var nx := if Includes(r.dir, "left") then r.startRect.x + (r.startRect.width - nw) else m.x;
    var nh1 := if Includes(r.dir, "bottom") then Max(MIN_HEIGHT, r.startRect.height + dy) else nh0;
    var nh := if Includes(r.dir, "top") then Max(MIN_HEIGHT, r.startRect.height - dy) else nh1;
    var ny := if Includes(r.dir, "top") then r.startRect.y + (r.startRect.height - nh) else m.y;
    m.(x := nx, y := ny, width := Some(nw), height := Some(nh))
  }

  /** The resize updater: `ResizeStep` on the element the handle belongs to. */
  function ResizeUpdate(r: Resizing, dx: real, dy: real): ElementoMapa -> ElementoMapa {
    (m: ElementoMapa) => ResizeStep(r, dx, dy, m)
  }

  /** A step never changes an element's id, so a resize touches one id only. */
  lemma ResizeKeepsIds(elementos: seq<ElementoMapa>, r: Resizing, dx: real, dy: real)
    ensures forall i :: 0 <= i < |elementos| ==>
              MapWhere(elementos, r.id, Id, ResizeUpdate(r, dx, dy))[i].id == elementos[i].id
  {
  }

  lemma BottomRightLetters(dir: string)
    requires dir == "bottom-right"
    ensures forall j :: 0 <= j < |dir| ==> dir[j] != 'l' && dir[j] != 'p'
  {
  }

  lemma TopLeftLetters(dir: string)
    requires dir == "top-left"
    ensures forall j :: 0 <= j < |dir| ==> dir[j] != 'r' && dir[j] != 'b'
  {
  }

  /** Pulling the "bottom-right" handle inwards past the minimum stops there, with the top-left corner fixed. */
  lemma ResizeBottomRightClamps(r: Resizing, dx: real, dy: real, m: ElementoMapa)
    requires r.dir == "bottom-right"
    requires r.startRect.width + dx < MIN_WIDTH && r.startRect.height + dy < MIN_HEIGHT
    ensures ResizeStep(r, dx, dy, m).width == Some(MIN_WIDTH)
    ensures ResizeStep(r, dx, dy, m).height == Some(MIN_HEIGHT)
    ensures ResizeStep(r, dx, dy, m).x == m.x && ResizeStep(r, dx, dy, m).y == m.y
  {
    assert OccursAt(r.dir, "right", 7) && OccursAt(r.dir, "bottom", 0);
    IncludesIff(r.dir, "right");
    IncludesIff(r.dir, "bottom");
    BottomRightLetters(r.dir);
    NotIncludesChar(r.dir, "left", 0);
    NotIncludesChar(r.dir, "top", 2);
  }

  /** The "top-left" handle moves the top-left corner and keeps the bottom-right corner where it started. */
  lemma ResizeTopLeftKeepsBottomRight(r: Resizing, dx: real, dy: real, m: ElementoMapa)
    requires r.dir == "top-left"
    ensures var n := ResizeStep(r, dx, dy, m);
            && n.x + n.width.value == r.startRect.x + r.startRect.width
            && n.y + n.height.value == r.startRect.y + r.startRect.height
            && n.width.value == Max(MIN_WIDTH, r.startRect.width - dx)
            && n.height.value == Max(MIN_HEIGHT, r.startRect.height - dy)
  {
    assert OccursAt(r.dir, "left", 4) && OccursAt(r.dir, "top", 0);
    IncludesIff(r.dir, "left");
    IncludesIff(r.dir, "top");
    TopLeftLetters(r.dir);
    NotIncludesChar(r.dir, "right", 0);
    NotIncludesChar(r.dir, "bottom", 0);
  }

  // ---------------------------------------------------------------------
  // Zoom, pan and the lock
  // ---------------------------------------------------------------------

  /** The clamped scale after one wheel event. */
  function ZoomedScale(scale: real, deltaY: real): (s: real)
    ensures MIN_SCALE <= s <= MAX_SCALE
    ensures MIN_SCALE <= scale <= MAX_SCALE ==> (deltaY < 0.0 ==> s >= scale) && (deltaY >= 0.0 ==> s <= scale)
  {
    var delta := if deltaY < 0.0 then ZOOM_STEP else -ZOOM_STEP;
    Min(MAX_SCALE, Max(MIN_SCALE, scale + delta))
  }

  /** The pan `handleWheel` sets for the mouse position `mouse` relative to the canvas. */
  function ZoomedPan(pan: Point, mouse: Point, scale: real, newScale: real): Point
    requires scale > 0.0
  {
    var zoomFactor := newScale / scale;
    Point(mouse.x - zoomFactor * (mouse.x - pan.x), mouse.y - zoomFactor * (mouse.y - pan.y))
  }

  lemma ZoomAxis(m: real, p: real, s: real, s2: real)
    requires s > 0.0 && s2 > 0.0
    ensures (m - (m - s2 / s * (m - p))) / s2 == (m - p) / s
  {
    var q := (m - p) / s;
    assert m - p == q * s;
    assert s2 / s * (m - p) == s2 * q;
  }

  /** Zooming keeps the world point under the cursor fixed. */
  lemma ZoomKeepsCursorPoint(pan: Point, mouse: Point, scale: real, deltaY: real)
    requires scale > 0.0
    ensures var s2 := ZoomedScale(scale, deltaY);
            var p2 := ZoomedPan(pan, mouse, scale, s2);
            (mouse.x - p2.x) / s2 == (mouse.x - pan.x) / scale &&
            (mouse.y - p2.y) / s2 == (mouse.y - pan.y) / scale
  {
    var s2 := ZoomedScale(scale, deltaY);
    ZoomAxis(mouse.x, pan.x, scale, s2);
    ZoomAxis(mouse.y, pan.y, scale, s2);
  }

  /** The lock button: `{ ...x, lock: !x.lock }`, so an absent lock becomes `true`. */
  function Toggled(e: ElementoMapa): (t: ElementoMapa)
    ensures t == e.(lock := t.lock) && t.lock.Some?
    ensures Locked(t) <==> !Locked(e)
  {
    e.(lock := Some(!Locked(e)))
  }

  lemma ToggleTwiceLocks(e: ElementoMapa)
    ensures Toggled(Toggled(e)).lock == Some(Locked(e))
    ensures e.lock.Some? ==> Toggled(Toggled(e)) == e
  {
    if e.lock.Some? {
      assert Locked(e) == e.lock.value;
    }
  }

  function ToggleUpdate(): ElementoMapa -> ElementoMapa {
    (e: ElementoMapa) => Toggled(e)
  }

  function Relabelled(rotulo: string): ElementoMapa -> ElementoMapa {
    (e: ElementoMapa) => e.(rotulo := rotulo)
  }

  // ---------------------------------------------------------------------
  // New elements
  // ---------------------------------------------------------------------

  predicate IsMesa(e: ElementoMapa) { e.tipo == Mesa }

  function MesaCount(elementos: seq<ElementoMapa>): (n: nat)
    ensures n <= |elementos|
  {
    |Filter(elementos, (e: ElementoMapa) => IsMesa(e))|
  }

  /** The POST body of `addMesa`. */
  function NovaMesa(elementos: seq<ElementoMapa>): NovaMesaBody {
    NovaMesaBody("Mesa " + IntToString(MesaCount(elementos) + 1), 4, Available, Mesa,
                 100.0 + |elementos| as real * 40.0, 100.0, DEFAULT_WIDTH, DEFAULT_HEIGHT, false)
  }

  /** The new table is numbered one past the tables already on the map. */
  lemma NovaMesaNumbering(elementos: seq<ElementoMapa>)
    ensures var rotulo := NovaMesa(elementos).rotulo;
            |rotulo| > 5 && rotulo[..5] == "Mesa " && ParseInt(rotulo[5..]) == Int(MesaCount(elementos) + 1)
  {
    var n := MesaCount(elementos) + 1;
    var rotulo := NovaMesa(elementos).rotulo;
    assert rotulo[5..] == IntToString(n);
    ParseIntOfIntToString(n);
  }

  /** The reference shape `addReferencia` appends, for the timestamp `now` in its id. */
  function NovaReferencia(elementos: seq<ElementoMapa>, now: int): (e: ElementoMapa)
    ensures e.tipo == Referencia && !Locked(e)
    ensures "ref-" <= e.id
  {
    ElementoMapa("ref-" + IntToString(now), Referencia, "Nova referência",
                 100.0 + |elementos| as real * 30.0, 100.0 + |elementos| as real * 20.0,
                 Some(150.0), Some(80.0), None, None, Some(false))
  }

  // ---------------------------------------------------------------------
  // The editor
  // ---------------------------------------------------------------------

  /** The editor component's state. */
  class Editor {
    var elementos: seq<ElementoMapa>
    var originalData: seq<ElementoMapa>
    var hasChanges: bool
    var dragging: Option<string>
    var offset: Point
    var scale: real
    var pan: Point
    var isPanning: bool
    var lastMouse: Point
    /** `resizingRef.current` */
    var resizing: Option<Resizing>

    /**
     * The scale stays in range, `hasChanges` is what `checkForChanges`
     * computes, and the snapshot never outgrows the elements (elements are
     * only mapped or appended between loads and saves).
     */
    predicate Valid()
      reads this
    {
      && MIN_SCALE <= scale <= MAX_SCALE
      && hasChanges == HasChanges(elementos, originalData)
      && |originalData| <= |elementos|
    }

    constructor ()
      ensures Valid()
      ensures elementos == [] && originalData == [] && !hasChanges
      ensures dragging.None? && resizing.None? && !isPanning
      ensures scale == 1.0 && pan == Point(0.0, 0.0) && offset == Point(0.0, 0.0)
    {
      elementos := [];
      originalData := [];
      hasChanges := false;
      dragging := None;
      offset := Point(0.0, 0.0);
      scale := 1.0;
      pan := Point(0.0, 0.0);
      isPanning := false;
      lastMouse := Point(0.0, 0.0);
      resizing := None;
      HasChangesSelf([]);
    }

    /** `updateElementos`: replace the elements and recompute `hasChanges`. */
    method UpdateElementos(newElementos: seq<ElementoMapa>)
      modifies this`elementos, this`hasChanges
      ensures elementos == newElementos
      ensures hasChanges == HasChanges(newElementos, originalData)
    {
      elementos := newElementos;
      hasChanges := HasChanges(newElementos, originalData);
    }

    /** `fetchMesas`; `data` is None when the request failed. */
    method FetchMesas(data: Option<seq<ElementoMapa>>)
      requires Valid()
      modifies this`elementos, this`originalData, this`hasChanges
      ensures Valid()
      ensures data.Some? ==> elementos == data.value && originalData == data.value && !hasChanges
      ensures data.None? ==> elementos == old(elementos) && originalData == old(originalData) && hasChanges == old(hasChanges)
    {
      if data.Some? {
        elementos := data.value;
        originalData := data.value;
        hasChanges := false;
        HasChangesSelf(data.value);
      }
    }

    /**
     * `saveChanges`: the requests sent; `allSettled` is false when one of
     * them was rejected, in which case the snapshot is kept. Response status
     * codes are not looked at.
     */
    method SaveChanges(allSettled: bool) returns (sent: seq<PatchRequest>)
      requires Valid()
      modifies this`originalData, this`hasChanges
      ensures Valid()
      ensures sent == PatchRequests(elementos, old(originalData))
      ensures allSettled ==> originalData == elementos && !hasChanges
      ensures !allSettled ==> originalData == old(originalData) && hasChanges == old(hasChanges)
    {
      sent := PatchRequests(elementos, originalData);
      if allSettled {
        originalData := elementos;
        hasChanges := false;
        HasChangesSelf(elementos);
      }
    }

    /** `startDrag` with the mouse at `c`; `rectOrigin` is None when the canvas is not mounted. */
    method StartDrag(id: string, c: Point, rectOrigin: Option<Point>)
      modifies this`dragging, this`offset
      ensures var el := Find(old(elementos), id, Id);
              if el.None? || Locked(el.value) || resizing.Some? || isPanning || rectOrigin.None? then
                dragging == old(dragging) && offset == old(offset)
              else
                dragging == Some(id) && offset == DragOffset(el.value, c, rectOrigin.value, pan, scale)
    {
      var el := Find(elementos, id, Id);
      if el.None? || Locked(el.value) {
        return;
      }
      if resizing.Some? || isPanning {
        return;
      }
      if rectOrigin.None? {
        return;
      }
      dragging := Some(id);
      offset := DragOffset(el.value, c, rectOrigin.value, pan, scale);
    }

    /** `onDrag`; an empty id in `dragging` is falsy and stops the drag as well. */
    method OnDrag(c: Point, rectOrigin: Option<Point>)
      requires Valid()
      modifies this`elementos, this`hasChanges
      ensures Valid()
      ensures if dragging.None? || dragging.value == "" || isPanning || resizing.Some? || rectOrigin.None? then
                elementos == old(elementos) && hasChanges == old(hasChanges)
              else
                elementos == MapWhere(old(elementos), dragging.value, Id, DragUpdate(c, rectOrigin.value, pan, offset, scale))
    {
      if dragging.None? || dragging.value == "" || isPanning || resizing.Some? {
        return;
      }
      if rectOrigin.None? {
        return;
      }
      UpdateElementos(MapWhere(elementos, dragging.value, Id, DragUpdate(c, rectOrigin.value, pan, offset, scale)));
    }

    method StopDrag()
      modifies this`dragging
      ensures dragging.None?
    {
      dragging := None;
    }

    /** `startResize` on the handle `dir` of element `id`; a locked element cannot be resized. */
    method StartResize(id: string, dir: string, c: Point, rectOrigin: Option<Point>)
      requires Valid()
      modifies this`resizing
      ensures var el := Find(elementos, id, Id);
              if el.None? || Locked(el.value) || rectOrigin.None? then resizing == old(resizing)
              else resizing == Some(Resizing(id, dir, ClientToWorld(c, rectOrigin.value, pan, scale), StartRect(el.value)))
    {
      var el := Find(elementos, id, Id);
      if el.None? || Locked(el.value) {
        return;
      }
      if rectOrigin.None? {
        return;
      }
      var world := ClientToWorld(c, rectOrigin.value, pan, scale);
      resizing := Some(Resizing(id, dir, world, StartRect(el.value)));
    }

    /** `globalMouseMove` while a handle is held. */
    method GlobalMouseMove(c: Point, rectOrigin: Option<Point>)
      requires Valid()
      modifies this`elementos, this`hasChanges
      ensures Valid()
      ensures if resizing.None? || rectOrigin.None? then
                elementos == old(elementos) && hasChanges == old(hasChanges)
              else
                var r := resizing.value;
                var world := ClientToWorld(c, rectOrigin.value, pan, scale);
                elementos == MapWhere(old(elementos), r.id, Id,
                                      ResizeUpdate(r, world.x - r.startMouseWorld.x, world.y - r.startMouseWorld.y))
    {
      if resizing.None? {
        return;
      }
      if rectOrigin.None? {
        return;
      }
      var r := resizing.value;
      var world := ClientToWorld(c, rectOrigin.value, pan, scale);
      var dx := world.x - r.startMouseWorld.x;
      var dy := world.y - r.startMouseWorld.y;
      UpdateElementos(MapWhere(elementos, r.id, Id, ResizeUpdate(r, dx, dy)));
    }

    method GlobalMouseUp()
      modifies this`resizing
      ensures resizing.None?
    {
      resizing := None;
    }

    /** `handleWheel`: a negative `deltaY` zooms in. Nothing changes when the canvas is not mounted. */
    method HandleWheel(deltaY: real, c: Point, rectOrigin: Option<Point>)
      requires Valid()
      modifies this`scale, this`pan
      ensures Valid()
      ensures rectOrigin.None? ==> scale == old(scale) && pan == old(pan)
      ensures rectOrigin.Some? ==>
                var mouse := Point(c.x - rectOrigin.value.x, c.y - rectOrigin.value.y);
                && scale == ZoomedScale(old(scale), deltaY)
                && pan == ZoomedPan(old(pan), mouse, old(scale), scale)
                && (mouse.x - pan.x) / scale == (mouse.x - old(pan).x) / old(scale)
                && (mouse.y - pan.y) / scale == (mouse.y - old(pan).y) / old(scale)
    {
      var newScale := ZoomedScale(scale, deltaY);
      if rectOrigin.None? {
        return;
      }
      var mouse := Point(c.x - rectOrigin.value.x, c.y - rectOrigin.value.y);
      ZoomKeepsCursorPoint(pan, mouse, scale, deltaY);
      pan := ZoomedPan(pan, mouse, scale, newScale);
      scale := newScale;
    }

    /** `handleMouseDown`: the middle (1) and right (2) buttons start panning. */
    method HandleMouseDown(button: int, c: Point)
      modifies this`isPanning, this`lastMouse
      ensures button == 1 || button == 2 ==> isPanning && lastMouse == c
      ensures !(button == 1 || button == 2) ==> isPanning == old(isPanning) && lastMouse == old(lastMouse)
    {
      if button == 1 || button == 2 {
        isPanning := true;
        lastMouse := c;
      }
    }

    /** `handleMouseMove`: while panning, the pan follows the mouse. */
    method HandleMouseMove(c: Point)
      modifies this`pan, this`lastMouse
      ensures !isPanning ==> pan == old(pan) && lastMouse == old(lastMouse)
      ensures isPanning ==>
                lastMouse == c &&
                pan == Point(old(pan).x + (c.x - old(lastMouse).x), old(pan).y + (c.y - old(lastMouse).y))
    {
      if !isPanning {
        return;
      }
      var dx := c.x - lastMouse.x;
      var dy := c.y - lastMouse.y;
      pan := Point(pan.x + dx, pan.y + dy);
      lastMouse := c;
    }

    method HandleMouseUp()
      modifies this`isPanning
      ensures !isPanning
    {
      isPanning := false;
    }

    /** The lock button of element `id`. */
    method ToggleLock(id: string)
      requires Valid()
      modifies this`elementos, this`hasChanges
      ensures Valid()
      ensures elementos == MapWhere(old(elementos), id, Id, ToggleUpdate())
    {
      UpdateElementos(MapWhere(elementos, id, Id, ToggleUpdate()));
    }

    /** The rotulo input of a reference being edited. */
    method SetLabel(id: string, rotulo: string)
      requires Valid()
      modifies this`elementos, this`hasChanges
      ensures Valid()
      ensures elementos == MapWhere(old(elementos), id, Id, Relabelled(rotulo))
    {
      UpdateElementos(MapWhere(elementos, id, Id, Relabelled(rotulo)));
    }

    /** `addReferencia`, with `now` standing for `Date.now()`; the map then always has unsaved changes. */
    method AddReferencia(now: int)
      requires Valid()
      modifies this`elementos, this`hasChanges
      ensures Valid()
      ensures elementos == old(elementos) + [NovaReferencia(old(elementos), now)]
      ensures hasChanges
    {
      HasChangesAppend(elementos, originalData, NovaReferencia(elementos, now));
      UpdateElementos(elementos + [NovaReferencia(elementos, now)]);
    }

    /**
     * `addMesa`: the POST body it sends; when the POST succeeded the map is
     * reloaded with `reloaded` (None when that reload failed).
     */
    method AddMesa(created: bool, reloaded: Option<seq<ElementoMapa>>) returns (body: NovaMesaBody)
      requires Valid()
      modifies this`elementos, this`originalData, this`hasChanges
      ensures Valid()
      ensures body == NovaMesa(old(elementos))
      ensures created && reloaded.Some? ==> elementos == reloaded.value && originalData == reloaded.value && !hasChanges
      ensures !(created && reloaded.Some?) ==>
                elementos == old(elementos) && originalData == old(originalData) && hasChanges == old(hasChanges)
    {
      body := NovaMesa(elementos);
      if created {
        FetchMesas(reloaded);
      }
    }
  }
}
