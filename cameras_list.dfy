/** The camera list of a preset: which cameras fill the visible page, and the tiles' drag,
    drop and delete handlers, each guarded by the custom-filter flag. */
module CamerasList {
  import opened Common
  import opened Redux
  import opened Layouts

  /** One camera of the preset, with its slot index. */
  datatype CellsPosition = CellsPosition(cameraId: int, orderNumber: int)

  /** The drag payload of a tile (`id` is the camera, `order` its slot). */
  datatype DragItem = DragItem(id: int, order: int)

  /** JavaScript `Array.prototype.slice` for nonnegative bounds: both ends are clamped to the
      length, and an end before the start gives an empty result. */
  function Slice<T>(s: seq<T>, start: nat, end: nat): (r: seq<T>)
    ensures |r| == Max(0, Min(end, |s|) - Min(start, |s|))
    ensures forall i :: 0 <= i < |r| ==> start + i < |s| && r[i] == s[start + i]
  {
    var b, e := Min(start, |s|), Min(end, |s|);
    if e <= b then [] else s[b..e]
  }

  /** `.map(item => item.cameraId)`. */
  function CameraIds(items: seq<CellsPosition>): (r: seq<int>)
    ensures |r| == |items|
    ensures forall i :: 0 <= i < |r| ==> r[i] == items[i].cameraId
  {
    if items == [] then [] else [items[0].cameraId] + CameraIds(items[1..])
  }

  /** `videoMosaicActiveCamerasSelector`: the cameras of the visible page, that is the items from
      `offset` on, at most a page of them. */
  function ActiveCameras(offset: nat, items: seq<CellsPosition>, config: Option<LayoutConfig>)
    : (r: seq<int>)
    ensures |r| == Max(0, Min(Limit(config), |items| - offset))
    ensures |r| <= Limit(config)
    ensures Limit(config) == 0 || offset >= |items| ==> r == []
    ensures forall i :: 0 <= i < |r| ==> r[i] == items[offset + i].cameraId
  {
    CameraIds(Slice(items, offset, offset + Limit(config)))
  }

  /** A camera is active exactly when some item inside the visible window holds it. */
  lemma ActiveIffInWindow(offset: nat, items: seq<CellsPosition>, config: Option<LayoutConfig>,
                          cameraId: int)
    ensures cameraId in ActiveCameras(offset, items, config) <==>
      exists i :: offset <= i < offset + Limit(config) && i < |items| && items[i].cameraId == cameraId
  {
    var r := ActiveCameras(offset, items, config);
    if cameraId in r {
      var j :| 0 <= j < |r| && r[j] == cameraId;
      assert items[offset + j].cameraId == cameraId;
    }
    if exists i :: offset <= i < offset + Limit(config) && i < |items| && items[i].cameraId == cameraId {
      var i :| offset <= i < offset + Limit(config) && i < |items| && items[i].cameraId == cameraId;
      assert r[i - offset] == cameraId;
    }
  }

  /** A tile of the camera list: its props and the store it dispatches to. */
  class CamerasListItem {
    const cameraId: int
    const orderNumber: int
    const store: Store

    constructor (cameraId: int, orderNumber: int, store: Store)
      ensures this.cameraId == cameraId && this.orderNumber == orderNumber && this.store == store
    {
      this.cameraId := cameraId;
      this.orderNumber := orderNumber;
      this.store := store;
    }

    /** The item `useDrag` carries: this tile's camera and slot. */
    function DragPayload(): (d: DragItem)
      ensures d.id == cameraId && d.order == orderNumber
    {
      DragItem(cameraId, orderNumber)
    }

    /** The tile is highlighted when its camera is on the visible page. */
    predicate Highlighted(activeCameras: seq<int>) {
      cameraId in activeCameras
    }

    /** `drop`: under a custom filter only the warning is shown, whatever `didDrop` says; a drop
        that a nested target already handled does nothing; any other drop emits exactly one move
        from the dragged slot to this tile's slot. */
    method Drop(item: DragItem, filterIsCustom: bool, didDrop: bool)
      modifies store
      ensures filterIsCustom ==>
        store.log == old(store.log) && store.alerts == old(store.alerts) + [CellsChangeWarning]
      ensures !filterIsCustom && didDrop ==>
        store.log == old(store.log) && store.alerts == old(store.alerts)
      ensures !filterIsCustom && !didDrop ==>
        && store.log == old(store.log) + [CellsItemsMove(item.order, orderNumber)]
        && store.alerts == old(store.alerts)
    {
      if filterIsCustom {
        store.AlertDialog(CellsChangeWarning);
        return;
      }
      if didDrop {
        return;
      }
      store.Dispatch(CellsItemsMove(item.order, orderNumber));
    }

    /** `onDelete`: under a custom filter only the warning is shown; otherwise exactly one
        removal keyed by this tile's slot is emitted. */
    method Delete(filterIsCustom: bool)
      modifies store
      ensures filterIsCustom ==>
        store.log == old(store.log) && store.alerts == old(store.alerts) + [CellsChangeWarning]
      ensures !filterIsCustom ==>
        store.log == old(store.log) + [CellsCameraRemoveClick(orderNumber)]
        && store.alerts == old(store.alerts)
    {
      if filterIsCustom {
        store.AlertDialog(CellsChangeWarning);
        return;
      }
      store.Dispatch(CellsCameraRemoveClick(orderNumber));
    }
  }

  /** A tile is highlighted exactly when its camera sits inside the visible window. */
  lemma HighlightedIffInWindow(tile: CamerasListItem, offset: nat, items: seq<CellsPosition>,
                               config: Option<LayoutConfig>)
    ensures tile.Highlighted(ActiveCameras(offset, items, config)) <==>
      exists i :: offset <= i < offset + Limit(config) && i < |items| && items[i].cameraId == tile.cameraId
  {
    ActiveIffInWindow(offset, items, config, tile.cameraId);
  }

  /** Dragging one tile onto another, with no custom filter and no nested handling, emits the
      move from the dragged tile's slot to the target tile's slot. */
  method DragOnto(source: CamerasListItem, target: CamerasListItem, filterIsCustom: bool,
                  didDrop: bool)
    modifies target.store
    ensures !filterIsCustom && !didDrop ==>
      target.store.log == old(target.store.log) +
        [CellsItemsMove(source.orderNumber, target.orderNumber)]
    ensures filterIsCustom || didDrop ==> target.store.log == old(target.store.log)
  {
    target.Drop(source.DragPayload(), filterIsCustom, didDrop);
  }
}
