/**
 * The detail screen of one item (View/ItemDetailView.swift): its own
 * single-slot undo buffer for deleting the item it shows.
 */
module ItemDetail {
  import opened ListItemModel
  import opened Store
  import opened Notifications

  class ItemDetailView {
    const context: ModelContext
    const center: NotificationManager
    const item: ListItem
    var deletedItem: ListItem?
    var showingUndoMessage: bool

    /** The banner is up exactly while the item is buffered; the buffer can
        only hold the shown item, and then that item's uuid is not live.
        Whenever its uuid is live, it is this very object that is. */
    ghost predicate Valid()
      reads this, context, context.live, item
    {
      && context.Valid()
      && showingUndoMessage == (deletedItem != null)
      && (deletedItem != null ==> deletedItem == item && item.uuid !in Ids(context.live))
      && (item.uuid in Ids(context.live) ==> item in context.live)
    }

    constructor (context: ModelContext, center: NotificationManager, item: ListItem)
      requires context.Valid()
      requires item.uuid in Ids(context.live) ==> item in context.live
      ensures Valid()
      ensures this.context == context && this.center == center && this.item == item
      ensures deletedItem == null && !showingUndoMessage
    {
      this.context := context;
      this.center := center;
      this.item := item;
      deletedItem := null;
      showingUndoMessage := false;
    }

    /** `deleteItem()`: cancels the reminder, buffers the item (replacing
        what the buffer held), removes it from the store and raises the
        banner. */
    method DeleteItem()
      requires Valid()
      modifies this`deletedItem, this`showingUndoMessage, context, center
      ensures Valid()
      ensures deletedItem == item && showingUndoMessage
      ensures context.live == Without(old(context.live), item)
      ensures item.uuid !in Ids(context.live)
      ensures Ids(context.live) == Ids(old(context.live)) - {item.uuid}
      ensures center.pending == AfterCancel(old(center.pending), item.uuid)
    {
      DeleteDropsId(context.live, item);
      context.Delete(item);
      center.CancelReminder(item);
      deletedItem := item;
      showingUndoMessage := true;
    }

    /** `undoDelete()`: puts the item back, unchanged, and clears buffer and
        banner; the reminder stays cancelled. */
    method UndoDelete()
      requires Valid()
      modifies this`deletedItem, this`showingUndoMessage, context
      ensures Valid()
      ensures deletedItem == null && !showingUndoMessage
      ensures old(deletedItem) == null ==> context.live == old(context.live)
      ensures old(deletedItem) != null ==> context.live == old(context.live) + [item]
    {
      if deletedItem == null {
        return;
      }
      ghost var before := context.live;
      WithoutAbsentId(before, item.uuid);
      context.Insert(item);
      assert context.live == before + [item];
      showingUndoMessage := false;
      deletedItem := null;
    }

    /** The banner's five-second timer firing. */
    method ExpireUndo()
      requires Valid()
      modifies this`deletedItem, this`showingUndoMessage
      ensures Valid()
      ensures deletedItem == null && !showingUndoMessage
    {
      showingUndoMessage := false;
      deletedItem := null;
    }
  }

  /** Deleting the shown live item and undoing it restores the store's
      contents (the item goes to the end) and its uuid; the reminder stays
      cancelled. */
  method DeleteThenUndo(view: ItemDetailView)
    requires view.Valid() && view.item in view.context.live
    modifies view`deletedItem, view`showingUndoMessage, view.context, view.center
    ensures view.Valid()
    ensures multiset(view.context.live) == multiset(old(view.context.live))
    ensures Ids(view.context.live) == Ids(old(view.context.live))
    ensures view.center.pending == AfterCancel(old(view.center.pending), view.item.uuid)
  {
    ghost var before := view.context.live;
    view.DeleteItem();
    view.UndoDelete();
    WithoutThenAppend(before, view.item);
  }

  /** Once the banner has expired, undo does nothing: the deletion is
      final. */
  method DeleteExpireUndo(view: ItemDetailView)
    requires view.Valid()
    modifies view`deletedItem, view`showingUndoMessage, view.context, view.center
    ensures view.Valid()
    ensures view.context.live == Without(old(view.context.live), view.item)
    ensures view.item.uuid !in Ids(view.context.live)
  {
    view.DeleteItem();
    view.ExpireUndo();
    view.UndoDelete();
  }
}
