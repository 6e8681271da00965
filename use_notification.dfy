/** The `useNotification` composable as objects: the loaded module owns the
    four cells in one `Store`, and every call of `useNotification()` returns
    a `Handle` whose operations assign to that same store. */
module NotificationComposable {
  import opened NotificationSpec

  /** The four module-level reactive cells, created once when the module is
      loaded and shared by every handle. */
  class Store {
    var show: bool
    var color: string
    var message: string
    var timeout: int

    /** The cells as one value. */
    function Cells(): Snapshot
      reads this
    {
      Snapshot(show, color, message, timeout)
    }

    /** Module load: hidden, type "success", empty message, 3000 ms. */
    constructor ()
      ensures Cells() == Initial
      ensures !show && color == "success" && message == "" && timeout == 3000
    {
      show, color, message, timeout := false, "success", "", 3000;
    }
  }

  /** The object `useNotification()` returns: the shared cells together with
      the six operations, all bound to the one store. */
  class Handle {
    const store: Store

    constructor (store: Store)
      ensures this.store == store
    {
      this.store := store;
    }

    /** Overwrites message, type and duration and makes the notification
        visible; nothing of the previous notification survives. */
    method ShowNotification(msg: string, kind: string := "success", duration: int := 3000)
      modifies store
      ensures store.message == msg && store.color == kind && store.timeout == duration && store.show
      ensures store.Cells() == Step(old(store.Cells()), Call.ShowNotification(msg, kind, duration))
    {
      store.message := msg;
      store.color := kind;
      store.timeout := duration;
      store.show := true;
    }

    /** A "success" notification, 3000 ms unless the caller gives a duration. */
    method Success(msg: string, duration: int := 3000)
      modifies store
      ensures store.message == msg && store.color == "success" && store.timeout == duration && store.show
      ensures store.Cells() == Step(old(store.Cells()), Call.Success(msg, duration))
    {
      ShowNotification(msg, "success", duration);
    }

    /** An "error" notification, 4000 ms unless the caller gives a duration. */
    method Error(msg: string, duration: int := 4000)
      modifies store
      ensures store.message == msg && store.color == "error" && store.timeout == duration && store.show
      ensures store.Cells() == Step(old(store.Cells()), Call.Error(msg, duration))
    {
      ShowNotification(msg, "error", duration);
    }

    /** A "warning" notification, 3000 ms unless the caller gives a duration. */
    method Warning(msg: string, duration: int := 3000)
      modifies store
      ensures store.message == msg && store.color == "warning" && store.timeout == duration && store.show
      ensures store.Cells() == Step(old(store.Cells()), Call.Warning(msg, duration))
    {
      ShowNotification(msg, "warning", duration);
    }

    /** An "info" notification, 3000 ms unless the caller gives a duration. */
    method Info(msg: string, duration: int := 3000)
      modifies store
      ensures store.message == msg && store.color == "info" && store.timeout == duration && store.show
      ensures store.Cells() == Step(old(store.Cells()), Call.Info(msg, duration))
    {
      ShowNotification(msg, "info", duration);
    }

    /** Hides the notification and keeps its message, type and duration. */
    method Close()
      modifies store
      ensures !store.show
      ensures store.message == old(store.message) && store.color == old(store.color)
      ensures store.timeout == old(store.timeout)
      ensures store.Cells() == Step(old(store.Cells()), Call.Close)
    {
      store.show := false;
    }
  }

  /** The loaded JavaScript module: it creates the cells once, at load time,
      and every `useNotification()` call it answers hands out those cells. */
  class NotificationModule {
    const store: Store

    /** Module load: one fresh store with the initial values. */
    constructor ()
      ensures fresh(store) && store.Cells() == Initial
    {
      store := new Store();
    }

    /** `useNotification()`: a new handle over the module's one store, so
        that a change made through any handle is seen through every other. */
    method UseNotification() returns (h: Handle)
      ensures fresh(h) && h.store == store
    {
      h := new Handle(store);
    }
  }

  /** Two handles from `useNotification()` see one state: an error shown
      through the first and a close through the second leave the error's
      text, type and 4000 ms default in place, hidden. */
  method HandlesShareState(m: NotificationModule, msg: string)
    modifies m.store
    ensures m.store.Cells() == Snapshot(false, "error", msg, 4000)
  {
    var first := m.UseNotification();
    var second := m.UseNotification();
    first.Error(msg);
    assert second.store.message == msg && second.store.show;
    second.Close();
    assert !first.store.show;
  }

  /** Two displays in a row leave exactly the second one's values. */
  method SecondDisplayWins(m: NotificationModule, first: string, k1: string, d1: int,
                           second: string, k2: string, d2: int)
    modifies m.store
    ensures m.store.Cells() == Snapshot(true, k2, second, d2)
  {
    var h := m.UseNotification();
    h.ShowNotification(first, k1, d1);
    h.ShowNotification(second, k2, d2);
  }
}
