/** The notifications screen: a list of reminders that can be marked read,
    deleted one by one, or cleared. */
module Notifications {
  import opened Collections

  datatype Notification = Notification(
    id: int, title: string, msg: string, time: string,
    icon: string, color: string, unread: bool)

  /** `INITIAL_NOTIFICATIONS`. */
  const InitialNotifications: seq<Notification> := [
    Notification(1, "Recordatorio de Hidratación", "No olvides beber agua. Tu meta es 2.5L hoy.",
                 "Hace 2h", "water_drop", "text-blue-500", true),
    Notification(2, "Registro Pendiente", "¿Cómo te sientes esta tarde? Registra tu estado.",
                 "Hace 5h", "edit_note", "text-primary", true),
    Notification(3, "Análisis Semanal", "Tu resumen de bienestar está listo.",
                 "Ayer", "monitoring", "text-secondary", false)
  ]

  /** `markAsRead(id)`: every item with that id is marked read. */
  function MarkAsRead(ns: seq<Notification>, id: int): (r: seq<Notification>)
    ensures |r| == |ns|
    ensures forall i :: 0 <= i < |ns| ==> r[i].id == ns[i].id
  {
    seq(|ns|, i requires 0 <= i < |ns| => if ns[i].id == id then ns[i].(unread := false) else ns[i])
  }

  /** `deleteNotification(id)`: the items with another id, in order. */
  function Delete(ns: seq<Notification>, id: int): seq<Notification> {
    Filter(ns, (n: Notification) => n.id != id)
  }

  /** The number of unread items. */
  function UnreadCount(ns: seq<Notification>): nat
    decreases |ns|
  {
    if ns == [] then 0
    else UnreadCount(ns[..|ns| - 1]) + (if ns[|ns| - 1].unread then 1 else 0)
  }

  /** "Limpiar" is shown exactly when there is something to clear. */
  predicate ShowClear(ns: seq<Notification>) {
    |ns| > 0
  }

  /** The list after "Limpiar". */
  function Clear(ns: seq<Notification>): (r: seq<Notification>)
    ensures !ShowClear(r)
  {
    []
  }

  /** Marking read touches only the `unread` flag of the items with that id;
      every other item, and the order, stay as they were. */
  lemma MarkAsReadSpec(ns: seq<Notification>, id: int)
    ensures forall i :: 0 <= i < |ns| && ns[i].id == id ==>
      !MarkAsRead(ns, id)[i].unread && MarkAsRead(ns, id)[i] == ns[i].(unread := false)
    ensures forall i :: 0 <= i < |ns| && ns[i].id != id ==> MarkAsRead(ns, id)[i] == ns[i]
  {
  }

  lemma MarkAsReadIdempotent(ns: seq<Notification>, id: int)
    ensures MarkAsRead(MarkAsRead(ns, id), id) == MarkAsRead(ns, id)
  {
  }

  /** Marking read never adds an unread item, and marking an id that has
      an unread item removes at least one. */
  lemma {:induction false} MarkAsReadUnread(ns: seq<Notification>, id: int)
    ensures UnreadCount(MarkAsRead(ns, id)) <= UnreadCount(ns)
    ensures (exists i :: 0 <= i < |ns| && ns[i].id == id && ns[i].unread) ==>
      UnreadCount(MarkAsRead(ns, id)) < UnreadCount(ns)
    decreases |ns|
  {
    if ns != [] {
      var init := ns[..|ns| - 1];
      MarkAsReadUnread(init, id);
      var r := MarkAsRead(ns, id);
      assert r[..|r| - 1] == MarkAsRead(init, id);
      if exists i :: 0 <= i < |ns| && ns[i].id == id && ns[i].unread {
        var i :| 0 <= i < |ns| && ns[i].id == id && ns[i].unread;
        if i < |ns| - 1 {
          assert init[i] == ns[i];
        }
      }
    }
  }

  /** Deleting removes exactly the items with that id and keeps the rest in
      their order. */
  lemma DeleteSpec(ns: seq<Notification>, id: int)
    ensures forall n :: n in Delete(ns, id) ==> n in ns && n.id != id
    ensures forall n :: n in ns && n.id != id ==> n in Delete(ns, id)
    ensures Delete(ns, id) == ns <==> forall i :: 0 <= i < |ns| ==> ns[i].id != id
  {
    var p := (n: Notification) => n.id != id;
    if forall i :: 0 <= i < |ns| ==> ns[i].id != id {
      FilterKeepsAll(ns, p);
    } else {
      var i :| 0 <= i < |ns| && ns[i].id == id;
      assert ns[i] in ns && !p(ns[i]);
      assert ns[i] !in Delete(ns, id);
    }
  }

  /** Deleting after marking read is deleting: the marked items are gone. */
  lemma {:induction false} DeleteAfterMarkAsRead(ns: seq<Notification>, id: int)
    ensures Delete(MarkAsRead(ns, id), id) == Delete(ns, id)
    decreases |ns|
  {
    if ns != [] {
      var init := ns[..|ns| - 1];
      var r := MarkAsRead(ns, id);
      assert r[..|r| - 1] == MarkAsRead(init, id);
      DeleteAfterMarkAsRead(init, id);
    }
  }

  /** The screen opens with three items, two of them unread. */
  lemma InitialList()
    ensures |InitialNotifications| == 3 && UnreadCount(InitialNotifications) == 2
    ensures ShowClear(InitialNotifications)
  {
    var ns := InitialNotifications;
    assert ns[..1][..0] == [];
    assert UnreadCount(ns[..1]) == 1;
    assert ns[..2][..1] == ns[..1];
    assert UnreadCount(ns[..2]) == 2;
    assert ns[..|ns| - 1] == ns[..2];
  }
}
