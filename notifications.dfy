/**
 * The notifications page: the notification list, the type filter, the per-type
 * settings, and the filtered list they produce together.
 */
module Notifications {

  datatype Kind = Medication | Appointments | Challenge | System

  datatype Notification = Notification(
    id: int,
    kind: Kind,
    title: string,
    desc: string,
    read: bool,
    time: string)

  /** The filter buttons: "All" or one type. */
  datatype Filter = All | Only(kind: Kind)

  /** The settings object; a type missing from it reads as disabled, as `undefined` is falsy. */
  type Settings = map<Kind, bool>

  const AllEnabled: Settings :=
    map[Medication := true, Appointments := true, Challenge := true, System := true]

  predicate Enabled(settings: Settings, kind: Kind)
  {
    kind in settings && settings[kind]
  }

  /** `(notifFilter === "All" || n.type === notifFilter) && settings[n.type]`. */
  predicate Shown(n: Notification, filter: Filter, settings: Settings)
  {
    (filter == All || filter == Only(n.kind)) && Enabled(settings, n.kind)
  }

  /** The `filtered` list. */
  function Filtered(ns: seq<Notification>, filter: Filter, settings: Settings): (r: seq<Notification>)
    ensures |r| <= |ns|
    ensures forall n :: n in r <==> n in ns && Shown(n, filter, settings)
  {
    if ns == [] then []
    else if Shown(ns[0], filter, settings) then [ns[0]] + Filtered(ns[1..], filter, settings)
    else Filtered(ns[1..], filter, settings)
  }

  /** Filtering a list that starts with `n`: `n` is kept exactly when it is shown. */
  lemma FilteredCons(n: Notification, rest: seq<Notification>, filter: Filter, settings: Settings)
    ensures Filtered([n] + rest, filter, settings) ==
      (if Shown(n, filter, settings) then [n] else []) + Filtered(rest, filter, settings)
  {
    var s := [n] + rest;
    assert s[0] == n && s[1..] == rest;
  }

  /** The filtered list keeps the list's order: filtering a concatenation filters each part. */
  lemma {:induction false} FilteredKeepsOrder(a: seq<Notification>, b: seq<Notification>, filter: Filter, settings: Settings)
    ensures Filtered(a + b, filter, settings) == Filtered(a, filter, settings) + Filtered(b, filter, settings)
  {
    if a == [] {
      assert a + b == b;
    } else {
      var head := if Shown(a[0], filter, settings) then [a[0]] else [];
      assert a == [a[0]] + a[1..];
      assert a + b == [a[0]] + (a[1..] + b);
      calc {
        Filtered(a + b, filter, settings);
        { FilteredCons(a[0], a[1..] + b, filter, settings); }
        head + Filtered(a[1..] + b, filter, settings);
        { FilteredKeepsOrder(a[1..], b, filter, settings); }
        head + (Filtered(a[1..], filter, settings) + Filtered(b, filter, settings));
        (head + Filtered(a[1..], filter, settings)) + Filtered(b, filter, settings);
        { FilteredCons(a[0], a[1..], filter, settings); }
        Filtered(a, filter, settings) + Filtered(b, filter, settings);
      }
    }
  }

  /** A type switched off in the settings never shows, not even under "All". */
  lemma DisabledNeverShown(ns: seq<Notification>, filter: Filter, settings: Settings, kind: Kind)
    requires !Enabled(settings, kind)
    ensures forall n :: n in Filtered(ns, filter, settings) ==> n.kind != kind
  {
  }

  /** With every type enabled, "All" shows the whole list. */
  lemma {:induction false} AllShowsEverything(ns: seq<Notification>, settings: Settings)
    requires forall k: Kind :: Enabled(settings, k)
    ensures Filtered(ns, All, settings) == ns
  {
    if ns != [] {
      AllShowsEverything(ns[1..], settings);
    }
  }

  /** `handleToggleRead`: flip `read` on the notification with the id. */
  function ToggledRead(ns: seq<Notification>, id: int): (r: seq<Notification>)
    ensures |r| == |ns|
    ensures forall i :: 0 <= i < |r| ==>
      r[i].(read := ns[i].read) == ns[i] && (r[i].read <==> (ns[i].read != (ns[i].id == id)))
  {
    seq(|ns|, i requires 0 <= i < |ns| => if ns[i].id == id then ns[i].(read := !ns[i].read) else ns[i])
  }

  /** Toggling the same notification twice restores the list. */
  lemma ToggleReadTwice(ns: seq<Notification>, id: int)
    ensures ToggledRead(ToggledRead(ns, id), id) == ns
  {
    var once := ToggledRead(ns, id);
    forall i | 0 <= i < |ns| ensures ToggledRead(once, id)[i] == ns[i] {
      assert once[i].id == ns[i].id;
    }
  }

  /** `handleMarkAllRead`: every notification read, nothing else changed. */
  function MarkedAllRead(ns: seq<Notification>): (r: seq<Notification>)
    ensures |r| == |ns|
    ensures forall i :: 0 <= i < |r| ==> r[i].read && r[i].(read := ns[i].read) == ns[i]
  {
    seq(|ns|, i requires 0 <= i < |ns| => ns[i].(read := true))
  }

  /** Marking all read a second time changes nothing. */
  lemma MarkAllReadIdempotent(ns: seq<Notification>)
    ensures MarkedAllRead(MarkedAllRead(ns)) == MarkedAllRead(ns)
  {
  }

  /** `handleSettingChange`: `{...prev, [type]: !prev[type]}`. */
  function ToggledSetting(settings: Settings, kind: Kind): (r: Settings)
    ensures Enabled(r, kind) == !Enabled(settings, kind)
    ensures forall k :: k != kind ==> Enabled(r, k) == Enabled(settings, k)
    ensures r.Keys == settings.Keys + {kind}
  {
    settings[kind := !Enabled(settings, kind)]
  }

  /** Toggling a setting twice gives back the same visible notifications. */
  lemma ToggleSettingTwice(settings: Settings, kind: Kind, k: Kind)
    ensures Enabled(ToggledSetting(ToggledSetting(settings, kind), kind), k) == Enabled(settings, k)
  {
  }

  class NotificationsPage {
    var notifications: seq<Notification>
    var filter: Filter
    var settings: Settings

    /** The page as it mounts: the seed notifications, filter "All", every type enabled. */
    constructor (notifications: seq<Notification>)
      ensures this.notifications == notifications && filter == All && settings == AllEnabled
    {
      this.notifications := notifications;
      filter := All;
      settings := AllEnabled;
    }

    /** The list the page renders. */
    function Visible(): seq<Notification>
      reads this
    {
      Filtered(notifications, filter, settings)
    }

    /** A filter button. */
    method SetFilter(f: Filter)
      modifies this
      ensures filter == f && notifications == old(notifications) && settings == old(settings)
    {
      filter := f;
    }

    /** `handleToggleRead`. */
    method ToggleRead(id: int)
      modifies this
      ensures notifications == ToggledRead(old(notifications), id)
      ensures filter == old(filter) && settings == old(settings)
    {
      notifications := ToggledRead(notifications, id);
    }

    /** `handleMarkAllRead`. */
    method MarkAllRead()
      modifies this
      ensures notifications == MarkedAllRead(old(notifications))
      ensures filter == old(filter) && settings == old(settings)
    {
      notifications := MarkedAllRead(notifications);
    }

    /** `handleSettingChange`. */
    method SettingChange(kind: Kind)
      modifies this
      ensures settings == ToggledSetting(old(settings), kind)
      ensures notifications == old(notifications) && filter == old(filter)
    {
      settings := ToggledSetting(settings, kind);
    }
  }
}
