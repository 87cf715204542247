/**
 * The toast list (src/components/NotificationSystem.jsx): `addNotification`
 * appends an entry filled in with defaults and schedules its removal,
 * `removeNotification` filters by id, `clearAll` empties the list, and the
 * `show*` helpers build the argument passed to the globally registered
 * `window.showNotification`.
 *
 * Object spreads are modelled field by field: a field given by the caller
 * (`Some`) overrides the default, an absent one (`None`) keeps it.
 */
module Notifications {
  import opened Common

  /** An object passed to `addNotification` or built by `show*`; every field may be absent. */
  datatype Request = Request(
    id: Option<int>,
    kind: Option<string>,
    duration: Option<int>,
    message: Option<string>,
    title: Option<string>)

  /** An entry of the list once its defaults are filled in. */
  datatype Notification = Notification(
    id: int,
    kind: string,
    duration: int,
    message: Option<string>,
    title: Option<string>)

  /** A removal timer scheduled by `addNotification`: the generated id and its delay. */
  datatype Removal = Removal(id: int, delay: int)

  const NoFields := Request(None, None, None, None, None)
  const DefaultKind := "info"
  const DefaultDuration := 5000
  const ErrorDuration := 7000

  /** `{ id, type: 'info', duration: 5000, ...notification }` */
  function Filled(freshId: int, req: Request): (n: Notification)
    ensures n.id == req.id.GetOr(freshId)
    ensures n.kind == req.kind.GetOr(DefaultKind) && n.duration == req.duration.GetOr(DefaultDuration)
    ensures n.message == req.message && n.title == req.title
  {
    Notification(req.id.GetOr(freshId), req.kind.GetOr(DefaultKind), req.duration.GetOr(DefaultDuration),
                 req.message, req.title)
  }

  /** `prev.filter(n => n.id !== id)` */
  function WithoutId(xs: seq<Notification>, id: int): (r: seq<Notification>)
    ensures |r| <= |xs|
    ensures forall n :: n in r ==> n in xs && n.id != id
    ensures forall n :: n in xs && n.id != id ==> n in r
  {
    if xs == [] then []
    else if xs[|xs| - 1].id == id then WithoutId(xs[..|xs| - 1], id)
    else WithoutId(xs[..|xs| - 1], id) + [xs[|xs| - 1]]
  }

  /** Filtering keeps the order: it distributes over concatenation. */
  lemma {:induction false} WithoutIdAppend(xs: seq<Notification>, ys: seq<Notification>, id: int)
    ensures WithoutId(xs + ys, id) == WithoutId(xs, id) + WithoutId(ys, id)
    decreases |ys|
  {
    if ys != [] {
      assert (xs + ys)[..|xs + ys| - 1] == xs + ys[..|ys| - 1];
      WithoutIdAppend(xs, ys[..|ys| - 1], id);
    } else {
      assert xs + ys == xs;
    }
  }

  /** Removing an id no entry carries changes nothing. */
  lemma {:induction false} WithoutAbsentId(xs: seq<Notification>, id: int)
    requires forall n :: n in xs ==> n.id != id
    ensures WithoutId(xs, id) == xs
    decreases |xs|
  {
    if xs != [] {
      WithoutAbsentId(xs[..|xs| - 1], id);
      assert xs[..|xs| - 1] + [xs[|xs| - 1]] == xs;
    }
  }

  /** Removing the same id twice is removing it once. */
  lemma RemoveIdempotent(xs: seq<Notification>, id: int)
    ensures WithoutId(WithoutId(xs, id), id) == WithoutId(xs, id)
  {
    WithoutAbsentId(WithoutId(xs, id), id);
  }

  /** Adding then removing the generated id leaves the list as it was (when no id was forced). */
  lemma AddThenRemove(xs: seq<Notification>, freshId: int, req: Request)
    requires req.id.None? && forall n :: n in xs ==> n.id != freshId
    ensures WithoutId(xs + [Filled(freshId, req)], freshId) == xs
  {
    WithoutIdAppend(xs, [Filled(freshId, req)], freshId);
    WithoutAbsentId(xs, freshId);
    assert [Filled(freshId, req)][..0] == [];
  }

  /**
   * `r` carries the options unchanged, except that the type and the message
   * are present: the caller's if the options give them, else `kind` and `message`.
   */
  ghost predicate SetsTypeAndMessage(r: Request, message: string, kind: string, options: Request) {
    && r.kind == Some(options.kind.GetOr(kind))
    && r.message == Some(options.message.GetOr(message))
    && r.id == options.id && r.duration == options.duration && r.title == options.title
  }

  /** `{ message, type, ...options }`, the argument built by `showNotification`. */
  function ShowRequest(message: string, kind: string, options: Request): (r: Request)
    ensures SetsTypeAndMessage(r, message, kind, options)
  {
    options.(kind := Some(options.kind.GetOr(kind)), message := Some(options.message.GetOr(message)))
  }

  /** `showSuccess`: only the type is set, to 'success'. */
  function SuccessRequest(message: string, options: Request): (r: Request)
    ensures SetsTypeAndMessage(r, message, "success", options)
  {
    ShowRequest(message, "success", options)
  }

  /** `showError`: type 'error' and a 7000 ms default that the options may override. */
  function ErrorRequest(message: string, options: Request): (r: Request)
    ensures r.kind == Some(options.kind.GetOr("error"))
    ensures r.duration == Some(options.duration.GetOr(ErrorDuration))
    ensures r.message == Some(options.message.GetOr(message)) && r.title == options.title
  {
    ShowRequest(message, "error", options.(duration := Some(options.duration.GetOr(ErrorDuration))))
  }

  /** `showWarning`: only the type is set, to 'warning'. */
  function WarningRequest(message: string, options: Request): (r: Request)
    ensures SetsTypeAndMessage(r, message, "warning", options)
  {
    ShowRequest(message, "warning", options)
  }

  /** `showInfo`: only the type is set, to 'info'. */
  function InfoRequest(message: string, options: Request): (r: Request)
    ensures SetsTypeAndMessage(r, message, "info", options)
  {
    ShowRequest(message, "info", options)
  }

  /** The notification system's list and its pending removal timers. */
  class NotificationCenter {
    var items: seq<Notification>
    var removals: seq<Removal>

    constructor ()
      ensures items == [] && removals == []
    {
      items, removals := [], [];
    }

    /**
     * `addNotification`: appends the filled-in entry at the end and returns
     * the generated id; a removal of that id is scheduled only for a
     * positive duration.
     */
    method Add(req: Request, freshId: int) returns (id: int)
      modifies this
      ensures id == freshId
      ensures items == old(items) + [Filled(freshId, req)]
      ensures removals == old(removals) + (if Filled(freshId, req).duration > 0 then [Removal(freshId, Filled(freshId, req).duration)] else [])
    {
      var n := Filled(freshId, req);
      items := items + [n];
      if n.duration > 0 {
        removals := removals + [Removal(freshId, n.duration)];
      }
      id := freshId;
    }

    /** `removeNotification`: drops exactly the entries with this id, keeping the others in order. */
    method Remove(id: int)
      modifies this`items
      ensures items == WithoutId(old(items), id)
    {
      items := WithoutId(items, id);
    }

    method ClearAll()
      modifies this`items
      ensures items == []
    {
      items := [];
    }

    /** The k-th pending removal timer fires and removes its id. */
    method RemovalFires(k: nat)
      requires k < |removals|
      modifies this
      ensures removals == old(removals[..k] + removals[k + 1..])
      ensures items == WithoutId(old(items), old(removals[k].id))
    {
      var r := removals[k];
      removals := removals[..k] + removals[k + 1..];
      Remove(r.id);
    }

    /** The component renders nothing for an empty list. */
    predicate RendersNothing()
      reads this
      ensures RendersNothing() <==> items == []
    {
      |items| == 0
    }

    /** The clear-all button appears only with more than one entry. */
    predicate ShowsClearAll()
      reads this
      ensures ShowsClearAll() <==> |items| > 1
      ensures ShowsClearAll() ==> !RendersNothing()
    {
      |items| > 1
    }
  }

  /**
   * `showNotification`: `center` is the handler registered on `window`, or
   * null when no notification system is mounted, in which case nothing
   * happens and `undefined` is returned.
   */
  method ShowNotification(center: NotificationCenter?, message: string, kind: string, options: Request, freshId: int)
    returns (r: Option<int>)
    modifies center
    ensures center == null ==> r == None
    ensures center != null ==>
      && r == Some(freshId)
      && center.items == old(center.items) + [Filled(freshId, ShowRequest(message, kind, options))]
      && center.removals == old(center.removals)
        + (var n := Filled(freshId, ShowRequest(message, kind, options));
           if n.duration > 0 then [Removal(freshId, n.duration)] else [])
  {
    if center == null {
      r := None;
    } else {
      var id := center.Add(ShowRequest(message, kind, options), freshId);
      r := Some(id);
    }
  }
}
