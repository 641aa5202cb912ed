/**
 * The notification list of `src/contexts/ToastContext.jsx`: toasts are appended with a
 * fresh id, removed by id, or cleared. The id the source draws from the clock and a random
 * number is a parameter here.
 */
module Toasts {
  import opened Wrappers
  import opened Seqs

  /** What a caller asks to show: `{ type, title, message, duration }`. */
  datatype Content = Content(kind: string, title: string, message: string, duration: int)

  /** A toast on screen: `{ id, ...toast }`. */
  datatype Toast = Toast(id: real, content: Content)

  /** The display time used when the caller gives none. */
  const DefaultDuration := 5000

  function NotId(id: real): Toast -> bool {
    (t: Toast) => t.id != id
  }

  /** `toasts.filter(toast => toast.id !== id)`. */
  function Without(toasts: seq<Toast>, id: real): seq<Toast> {
    Filter(toasts, NotId(id))
  }

  /** The ids on screen. */
  function Ids(toasts: seq<Toast>): set<real> {
    set t | t in toasts :: t.id
  }

  /** Removing an id keeps exactly the toasts with another id, so that id is gone afterwards. */
  lemma WithoutSpec(toasts: seq<Toast>, id: real)
    ensures forall t :: t in Without(toasts, id) <==> t in toasts && t.id != id
    ensures id !in Ids(Without(toasts, id))
    ensures Ids(Without(toasts, id)) == Ids(toasts) - {id}
  {
    forall t ensures t in Without(toasts, id) <==> t in toasts && t.id != id {
      FilterMember(toasts, NotId(id), t);
    }
  }

  /** Showing a toast under a fresh id and then dismissing it gives back the list as it was. */
  lemma AddThenRemove(toasts: seq<Toast>, t: Toast)
    requires t.id !in Ids(toasts)
    ensures Without(toasts + [t], t.id) == toasts
  {
    FilterAppend(toasts, [t], NotId(t.id));
    assert forall i :: 0 <= i < |toasts| ==> toasts[i] in toasts;
    FilterKeepsAll(toasts, NotId(t.id));
  }

  /** The provider's state. */
  class ToastList {
    var toasts: seq<Toast>

    /** No toasts at first. */
    constructor ()
      ensures toasts == []
    {
      toasts := [];
    }

    /** `addToast(toast)`: appends it under the id `id` and returns that id. */
    method AddToast(content: Content, id: real) returns (r: real)
      modifies this
      ensures r == id
      ensures toasts == old(toasts) + [Toast(id, content)]
    {
      toasts := toasts + [Toast(id, content)];
      r := id;
    }

    /** `removeToast(id)`. */
    method RemoveToast(id: real)
      modifies this
      ensures toasts == Without(old(toasts), id)
    {
      toasts := Without(toasts, id);
    }

    /** `showToast(type, title, message, duration = 5000)`. */
    method ShowToast(kind: string, title: string, message: string, duration: Option<int>, id: real) returns (r: real)
      modifies this
      ensures r == id
      ensures toasts == old(toasts) + [Toast(id, Content(kind, title, message, duration.GetOr(DefaultDuration)))]
    {
      r := AddToast(Content(kind, title, message, duration.GetOr(DefaultDuration)), id);
    }

    /** `success(title, message, duration)`. */
    method Success(title: string, message: string, duration: Option<int>, id: real) returns (r: real)
      modifies this
      ensures r == id
      ensures toasts == old(toasts) + [Toast(id, Content("success", title, message, duration.GetOr(DefaultDuration)))]
    {
      r := ShowToast("success", title, message, duration, id);
    }

    /** `error(title, message, duration)`. */
    method Error(title: string, message: string, duration: Option<int>, id: real) returns (r: real)
      modifies this
      ensures r == id
      ensures toasts == old(toasts) + [Toast(id, Content("error", title, message, duration.GetOr(DefaultDuration)))]
    {
      r := ShowToast("error", title, message, duration, id);
    }

    /** `warning(title, message, duration)`. */
    method Warning(title: string, message: string, duration: Option<int>, id: real) returns (r: real)
      modifies this
      ensures r == id
      ensures toasts == old(toasts) + [Toast(id, Content("warning", title, message, duration.GetOr(DefaultDuration)))]
    {
      r := ShowToast("warning", title, message, duration, id);
    }

    /** `info(title, message, duration)`. */
    method Info(title: string, message: string, duration: Option<int>, id: real) returns (r: real)
      modifies this
      ensures r == id
      ensures toasts == old(toasts) + [Toast(id, Content("info", title, message, duration.GetOr(DefaultDuration)))]
    {
      r := ShowToast("info", title, message, duration, id);
    }

    /** `clearAll()`. */
    method ClearAll()
      modifies this
      ensures toasts == []
    {
      toasts := [];
    }
  }
}
