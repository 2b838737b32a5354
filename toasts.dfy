// The toast notifications (components/toast-provider.tsx): a list of toasts
// that grows at the end and shrinks by id. The random id and the
// three-second timer that removes a toast again are supplied by the caller.
module Toasts {
  import opened Common

  /** A toast as listed; its optional React `action` element is not modelled. */
  datatype Toast = Toast(id: string, title: Option<string>, description: Option<string>)

  /** `prev.filter(t => t.id !== id)` */
  function RemovedById(toasts: seq<Toast>, id: string): (r: seq<Toast>)
    ensures |r| <= |toasts|
    ensures forall t :: t in r <==> t in toasts && t.id != id
  {
    var r := FilterMap(toasts, (t: Toast) => t.id != id, (t: Toast) => t);
    assert forall t :: t in r ==> t in toasts && t.id != id by {
      forall t | t in r
        ensures t in toasts && t.id != id
      {
        var u :| u in toasts && u.id != id && t == u;
      }
    }
    r
  }

  /** Removing an id no toast carries leaves the list exactly as it was. */
  lemma RemoveAbsentId(toasts: seq<Toast>, id: string)
    requires forall t :: t in toasts ==> t.id != id
    ensures RemovedById(toasts, id) == toasts
  {
    FilterMapKeepsAll(toasts, (t: Toast) => t.id != id, (t: Toast) => t);
  }

  /** Removal keeps the surviving toasts in their order: it distributes over appending one toast. */
  lemma RemoveAfterAppend(toasts: seq<Toast>, t: Toast, id: string)
    ensures RemovedById(toasts + [t], id) == RemovedById(toasts, id) + (if t.id != id then [t] else [])
  {
    assert (toasts + [t])[..|toasts|] == toasts;
  }

  /** With a fresh id, adding a toast and then removing it gives back the previous list. */
  lemma AddThenRemoveRestores(toasts: seq<Toast>, t: Toast)
    requires forall u :: u in toasts ==> u.id != t.id
    ensures RemovedById(toasts + [t], t.id) == toasts
  {
    RemoveAfterAppend(toasts, t, t.id);
    RemoveAbsentId(toasts, t.id);
  }

  /** An id that collides with an older toast's makes the timer of the new toast remove the older one too. */
  lemma CollidingIdRemovesBoth(toasts: seq<Toast>, t: Toast, k: nat)
    requires k < |toasts| && toasts[k].id == t.id
    ensures toasts[k] !in RemovedById(toasts + [t], t.id)
    ensures |RemovedById(toasts + [t], t.id)| < |toasts|
  {
    RemoveAfterAppend(toasts, t, t.id);
    RemoveShrinks(toasts, t.id, k);
  }

  lemma {:induction false} RemoveShrinks(toasts: seq<Toast>, id: string, k: nat)
    requires k < |toasts| && toasts[k].id == id
    ensures |RemovedById(toasts, id)| < |toasts|
  {
    var n := |toasts|;
    RemoveAfterAppend(toasts[..n - 1], toasts[n - 1], id);
    assert toasts[..n - 1] + [toasts[n - 1]] == toasts;
    if k < n - 1 {
      RemoveShrinks(toasts[..n - 1], id, k);
    }
  }

  class ToastProvider {
    var toasts: seq<Toast>

    constructor ()
      ensures toasts == []
    {
      toasts := [];
    }

    /** addToast: the toast's fields plus the id it is given, at the end of the list. */
    method AddToast(title: Option<string>, description: Option<string>, id: string)
      modifies this
      ensures toasts == old(toasts) + [Toast(id, title, description)]
    {
      toasts := toasts + [Toast(id, title, description)];
    }

    /** removeToast, called by the close button and by the timer. */
    method RemoveToast(id: string)
      modifies this
      ensures toasts == RemovedById(old(toasts), id)
    {
      toasts := RemovedById(toasts, id);
    }
  }

  const OutsideProviderMessage := "useToast must be used within ToastProvider"

  /** useToast: the provider in scope, or the error it throws when there is none. */
  function UseToast(context: Option<ToastProvider>): (r: Result<ToastProvider>)
    ensures r.Ok? <==> context.Some?
    ensures r.Ok? ==> r.value == context.value
    ensures r.Failure? ==> r.message == OutsideProviderMessage
  {
    match context
    case None => Failure(OutsideProviderMessage)
    case Some(p) => Ok(p)
  }
}
