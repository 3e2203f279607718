/** The URL input panel of the dashboard: a single-URL field, a bulk text area that
    can be shown or hidden, the handlers that hand URLs to the page's `onAddUrls`,
    the status badge of a queued job and the guard on the Clear-All control. */
module BulkUrlManager {
  import opened Text
  import Queue

  datatype Option<T> = None | Some(value: T)

  /** What the handlers may pass to `onAddUrls`: at least one URL, each non-empty
      and already trimmed. */
  predicate WellFormedBatch(batch: seq<string>) {
    |batch| > 0 && forall i :: 0 <= i < |batch| ==> batch[i] != [] && IsTrimmed(batch[i])
  }

  /** The input panel's own state. Each handler returns the argument of the
      `onAddUrls` call it makes, or None when it makes none. */
  class UrlInput {
    var singleUrl: string
    var bulkUrls: string
    var showBulkInput: bool

    /** Both inputs start empty and the bulk area hidden. */
    constructor ()
      ensures singleUrl == [] && bulkUrls == [] && !showBulkInput
    {
      singleUrl := [];
      bulkUrls := [];
      showBulkInput := false;
    }

    /** The single-URL field's `onChange`. */
    method SetSingleUrl(v: string)
      modifies this
      ensures singleUrl == v
      ensures bulkUrls == old(bulkUrls) && showBulkInput == old(showBulkInput)
    {
      singleUrl := v;
    }

    /** The bulk text area's `onChange`. */
    method SetBulkUrls(v: string)
      modifies this
      ensures bulkUrls == v
      ensures singleUrl == old(singleUrl) && showBulkInput == old(showBulkInput)
    {
      bulkUrls := v;
    }

    /** The show/hide button of the bulk area. */
    method ToggleBulkInput()
      modifies this
      ensures showBulkInput == !old(showBulkInput)
      ensures singleUrl == old(singleUrl) && bulkUrls == old(bulkUrls)
    {
      showBulkInput := !showBulkInput;
    }

    /** handleAddSingle: a field that is not blank hands over its trimmed value and
      is cleared; a blank one hands over nothing and keeps its text. */
    method AddSingle() returns (added: Option<seq<string>>)
      modifies this
      ensures IsBlank(old(singleUrl)) ==> added == None && singleUrl == old(singleUrl)
      ensures !IsBlank(old(singleUrl)) ==> added == Some([Trim(old(singleUrl))]) && singleUrl == []
      ensures added.Some? ==> WellFormedBatch(added.value)
      ensures bulkUrls == old(bulkUrls) && showBulkInput == old(showBulkInput)
    {
      var t := Trim(singleUrl);
      TrimEmptyIffBlank(singleUrl);
      if t != [] {
        added := Some([t]);
        singleUrl := [];
      } else {
        added := None;
      }
    }

    /** handleAddBulk: the non-blank lines, trimmed and in order, are handed over in
      one call, after which the area is emptied and hidden; when there are none,
      nothing is handed over and nothing changes. */
    method AddBulk() returns (added: Option<seq<string>>)
      modifies this
      ensures ParseBulk(old(bulkUrls)) == [] ==>
        added == None && bulkUrls == old(bulkUrls) && showBulkInput == old(showBulkInput)
      ensures ParseBulk(old(bulkUrls)) != [] ==>
        added == Some(ParseBulk(old(bulkUrls))) && bulkUrls == [] && !showBulkInput
      ensures added.Some? ==> WellFormedBatch(added.value)
      ensures singleUrl == old(singleUrl)
    {
      var urlList := ParseBulk(bulkUrls);
      if |urlList| > 0 {
        added := Some(urlList);
        bulkUrls := [];
        showBulkInput := false;
      } else {
        added := None;
      }
    }
  }

  /** Toggling the bulk area twice restores its visibility. */
  method ToggleTwice(input: UrlInput)
    modifies input
    ensures input.showBulkInput == old(input.showBulkInput)
    ensures input.singleUrl == old(input.singleUrl) && input.bulkUrls == old(input.bulkUrls)
  {
    input.ToggleBulkInput();
    input.ToggleBulkInput();
  }

  /** The badge style of each status. */
  function StatusBadge(status: Queue.Status): string {
    match status
    case Pending => "bg-muted text-muted-foreground"
    case Processing => "bg-primary/20 text-primary"
    case Completed => "bg-success/20 text-success"
    case Failed => "bg-destructive/20 text-destructive"
  }

  /** Every status has a badge, and no two statuses share one. */
  lemma StatusBadgeDistinct(s: Queue.Status, t: Queue.Status)
    ensures StatusBadge(s) == StatusBadge(t) <==> s == t
  {
  }

  /** The Clear-All control is offered exactly when the queue has entries. */
  predicate ClearAllVisible(queue: seq<Queue.JobUrl>) {
    |queue| > 0
  }

  /** How the queue operations move the Clear-All control: it is offered exactly
      for a non-empty queue, so adding a non-empty batch shows it, clearing hides
      it, and removing an entry can hide it but never shows it. */
  lemma ClearAllVisibility(q: seq<Queue.JobUrl>, urls: seq<string>, ids: seq<string>, stamps: seq<int>, id: string)
    requires |ids| == |urls| && |stamps| == |urls|
    ensures ClearAllVisible(q) <==> q != []
    ensures urls != [] ==> ClearAllVisible(q + Queue.NewEntries(urls, ids, stamps))
    ensures !ClearAllVisible([])
    ensures ClearAllVisible(Queue.RemoveById(q, id)) ==> ClearAllVisible(q)
  {
  }
}
