/**
 The root view: which blog is selected, whether the creation form is shown,
 and what that state puts on screen. The creation form is mounted only
 while it is shown, so hiding it discards its draft.
 */
module RootView {
  import opened JsString
  import opened CreateBlogForm

  /** `number | null`. */
  datatype Option<T> = None | Some(value: T)

  /** JavaScript truthiness of a `number | null`: `null` and `0` are falsy. */
  predicate Truthy(id: Option<int>) {
    id.Some? && id.value != 0
  }

  /** The right-hand panel beside the list. */
  datatype DetailPanel = Detail(blogId: int) | Placeholder

  /** What the main area mounts. */
  datatype MainPanel = FormPanel | ListAndDetail(listSelection: Option<int>, detail: DetailPanel)

  datatype HeaderButton = HeaderButton(caption: String, variant: String)

  /** The header button: `Cancel` while the form is shown, `Create New Blog`
      otherwise. */
  function Header(showCreateForm: bool): (b: HeaderButton)
    ensures b.caption == "Cancel" <==> showCreateForm
    ensures b.caption == "Create New Blog" <==> !showCreateForm
    ensures b.variant == "outline" <==> showCreateForm
    ensures !showCreateForm ==> b.variant == "default"
  {
    if showCreateForm then HeaderButton("Cancel", "outline")
    else HeaderButton("Create New Blog", "default")
  }

  /** The main area: the form alone, or the list (told the selection)
      beside either the selected blog's detail or the placeholder. */
  function Main(selectedBlogId: Option<int>, showCreateForm: bool): (m: MainPanel)
    ensures m.FormPanel? <==> showCreateForm
    ensures m.ListAndDetail? ==> m.listSelection == selectedBlogId
    ensures m.ListAndDetail? ==> (m.detail.Detail? <==> Truthy(selectedBlogId))
    ensures m.ListAndDetail? && m.detail.Detail? ==> m.detail.blogId == selectedBlogId.value
  {
    if showCreateForm then FormPanel
    else if Truthy(selectedBlogId) then ListAndDetail(selectedBlogId, Detail(selectedBlogId.value))
    else ListAndDetail(selectedBlogId, Placeholder)
  }

  /** An id of `0` is treated like no selection: the placeholder shows. */
  lemma ZeroIdShowsPlaceholder()
    ensures Main(Some(0), false) == ListAndDetail(Some(0), Placeholder)
    ensures Main(None, false) == ListAndDetail(None, Placeholder)
  {
  }

  /** The root component's state. */
  class App {
    var selectedBlogId: Option<int>
    var showCreateForm: bool
    var form: Form?

    /** The creation form is mounted exactly while it is shown. */
    predicate Valid()
      reads this
    {
      (form != null) == showCreateForm
    }

    /** What the current state puts in the main area. */
    function View(): MainPanel
      reads this
    {
      Main(selectedBlogId, showCreateForm)
    }

    constructor ()
      ensures Valid()
      ensures selectedBlogId == None && !showCreateForm && form == null
      ensures View() == ListAndDetail(None, Placeholder)
    {
      selectedBlogId := None;
      showCreateForm := false;
      form := null;
    }

    /** The header button: flip the form's visibility. Showing it mounts a
        fresh form with an empty draft; hiding it discards the form. */
    method ToggleCreateForm()
      requires Valid()
      modifies this
      ensures Valid()
      ensures showCreateForm == !old(showCreateForm)
      ensures selectedBlogId == old(selectedBlogId)
      ensures showCreateForm ==>
        fresh(form) && form.draft == InitialDraft() && form.sent == [] && form.effects == []
    {
      showCreateForm := !showCreateForm;
      if showCreateForm {
        form := new Form();
      } else {
        form := null;
      }
    }

    /** The form's `onSuccess` callback: hide the form from any state. */
    method FormSucceeded()
      modifies this
      ensures Valid()
      ensures !showCreateForm && form == null
      ensures selectedBlogId == old(selectedBlogId)
    {
      showCreateForm := false;
      form := null;
    }

    /** `onSelectBlog` from the list: the clicked id becomes the selection. */
    method SelectBlog(id: int)
      modifies this`selectedBlogId
      ensures selectedBlogId == Some(id)
      ensures View() == Main(Some(id), showCreateForm)
    {
      selectedBlogId := Some(id);
    }

    /** A submission of the mounted form. A success clears and then unmounts
        the form; anything else leaves the form shown with its draft. */
    method SubmitForm(date: String, reply: Reply) returns (outcome: SubmitOutcome)
      requires Valid() && showCreateForm
      modifies this, form
      ensures Valid()
      ensures selectedBlogId == old(selectedBlogId)
      ensures old(AllFilled(form.draft)) ==>
        outcome == Sent(CreateBlog(old(form.draft), date, reply))
      ensures !old(AllFilled(form.draft)) ==> outcome == Blocked && old(form).sent == old(form.sent)
      ensures old(AllFilled(form.draft)) ==>
        old(form).sent == old(form.sent) + [BuildPayload(old(form.draft), date)]
      ensures outcome.Sent? && outcome.result.Created? ==>
        !showCreateForm && form == null &&
        old(form).draft == InitialDraft() &&
        old(form).effects == old(form.effects) + [InvalidateQueries(["blogs"]), NotifyParent]
      ensures !(outcome.Sent? && outcome.result.Created?) ==>
        showCreateForm && form == old(form) && form.draft == old(form.draft) &&
        form.effects == old(form.effects)
    {
      var f := form;
      outcome := f.Submit(date, reply);
      if outcome.Sent? && outcome.result.Created? {
        FormSucceeded();
      }
    }
  }

  /** Selecting a blog while the list is shown mounts its detail exactly
      when the id is not `0`. */
  lemma SelectionDecidesDetail(id: int)
    ensures Main(Some(id), false).detail == (if id != 0 then Detail(id) else Placeholder)
  {
  }
}
