/** The to-do page's view state and the handlers that change it. The hosted
    table is not part of this model: each handler receives the store's answer
    to the request it issues as a parameter, and returns the request it
    issued and whether it asks for the list to be fetched again. */
module TodoPage {
  import opened Wrappers
  import opened Text
  import opened Pagination
  import opened QueryBuilder
  import opened Records
  import opened Tags

  /** The store's answer to the list query: the page of rows and the exact
      total count (which the client library may leave null), or an error. */
  datatype Fetched = Loaded(data: seq<Todo>, count: Option<nat>) | FetchFailed(message: string)

  /** `xs` can be obtained from `ys` by deleting elements. */
  predicate IsSubsequence(xs: seq<Todo>, ys: seq<Todo>)
    decreases |ys|
  {
    || xs == []
    || (ys != [] && ((xs[0] == ys[0] && IsSubsequence(xs[1..], ys[1..])) || IsSubsequence(xs, ys[1..])))
  }

  /** `todos.filter((todo) => showAll || !todo.done)`: the list as shown. */
  function DisplayList(todos: seq<Todo>, showAll: bool): (r: seq<Todo>)
    ensures showAll ==> r == todos
    ensures |r| <= |todos|
  {
    if todos == [] then []
    else (if showAll || !todos[0].done then [todos[0]] else []) + DisplayList(todos[1..], showAll)
  }

  /** With completed items hidden, the list shown is the subsequence of the
      open items: it keeps their order, keeps each of them as often as it
      occurs (duplicates included) and drops every completed one. */
  lemma {:induction false} DisplayListKeepsOpenItems(todos: seq<Todo>)
    ensures IsSubsequence(DisplayList(todos, false), todos)
    ensures forall t :: multiset(DisplayList(todos, false))[t] == if t.done then 0 else multiset(todos)[t]
  {
    if todos != [] {
      var rest := DisplayList(todos[1..], false);
      DisplayListKeepsOpenItems(todos[1..]);
      assert todos == [todos[0]] + todos[1..];
      if todos[0].done {
        assert DisplayList(todos, false) == rest;
      } else {
        assert DisplayList(todos, false) == [todos[0]] + rest;
        assert DisplayList(todos, false)[1..] == rest;
      }
    }
  }

  /** An item is shown with completed items hidden exactly when it is in
      the list and not done. */
  lemma OpenItemsShown(todos: seq<Todo>, t: Todo)
    ensures t in DisplayList(todos, false) <==> t in todos && !t.done
  {
    DisplayListKeepsOpenItems(todos);
    assert t in DisplayList(todos, false) <==> multiset(DisplayList(todos, false))[t] > 0;
    assert t in todos <==> multiset(todos)[t] > 0;
  }

  /** The tag criterion is checked for blankness after trimming but sent
      untrimmed: a tag search that contains whitespace (" urgent", say)
      still adds its containment filter, yet it equals no tag of any row
      in the form this page stores rows. */
  lemma PaddedTagSearchEqualsNoStoredTag(c: Criteria, page: int, t: Todo)
    requires !IsBlank(c.tag) && !NoWhitespace(c.tag)
    requires StoredForm(t.dueDate, t.category, t.tags)
    ensures Contains(TagList, [c.tag]) in ComposeQuery(c, page).filters
    ensures t.tags.Some? ==> c.tag !in t.tags.value
  {
    TextFiltersIffNotBlank(c, page);
    if t.tags.Some? {
      var k :| 0 <= k < |c.tag| && IsWhitespace(c.tag[k]);
      assert !SeparatorFree(c.tag) by {
        assert IsSeparator(c.tag[k]);
      }
      assert forall i :: 0 <= i < |t.tags.value| ==> IsTag(t.tags.value[i]);
    }
  }

  /** The page component's state. */
  class Home {
    var todos: seq<Todo>
    var newDraft: Draft          // newTodo, newDueDate, newCategory, newTags
    var showAll: bool
    var editingId: Option<string>
    var editDraft: Draft         // editingContent, editingDueDate, editingCategory, editingTags
    var search: Criteria         // searchContent, searchDate, searchCategory, searchTag, searchDone
    var showAddForm: bool
    var showSearchForm: bool
    var page: int
    var totalCount: nat

    /** The page number is at least 1, and the edit inputs are empty while
        no row is being edited. */
    predicate Valid()
      reads this
    {
      page >= 1 && (editingId == None ==> editDraft == EmptyDraft)
    }

    /** The initial state: nothing loaded, every input empty, both panels
        hidden, completed items hidden, page 1 of an empty list. */
    constructor ()
      ensures Valid()
      ensures todos == [] && newDraft == EmptyDraft && !showAll
      ensures editingId == None && editDraft == EmptyDraft && search == NoCriteria
      ensures !showAddForm && !showSearchForm && page == 1 && totalCount == 0
    {
      todos := [];
      newDraft := EmptyDraft;
      showAll := false;
      editingId := None;
      editDraft := EmptyDraft;
      search := NoCriteria;
      showAddForm := false;
      showSearchForm := false;
      page := 1;
      totalCount := 0;
    }

    /** `fetchTodos`: builds the list query for the current criteria and
        page, then stores the rows and the count (null read as 0) it gets
        back; on an error nothing changes. */
    method FetchTodos(response: Fetched) returns (q: Query)
      requires Valid()
      modifies this
      ensures Valid()
      ensures q == ComposeQuery(search, page)
      ensures q.range.Some? && q.range.value.from >= 0
      ensures response.Loaded? ==> todos == response.data
      ensures response.Loaded? ==> totalCount == match response.count case None => 0 case Some(n) => n
      ensures response.FetchFailed? ==> todos == old(todos) && totalCount == old(totalCount)
      ensures newDraft == old(newDraft) && showAll == old(showAll) && editingId == old(editingId)
      ensures editDraft == old(editDraft) && search == old(search) && page == old(page)
      ensures showAddForm == old(showAddForm) && showSearchForm == old(showSearchForm)
    {
      q := BuildQuery(search, page);
      match response
      case Loaded(data, count) =>
        todos := data;
        totalCount := match count case None => 0 case Some(n) => n;
      case FetchFailed(_) =>
    }

    /** Typing into the search panel, together with the effect that resets
        the page when a criterion changes: the page returns to 1 exactly
        when some criterion changed, and the list is fetched again then. */
    method SetSearch(c: Criteria) returns (refetch: bool)
      requires Valid()
      modifies this
      ensures Valid()
      ensures search == c
      ensures page == if c == old(search) then old(page) else 1
      ensures refetch <==> c != old(search)
      ensures todos == old(todos) && newDraft == old(newDraft) && showAll == old(showAll)
      ensures editingId == old(editingId) && editDraft == old(editDraft) && totalCount == old(totalCount)
      ensures showAddForm == old(showAddForm) && showSearchForm == old(showSearchForm)
    {
      refetch := c != search;
      if refetch {
        search := c;
        page := 1;
      }
    }

    /** The Clear button: every criterion back to its initial value and the
        page back to 1; the list is fetched again when either changed. */
    method ClearFilters() returns (refetch: bool)
      requires Valid()
      modifies this
      ensures Valid()
      ensures search == NoCriteria && page == 1
      ensures refetch <==> old(search) != NoCriteria || old(page) != 1
      ensures todos == old(todos) && newDraft == old(newDraft) && showAll == old(showAll)
      ensures editingId == old(editingId) && editDraft == old(editDraft) && totalCount == old(totalCount)
      ensures showAddForm == old(showAddForm) && showSearchForm == old(showSearchForm)
    {
      refetch := search != NoCriteria || page != 1;
      search := NoCriteria;
      page := 1;
    }

    /** The Prev button: one page back, never below page 1. */
    method Prev() returns (refetch: bool)
      requires Valid()
      modifies this
      ensures Valid()
      ensures page == PrevPage(old(page))
      ensures old(page) == 1 ==> page == 1 && !refetch
      ensures refetch <==> page != old(page)
      ensures todos == old(todos) && newDraft == old(newDraft) && showAll == old(showAll)
      ensures editingId == old(editingId) && editDraft == old(editDraft) && search == old(search)
      ensures totalCount == old(totalCount)
      ensures showAddForm == old(showAddForm) && showSearchForm == old(showSearchForm)
    {
      var previous := page;
      page := PrevPage(page);
      refetch := page != previous;
    }

    /** The Next button: one page forward, never past the last page for the
        current count. */
    method Next() returns (refetch: bool)
      requires Valid()
      modifies this
      ensures Valid()
      ensures page == NextPage(old(page), TotalPages(totalCount))
      ensures old(page) <= TotalPages(totalCount) ==> page <= TotalPages(totalCount)
      ensures old(page) == TotalPages(totalCount) ==> page == old(page) && !refetch
      ensures refetch <==> page != old(page)
      ensures todos == old(todos) && newDraft == old(newDraft) && showAll == old(showAll)
      ensures editingId == old(editingId) && editDraft == old(editDraft) && search == old(search)
      ensures totalCount == old(totalCount)
      ensures showAddForm == old(showAddForm) && showSearchForm == old(showSearchForm)
    {
      var previous := page;
      page := NextPage(page, TotalPages(totalCount));
      refetch := page != previous;
    }

    /** The "Show Completed" checkbox. */
    method SetShowAll(checked: bool)
      requires Valid()
      modifies this
      ensures Valid()
      ensures showAll == checked
      ensures todos == old(todos) && newDraft == old(newDraft) && page == old(page)
      ensures editingId == old(editingId) && editDraft == old(editDraft) && search == old(search)
      ensures totalCount == old(totalCount)
      ensures showAddForm == old(showAddForm) && showSearchForm == old(showSearchForm)
    {
      showAll := checked;
    }

    /** The list as rendered for the current rows and checkbox. */
    function Shown(): (r: seq<Todo>)
      reads this
      ensures showAll ==> r == todos
      ensures !showAll ==> forall t :: t in r <==> t in todos && !t.done
    {
      forall t ensures t in DisplayList(todos, false) <==> t in todos && !t.done {
        OpenItemsShown(todos, t);
      }
      DisplayList(todos, showAll)
    }

    /** The ➕ Add button: shows or hides the add panel. */
    method ToggleAddForm()
      requires Valid()
      modifies this
      ensures Valid()
      ensures showAddForm == !old(showAddForm)
      ensures todos == old(todos) && newDraft == old(newDraft) && showAll == old(showAll)
      ensures editingId == old(editingId) && editDraft == old(editDraft) && search == old(search)
      ensures page == old(page) && totalCount == old(totalCount) && showSearchForm == old(showSearchForm)
    {
      showAddForm := !showAddForm;
    }

    /** The 🔍 Search button: shows or hides the search panel. */
    method ToggleSearchForm()
      requires Valid()
      modifies this
      ensures Valid()
      ensures showSearchForm == !old(showSearchForm)
      ensures todos == old(todos) && newDraft == old(newDraft) && showAll == old(showAll)
      ensures editingId == old(editingId) && editDraft == old(editDraft) && search == old(search)
      ensures page == old(page) && totalCount == old(totalCount) && showAddForm == old(showAddForm)
    {
      showSearchForm := !showSearchForm;
    }

    /** Typing into the add panel's inputs. */
    method SetNewDraft(d: Draft)
      requires Valid()
      modifies this
      ensures Valid()
      ensures newDraft == d
      ensures todos == old(todos) && showAll == old(showAll) && page == old(page)
      ensures editingId == old(editingId) && editDraft == old(editDraft) && search == old(search)
      ensures totalCount == old(totalCount)
      ensures showAddForm == old(showAddForm) && showSearchForm == old(showSearchForm)
    {
      newDraft := d;
    }

    /** `addTodo`. Blank content: no insert, nothing changes. Otherwise the
        insert is built from the add panel's inputs; when the store accepts
        it, the inputs are cleared, the panel is hidden, the page returns to
        1 and the list is fetched again; when it refuses, nothing changes. */
    method AddTodo(ack: Ack) returns (write: Option<Write>, refetch: bool)
      requires Valid()
      modifies this
      ensures Valid()
      ensures IsBlank(old(newDraft).content) <==> write == None
      ensures write.Some? ==> write.value == Insert(NewRowFor(old(newDraft)))
      ensures refetch <==> write.Some? && ack.Ok?
      ensures refetch ==> newDraft == EmptyDraft && !showAddForm && page == 1
      ensures !refetch ==> newDraft == old(newDraft) && showAddForm == old(showAddForm) && page == old(page)
      ensures todos == old(todos) && showAll == old(showAll) && editingId == old(editingId)
      ensures editDraft == old(editDraft) && search == old(search) && totalCount == old(totalCount)
      ensures showSearchForm == old(showSearchForm)
    {
      if IsBlank(newDraft.content) {
        return None, false;
      }
      write := Some(Insert(NewRowFor(newDraft)));
      refetch := ack.Ok?;
      if refetch {
        newDraft := EmptyDraft;
        showAddForm := false;
        page := 1;
      }
    }

    /** `toggleDone`: asks the store to negate the row's completion flag and
        fetches again when it succeeds; the page's own state is untouched. */
    method ToggleDone(id: string, done: bool, ack: Ack) returns (write: Write, refetch: bool)
      ensures write.SetDone? && write.id == id && write.done == !done
      ensures refetch <==> ack.Ok?
    {
      write := ToggleWrite(id, done);
      refetch := ack.Ok?;
    }

    /** `deleteTodo`: asks the store to delete the row and fetches again when
        it succeeds; the page's own state is untouched. */
    method DeleteTodo(id: string, ack: Ack) returns (write: Write, refetch: bool)
      ensures write.Delete? && write.id == id
      ensures refetch <==> ack.Ok?
    {
      write := Delete(id);
      refetch := ack.Ok?;
    }

    /** The ✏️ Edit button: starts editing the row, with the edit inputs
        holding its fields. */
    method BeginEdit(t: Todo)
      requires Valid()
      modifies this
      ensures Valid()
      ensures editingId == Some(t.id) && editDraft == Prefill(t)
      ensures todos == old(todos) && newDraft == old(newDraft) && showAll == old(showAll)
      ensures search == old(search) && page == old(page) && totalCount == old(totalCount)
      ensures showAddForm == old(showAddForm) && showSearchForm == old(showSearchForm)
    {
      editingId := Some(t.id);
      editDraft := Prefill(t);
    }

    /** Typing into the edit inputs, which are rendered only for the row
        being edited. */
    method SetEditDraft(d: Draft)
      requires Valid() && editingId.Some?
      modifies this
      ensures Valid()
      ensures editDraft == d
      ensures todos == old(todos) && newDraft == old(newDraft) && showAll == old(showAll)
      ensures editingId == old(editingId) && search == old(search) && page == old(page)
      ensures totalCount == old(totalCount)
      ensures showAddForm == old(showAddForm) && showSearchForm == old(showSearchForm)
    {
      editDraft := d;
    }

    /** `updateTodo`: sends the edit inputs as the row's new fields (there
        is no blank-content check here); when the store accepts, editing
        ends with the edit inputs cleared and the list is fetched again;
        when it refuses, nothing changes. */
    method UpdateTodo(id: string, ack: Ack) returns (write: Write, refetch: bool)
      requires Valid()
      modifies this
      ensures Valid()
      ensures write == Update(id, ChangesFor(old(editDraft)))
      ensures refetch <==> ack.Ok?
      ensures refetch ==> editingId == None && editDraft == EmptyDraft
      ensures !refetch ==> editingId == old(editingId) && editDraft == old(editDraft)
      ensures todos == old(todos) && newDraft == old(newDraft) && showAll == old(showAll)
      ensures search == old(search) && page == old(page) && totalCount == old(totalCount)
      ensures showAddForm == old(showAddForm) && showSearchForm == old(showSearchForm)
    {
      write := Update(id, ChangesFor(editDraft));
      refetch := ack.Ok?;
      if refetch {
        editingId := None;
        editDraft := EmptyDraft;
      }
    }
  }
}
