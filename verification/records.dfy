/** The to-do record, the form drafts the page keeps, and the write
    requests it builds from them. */
module Records {
  import opened Wrappers
  import opened Tags

  /** One row of the `todos` table. */
  datatype Todo = Todo(
    id: string,
    content: string,
    done: bool,
    createdAt: string,
    dueDate: Option<string>,
    category: Option<string>,
    tags: Option<seq<string>>)

  /** The four text inputs of the add form and of the inline edit form:
      content, due date, category and the free tag text. */
  datatype Draft = Draft(content: string, dueDate: string, category: string, tags: string)

  const EmptyDraft := Draft("", "", "", "")

  /** The row `addTodo` inserts. */
  datatype NewRow = NewRow(
    content: string,
    done: bool,
    dueDate: Option<string>,
    category: Option<string>,
    tags: Option<seq<string>>)

  /** The fields `updateTodo` replaces. */
  datatype Changes = Changes(
    content: string,
    dueDate: Option<string>,
    category: Option<string>,
    tags: Option<seq<string>>)

  /** A write the page issues against the table; updates and deletes are
      restricted to the row with the given id (`.eq('id', id)`). */
  datatype Write =
    | Insert(row: NewRow)
    | SetDone(id: string, done: bool)
    | Update(id: string, changes: Changes)
    | Delete(id: string)

  /** The store's answer to a write: success, or an error message. */
  datatype Ack = Ok | Err(message: string)

  /** `s || null` for a string input. */
  function OrNull(s: string): Option<string> {
    if s == [] then None else Some(s)
  }

  /** `value || ''` for a nullable string field. */
  function OrEmpty(o: Option<string>): string {
    match o
    case None => []
    case Some(s) => s
  }

  /** `tags.length ? tags : null` */
  function TagsOrNull(tags: seq<string>): Option<seq<string>> {
    if |tags| == 0 then None else Some(tags)
  }

  /** `todo.tags?.join(' ') || ''` */
  function PrefillTags(tags: Option<seq<string>>): string {
    match tags
    case None => []
    case Some(ts) => JoinWithSpace(ts)
  }

  /** The insert payload of `addTodo`: the content as typed, not done, a
      blank due date or category becomes null, and the parsed tags, or null
      when the tag text yields none. */
  function NewRowFor(d: Draft): NewRow {
    NewRow(d.content, false, OrNull(d.dueDate), OrNull(d.category), TagsOrNull(ParseTags(d.tags)))
  }

  /** The insert payload keeps the typed content, is not done, has null
      exactly where the due date, the category or the parsed tag list is
      empty, and otherwise holds the typed text and the parsed tags. */
  lemma NewRowPayload(d: Draft)
    ensures var r := NewRowFor(d);
      && r.content == d.content && !r.done
      && (r.dueDate == None <==> d.dueDate == []) && (r.dueDate.Some? ==> r.dueDate.value == d.dueDate)
      && (r.category == None <==> d.category == []) && (r.category.Some? ==> r.category.value == d.category)
      && (r.tags == None <==> ParseTags(d.tags) == []) && (r.tags.Some? ==> r.tags.value == ParseTags(d.tags))
  {
  }

  /** The update payload of `updateTodo`, built from the edit draft the same
      way, without a `done` field. */
  function ChangesFor(d: Draft): Changes {
    Changes(d.content, OrNull(d.dueDate), OrNull(d.category), TagsOrNull(ParseTags(d.tags)))
  }

  /** The update payload carries the same fields as the insert payload for
      the same inputs, apart from the completion flag it leaves alone. */
  lemma ChangesMatchNewRow(d: Draft)
    ensures var r := NewRowFor(d);
      ChangesFor(d) == Changes(r.content, r.dueDate, r.category, r.tags)
  {
  }

  /** The edit button's pre-fill: each field of the record, nulls shown as
      empty inputs and the tags joined with spaces. */
  function Prefill(t: Todo): Draft {
    Draft(t.content, OrEmpty(t.dueDate), OrEmpty(t.category), PrefillTags(t.tags))
  }

  /** `{ done: !done }` for the row with the given id. */
  function ToggleWrite(id: string, done: bool): (w: Write)
    ensures w.SetDone? && w.id == id && w.done != done
  {
    SetDone(id, !done)
  }

  /** Toggling a row twice writes back its original completion state. */
  lemma ToggleTwiceRestores(t: Todo)
    ensures var once := t.(done := ToggleWrite(t.id, t.done).done);
            once.done != t.done && once.(done := ToggleWrite(once.id, once.done).done) == t
  {
  }

  /** Optional fields in the form this page stores them: no empty due date
      or category, and a tag list that is either null or a non-empty list
      of well-formed tags. */
  predicate StoredForm(dueDate: Option<string>, category: Option<string>, tags: Option<seq<string>>) {
    && dueDate != Some([])
    && category != Some([])
    && (tags.Some? ==> tags.value != [] && AllTags(tags.value))
  }

  /** Every row the add form inserts is in stored form. */
  lemma NewRowIsInStoredForm(d: Draft)
    ensures var r := NewRowFor(d); StoredForm(r.dueDate, r.category, r.tags)
  {
    ParseTagsYieldsTags(d.tags);
  }

  /** Every update the edit form sends is in stored form. */
  lemma ChangesAreInStoredForm(d: Draft)
    ensures var r := ChangesFor(d); StoredForm(r.dueDate, r.category, r.tags)
  {
    ParseTagsYieldsTags(d.tags);
  }

  /** A nullable text survives the pre-fill and save round trip unless it
      is the empty string, which comes back as null. */
  lemma TextRoundTrip(o: Option<string>)
    ensures OrNull(OrEmpty(o)) == if o == Some([]) then None else o
  {
  }

  /** A nullable tag list in stored form survives the pre-fill and save
      round trip; an empty list comes back as null. */
  lemma TagsRoundTrip(tags: Option<seq<string>>)
    ensures tags.Some? && tags.value != [] && AllTags(tags.value)
            ==> TagsOrNull(ParseTags(PrefillTags(tags))) == tags
    ensures tags == None || tags == Some([]) ==> TagsOrNull(ParseTags(PrefillTags(tags))) == None
  {
    match tags
    case None => ParseWord([]);
    case Some(ts) =>
      if ts == [] {
        ParseWord([]);
      } else if AllTags(ts) {
        ParseJoinRoundTrip(ts);
      }
  }

  /** Opening the edit form on a record in stored form and saving without
      touching any input sends back exactly the record's own fields. */
  lemma UnchangedEditKeepsRecord(t: Todo)
    requires StoredForm(t.dueDate, t.category, t.tags)
    ensures ChangesFor(Prefill(t)) == Changes(t.content, t.dueDate, t.category, t.tags)
  {
    TextRoundTrip(t.dueDate);
    TextRoundTrip(t.category);
    TagsRoundTrip(t.tags);
  }
}
