/** The phrase list of the admin area (`AdminDashboard`): the local copy of
    the `phrases` table, kept in step with the database after each
    successful create, update and delete, and the choice between the phrase
    form and the table. */
module AdminDashboard {
  import opened Text

  /** A field value of a `phrases` row. */
  datatype Json = JNull | JBool(b: bool) | JNum(n: int) | JStr(s: string)

  /** A `phrases` row: its fields by name. */
  type Record = map<string, Json>

  /** One write sent to the database. */
  datatype Write = Insert(record: Record) | Update(id: Option<Json>, changes: Record) | Delete(id: Option<Json>)

  /** Which form is shown, and so which handler it submits to. */
  datatype FormMode = CreateMode | EditMode

  /** What the dashboard renders. */
  datatype View = FormView(mode: FormMode) | TableView

  /** The message of a delete the database accepted but applied to no row. */
  const DELETE_DENIED: string := "Could not delete phrase. You may not have permission."

  /** The message of reading `id` from a null `editingPhrase`. */
  const NULL_ID_MESSAGE: string := "Cannot read properties of null (reading 'id')"

  /** `p.id`: the row's id, or None when it has no `id` field. Two ids are
      `===` exactly when these are equal. */
  function IdOf(p: Record): Option<Json>
  {
    if "id" in p then Some(p["id"]) else None
  }

  /** `phrases.map(p => p.id === id ? { ...p, ...formData } : p)`: the rows
      with that id take the form's fields, the others stay as they were. */
  function MergeById(phrases: seq<Record>, id: Option<Json>, formData: Record): (r: seq<Record>)
  {
    seq(|phrases|, i requires 0 <= i < |phrases| =>
      if IdOf(phrases[i]) == id then phrases[i] + formData else phrases[i])
  }

  /** `phrases.filter(p => p.id !== id)`. */
  function RemoveById(phrases: seq<Record>, id: Option<Json>): seq<Record>
    decreases |phrases|
  {
    if phrases == [] then []
    else
      var last := phrases[|phrases| - 1];
      RemoveById(phrases[..|phrases| - 1], id) + (if IdOf(last) != id then [last] else [])
  }

  /** The merge keeps the list's length and order, and touches exactly the
      rows with the id: each of those has every field of the form and keeps
      its other fields. */
  lemma MergeByIdShape(phrases: seq<Record>, id: Option<Json>, formData: Record, i: nat)
    requires i < |phrases|
    ensures |MergeById(phrases, id, formData)| == |phrases|
    ensures IdOf(phrases[i]) != id ==> MergeById(phrases, id, formData)[i] == phrases[i]
    ensures IdOf(phrases[i]) == id ==>
      var q := MergeById(phrases, id, formData)[i];
      && (forall k :: k in formData ==> k in q && q[k] == formData[k])
      && (forall k :: k in phrases[i] && k !in formData ==> k in q && q[k] == phrases[i][k])
      && (forall k :: k in q ==> k in phrases[i] || k in formData)
  {
  }

  /** Merging the same form twice is merging it once, when the form does
      not move the row to another id. */
  lemma MergeByIdIdempotent(phrases: seq<Record>, id: Option<Json>, formData: Record)
    requires "id" in formData ==> id == Some(formData["id"])
    ensures MergeById(MergeById(phrases, id, formData), id, formData) == MergeById(phrases, id, formData)
  {
    var once := MergeById(phrases, id, formData);
    forall i | 0 <= i < |phrases|
      ensures MergeById(once, id, formData)[i] == once[i]
    {
      if IdOf(phrases[i]) == id {
        assert IdOf(once[i]) == id;
        assert once[i] + formData == once[i];
      }
    }
  }

  /** A row survives the delete exactly when it was listed and has another id. */
  lemma {:induction false} RemoveByIdMembership(phrases: seq<Record>, id: Option<Json>, p: Record)
    ensures p in RemoveById(phrases, id) <==> p in phrases && IdOf(p) != id
    decreases |phrases|
  {
    if phrases != [] {
      var front := phrases[..|phrases| - 1];
      RemoveByIdMembership(front, id, p);
      assert phrases == front + [phrases[|phrases| - 1]];
    }
  }

  /** Deleting from two lists joined is deleting from each: the survivors
      keep their order. */
  lemma {:induction false} RemoveByIdAppend(a: seq<Record>, b: seq<Record>, id: Option<Json>)
    ensures RemoveById(a + b, id) == RemoveById(a, id) + RemoveById(b, id)
    decreases |b|
  {
    if b == [] {
      assert a + b == a;
    } else {
      RemoveByIdAppend(a, b[..|b| - 1], id);
      assert (a + b)[..|a + b| - 1] == a + b[..|b| - 1];
    }
  }

  /** A list without the id is left as it is. */
  lemma {:induction false} RemoveByIdAbsent(phrases: seq<Record>, id: Option<Json>)
    requires forall i :: 0 <= i < |phrases| ==> IdOf(phrases[i]) != id
    ensures RemoveById(phrases, id) == phrases
    decreases |phrases|
  {
    if phrases != [] {
      RemoveByIdAbsent(phrases[..|phrases| - 1], id);
    }
  }

  /** Creating a row with a new id and then deleting that id gives back
      the list as it was. */
  lemma CreateThenDelete(phrases: seq<Record>, created: Record)
    requires forall i :: 0 <= i < |phrases| ==> IdOf(phrases[i]) != IdOf(created)
    ensures RemoveById([created] + phrases, IdOf(created)) == phrases
  {
    RemoveByIdAppend([created], phrases, IdOf(created));
    RemoveByIdAbsent(phrases, IdOf(created));
    assert RemoveById([created], IdOf(created)) == [] by {
      assert [created][..0] == [];
    }
  }

  /** The dashboard's state and the writes it sent. */
  class Dashboard {
    var phrases: seq<Record>
    var loading: bool
    var editingPhrase: Option<Record>
    var isCreating: bool
    var isImporting: bool
    var error: Option<string>
    var writes: seq<Write>               // writes sent to the database, oldest first

    /** The first render, before the mount effect's fetch completes. */
    constructor ()
      ensures phrases == [] && loading && editingPhrase == None && !isCreating && !isImporting
      ensures error == None && writes == []
    {
      phrases, loading, editingPhrase := [], true, None;
      isCreating, isImporting, error := false, false, None;
      writes := [];
    }

    /** The form is shown while creating or editing, the table otherwise;
        the form submits to create while creating, to update otherwise. */
    function CurrentView(): (v: View)
      reads this
      ensures v.FormView? <==> isCreating || editingPhrase.Some?
      ensures v.FormView? ==> (v.mode == CreateMode <==> isCreating)
    {
      if isCreating || editingPhrase.Some? then FormView(if isCreating then CreateMode else EditMode)
      else TableView
    }

    /** `fetchPhrases` with the query's outcome: a success replaces the
        list, a failure keeps it and records the message; loading ends. */
    method FetchPhrases(result: Remote<seq<Record>>)
      modifies this
      ensures !loading && writes == old(writes)
      ensures editingPhrase == old(editingPhrase) && isCreating == old(isCreating) && isImporting == old(isImporting)
      ensures result.Ok? ==> phrases == result.data && error == old(error)
      ensures result.Failed? ==> phrases == old(phrases) && error == Some(result.message)
    {
      loading := true;
      if result.Failed? {
        error := Some(result.message);
      } else {
        phrases := result.data;
      }
      loading := false;
    }

    /** `handleCreate`: the form is inserted; on success the row the
        database returns is put first, the rest follow in order, and the
        create form closes. A failure keeps the list and the form open. */
    method HandleCreate(formData: Record, result: Remote<Record>)
      modifies this
      ensures !loading && writes == old(writes) + [Insert(formData)]
      ensures editingPhrase == old(editingPhrase) && isImporting == old(isImporting)
      ensures result.Ok? ==>
        phrases == [result.data] + old(phrases) && !isCreating && error == old(error)
      ensures result.Failed? ==>
        phrases == old(phrases) && isCreating == old(isCreating) && error == Some(result.message)
    {
      loading := true;
      writes := writes + [Insert(formData)];
      if result.Failed? {
        error := Some(result.message);
      } else {
        phrases := [result.data] + phrases;
        isCreating := false;
      }
      loading := false;
    }

    /** `handleUpdate`: the form is written to the row being edited; on
        success the list takes the form's fields on the rows with that id
        and the edit form closes. A failure keeps the list and the form
        open; with nothing being edited, reading its id fails before any
        write. */
    method HandleUpdate(formData: Record, result: Option<string>)
      modifies this
      ensures !loading && isCreating == old(isCreating) && isImporting == old(isImporting)
      ensures old(editingPhrase).None? ==>
        phrases == old(phrases) && writes == old(writes) && editingPhrase == None
        && error == Some(NULL_ID_MESSAGE)
      ensures old(editingPhrase).Some? ==>
        writes == old(writes) + [Update(IdOf(old(editingPhrase).value), formData)]
      ensures old(editingPhrase).Some? && result.None? ==>
        phrases == MergeById(old(phrases), IdOf(old(editingPhrase).value), formData)
        && editingPhrase == None && error == old(error)
      ensures old(editingPhrase).Some? && result.Some? ==>
        phrases == old(phrases) && editingPhrase == old(editingPhrase) && error == result
    {
      loading := true;
      if editingPhrase.None? {
        error := Some(NULL_ID_MESSAGE);
        loading := false;
        return;
      }
      var id := IdOf(editingPhrase.value);
      writes := writes + [Update(id, formData)];
      if result.Some? {
        error := Some(result.value);
      } else {
        phrases := MergeById(phrases, id, formData);
        editingPhrase := None;
      }
      loading := false;
    }

    /** `handleDelete`: nothing happens unless the user confirms. The delete
        is sent with an exact count; an error, or a count of zero (no row
        removed, as when permission is missing), records a message and keeps
        the list; otherwise the rows with that id leave the list. */
    method HandleDelete(id: Option<Json>, confirmed: bool, result: Remote<Option<int>>)
      modifies this
      ensures loading == old(loading) && editingPhrase == old(editingPhrase)
      ensures isCreating == old(isCreating) && isImporting == old(isImporting)
      ensures !confirmed ==> phrases == old(phrases) && error == old(error) && writes == old(writes)
      ensures confirmed ==> writes == old(writes) + [Delete(id)]
      ensures confirmed && result.Failed? ==> phrases == old(phrases) && error == Some(result.message)
      ensures confirmed && result == Ok(Some(0)) ==> phrases == old(phrases) && error == Some(DELETE_DENIED)
      ensures confirmed && result.Ok? && result.data != Some(0) ==>
        phrases == RemoveById(old(phrases), id) && error == old(error)
    {
      if !confirmed {
        return;
      }
      writes := writes + [Delete(id)];
      if result.Failed? {
        error := Some(result.message);
      } else if result.data == Some(0) {
        error := Some(DELETE_DENIED);
      } else {
        phrases := RemoveById(phrases, id);
      }
    }

    /** The "Add phrase" button: the create form opens. */
    method StartCreate()
      modifies this
      ensures isCreating && CurrentView() == FormView(CreateMode)
      ensures phrases == old(phrases) && editingPhrase == old(editingPhrase) && error == old(error)
      ensures loading == old(loading) && isImporting == old(isImporting) && writes == old(writes)
    {
      isCreating := true;
    }

    /** A row's edit button: the row is edited, in the edit form unless the
        create form is open. */
    method StartEdit(phrase: Record)
      modifies this
      ensures editingPhrase == Some(phrase) && CurrentView().FormView?
      ensures !old(isCreating) ==> CurrentView() == FormView(EditMode)
      ensures phrases == old(phrases) && isCreating == old(isCreating) && error == old(error)
      ensures loading == old(loading) && isImporting == old(isImporting) && writes == old(writes)
    {
      editingPhrase := Some(phrase);
    }

    /** The form's cancel: both forms close and the table shows. */
    method CancelForm()
      modifies this
      ensures !isCreating && editingPhrase == None && CurrentView() == TableView
      ensures phrases == old(phrases) && error == old(error)
      ensures loading == old(loading) && isImporting == old(isImporting) && writes == old(writes)
    {
      isCreating := false;
      editingPhrase := None;
    }
  }
}
