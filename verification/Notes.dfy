/** The shared note table of front/src/assets/three/audio/Notes.ts: ten notes
    with ids 0 to 9, each named by one capital letter, and the three `find`
    lookups over it. */
module Notes {
  import opened Protocol

  datatype Note = Note(id: int, name: string, frequency: real)

  /** `NOTES`, in table order. */
  const Table: seq<Note> := [
    Note(0, "A", 440.00), Note(1, "Z", 493.88), Note(2, "E", 523.25),
    Note(3, "R", 554.37), Note(4, "T", 587.33), Note(5, "Y", 622.25),
    Note(6, "U", 659.25), Note(7, "I", 698.46), Note(8, "O", 739.99),
    Note(9, "P", 783.99)
  ]

  /** `notes.find(note => note.id === id)`: the first entry with that id. */
  function FindById(notes: seq<Note>, id: int): (r: Option<Note>)
    ensures r.None? <==> forall i | 0 <= i < |notes| :: notes[i].id != id
    ensures r.Some? ==> exists i | 0 <= i < |notes| ::
                          notes[i] == r.value && r.value.id == id
                          && forall j | 0 <= j < i :: notes[j].id != id
  {
    if |notes| == 0 then None
    else if notes[0].id == id then Some(notes[0])
    else
      var r := FindById(notes[1..], id);
      assert r.Some? ==> exists i | 0 <= i < |notes[1..]| ::
               notes[1..][i] == r.value && forall j | 0 <= j < i :: notes[1..][j].id != id;
      assert r.Some? ==> exists i | 0 <= i < |notes| ::
               notes[i] == r.value && forall j | 0 <= j < i :: notes[j].id != id by {
        if r.Some? {
          var i :| 0 <= i < |notes[1..]| && notes[1..][i] == r.value
                   && forall j | 0 <= j < i :: notes[1..][j].id != id;
          assert notes[i + 1] == r.value;
          assert forall j | 0 <= j < i + 1 :: notes[j].id != id by {
            forall j | 0 <= j < i + 1 ensures notes[j].id != id {
              if j > 0 { assert notes[j] == notes[1..][j - 1]; }
            }
          }
        }
      }
      r
  }

  /** `notes.find(note => note.name === name)`: an exact, case-sensitive
      match on the first entry with that name. */
  function FindByName(notes: seq<Note>, name: string): (r: Option<Note>)
    ensures r.None? <==> forall i | 0 <= i < |notes| :: notes[i].name != name
    ensures r.Some? ==> r.value in notes && r.value.name == name
  {
    if |notes| == 0 then None
    else if notes[0].name == name then Some(notes[0])
    else FindByName(notes[1..], name)
  }

  /** `getNoteById(id)`: a table entry carrying that id, or nothing when no
      entry carries it. */
  function GetNoteById(id: int): (r: Option<Note>)
    ensures r.Some? ==> r.value in Table && r.value.id == id
    ensures r.None? ==> forall n | n in Table :: n.id != id
  {
    FindById(Table, id)
  }

  /** `getNoteByName(name)`: a table entry with exactly that name, found
      exactly when the table knows the name. */
  function GetNoteByName(name: string): (r: Option<Note>)
    ensures r.Some? ==> r.value in Table && r.value.name == name
    ensures r.None? <==> name !in Names()
  {
    FindByName(Table, name)
  }

  /** `getNoteIdByName(name)`: the id of the note found by name, if any. */
  function GetNoteIdByName(name: string): (r: Option<int>)
    ensures r.Some? <==> GetNoteByName(name).Some?
    ensures r.Some? ==> r.value == GetNoteByName(name).value.id
  {
    match GetNoteByName(name)
    case None => None
    case Some(n) => Some(n.id)
  }

  /** Entry `i` of the table has id `i`, and no two entries share a name. */
  predicate WellFormed(notes: seq<Note>) {
    && (forall i | 0 <= i < |notes| :: notes[i].id == i)
    && (forall i, j | 0 <= i < j < |notes| :: notes[i].name != notes[j].name)
  }

  lemma TableWellFormed()
    ensures WellFormed(Table) && |Table| == 10
  {
  }

  /** The names the table knows. */
  function Names(): set<string> {
    set i | 0 <= i < |Table| :: Table[i].name
  }

  lemma {:induction false} FindByIdIndexed(notes: seq<Note>, base: int, id: int)
    requires forall i | 0 <= i < |notes| :: notes[i].id == base + i
    ensures FindById(notes, id) == if base <= id < base + |notes| then Some(notes[id - base]) else None
    decreases |notes|
  {
    if |notes| > 0 && notes[0].id != id {
      FindByIdIndexed(notes[1..], base + 1, id);
    }
  }

  /** `getNoteById` is defined for exactly the ids 0 to 9, and then returns
      the entry at that index. Every id from 10 up, such as the 1-to-36 ids the
      instruments send for their upper notes, finds nothing. */
  lemma GetNoteByIdDefinedExactly(id: int)
    ensures GetNoteById(id).Some? <==> 0 <= id <= 9
    ensures 0 <= id <= 9 ==> GetNoteById(id) == Some(Table[id])
  {
    TableWellFormed();
    FindByIdIndexed(Table, 0, id);
  }

  lemma {:induction false} FindByNameDistinct(notes: seq<Note>, i: nat)
    requires i < |notes|
    requires forall a, b | 0 <= a < b < |notes| :: notes[a].name != notes[b].name
    ensures FindByName(notes, notes[i].name) == Some(notes[i])
    decreases |notes|
  {
    if i > 0 {
      assert notes[0].name != notes[i].name;
      assert notes[1..][i - 1] == notes[i];
      FindByNameDistinct(notes[1..], i - 1);
    }
  }

  /** From id to name and back: `getNoteIdByName(getNoteById(i).name) = i`. */
  lemma IdNameRoundTrip(id: int)
    requires 0 <= id <= 9
    ensures GetNoteById(id).Some?
    ensures GetNoteIdByName(GetNoteById(id).value.name) == Some(id)
  {
    GetNoteByIdDefinedExactly(id);
    TableWellFormed();
    FindByNameDistinct(Table, id);
  }

  /** From name to id and back: `getNoteById(getNoteIdByName(n)).name = n`
      for every name the table knows, and only those names have an id. */
  lemma NameIdRoundTrip(name: string)
    ensures GetNoteIdByName(name).Some? <==> name in Names()
    ensures GetNoteIdByName(name).Some? ==>
              GetNoteById(GetNoteIdByName(name).value).Some?
              && GetNoteById(GetNoteIdByName(name).value).value.name == name
  {
    TableWellFormed();
    match GetNoteByName(name)
    case Some(n) =>
      var i :| 0 <= i < |Table| && Table[i] == n;
      assert n.id == i;
      assert name in Names();
      GetNoteByIdDefinedExactly(i);
    case None =>
      assert forall i | 0 <= i < |Table| :: Table[i].name != name;
  }
}
