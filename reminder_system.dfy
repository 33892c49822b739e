/**
 * The reminder list (src/components/ReminderSystem.tsx): pure list
 * operations and a store object that keeps the in-memory list, the browser
 * storage slot it mirrors, the add-form draft and the form's visibility.
 * Persistence stores the list itself under its key; JSON encoding is not
 * modelled, and what `JSON.parse` made of the stored text is an input.
 */
module ReminderSystem {
  import opened Wrappers
  import opened Types
  import JsString

  const StorageKey: string := "med_reminders"
  const DefaultDosage: string := "1 dose"
  const DefaultFrequency: string := "Daily"

  /** The add form's partially filled reminder. */
  datatype Draft = Draft(medicineName: string, dosage: string, time: string, frequency: string, active: bool)

  /** The draft the form starts with and is reset to after an add. */
  const BlankDraft: Draft := Draft("", "", "", DefaultFrequency, true)

  /** The add guard: both the medicine name and the time must be filled in. */
  predicate CanAdd(d: Draft)
  {
    d.medicineName != "" && d.time != ""
  }

  /**
   * The reminder an add creates: name and time copied, an empty dosage or
   * frequency replaced by its default, and always active, whatever the draft says.
   */
  function NewReminder(d: Draft, id: string): (r: Reminder)
    ensures r.id == id && r.active
    ensures r.medicineName == d.medicineName && r.time == d.time
    ensures r.dosage != "" && r.frequency != ""
    ensures d.dosage != "" ==> r.dosage == d.dosage
    ensures d.dosage == "" ==> r.dosage == DefaultDosage
    ensures d.frequency != "" ==> r.frequency == d.frequency
    ensures d.frequency == "" ==> r.frequency == DefaultFrequency
  {
    Reminder(id, d.medicineName, JsString.OrElse(d.dosage, DefaultDosage), d.time,
             JsString.OrElse(d.frequency, DefaultFrequency), true)
  }

  function Ids(rs: seq<Reminder>): (ids: seq<string>)
    ensures |ids| == |rs|
    ensures forall i :: 0 <= i < |rs| ==> ids[i] == rs[i].id
  {
    if rs == [] then [] else [rs[0].id] + Ids(rs[1..])
  }

  /** No two entries share an id. The application does not guarantee this. */
  predicate UniqueIds(rs: seq<Reminder>)
  {
    forall i, j :: 0 <= i < j < |rs| ==> rs[i].id != rs[j].id
  }

  /** The entry with its `active` flag inverted and every other field kept. */
  function Flip(r: Reminder): (f: Reminder)
    ensures f.active != r.active
    ensures f.(active := r.active) == r
  {
    r.(active := !r.active)
  }

  /** `rs.filter(r => r.id !== id)`. */
  function WithoutId(rs: seq<Reminder>, id: string): (kept: seq<Reminder>)
    ensures |kept| <= |rs|
    ensures forall r :: r in kept <==> r in rs && r.id != id
  {
    if rs == [] then []
    else (if rs[0].id == id then [] else [rs[0]]) + WithoutId(rs[1..], id)
  }

  /** `rs.map(r => r.id === id ? {...r, active: !r.active} : r)`, pointwise. */
  function Toggled(rs: seq<Reminder>, id: string): (ts: seq<Reminder>)
    ensures |ts| == |rs|
    ensures forall i :: 0 <= i < |rs| ==> ts[i] == if rs[i].id == id then Flip(rs[i]) else rs[i]
  {
    if rs == [] then [] else [if rs[0].id == id then Flip(rs[0]) else rs[0]] + Toggled(rs[1..], id)
  }

  /** Filtering distributes over concatenation, so the kept entries keep their order. */
  lemma {:induction false} WithoutIdAppend(a: seq<Reminder>, b: seq<Reminder>, id: string)
    ensures WithoutId(a + b, id) == WithoutId(a, id) + WithoutId(b, id)
  {
    if a != [] {
      assert (a + b)[1..] == a[1..] + b;
      WithoutIdAppend(a[1..], b, id);
    } else {
      assert a + b == b;
    }
  }

  /** Deleting an id no entry carries changes nothing. */
  lemma {:induction false} WithoutAbsentId(rs: seq<Reminder>, id: string)
    requires id !in Ids(rs)
    ensures WithoutId(rs, id) == rs
  {
    if rs != [] {
      assert Ids(rs)[0] == rs[0].id;
      assert forall k :: 0 <= k < |rs| - 1 ==> Ids(rs[1..])[k] == Ids(rs)[k + 1];
      WithoutAbsentId(rs[1..], id);
    }
  }

  /** Deleting twice is the same as deleting once. */
  lemma DeleteIdempotent(rs: seq<Reminder>, id: string)
    ensures WithoutId(WithoutId(rs, id), id) == WithoutId(rs, id)
  {
    var kept := WithoutId(rs, id);
    assert id !in Ids(kept) by {
      forall k | 0 <= k < |kept| ensures Ids(kept)[k] != id {
        assert kept[k] in kept;
      }
    }
    WithoutAbsentId(kept, id);
  }

  /** With unique ids, deleting a present id removes exactly one entry. */
  lemma {:induction false} DeleteRemovesOne(rs: seq<Reminder>, id: string)
    requires UniqueIds(rs) && id in Ids(rs)
    ensures |WithoutId(rs, id)| == |rs| - 1
  {
    var tail := rs[1..];
    assert UniqueIds(tail) by {
      forall i, j | 0 <= i < j < |tail| ensures tail[i].id != tail[j].id {
        assert tail[i] == rs[i + 1] && tail[j] == rs[j + 1];
      }
    }
    if rs[0].id == id {
      assert id !in Ids(tail) by {
        forall k | 0 <= k < |tail| ensures Ids(tail)[k] != id {
          assert tail[k] == rs[k + 1];
        }
      }
      WithoutAbsentId(tail, id);
    } else {
      var i :| 0 <= i < |rs| && Ids(rs)[i] == id;
      assert i > 0;
      assert Ids(tail)[i - 1] == id;
      DeleteRemovesOne(tail, id);
    }
  }

  /** Toggling leaves every id in place. */
  lemma ToggleKeepsIds(rs: seq<Reminder>, id: string)
    ensures Ids(Toggled(rs, id)) == Ids(rs)
  {
  }

  /** Toggling the same id twice restores the list. */
  lemma ToggleTwice(rs: seq<Reminder>, id: string)
    ensures Toggled(Toggled(rs, id), id) == rs
  {
  }

  /** Toggling an id no entry carries changes nothing. */
  lemma ToggleAbsentId(rs: seq<Reminder>, id: string)
    requires id !in Ids(rs)
    ensures Toggled(rs, id) == rs
  {
  }

  /** Deleting an id after toggling it leaves the same list as deleting it directly. */
  lemma {:induction false} DeleteAfterToggle(rs: seq<Reminder>, id: string)
    ensures WithoutId(Toggled(rs, id), id) == WithoutId(rs, id)
  {
    if rs != [] {
      var ts := Toggled(rs, id);
      assert ts == [ts[0]] + Toggled(rs[1..], id);
      WithoutIdAppend([ts[0]], Toggled(rs[1..], id), id);
      DeleteAfterToggle(rs[1..], id);
    }
  }

  /** Adding under an id not yet in use keeps ids unique; nothing else does. */
  lemma AddKeepsIdsUnique(rs: seq<Reminder>, d: Draft, id: string)
    requires UniqueIds(rs) && id !in Ids(rs)
    ensures UniqueIds(rs + [NewReminder(d, id)])
  {
  }

  /** The component state that holds the reminders. */
  class ReminderStore {
    /** The in-memory list the view renders. */
    var reminders: seq<Reminder>
    /** Browser local storage: key to the list stored there. */
    var storage: map<string, seq<Reminder>>
    /** The add form's fields. */
    var draft: Draft
    /** Whether the add form is displayed. */
    var showAdd: bool

    /** The state on mount, before the load effect has run. */
    constructor (initialStorage: map<string, seq<Reminder>>)
      ensures reminders == [] && storage == initialStorage
      ensures draft == BlankDraft && !showAdd
    {
      reminders := [];
      storage := initialStorage;
      draft := BlankDraft;
      showAdd := false;
    }

    /** The persisted copy under the reminders key equals the in-memory list. */
    predicate Persisted()
      reads this
    {
      StorageKey in storage && storage[StorageKey] == reminders
    }

    /** `localStorage.getItem('med_reminders')`. */
    function Saved(): (saved: Option<seq<Reminder>>)
      reads this
      ensures saved.Some? <==> StorageKey in storage
      ensures saved.Some? ==> saved.value == storage[StorageKey]
    {
      if StorageKey in storage then Some(storage[StorageKey]) else None
    }

    /**
     * The load effect. `parsed` is what `JSON.parse` made of the stored
     * text, None when it threw. Nothing stored, or a parse failure, leaves
     * the list as it was (empty on mount) and raises nothing; otherwise the
     * list becomes the parsed value. Storage is only read.
     */
    method Load(parsed: Option<seq<Reminder>>)
      modifies this`reminders
      ensures reminders == if Saved().Some? && parsed.Some? then parsed.value else old(reminders)
    {
      var saved := Saved();
      if saved.Some? {
        if parsed.Some? {
          reminders := parsed.value;
        }
      }
    }

    /** `saveReminders`: replaces the list and rewrites the whole stored copy. */
    method Save(updated: seq<Reminder>)
      modifies this`reminders, this`storage
      ensures reminders == updated
      ensures storage == old(storage)[StorageKey := updated]
      ensures Persisted()
    {
      reminders := updated;
      storage := storage[StorageKey := updated];
    }

    /**
     * `handleAdd`, with `freshId` standing for `Date.now().toString()`.
     * Without a name or a time nothing changes. Otherwise the new reminder
     * is appended and persisted, the draft is reset and the form hidden.
     */
    method Add(freshId: string) returns (added: bool)
      modifies this
      ensures added == CanAdd(old(draft))
      ensures !added ==> reminders == old(reminders) && storage == old(storage)
                         && draft == old(draft) && showAdd == old(showAdd)
      ensures added ==> reminders == old(reminders) + [NewReminder(old(draft), freshId)]
      ensures added ==> storage == old(storage)[StorageKey := reminders] && Persisted()
      ensures added ==> draft == BlankDraft && !showAdd
    {
      if !CanAdd(draft) {
        return false;
      }
      var reminder := NewReminder(draft, freshId);
      Save(reminders + [reminder]);
      draft := BlankDraft;
      showAdd := false;
      added := true;
    }

    /** `handleDelete`: keeps the entries whose id differs and persists them. */
    method Delete(id: string)
      modifies this`reminders, this`storage
      ensures reminders == WithoutId(old(reminders), id)
      ensures storage == old(storage)[StorageKey := reminders] && Persisted()
      ensures draft == old(draft) && showAdd == old(showAdd)
    {
      Save(WithoutId(reminders, id));
    }

    /** `toggleActive`: flips `active` on every entry with that id and persists. */
    method Toggle(id: string)
      modifies this`reminders, this`storage
      ensures reminders == Toggled(old(reminders), id)
      ensures storage == old(storage)[StorageKey := reminders] && Persisted()
      ensures draft == old(draft) && showAdd == old(showAdd)
    {
      Save(Toggled(reminders, id));
    }

    /** The form's change handlers: the draft becomes what was typed, nothing is saved. */
    method EditDraft(d: Draft)
      modifies this`draft
      ensures draft == d
    {
      draft := d;
    }

    /** The plus button: shows or hides the add form. */
    method ToggleForm()
      modifies this`showAdd
      ensures showAdd == !old(showAdd)
    {
      showAdd := !showAdd;
    }
  }

  /**
   * A page reload after any mutation: a fresh store over the same storage,
   * loaded with the parse of what was written, holds the same list.
   */
  method Reload(previous: ReminderStore) returns (next: ReminderStore)
    requires previous.Persisted()
    ensures next.reminders == previous.reminders && next.storage == previous.storage
    ensures next.Persisted()
  {
    next := new ReminderStore(previous.storage);
    next.Load(next.Saved());
  }
}
