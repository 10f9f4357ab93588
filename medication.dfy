/**
 * The medication list of the patient form: a text box (`newMedication`) whose trimmed text is
 * added to the list unless it is blank or already listed, and a remove button per entry that
 * drops every entry with that name. The list itself belongs to the page's patient record; the
 * form replaces it through `onUpdate`, which here is an assignment to the `medication` field.
 */
module PatientForm {
  import opened Text

  /** No name occurs twice. */
  predicate Distinct(list: seq<string>) {
    forall i, j | 0 <= i < j < |list| :: list[i] != list[j]
  }

  /** Whether the text box's input is added: its trimmed form is non-empty and not yet listed. */
  predicate Accepts(list: seq<string>, input: string) {
    Trim(input) != "" && Trim(input) !in list
  }

  /** The list after `addMedication`: `[...medication, newMedication.trim()]` when accepted. */
  function Added(list: seq<string>, input: string): seq<string> {
    if Accepts(list, input) then list + [Trim(input)] else list
  }

  /** `medication.filter((m) => m !== med)`. */
  function Removed(list: seq<string>, med: string): seq<string> {
    if list == [] then []
    else (if list[0] != med then [list[0]] else []) + Removed(list[1..], med)
  }

  /** The form's state: the listed medication names and the text box. */
  class PatientDetailsForm {
    var medication: seq<string>
    var newMedication: string

    /** The form opens on the record's list with an empty text box. */
    constructor(medication: seq<string>)
      ensures this.medication == medication && newMedication == ""
    {
      this.medication := medication;
      newMedication := "";
    }

    /** Typing into the text box. */
    method SetNewMedication(text: string)
      modifies this
      ensures newMedication == text && medication == old(medication)
    {
      newMedication := text;
    }

    /** `addMedication`: append the trimmed input and clear the box, or change nothing. */
    method AddMedication()
      modifies this
      ensures medication == Added(old(medication), old(newMedication))
      ensures newMedication == if Accepts(old(medication), old(newMedication)) then "" else old(newMedication)
    {
      var trimmed := Trim(newMedication);
      if trimmed != "" && trimmed !in medication {
        medication := medication + [trimmed];
        newMedication := "";
      }
    }

    /** `removeMedication(med)`: drop every entry equal to `med`; the text box is left alone. */
    method RemoveMedication(med: string)
      modifies this
      ensures medication == Removed(old(medication), med)
      ensures newMedication == old(newMedication)
    {
      medication := Removed(medication, med);
    }
  }

  // ----- Adding -----

  /**
   * Input that is blank once trimmed, or whose trimmed form is already listed, changes nothing;
   * any other input is appended, trimmed, after the entries already there, which keep their order.
   */
  lemma AddedShape(list: seq<string>, input: string)
    ensures Trim(input) == "" ==> Added(list, input) == list
    ensures Trim(input) in list ==> Added(list, input) == list
    ensures Accepts(list, input) ==>
      && |Added(list, input)| == |list| + 1
      && Added(list, input)[..|list|] == list
      && Added(list, input)[|list|] == Trim(input)
  {
    if Accepts(list, input) {
      assert (list + [Trim(input)])[..|list|] == list;
    }
  }

  /** A name is listed after adding exactly when it was listed before or is the accepted input. */
  lemma AddedMembers(list: seq<string>, input: string, m: string)
    ensures m in Added(list, input) <==> m in list || (Accepts(list, input) && m == Trim(input))
  {
  }

  /** Adding the same input twice adds it once: the second time it is a duplicate. */
  lemma AddTwice(list: seq<string>, input: string)
    ensures Added(Added(list, input), input) == Added(list, input)
  {
  }

  /** A duplicate-free list stays duplicate-free when an input is added. */
  lemma AddedDistinct(list: seq<string>, input: string)
    requires Distinct(list)
    ensures Distinct(Added(list, input))
  {
    if Accepts(list, input) {
      var r := Added(list, input);
      forall i, j | 0 <= i < j < |r| ensures r[i] != r[j] {
        if j == |list| {
          assert r[i] == list[i];
        }
      }
    }
  }

  // ----- Removing -----

  /** A name is listed after removing `med` exactly when it was listed before and is not `med`. */
  lemma {:induction false} RemovedMembers(list: seq<string>, med: string)
    ensures forall m :: m in Removed(list, med) <==> m in list && m != med
  {
    if list != [] {
      RemovedMembers(list[1..], med);
      assert list == [list[0]] + list[1..];
    }
  }

  /** Removing works entry by entry: the entries that stay keep their order. */
  lemma {:induction false} RemovedAppend(a: seq<string>, b: seq<string>, med: string)
    ensures Removed(a + b, med) == Removed(a, med) + Removed(b, med)
  {
    if a == [] {
      assert a + b == b;
    } else {
      RemovedAppend(a[1..], b, med);
      var head := if a[0] != med then [a[0]] else [];
      assert (a + b)[0] == a[0];
      assert (a + b)[1..] == a[1..] + b;
      assert Removed(a + b, med) == head + Removed(a[1..] + b, med);
      assert head + (Removed(a[1..], med) + Removed(b, med)) == (head + Removed(a[1..], med)) + Removed(b, med);
    }
  }

  /** Every entry equal to `med` goes and every other entry stays, as often as it occurred. */
  lemma {:induction false} RemovedMultiset(list: seq<string>, med: string)
    ensures multiset(Removed(list, med)) == multiset(list)[med := 0]
  {
    if list != [] {
      RemovedMultiset(list[1..], med);
      assert list == [list[0]] + list[1..];
    }
  }

  /** Removing a name that is not listed changes nothing. */
  lemma {:induction false} RemoveAbsent(list: seq<string>, med: string)
    requires med !in list
    ensures Removed(list, med) == list
  {
    if list != [] {
      RemoveAbsent(list[1..], med);
      assert list == [list[0]] + list[1..];
    }
  }

  /** A duplicate-free list stays duplicate-free when a name is removed. */
  lemma {:induction false} RemovedDistinct(list: seq<string>, med: string)
    requires Distinct(list)
    ensures Distinct(Removed(list, med))
  {
    if list != [] {
      var rest := Removed(list[1..], med);
      RemovedDistinct(list[1..], med);
      RemovedMembers(list[1..], med);
      assert list[0] !in list[1..] by {
        forall k | 0 <= k < |list[1..]| ensures list[1..][k] != list[0] {
          assert list[1..][k] == list[k + 1];
        }
      }
      var head := if list[0] != med then [list[0]] else [];
      var r := head + rest;
      forall i, j | 0 <= i < j < |r| ensures r[i] != r[j] {
        if i < |head| {
          assert r[j] == rest[j - |head|];
          assert r[j] in rest;
        } else {
          assert r[i] == rest[i - |head|] && r[j] == rest[j - |head|];
        }
      }
    }
  }

  /** Adding an accepted input and removing it again gives the list back. */
  lemma AddThenRemove(list: seq<string>, input: string)
    requires Accepts(list, input)
    ensures Removed(Added(list, input), Trim(input)) == list
  {
    RemovedAppend(list, [Trim(input)], Trim(input));
    RemoveAbsent(list, Trim(input));
    assert Removed([Trim(input)], Trim(input)) == [];
  }

  // ----- The list the form keeps -----

  /** A list the form can produce from an empty one: distinct, non-empty, trimmed names. */
  predicate Clean(list: seq<string>) {
    Distinct(list) && forall m | m in list :: m != "" && Trim(m) == m
  }

  /** Adding keeps a list clean: the accepted input is trimmed, non-empty and new. */
  lemma AddedClean(list: seq<string>, input: string)
    requires Clean(list)
    ensures Clean(Added(list, input))
  {
    AddedDistinct(list, input);
    if Accepts(list, input) {
      TrimIdempotent(input);
      forall m | m in Added(list, input) ensures m != "" && Trim(m) == m {
        AddedMembers(list, input, m);
      }
    }
  }

  /** Removing keeps a list clean, so the form only ever shows distinct trimmed names. */
  lemma RemovedClean(list: seq<string>, med: string)
    requires Clean(list)
    ensures Clean(Removed(list, med))
  {
    RemovedDistinct(list, med);
    RemovedMembers(list, med);
  }
}
