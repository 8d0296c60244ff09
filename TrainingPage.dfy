/** The training-examples page: the list of the user's examples, newest
    first, and the text field for a new one. Adding checks the field and
    the ten-example cap before the insert; deleting drops the example's id
    once the database has deleted it. The database's answers are
    parameters. */
module TrainingPage {
  import opened Wrappers
  import opened Seqs
  import opened Text
  import opened IdLists

  const MaxExamples := 10

  datatype TrainingExample = TrainingExample(id: string, tweetText: string, createdAt: string)

  function ExampleId(e: TrainingExample): string { e.id }

  /** What the database gives back for an insert: the new row's id and
      creation time, or nothing when the insert fails. */
  datatype Stored = Stored(id: string, createdAt: string)

  datatype AddOutcome = Ignored | LimitReached | Added | Failed

  /** The guards of `addExample`, in order: a blank field is ignored
      silently, a full list is refused with a message. */
  function AddGuard(count: nat, input: string): (r: Option<AddOutcome>)
    ensures r == Some(Ignored) <==> Trim(input) == ""
    ensures r == Some(LimitReached) <==> Trim(input) != "" && count >= MaxExamples
    ensures r.None? <==> Trim(input) != "" && count < MaxExamples
  {
    if Trim(input) == "" then Some(Ignored)
    else if count >= MaxExamples then Some(LimitReached)
    else None
  }

  /** An example passes the guards only when the list has room, so adding
      never takes the list past ten. */
  lemma AddKeepsCap(count: nat, input: string)
    requires AddGuard(count, input).None?
    ensures count + 1 <= MaxExamples
  {
  }

  /** Deleting an example that was just added, with an id no earlier
      example has, gives back the list from before the add. */
  lemma AddThenDelete(examples: seq<TrainingExample>, e: TrainingExample)
    requires forall x :: x in examples ==> x.id != e.id
    ensures RemoveById([e] + examples, ExampleId, e.id) == examples
  {
    RemoveAppend([e], examples, ExampleId, e.id);
    RemoveAbsent(examples, ExampleId, e.id);
    assert RemoveById([e], ExampleId, e.id) == [];
  }

  class Page {
    var examples: seq<TrainingExample>
    var newExample: string

    constructor (examples: seq<TrainingExample>)
      ensures this.examples == examples && newExample == ""
    {
      this.examples := examples;
      newExample := "";
    }

    /** The text field's `onChange`. */
    method SetNewExample(text: string)
      modifies this
      ensures newExample == text && examples == old(examples)
    {
      newExample := text;
    }

    /** `addExample`: past the guards the trimmed text is inserted; the
        stored row goes in front of the list and the field is cleared. A
        failed insert changes nothing. */
    method AddExample(stored: Option<Stored>) returns (outcome: AddOutcome)
      modifies this
      ensures AddGuard(|old(examples)|, old(newExample)).Some? ==>
        outcome == AddGuard(|old(examples)|, old(newExample)).value
        && examples == old(examples) && newExample == old(newExample)
      ensures AddGuard(|old(examples)|, old(newExample)).None? && stored.None? ==>
        outcome == Failed && examples == old(examples) && newExample == old(newExample)
      ensures AddGuard(|old(examples)|, old(newExample)).None? && stored.Some? ==>
        && outcome == Added
        && examples == [TrainingExample(stored.value.id, Trim(old(newExample)), stored.value.createdAt)] + old(examples)
        && newExample == ""
      ensures outcome == Added ==> |examples| == |old(examples)| + 1 <= MaxExamples
      ensures |old(examples)| <= MaxExamples ==> |examples| <= MaxExamples
      ensures forall e :: e in examples && e !in old(examples) ==> e.tweetText != "" && Trim(e.tweetText) == e.tweetText
    {
      var guard := AddGuard(|examples|, newExample);
      if guard.Some? {
        return guard.value;
      }
      if stored.None? {
        return Failed;
      }
      var text := Trim(newExample);
      TrimIdempotent(newExample);
      examples := [TrainingExample(stored.value.id, text, stored.value.createdAt)] + examples;
      newExample := "";
      outcome := Added;
    }

    /** `deleteExample`: once the database has deleted the row, the
        examples with that id are dropped; a failed delete changes
        nothing. */
    method DeleteExample(id: string, deleted: bool)
      modifies this
      ensures deleted ==> examples == RemoveById(old(examples), ExampleId, id)
      ensures !deleted ==> examples == old(examples)
      ensures newExample == old(newExample)
      ensures forall e :: e in examples <==> e in old(examples) && (deleted ==> e.id != id)
    {
      if deleted {
        examples := RemoveById(examples, ExampleId, id);
      }
    }
  }
}
