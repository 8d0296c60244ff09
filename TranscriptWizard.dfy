/** The transcript wizard's client-side rules: the length checks before
    extraction, the list of extracted insights with its selection and
    editing flags, the updates the insight cards make to that list, and the
    check before generation. Every update maps the list to a new one; the
    requests to the server are not part of this model. */
module TranscriptWizard {
  import opened Wrappers
  import opened Seqs
  import opened Text
  import ExtractInsights

  type Insight = ExtractInsights.Insight

  /** An extracted insight together with the wizard's state for it. */
  datatype Card = Card(insight: Insight, id: string, isSelected: bool, isEditing: bool, originalContent: string)

  datatype WizardError = TranscriptTooShort | TranscriptTooLong | NoneSelected

  /** The checks of `handleExtractInsights` before the request: a blank
      transcript or one under 500 characters, then one over 50000. */
  function CheckTranscript(transcript: string): (r: Result<string, WizardError>)
    ensures r == Err(TranscriptTooShort) <==> Trim(transcript) == "" || |transcript| < 500
    ensures r == Err(TranscriptTooLong) <==> Trim(transcript) != "" && 50000 < |transcript|
    ensures r.Ok? <==> Trim(transcript) != "" && 500 <= |transcript| <= 50000
    ensures r.Ok? ==> r.value == transcript
  {
    if Trim(transcript) == "" || |transcript| < 500 then Err(TranscriptTooShort)
    else if |transcript| > 50000 then Err(TranscriptTooLong)
    else Ok(transcript)
  }

  /** Every transcript the server accepts passes the wizard's checks. */
  lemma ServerAcceptedPassesWizard(transcript: string)
    requires ExtractInsights.ValidateTranscript(Some(transcript)).Ok?
    ensures CheckTranscript(transcript).Ok?
  {
    var lo := TrimIsWindow(transcript);
  }

  /** The converse fails: the wizard counts the untrimmed length, the
      server the trimmed one, so 499 letters after a space pass the wizard
      and are refused by the server. */
  lemma WizardLooserThanServer(transcript: string)
    requires |transcript| == 500 && transcript[0] == ' '
    requires forall i :: 1 <= i < 500 ==> transcript[i] == 'a'
    ensures CheckTranscript(transcript).Ok?
    ensures ExtractInsights.ValidateTranscript(Some(transcript)) == Err(ExtractInsights.TranscriptTooShort)
  {
    var lo := TrimIsWindow(transcript);
    assert !IsSpace(transcript[499]);
    assert Trim(transcript) != "";
    assert IsSpace(transcript[0]);
  }

  /** `insight-<index>` */
  function CardId(index: nat): string
  {
    "insight-" + Decimal(index)
  }

  lemma CardIdInjective(i: nat, j: nat)
    requires CardId(i) == CardId(j)
    ensures i == j
  {
    assert CardId(i)[8..] == Decimal(i);
    assert CardId(j)[8..] == Decimal(j);
    DecimalInjective(i, j);
  }

  predicate DistinctIds(cards: seq<Card>)
  {
    forall i, j :: 0 <= i < j < |cards| ==> cards[i].id != cards[j].id
  }

  predicate AtMostOneEditing(cards: seq<Card>)
  {
    forall i, j :: 0 <= i < j < |cards| && cards[i].isEditing ==> !cards[j].isEditing
  }

  /** The cards built from the extracted insights: each selected, not being
      edited, remembering its content, with the id of its position. */
  function InitCards(insights: seq<Insight>): (r: seq<Card>)
    ensures |r| == |insights|
    ensures forall i :: 0 <= i < |r| ==>
      && r[i].insight == insights[i] && r[i].id == CardId(i)
      && r[i].isSelected && !r[i].isEditing && r[i].originalContent == insights[i].content
    ensures DistinctIds(r) && AtMostOneEditing(r)
  {
    var r := seq(|insights|, i requires 0 <= i < |insights| => Card(insights[i], CardId(i), true, false, insights[i].content));
    forall i, j | 0 <= i < j < |r| ensures r[i].id != r[j].id {
      if r[i].id == r[j].id {
        CardIdInjective(i, j);
      }
    }
    r
  }

  /** `handleToggleInsight`: flip the selection of the card with the id. */
  function Toggle(cards: seq<Card>, id: string): (r: seq<Card>)
    ensures |r| == |cards|
    ensures forall i :: 0 <= i < |r| ==>
      (r[i].isSelected <==> (cards[i].isSelected <==> cards[i].id != id)) && r[i].(isSelected := cards[i].isSelected) == cards[i]
  {
    seq(|cards|, i requires 0 <= i < |cards| =>
      if cards[i].id == id then cards[i].(isSelected := !cards[i].isSelected) else cards[i])
  }

  /** Toggling the same card twice restores the list. */
  lemma ToggleTwice(cards: seq<Card>, id: string)
    ensures Toggle(Toggle(cards, id), id) == cards
  {
    assert forall i :: 0 <= i < |cards| ==> Toggle(Toggle(cards, id), id)[i] == cards[i];
  }

  /** `handleEditInsight`: the card with the id is being edited, every
      other card is not. */
  function Edit(cards: seq<Card>, id: string): (r: seq<Card>)
    ensures |r| == |cards|
    ensures forall i :: 0 <= i < |r| ==>
      (r[i].isEditing <==> cards[i].id == id) && r[i].(isEditing := cards[i].isEditing) == cards[i]
  {
    seq(|cards|, i requires 0 <= i < |cards| => cards[i].(isEditing := cards[i].id == id))
  }

  /** With distinct ids, after an edit exactly the card with the id is
      being edited (if there is one), so at most one card is. */
  lemma EditSingle(cards: seq<Card>, id: string)
    requires DistinctIds(cards)
    ensures DistinctIds(Edit(cards, id)) && AtMostOneEditing(Edit(cards, id))
    ensures forall i :: 0 <= i < |cards| ==> (Edit(cards, id)[i].isEditing <==> cards[i].id == id)
  {
  }

  /** `handleSaveInsight`: the card with the id takes the new content and
      leaves editing. */
  function Save(cards: seq<Card>, id: string, newContent: string): (r: seq<Card>)
    ensures |r| == |cards|
    ensures forall i :: 0 <= i < |r| && cards[i].id != id ==> r[i] == cards[i]
    ensures forall i :: 0 <= i < |r| && cards[i].id == id ==>
      && r[i].insight.content == newContent && !r[i].isEditing
      && r[i].(insight := cards[i].insight, isEditing := cards[i].isEditing) == cards[i]
      && r[i].insight.(content := cards[i].insight.content) == cards[i].insight
  {
    seq(|cards|, i requires 0 <= i < |cards| =>
      if cards[i].id == id then cards[i].(insight := cards[i].insight.(content := newContent), isEditing := false)
      else cards[i])
  }

  /** `handleCancelEdit`: the card with the id goes back to its original
      content and leaves editing. */
  function Cancel(cards: seq<Card>, id: string): (r: seq<Card>)
    ensures |r| == |cards|
    ensures forall i :: 0 <= i < |r| && cards[i].id != id ==> r[i] == cards[i]
    ensures forall i :: 0 <= i < |r| && cards[i].id == id ==>
      && r[i].insight.content == r[i].originalContent == cards[i].originalContent && !r[i].isEditing
      && r[i].(insight := cards[i].insight, isEditing := cards[i].isEditing) == cards[i]
      && r[i].insight.(content := cards[i].insight.content) == cards[i].insight
  {
    seq(|cards|, i requires 0 <= i < |cards| =>
      if cards[i].id == id then cards[i].(insight := cards[i].insight.(content := cards[i].originalContent), isEditing := false)
      else cards[i])
  }

  /** A save keeps the original content, so cancelling afterwards gives
      the same list as cancelling straight away. */
  lemma CancelUndoesSave(cards: seq<Card>, id: string, newContent: string)
    ensures Cancel(Save(cards, id, newContent), id) == Cancel(cards, id)
  {
    assert forall i :: 0 <= i < |cards| ==> Cancel(Save(cards, id, newContent), id)[i] == Cancel(cards, id)[i];
  }

  /** Editing, saving and cancelling a freshly extracted card leaves it
      with its extracted content. */
  lemma EditSaveCancel(insights: seq<Insight>, k: nat, newContent: string)
    requires k < |insights|
    ensures Cancel(Save(Edit(InitCards(insights), CardId(k)), CardId(k), newContent), CardId(k))[k].insight == insights[k]
  {
    CancelUndoesSave(Edit(InitCards(insights), CardId(k)), CardId(k), newContent);
  }

  /** The Select All and Deselect All buttons. */
  function SetAllSelected(cards: seq<Card>, selected: bool): (r: seq<Card>)
    ensures |r| == |cards|
    ensures forall i :: 0 <= i < |r| ==>
      r[i].isSelected == selected && r[i].(isSelected := cards[i].isSelected) == cards[i]
  {
    seq(|cards|, i requires 0 <= i < |cards| => cards[i].(isSelected := selected))
  }

  function IsSelected(c: Card): bool { c.isSelected }

  /** `insights.filter(insight => insight.isSelected)` */
  function Selected(cards: seq<Card>): seq<Card>
  {
    Filter(cards, IsSelected)
  }

  /** After Select All every card is selected, after Deselect All none. */
  lemma SetAllSelectedCount(cards: seq<Card>)
    ensures Selected(SetAllSelected(cards, true)) == SetAllSelected(cards, true)
    ensures Selected(SetAllSelected(cards, false)) == []
  {
    FilterAll(SetAllSelected(cards, true), IsSelected);
    FilterNone(SetAllSelected(cards, false), IsSelected);
  }

  /** The edits never set more than one editing flag, nor change ids. */
  lemma UpdatesKeepInvariant(cards: seq<Card>, id: string, newContent: string, selected: bool)
    requires DistinctIds(cards) && AtMostOneEditing(cards)
    ensures DistinctIds(Toggle(cards, id)) && AtMostOneEditing(Toggle(cards, id))
    ensures DistinctIds(Save(cards, id, newContent)) && AtMostOneEditing(Save(cards, id, newContent))
    ensures DistinctIds(Cancel(cards, id)) && AtMostOneEditing(Cancel(cards, id))
    ensures DistinctIds(SetAllSelected(cards, selected)) && AtMostOneEditing(SetAllSelected(cards, selected))
  {
  }

  /** The check of `handleGenerateTweets`: some card must be selected; the
      selected insights are what generation receives. */
  function CheckGenerate(cards: seq<Card>): (r: Result<seq<Insight>, WizardError>)
    ensures r.Err? <==> forall c :: c in cards ==> !c.isSelected
    ensures r.Err? ==> r.error == NoneSelected
    ensures r.Ok? ==> |r.value| == |Selected(cards)| > 0
    ensures r.Ok? ==> forall i :: 0 <= i < |r.value| ==> r.value[i] == Selected(cards)[i].insight
  {
    var selected := Selected(cards);
    if |selected| == 0 then Err(NoneSelected)
    else
      assert selected[0] in selected;
      Ok(seq(|selected|, i requires 0 <= i < |selected| => selected[i].insight))
  }

  /** Generation after Deselect All is refused; after Select All it gets
      every insight. */
  lemma GenerateAfterSelectAll(cards: seq<Card>)
    ensures CheckGenerate(SetAllSelected(cards, false)) == Err(NoneSelected)
    ensures |cards| > 0 ==> CheckGenerate(SetAllSelected(cards, true)).Ok?
    ensures |cards| > 0 ==> |CheckGenerate(SetAllSelected(cards, true)).value| == |cards|
  {
    SetAllSelectedCount(cards);
    if |cards| > 0 {
      assert SetAllSelected(cards, true)[0] in SetAllSelected(cards, true);
    }
  }
}
