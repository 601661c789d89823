/** The manual-entry form for a new time block: a title, an hours field and
    a minutes field (each a number or blank), and a tag selection. Submitting
    adds one unscheduled block when the trimmed title is non-empty and the
    total number of minutes is positive. */
module TimeBlockForm {
  import opened JsText
  import opened Seqs
  import opened TimeBlockContext

  /** The `number | ''` value of a numeric field. */
  datatype FieldValue = Blank | Entered(n: JsNum)

  /** `e.target.value === '' ? '' : parseInt(e.target.value)`. */
  function FieldOf(raw: string): FieldValue {
    if raw == "" then Blank else Entered(ParseInt(raw))
  }

  /** What a field contributes to the total: its number, or 0 when blank. */
  function FieldNumber(f: FieldValue): JsNum {
    if f.Entered? then f.n else Num(0)
  }

  /** `(typeof hours === 'number' ? hours * 60 : 0) +
      (typeof minutes === 'number' ? minutes : 0)`. */
  function TotalMinutes(hours: FieldValue, minutes: FieldValue): JsNum {
    NumAdd(if hours.Entered? then NumScale(hours.n, 60) else Num(0),
           if minutes.Entered? then minutes.n else Num(0))
  }

  /** The total is 60 times the hours plus the minutes, a blank field
      counting as 0; a field that is not a number makes it NaN. */
  lemma TotalMinutesMeaning(hours: FieldValue, minutes: FieldValue)
    ensures TotalMinutes(hours, minutes).Num? <==> FieldNumber(hours).Num? && FieldNumber(minutes).Num?
    ensures TotalMinutes(hours, minutes).Num? ==>
      TotalMinutes(hours, minutes).v == FieldNumber(hours).v * 60 + FieldNumber(minutes).v
    ensures TotalMinutes(Blank, Blank) == Num(0)
  {
    var a := if hours.Entered? then NumScale(hours.n, 60) else Num(0);
    var b := FieldNumber(minutes);
    assert a.Num? <==> FieldNumber(hours).Num?;
    assert a.Num? ==> a.v == FieldNumber(hours).v * 60;
    assert TotalMinutes(hours, minutes) == NumAdd(a, b);
  }

  /** `title.trim() && totalMinutes > 0`. */
  predicate Accepts(title: string, total: JsNum) {
    Trim(title) != "" && total.Num? && total.v > 0
  }

  /** An entry is accepted exactly when its title holds a character that is
      not white space and its total is a positive number. */
  lemma AcceptsIff(title: string, total: JsNum)
    ensures Accepts(title, total) <==> !AllWhitespace(title) && total.Num? && total.v > 0
  {
    TrimEmptyIff(title);
  }

  /** What `handleSubmit` hands to `addTimeBlock`: the trimmed title, the
      total, the selected tags and today's date, and no start time. */
  function SubmittedDraft(title: string, total: int, tagIds: seq<string>, today: string): BlockDraft {
    BlockDraft(Trim(title), total, None, Some(today), tagIds, None, false)
  }

  /** The block a submit stores carries the trimmed title and the total,
      and lands unscheduled and unlocked; the date the form passed is
      dropped by the store, so the block has none. */
  lemma SubmittedBlock(title: string, total: int, tagIds: seq<string>, today: string, id: string)
    ensures var b := NewBlock(SubmittedDraft(title, total, tagIds, today), id, today);
      b.id == id && b.title == Trim(title) && b.duration == total && b.tagIds == tagIds &&
      b.startTime == None && b.date == None && b.color == None && !b.locked
  {
  }

  /** The minutes field after an input: it takes the parsed value only
      when that is an integer in 0..59. */
  function MinutesAfterInput(current: FieldValue, raw: string): FieldValue {
    var v := FieldOf(raw);
    if v.Entered? && v.n.Num? && 0 <= v.n.v < 60 then v else current
  }

  /** The minutes field changes only to an integer in 0..59: blank or
      out-of-range input leaves it alone, and every minute of the hour typed
      as a decimal is taken. */
  lemma MinutesGuard(current: FieldValue, raw: string, typed: nat)
    ensures var r := MinutesAfterInput(current, raw);
      r == current || (r == FieldOf(raw) && r.Entered? && r.n.Num? && 0 <= r.n.v < 60)
    ensures raw == "" ==> MinutesAfterInput(current, raw) == current
    ensures typed < 60 ==> MinutesAfterInput(current, NatToDecimal(typed)) == Entered(Num(typed))
    ensures typed >= 60 ==> MinutesAfterInput(current, NatToDecimal(typed)) == current
  {
    ParseFloatDecimal(typed);
  }

  /** The form's fields. */
  class Form {
    const store: TimeBlockStore
    var title: string
    var hours: FieldValue
    var minutes: FieldValue
    var selectedTags: seq<string>
    var isFormOpen: bool

    /** The minutes field always holds a whole number of minutes below 60. */
    ghost predicate Valid()
      reads this
    {
      minutes.Entered? && minutes.n.Num? && 0 <= minutes.n.v < 60
    }

    constructor (store: TimeBlockStore)
      ensures this.store == store
      ensures title == "" && hours == Entered(Num(0)) && minutes == Entered(Num(0))
      ensures selectedTags == [] && !isFormOpen
      ensures Valid()
    {
      this.store := store;
      title := "";
      hours := Entered(Num(0));
      minutes := Entered(Num(0));
      selectedTags := [];
      isFormOpen := false;
    }

    method SetTitle(text: string)
      modifies this
      ensures title == text
      ensures hours == old(hours) && minutes == old(minutes)
      ensures selectedTags == old(selectedTags) && isFormOpen == old(isFormOpen)
    {
      title := text;
    }

    /** The open button and the close button. */
    method SetFormOpen(open: bool)
      modifies this
      ensures isFormOpen == open
      ensures title == old(title) && hours == old(hours) && minutes == old(minutes)
      ensures selectedTags == old(selectedTags)
    {
      isFormOpen := open;
    }

    /** `handleHoursChange`: any input is taken, NaN included. */
    method HandleHoursChange(raw: string)
      modifies this
      ensures hours == FieldOf(raw)
      ensures title == old(title) && minutes == old(minutes)
      ensures selectedTags == old(selectedTags) && isFormOpen == old(isFormOpen)
    {
      hours := FieldOf(raw);
    }

    /** `handleMinutesChange`. */
    method HandleMinutesChange(raw: string)
      modifies this
      ensures minutes == MinutesAfterInput(old(minutes), raw)
      ensures old(Valid()) ==> Valid()
      ensures title == old(title) && hours == old(hours)
      ensures selectedTags == old(selectedTags) && isFormOpen == old(isFormOpen)
    {
      var value := FieldOf(raw);
      if value.Entered? && value.n.Num? && 0 <= value.n.v < 60 {
        minutes := value;
      }
    }

    /** `toggleTag`. */
    method ToggleTag(tagId: string)
      modifies this
      ensures selectedTags == Toggle(old(selectedTags), tagId)
      ensures title == old(title) && hours == old(hours) && minutes == old(minutes)
      ensures isFormOpen == old(isFormOpen)
    {
      selectedTags := Toggle(selectedTags, tagId);
    }

    /** `handleSubmit`, with the new block's id and today's date as
        parameters: on an accepted entry, one block is appended and the form
        resets and closes; otherwise nothing changes. */
    method HandleSubmit(id: string, today: string)
      modifies this, store
      ensures var total := TotalMinutes(old(hours), old(minutes));
        if Accepts(old(title), total) then
          store.timeBlocks == old(store.timeBlocks) + [NewBlock(SubmittedDraft(old(title), total.v, old(selectedTags), today), id, today)] &&
          title == "" && hours == Entered(Num(0)) && minutes == Entered(Num(0)) &&
          selectedTags == [] && !isFormOpen
        else
          store.timeBlocks == old(store.timeBlocks) &&
          title == old(title) && hours == old(hours) && minutes == old(minutes) &&
          selectedTags == old(selectedTags) && isFormOpen == old(isFormOpen)
      ensures store.tags == old(store.tags)
      ensures old(Valid()) ==> Valid()
    {
      var total := TotalMinutes(hours, minutes);
      if Accepts(title, total) {
        var _ := store.AddTimeBlock(SubmittedDraft(title, total.v, selectedTags, today), id, today);
        title := "";
        hours := Entered(Num(0));
        minutes := Entered(Num(0));
        selectedTags := [];
        isFormOpen := false;
      }
    }
  }
}
