/** An editable number cell of the dashboard (`createEditableCell`) with its optimistic
    update and rollback.

    The cell keeps its raw value in `td.dataset.value`, which stores a string: a number is
    stored as its numeral and null as the text "null". The strings the cell handles are
    modelled by what the number conversions make of them. */
module EditCell {
  import opened Json

  /** A string held by `dataset.value` or by the number input. */
  datatype Raw = EmptyText | NullText | Numeral(x: real)

  /** The cell's text: '-', a formatted number, "NaN", or nothing (the input is shown). */
  datatype Text = Dash | Number(x: real) | NaNText | Blank

  /** The value handed to the save call. */
  datatype Sent = SentNumber(x: real) | SentNaN | SentNull

  /** `td.dataset.value = value`: the value converted to a string. */
  function Stored(value: Option<real>): Raw
  {
    if value.Some? then Numeral(value.value) else NullText
  }

  /** `formatNumber` of a number or null. */
  function FormatValue(value: Option<real>): Text
  {
    if value.Some? then Number(value.value) else Dash
  }

  /** `parseFloat` of a string; None is NaN. */
  function ParseFloat(r: Raw): Option<real>
  {
    if r.Numeral? then Some(r.x) else None
  }

  /** `formatNumber(parseFloat(s))`. */
  function FormatParsed(p: Option<real>): Text
  {
    if p.Some? then Number(p.value) else NaNText
  }

  /** `formatNumber` of a stored string: the number formatter converts it, so the empty
      string reads as 0 and "null" as NaN. */
  function FormatRaw(r: Raw): Text
  {
    match r
    case EmptyText => Number(0.0)
    case NullText => NaNText
    case Numeral(x) => Number(x)
  }

  /** Truthiness of a stored string: only the empty string is falsy. */
  predicate RawTruthy(r: Raw)
  {
    r != EmptyText
  }

  /** Assigning a string to a number input: a string that is not a number becomes empty. */
  function InputFor(r: Raw): Raw
  {
    if r.Numeral? then r else EmptyText
  }

  /** The cell: the `td-editing` flag, `dataset.value`, the text, the input's value and the
      original value the double-click handler captured. */
  datatype Cell = Cell(editing: bool, stored: Raw, text: Text, input: Raw, original: Raw)

  /** A cell's state after an event, and the save call the event made, if any. */
  datatype CellStep = CellStep(next: Cell, call: Option<Sent>)

  function NewCell(value: Option<real>): Cell
  {
    Cell(false, Stored(value), FormatValue(value), EmptyText, Stored(value))
  }

  /** Double-click: start editing, unless already editing. */
  function DoubleClick(c: Cell): (d: Cell)
    ensures c.editing ==> d == c
    ensures !c.editing ==> d == Cell(true, c.stored, Blank, InputFor(c.stored), c.stored)
  {
    if c.editing then c else Cell(true, c.stored, Blank, InputFor(c.stored), c.stored)
  }

  /** The user types into the input. */
  function TypeInput(c: Cell, r: Raw): Cell
    requires c.editing
  {
    c.(input := r)
  }

  /** Escape: restore the original text; the stored value is not touched. */
  function Escape(c: Cell): (d: Cell)
    requires c.editing
    ensures !d.editing && d.stored == c.stored && d.text == FormatRaw(c.original)
  {
    c.(editing := false, text := FormatRaw(c.original))
  }

  /** The state after a save call's failure: text and stored value back to the original. */
  function Revert(c: Cell): (d: Cell)
    ensures d.stored == c.original && d.text == FormatRaw(c.original) && d.editing == c.editing
  {
    c.(text := FormatRaw(c.original), stored := c.original)
  }

  /** Enter: optimistic update, then the save call; on failure, revert. */
  function Enter(c: Cell, saved: bool): (r: CellStep)
    requires c.editing
    ensures !r.next.editing
    ensures r.call == Some(if ParseFloat(c.input).Some? then SentNumber(ParseFloat(c.input).value) else SentNaN)
    ensures saved ==> r.next.stored == c.input && r.next.text == FormatParsed(ParseFloat(c.input))
    ensures !saved ==> r.next.stored == c.original && r.next.text == FormatRaw(c.original)
  {
    var optimistic := c.(editing := false, text := FormatParsed(ParseFloat(c.input)), stored := c.input);
    var sent := if ParseFloat(c.input).Some? then SentNumber(ParseFloat(c.input).value) else SentNaN;
    CellStep(if saved then optimistic else Revert(optimistic), Some(sent))
  }

  /** The blur handler's test for "nothing changed". NaN equals nothing, not even NaN. */
  predicate Unchanged(input: Raw, original: Raw)
  {
    (ParseFloat(input).Some? && ParseFloat(input) == ParseFloat(original))
    || (input == EmptyText && !RawTruthy(original))
  }

  /** Blur: if still editing, either give up without a call (nothing changed) or save like
      Enter, with an empty input sent as null. */
  function Blur(c: Cell, saved: bool): (r: CellStep)
    ensures !c.editing ==> r == CellStep(c, None)
    ensures c.editing ==> !r.next.editing
    ensures c.editing ==> (r.call.None? <==> Unchanged(c.input, c.original))
    ensures c.editing && Unchanged(c.input, c.original) ==> r.next.stored == c.stored && r.next.text == FormatRaw(c.original)
    ensures c.editing && !Unchanged(c.input, c.original) ==>
      r.call == Some(if c.input == EmptyText then SentNull
                     else if ParseFloat(c.input).Some? then SentNumber(ParseFloat(c.input).value) else SentNaN)
    ensures c.editing && !Unchanged(c.input, c.original) && saved ==>
      r.next.stored == c.input && r.next.text == (if c.input == EmptyText then Dash else FormatParsed(ParseFloat(c.input)))
    ensures c.editing && !Unchanged(c.input, c.original) && !saved ==>
      r.next.stored == c.original && r.next.text == FormatRaw(c.original)
  {
    if !c.editing then CellStep(c, None)
    else if Unchanged(c.input, c.original) then
      CellStep(c.(editing := false, text := FormatRaw(c.original)), None)
    else
      var text := if c.input == EmptyText then Dash else FormatParsed(ParseFloat(c.input));
      var optimistic := c.(editing := false, text := text, stored := c.input);
      var sent := if c.input == EmptyText then SentNull
                  else if ParseFloat(c.input).Some? then SentNumber(ParseFloat(c.input).value) else SentNaN;
      CellStep(if saved then optimistic else Revert(optimistic), Some(sent))
  }

  // ---------------------------------------------------------------------------
  // Properties

  /** The text agrees with the stored value: true of a cell made from a number, false of one
      made from null (its text is '-' but "null" formats as NaN). */
  predicate InSync(c: Cell)
  {
    c.text == FormatRaw(c.stored)
  }

  lemma NewCellSync(value: Option<real>)
    ensures InSync(NewCell(value)) <==> value.Some?
  {
  }

  /** The visible part of a cell: editing flag, stored value and text. */
  predicate SameView(a: Cell, b: Cell)
  {
    a.editing == b.editing && a.stored == b.stored && a.text == b.text
  }

  /** Escape after any typing gives back exactly what an in-sync cell showed before the edit. */
  lemma EscapeRestores(c: Cell, typed: Raw)
    requires !c.editing && InSync(c)
    ensures SameView(Escape(TypeInput(DoubleClick(c), typed)), c)
  {
  }

  /** A failed save, by Enter or by blur, gives back exactly what an in-sync cell showed
      before the edit. */
  lemma FailedSaveRollsBack(c: Cell, typed: Raw)
    requires !c.editing && InSync(c)
    ensures SameView(Enter(TypeInput(DoubleClick(c), typed), false).next, c)
    ensures SameView(Blur(TypeInput(DoubleClick(c), typed), false).next, c)
  {
  }

  /** A blur with the value left as it was makes no save call, for a cell holding a number. */
  lemma UntouchedNumberBlurMakesNoCall(x: real, saved: bool)
    ensures var c := DoubleClick(NewCell(Some(x)));
      Blur(c, saved) == CellStep(NewCell(Some(x)).(input := Numeral(x)), None)
  {
  }

  /** For a cell made from null the stored "null" defeats both guards: Escape shows NaN instead
      of '-', and a blur with the input left empty sends null to the data service. */
  lemma NullCellQuirks(saved: bool)
    ensures Escape(DoubleClick(NewCell(None))).text == NaNText
    ensures NewCell(None).text == Dash
    ensures Blur(DoubleClick(NewCell(None)), saved).call == Some(SentNull)
  {
  }

  // ---------------------------------------------------------------------------
  // The cell as the mutable object the handlers update

  class EditableCell {
    var editing: bool
    var stored: Raw
    var text: Text
    var input: Raw
    var original: Raw

    function State(): Cell
      reads this
    {
      Cell(editing, stored, text, input, original)
    }

    constructor(value: Option<real>)
      ensures State() == NewCell(value)
    {
      editing := false;
      text := FormatValue(value);
      stored := Stored(value);
      input := EmptyText;
      original := Stored(value);
    }

    method OnDoubleClick()
      modifies this
      ensures State() == DoubleClick(old(State()))
    {
      if editing {
        return;
      }
      original := stored;
      editing := true;
      text := Blank;
      input := InputFor(original);
    }

    method OnType(r: Raw)
      requires editing
      modifies this
      ensures State() == TypeInput(old(State()), r)
    {
      input := r;
    }

    method OnEscape()
      requires editing
      modifies this
      ensures State() == Escape(old(State()))
    {
      editing := false;
      text := FormatRaw(original);
    }

    /** `saved`: whether the save call succeeds. */
    method OnEnter(saved: bool) returns (call: Option<Sent>)
      requires editing
      modifies this
      ensures CellStep(State(), call) == Enter(old(State()), saved)
    {
      var newValue := input;
      editing := false;
      text := FormatParsed(ParseFloat(newValue));
      stored := newValue;
      call := Some(if ParseFloat(newValue).Some? then SentNumber(ParseFloat(newValue).value) else SentNaN);
      if !saved {
        text := FormatRaw(original);
        stored := original;
      }
    }

    method OnBlur(saved: bool) returns (call: Option<Sent>)
      modifies this
      ensures CellStep(State(), call) == Blur(old(State()), saved)
    {
      if !editing {
        return None;
      }
      var newValue := input;
      if (ParseFloat(newValue).Some? && ParseFloat(newValue) == ParseFloat(original))
         || (newValue == EmptyText && !RawTruthy(original)) {
        editing := false;
        text := FormatRaw(original);
        return None;
      }
      editing := false;
      if newValue == EmptyText {
        text := Dash;
      } else {
        text := FormatParsed(ParseFloat(newValue));
      }
      stored := newValue;
      call := Some(if newValue == EmptyText then SentNull
                   else if ParseFloat(newValue).Some? then SentNumber(ParseFloat(newValue).value) else SentNaN);
      if !saved {
        text := FormatRaw(original);
        stored := original;
      }
    }
  }
}
