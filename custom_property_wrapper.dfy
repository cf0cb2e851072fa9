/** The `@Trimmed` property wrapper: it stores the raw string it is given and hands it back
    with leading and trailing whitespace and newlines removed. */
module CustomPropertyWrapper {
  import opened Foundation

  class Trimmed {
    /** The stored, untrimmed string. */
    var value: string

    /** `init(wrappedValue:)` stores the initial string as it is. */
    constructor (wrappedValue: string)
      ensures value == wrappedValue
    {
      value := wrappedValue;
    }

    /** The `wrappedValue` getter: the stored string, trimmed. The result is a contiguous
        piece of `value` (interior whitespace kept) with no whitespace or newline at
        either end, and only whitespace and newlines are cut off around it. */
    function WrappedValue(): (r: string)
      reads this
      ensures IsTrimOf(r, value, WhitespacesAndNewlines)
      ensures r == [] || (r[0] !in WhitespacesAndNewlines && r[|r| - 1] !in WhitespacesAndNewlines)
      ensures |r| <= |value|
    {
      TrimmingCharacters(value, WhitespacesAndNewlines)
    }

    /** The `wrappedValue` setter: the new string is stored untrimmed. */
    method SetWrappedValue(newValue: string)
      modifies this
      ensures value == newValue
    {
      value := newValue;
    }
  }

  /** Writing back what was read and reading again gives the same string. */
  method WriteBackRead(t: Trimmed) returns (again: string)
    modifies t
    ensures again == old(t.WrappedValue())
    ensures t.value == old(t.WrappedValue())
  {
    var read := t.WrappedValue();
    t.SetWrappedValue(read);
    TrimIdempotent(read, WhitespacesAndNewlines);
    again := t.WrappedValue();
  }

  /** The view's `@Trimmed var name = "   John Doe   "` reads as "John Doe". */
  method NameOfCustomPropertyWrapper() returns (name: string)
    ensures name == "John Doe"
  {
    var wrapper := new Trimmed("   John Doe   ");
    assert "   John Doe   " == "   " + "John Doe" + "   ";
    TrimStripsPadding("   ", "John Doe", "   ", WhitespacesAndNewlines);
    name := wrapper.WrappedValue();
  }
}
