/** The minimum-frequency input (src/components/PercentageFilter.tsx): the
    text box, what each keystroke and each blur hands to the parent, and the
    text shown when the parent's value changes. `parseFloat` is the
    parameter `parse` (`None` for NaN) and `Number.toString` is `show`. */
module PercentageFilter {
  import opened Wrappers

  /** A call of `onPercentageChange`, or none. */
  datatype Emission = Silent | Emit(value: Option<real>)

  /** The text after a handler and what it handed to the parent. */
  datatype Step = Step(text: string, emitted: Emission)

  predicate InRange(v: real) {
    0.0 <= v <= 100.0
  }

  /** Nothing, `undefined`, or a percentage between 0 and 100. */
  predicate Acceptable(e: Emission) {
    e.Silent? || e.value.None? || InRange(e.value.value)
  }

  /** `handleInputChange(value)`: the text always follows the keystroke;
      empty or unparsable text clears the filter, a value in range is
      passed on, and a value out of range is held back. */
  function InputChange(value: string, parse: string -> Option<real>): (r: Step)
    ensures r.text == value
    ensures Acceptable(r.emitted)
    ensures value == "" || parse(value).None? ==> r.emitted == Emit(None)
    ensures value != "" && parse(value).Some? && InRange(parse(value).value) ==> r.emitted == Emit(parse(value))
    ensures value != "" && parse(value).Some? && !InRange(parse(value).value) ==> r.emitted == Silent
  {
    var n := parse(value);
    if value == "" || n.None? then Step(value, Emit(None))
    else if n.value >= 0.0 && n.value <= 100.0 then Step(value, Emit(Some(n.value)))
    else Step(value, Silent)
  }

  /** `handleBlur()`: text that is not a number or is negative is cleared,
      text above 100 becomes "100", and anything else is left alone. */
  function Blur(text: string, parse: string -> Option<real>): (r: Step)
    ensures Acceptable(r.emitted)
    ensures parse(text).None? || parse(text).value < 0.0 ==> r == Step("", Emit(None))
    ensures parse(text).Some? && parse(text).value > 100.0 ==> r == Step("100", Emit(Some(100.0)))
    ensures parse(text).Some? && InRange(parse(text).value) ==> r == Step(text, Silent)
  {
    var n := parse(text);
    if n.None? || n.value < 0.0 then Step("", Emit(None))
    else if n.value > 100.0 then Step("100", Emit(Some(100.0)))
    else Step(text, Silent)
  }

  /** The effect on `minPercentage`: the prop's string, or "" when it is undefined. */
  function SyncFromProp(prop: Option<real>, show: real -> string): (text: string)
    ensures prop.None? ==> text == ""
    ensures prop.Some? ==> text == show(prop.value)
  {
    match prop
    case None => ""
    case Some(p) => show(p)
  }

  /** What `parseFloat` does on the two strings the blur handler writes. */
  predicate ParsesOwnOutput(parse: string -> Option<real>) {
    parse("").None? && parse("100") == Some(100.0)
  }

  /** A second blur finds nothing to correct. */
  lemma BlurSettles(text: string, parse: string -> Option<real>)
    requires ParsesOwnOutput(parse)
    ensures Blur(Blur(text, parse).text, parse) == Step(Blur(text, parse).text, Silent)
      || Blur(Blur(text, parse).text, parse) == Step("", Emit(None))
    ensures Blur(text, parse).text != "" ==>
      Blur(Blur(text, parse).text, parse) == Step(Blur(text, parse).text, Silent)
  {
  }

  /** Typing and then leaving the box agree: a value passed on while typing
      is left alone on blur, a value held back above 100 is clamped, and
      text that cleared the filter is erased. */
  lemma TypingThenBlur(value: string, parse: string -> Option<real>)
    requires ParsesOwnOutput(parse)
    ensures InputChange(value, parse).emitted.Emit? && InputChange(value, parse).emitted.value.Some? ==>
      Blur(InputChange(value, parse).text, parse) == Step(value, Silent)
    ensures InputChange(value, parse).emitted == Emit(None) ==>
      Blur(InputChange(value, parse).text, parse) == Step("", Emit(None))
    ensures InputChange(value, parse).emitted == Silent && parse(value).value > 100.0 ==>
      Blur(InputChange(value, parse).text, parse) == Step("100", Emit(Some(100.0)))
  {
  }

  /** Showing a prop in range and then blurring emits nothing, when the
      number reads back as itself. */
  lemma SyncThenBlurSilent(p: real, parse: string -> Option<real>, show: real -> string)
    requires InRange(p) && parse(show(p)) == Some(p)
    ensures Blur(SyncFromProp(Some(p), show), parse) == Step(show(p), Silent)
  {
  }

  /** The component's inputs, in the order they arrive. */
  datatype Event = Typed(value: string) | Blurred | PropChanged(prop: Option<real>)

  /** The text and every call made to the parent over a run of events. */
  function Run(text: string, events: seq<Event>, parse: string -> Option<real>, show: real -> string): (r: (string, seq<Emission>))
    ensures |r.1| == |events|
    decreases |events|
  {
    if events == [] then (text, [])
    else
      var step := match events[0]
        case Typed(v) => InputChange(v, parse)
        case Blurred => Blur(text, parse)
        case PropChanged(p) => Step(SyncFromProp(p, show), Silent);
      var rest := Run(step.text, events[1..], parse, show);
      (rest.0, [step.emitted] + rest.1)
  }

  /** Whatever the user types and however often the prop changes, the
      parent only ever receives `undefined` or a percentage in [0, 100]. */
  lemma {:induction false} RunEmitsAcceptable(text: string, events: seq<Event>, parse: string -> Option<real>, show: real -> string)
    ensures forall i :: 0 <= i < |events| ==> Acceptable(Run(text, events, parse, show).1[i])
    decreases |events|
  {
    if events != [] {
      var step := match events[0]
        case Typed(v) => InputChange(v, parse)
        case Blurred => Blur(text, parse)
        case PropChanged(p) => Step(SyncFromProp(p, show), Silent);
      RunEmitsAcceptable(step.text, events[1..], parse, show);
      var r := Run(text, events, parse, show);
      assert r.1 == [step.emitted] + Run(step.text, events[1..], parse, show).1;
      forall i | 0 <= i < |events| ensures Acceptable(r.1[i]) {
        if i > 0 {
          assert r.1[i] == Run(step.text, events[1..], parse, show).1[i - 1];
        }
      }
    }
  }
}
